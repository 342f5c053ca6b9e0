/** Shared vocabulary of the compression facade: bytes, the tuning constants,
    the option kinds, the error values and the settings an algorithm instance holds. */
module CompressTypes {

  type Byte = bv8

  /** Compression level. Any integer is a Level; the named ones are the facade's constants. */
  type Level = int

  const NoCompression: Level := 0
  const BestSpeed: Level := 1
  const BestCompression: Level := 9
  const DefaultCompression: Level := -1
  const HuffmanOnly: Level := -2

  /** Byte order used by codecs that pack codes into bytes. Any integer is an Endian. */
  type Endian = int

  const Little: Endian := 0
  const Big: Endian := 1

  /** The three tunables an algorithm may or may not support. */
  datatype OptionKind = LevelKind | LitWidthKind | EndianKind

  /** Errors surfaced by the facade or passed through from a codec. */
  datatype Error =
    | NotRegistered(name: string)
    | UnsupportedOption(algorithm: string, option: OptionKind)
    | InvalidOption(algorithm: string, option: OptionKind, value: int)
    | CodecFailure(detail: string)

  /** A Go `error` return: nil (Ok) or an error. */
  datatype Status = Ok | Err(error: Error)

  /** A Go `(T, error)` return: a value and a nil error, or an error alone. */
  datatype Result<+T> = Success(value: T) | Failure(error: Error)

  /** The current value of every tunable of an algorithm instance. */
  datatype Settings = Settings(level: Level, litWidth: int, endian: Endian) {

    function Get(k: OptionKind): int
    {
      match k
      case LevelKind => level
      case LitWidthKind => litWidth
      case EndianKind => endian
    }

    /** The settings with tunable `k` changed to `v` and every other tunable kept. */
    function Put(k: OptionKind, v: int): (r: Settings)
      ensures r.Get(k) == v
      ensures forall k' :: k' != k ==> r.Get(k') == Get(k')
    {
      match k
      case LevelKind => this.(level := v)
      case LitWidthKind => this.(litWidth := v)
      case EndianKind => this.(endian := v)
    }
  }
}
