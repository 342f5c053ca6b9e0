/** An algorithm value: a registered prototype or a fresh instance made from it.
    Its settings change in place through the setters. */
module Algorithms {
  import opened CompressTypes
  import opened Streams
  import opened Options

  class Algorithm {
    const desc: Descriptor
    var settings: Settings

    /** A default-configured algorithm, as a concrete algorithm module builds its prototype. */
    constructor (d: Descriptor)
      ensures desc == d && settings == d.defaults
    {
      desc := d;
      settings := d.defaults;
    }

    /** A fresh, default-configured instance of the same algorithm; the receiver is untouched. */
    method NewAlgorithm() returns (a: Algorithm)
      ensures fresh(a) && a.desc == desc && a.settings == desc.defaults
    {
      a := new Algorithm(desc);
    }

    /** SetLevel: stores the level if this algorithm has a level it accepts it for. */
    method SetLevel(level: Level) returns (err: Status)
      modifies this
      ensures match Set(desc, old(settings), LevelKind, level)
              case Success(s) => err == Ok && settings == s
              case Failure(e) => err == Err(e) && settings == old(settings)
    {
      match desc.level
      case Unsupported =>
        err := Err(UnsupportedOption(desc.name, LevelKind));
      case Range(lo, hi) =>
        if lo <= level <= hi {
          settings := settings.(level := level);
          err := Ok;
        } else {
          err := Err(InvalidOption(desc.name, LevelKind, level));
        }
    }

    /** SetLitWidth: stores the literal code width if this algorithm accepts it. */
    method SetLitWidth(width: int) returns (err: Status)
      modifies this
      ensures match Set(desc, old(settings), LitWidthKind, width)
              case Success(s) => err == Ok && settings == s
              case Failure(e) => err == Err(e) && settings == old(settings)
    {
      match desc.litWidth
      case Unsupported =>
        err := Err(UnsupportedOption(desc.name, LitWidthKind));
      case Range(lo, hi) =>
        if lo <= width <= hi {
          settings := settings.(litWidth := width);
          err := Ok;
        } else {
          err := Err(InvalidOption(desc.name, LitWidthKind, width));
        }
    }

    /** SetEndian: stores the byte order if this algorithm accepts it. */
    method SetEndian(endian: Endian) returns (err: Status)
      modifies this
      ensures match Set(desc, old(settings), EndianKind, endian)
              case Success(s) => err == Ok && settings == s
              case Failure(e) => err == Err(e) && settings == old(settings)
    {
      match desc.endian
      case Unsupported =>
        err := Err(UnsupportedOption(desc.name, EndianKind));
      case Range(lo, hi) =>
        if lo <= endian <= hi {
          settings := settings.(endian := endian);
          err := Ok;
        } else {
          err := Err(InvalidOption(desc.name, EndianKind, endian));
        }
    }

    /** Runs option `o` on this algorithm: WithLevel calls SetLevel, WithLitWidth calls
        SetLitWidth and WithEndian calls SetEndian, each with the option's value, and the
        setter's error is returned unchanged. */
    method Apply(o: Option) returns (err: Status)
      modifies this
      ensures match ApplyOption(desc, old(settings), o)
              case Success(s) => err == Ok && settings == s
              case Failure(e) => err == Err(e) && settings == old(settings)
    {
      match o
      case WithLevel(level) =>
        err := SetLevel(level);
      case WithLitWidth(width) =>
        err := SetLitWidth(width);
      case WithEndian(endian) =>
        err := SetEndian(endian);
    }

    /** Builds a stream encoder that writes into `w`; fails when the codec rejects the settings. */
    method NewEncoder(w: Buffer) returns (r: Result<Encoder>)
      ensures desc.codec.openEncoder(settings).Err? ==> r == Failure(desc.codec.openEncoder(settings).error)
      ensures desc.codec.openEncoder(settings) == Ok ==>
        r.Success? && fresh(r.value) && r.value.sink == w &&
        r.value.codec == desc.codec && r.value.settings == settings &&
        r.value.consumed == [] && !r.value.closed
    {
      match desc.codec.openEncoder(settings)
      case Err(e) =>
        r := Failure(e);
      case Ok =>
        var e := new Encoder(desc.codec, settings, w);
        r := Success(e);
    }

    /** Builds a stream decoder reading `src`; fails when the codec rejects the source. */
    method NewDecoder(src: seq<Byte>) returns (r: Result<Decoder>)
      ensures desc.codec.openDecoder(settings, src).Err? ==>
        r == Failure(desc.codec.openDecoder(settings, src).error)
      ensures desc.codec.openDecoder(settings, src) == Ok ==>
        r.Success? && fresh(r.value) && r.value.source == src &&
        r.value.codec == desc.codec && r.value.settings == settings &&
        (r.value.pending, r.value.final) == desc.codec.decode(settings, src) && !r.value.closed
    {
      match desc.codec.openDecoder(settings, src)
      case Err(e) =>
        r := Failure(e);
      case Ok =>
        var d := new Decoder(desc.codec, settings, src);
        r := Success(d);
    }
  }
}
