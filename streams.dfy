/** The stream side of an algorithm: an abstract codec, the in-memory buffer the
    one-shot calls use, and the stream encoder and decoder bound to them.
    What a codec emits is not modelled; it is a parameter (a `Codec` record). */
module Streams {
  import opened CompressTypes

  /** What a concrete codec does, as pure functions of the instance's settings.
      - openEncoder: whether an encoder can be built with these settings;
      - encodeWrite(s, consumed, v): the bytes emitted when `v` is written after `consumed`;
      - encodeClose(s, consumed): the trailing bytes emitted when the encoder is closed;
      - openDecoder(s, src): whether a decoder can be built over `src`;
      - decode(s, src): the bytes the decoder yields from `src`, and what it reports after them;
      - closeDecoder(s, src): what closing the decoder reports. */
  datatype Codec = Codec(
    openEncoder: Settings -> Status,
    encodeWrite: (Settings, seq<Byte>, seq<Byte>) -> Result<seq<Byte>>,
    encodeClose: (Settings, seq<Byte>) -> Result<seq<Byte>>,
    openDecoder: (Settings, seq<Byte>) -> Status,
    decode: (Settings, seq<Byte>) -> (seq<Byte>, Status),
    closeDecoder: (Settings, seq<Byte>) -> Status)

  /** The chunk size Copy reads with. */
  const CopyBufferSize: nat := 32 * 1024

  /** A growable in-memory byte buffer (bytes.Buffer). */
  class Buffer {
    var data: seq<Byte>

    constructor ()
      ensures data == []
    {
      data := [];
    }

    function Bytes(): (b: seq<Byte>)
      reads this
    {
      data
    }

    method Write(p: seq<Byte>)
      modifies this
      ensures data == old(data) + p
    {
      data := data + p;
    }
  }

  /** A stream encoder writing its output into `sink`. */
  class Encoder {
    const codec: Codec
    const settings: Settings
    const sink: Buffer
    var consumed: seq<Byte>
    var closed: bool

    constructor (codec: Codec, settings: Settings, sink: Buffer)
      ensures this.codec == codec && this.settings == settings && this.sink == sink
      ensures consumed == [] && !closed
    {
      this.codec := codec;
      this.settings := settings;
      this.sink := sink;
      consumed := [];
      closed := false;
    }

    /** Writes `v`: on success all of it is consumed and the codec's output lands in the sink;
        on failure nothing is consumed or emitted. */
    method Write(v: seq<Byte>) returns (n: nat, err: Status)
      requires !closed
      modifies this, sink
      ensures !closed
      ensures match codec.encodeWrite(settings, old(consumed), v)
              case Success(out) =>
                err == Ok && n == |v| && consumed == old(consumed) + v && sink.data == old(sink.data) + out
              case Failure(e) =>
                err == Err(e) && n == 0 && consumed == old(consumed) && sink.data == old(sink.data)
    {
      match codec.encodeWrite(settings, consumed, v)
      case Success(out) =>
        sink.Write(out);
        consumed := consumed + v;
        n, err := |v|, Ok;
      case Failure(e) =>
        n, err := 0, Err(e);
    }

    /** Finalises the stream: the codec's trailer lands in the sink unless the codec fails. */
    method Close() returns (err: Status)
      requires !closed
      modifies this, sink
      ensures closed && consumed == old(consumed)
      ensures match codec.encodeClose(settings, consumed)
              case Success(tail) => err == Ok && sink.data == old(sink.data) + tail
              case Failure(e) => err == Err(e) && sink.data == old(sink.data)
    {
      match codec.encodeClose(settings, consumed) {
        case Success(tail) =>
          sink.Write(tail);
          err := Ok;
        case Failure(e) =>
          err := Err(e);
      }
      closed := true;
    }
  }

  /** What one Read call reports besides its bytes (io.EOF is `EOF`). */
  datatype ReadStatus = More | EOF | ReadFailed(error: Error)

  /** A stream decoder over the bytes `source`. `pending` is what it has yet to yield;
      `final` is what it reports once `pending` is drained. */
  class Decoder {
    const codec: Codec
    const settings: Settings
    const source: seq<Byte>
    var pending: seq<Byte>
    var final: Status
    var closed: bool

    constructor (codec: Codec, settings: Settings, source: seq<Byte>)
      ensures this.codec == codec && this.settings == settings && this.source == source
      ensures (pending, final) == codec.decode(settings, source) && !closed
    {
      this.codec := codec;
      this.settings := settings;
      this.source := source;
      pending := codec.decode(settings, source).0;
      final := codec.decode(settings, source).1;
      closed := false;
    }

    /** Yields the next at most `max` pending bytes; once none are left, reports end of
        stream or the decoder's error. */
    method Read(max: nat) returns (chunk: seq<Byte>, st: ReadStatus)
      requires 0 < max
      modifies this
      ensures old(pending) == chunk + pending
      ensures final == old(final) && closed == old(closed)
      ensures old(pending) != [] ==> st == More && 0 < |chunk| <= max
      ensures old(pending) == [] ==> st == (if final == Ok then EOF else ReadFailed(final.error))
    {
      if pending != [] {
        var k := if |pending| < max then |pending| else max;
        chunk, pending := pending[..k], pending[k..];
        st := More;
      } else {
        chunk := [];
        st := if final == Ok then EOF else ReadFailed(final.error);
      }
    }

    method Close() returns (err: Status)
      modifies this
      ensures closed && pending == old(pending) && final == old(final)
      ensures err == codec.closeDecoder(settings, source)
    {
      closed := true;
      err := codec.closeDecoder(settings, source);
    }
  }

  /** io.Copy from a decoder into a buffer: reads until end of stream or a read error.
      Every byte the decoder yields reaches the buffer; the error, if any, is the decoder's. */
  method Copy(dst: Buffer, src: Decoder) returns (err: Status)
    modifies dst, src
    ensures dst.data == old(dst.data) + old(src.pending) && src.pending == []
    ensures err == old(src.final) && src.final == old(src.final)
    ensures src.closed == old(src.closed)
  {
    while true
      invariant dst.data + src.pending == old(dst.data) + old(src.pending)
      invariant src.final == old(src.final) && src.closed == old(src.closed)
      decreases |src.pending|
    {
      var chunk, st := src.Read(CopyBufferSize);
      dst.Write(chunk);
      match st
      case More =>
      case EOF =>
        return Ok;
      case ReadFailed(e) =>
        return Err(e);
    }
  }
}
