/** The facade itself: the registry of named algorithms, the instance factory that
    configures a fresh instance from options, and the one-shot Encode and Decode. */
module Compress {
  import opened CompressTypes
  import opened Streams
  import opened Options
  import opened Algorithms

  /** The process-wide table from algorithm name to registered prototype. */
  class Registry {
    var algorithms: map<string, Algorithm>

    constructor ()
      ensures algorithms == map[]
    {
      algorithms := map[];
    }

    /** Register: `name` now maps to `a`, replacing any earlier entry; nothing else changes. */
    method Register(name: string, a: Algorithm)
      modifies this
      ensures algorithms == old(algorithms)[name := a]
      ensures name in algorithms && algorithms[name] == a
      ensures forall n :: n != name ==> (n in algorithms <==> n in old(algorithms))
      ensures forall n :: n != name && n in algorithms ==> algorithms[n] == old(algorithms)[n]
    {
      algorithms := algorithms[name := a];
    }

    /** Algorithms: every registered name exactly once, in no particular order. */
    method Algorithms() returns (names: seq<string>)
      ensures forall n :: n in names <==> n in algorithms
      ensures forall i, j :: 0 <= i < j < |names| ==> names[i] != names[j]
      ensures |names| == |algorithms|
    {
      names := [];
      var rest := algorithms.Keys;
      while rest != {}
        invariant rest <= algorithms.Keys
        invariant forall n :: n in names <==> n in algorithms && n !in rest
        invariant forall i, j :: 0 <= i < j < |names| ==> names[i] != names[j]
        invariant |names| + |rest| == |algorithms|
        decreases |rest|
      {
        var n :| n in rest;
        names := names + [n];
        rest := rest - {n};
      }
    }

    /** Registered: no error exactly when `name` is registered; otherwise an error naming it. */
    function Registered(name: string): (err: Status)
      reads this
      ensures err == Ok <==> name in algorithms
      ensures err != Ok ==> err == Err(NotRegistered(name))
    {
      if name in algorithms then Ok else Err(NotRegistered(name))
    }

    /** NewAlgorithm: looks `name` up, asks its prototype for a fresh instance and applies
        `opts` to that instance in order, stopping at the first failing option. The
        registry and every prototype are left as they were (no modifies clause). */
    method NewAlgorithm(name: string, opts: seq<Option>) returns (r: Result<Algorithm>)
      ensures name !in algorithms ==> r == Failure(NotRegistered(name))
      ensures name in algorithms ==>
        var d := algorithms[name].desc;
        match ApplyAll(d, d.defaults, opts)
        case Success(s) =>
          r.Success? && fresh(r.value) && r.value.desc == d && r.value.settings == s
        case Failure(e) =>
          r == Failure(e)
      ensures r.Success? ==> r.value !in algorithms.Values
    {
      if name !in algorithms {
        return Failure(NotRegistered(name));
      }
      var proto := algorithms[name];
      var d := proto.desc;
      var a := proto.NewAlgorithm();
      for i := 0 to |opts|
        invariant fresh(a) && a.desc == d
        invariant ApplyAll(d, d.defaults, opts[..i]) == Success(a.settings)
      {
        ApplyAllStep(d, d.defaults, opts, i);
        var err := a.Apply(opts[i]);
        if err.Err? {
          LaterOptionsNeverRun(d, d.defaults, opts, i);
          return Failure(err.error);
        }
      }
      assert opts[..|opts|] == opts;
      return Success(a);
    }
  }

  /** The one-shot encoding of `v`: build an encoder, write `v` once, close it, and take
      everything the encoder put in the buffer; the first failing step decides the error. */
  function EncodeAll(c: Codec, s: Settings, v: seq<Byte>): Result<seq<Byte>>
  {
    match c.openEncoder(s)
    case Err(e) => Failure(e)
    case Ok =>
      match c.encodeWrite(s, [], v)
      case Failure(e) => Failure(e)
      case Success(body) =>
        match c.encodeClose(s, v)
        case Failure(e) => Failure(e)
        case Success(tail) => Success(body + tail)
  }

  /** The one-shot decoding of `v`: build a decoder over `v`, copy all it yields,
      close it; the first failing step decides the error. */
  function DecodeAll(c: Codec, s: Settings, v: seq<Byte>): Result<seq<Byte>>
  {
    match c.openDecoder(s, v)
    case Err(e) => Failure(e)
    case Ok =>
      match c.decode(s, v).1
      case Err(e) => Failure(e)
      case Ok =>
        match c.closeDecoder(s, v)
        case Err(e) => Failure(e)
        case Ok => Success(c.decode(s, v).0)
  }

  /** Encode: drives a stream encoder over an in-memory buffer to completion. */
  method Encode(a: Algorithm, v: seq<Byte>) returns (r: Result<seq<Byte>>)
    ensures r == EncodeAll(a.desc.codec, a.settings, v)
  {
    var buf := new Buffer();
    var er := a.NewEncoder(buf);
    if er.Failure? {
      return Failure(er.error);
    }
    var e := er.value;
    var _, err := e.Write(v);
    if err.Err? {
      return Failure(err.error);
    }
    assert buf.data == a.desc.codec.encodeWrite(a.settings, [], v).value;
    assert e.consumed == v;
    err := e.Close();
    if err.Err? {
      return Failure(err.error);
    }
    assert buf.data == a.desc.codec.encodeWrite(a.settings, [], v).value + a.desc.codec.encodeClose(a.settings, v).value;
    return Success(buf.Bytes());
  }

  /** Decode: drives a stream decoder over `v` into an in-memory buffer to completion. */
  method Decode(a: Algorithm, v: seq<Byte>) returns (r: Result<seq<Byte>>)
    ensures r == DecodeAll(a.desc.codec, a.settings, v)
  {
    var dr := a.NewDecoder(v);
    if dr.Failure? {
      return Failure(dr.error);
    }
    var d := dr.value;
    var buf := new Buffer();
    var err := Copy(buf, d);
    assert buf.data == d.codec.decode(d.settings, v).0;
    if err.Err? {
      return Failure(err.error);
    }
    err := d.Close();
    if err.Err? {
      return Failure(err.error);
    }
    return Success(buf.Bytes());
  }
}
