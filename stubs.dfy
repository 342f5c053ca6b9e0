/** Two stub algorithms with no tunables: "id" passes bytes through and "rev" reverses
    them. They give the one-shot calls concrete codecs to run on. */
module Stubs {
  import opened CompressTypes
  import opened Streams
  import opened Options
  import opened Algorithms
  import opened Compress

  /** The bytes of `v` in reverse order. */
  function Reverse(v: seq<Byte>): (r: seq<Byte>)
    ensures |r| == |v|
    ensures forall i :: 0 <= i < |v| ==> r[i] == v[|v| - 1 - i]
  {
    if v == [] then [] else Reverse(v[1..]) + [v[0]]
  }

  /** Writes pass straight through; decoding yields the source unchanged. */
  const IdentityCodec := Codec(
    s => Ok,
    (s, consumed, v) => Success(v),
    (s, consumed) => Success([]),
    (s, src) => Ok,
    (s, src) => (src, Ok),
    (s, src) => Ok)

  /** Buffers every write and emits the reversed input on close; decoding reverses the source. */
  const ReverseCodec := Codec(
    s => Ok,
    (s, consumed, v) => Success([]),
    (s, consumed) => Success(Reverse(consumed)),
    (s, src) => Ok,
    (s, src) => (Reverse(src), Ok),
    (s, src) => Ok)

  const StubDefaults := Settings(DefaultCompression, 0, Little)

  const Identity := Descriptor("id", Unsupported, Unsupported, Unsupported, StubDefaults, IdentityCodec)

  const Reversal := Descriptor("rev", Unsupported, Unsupported, Unsupported, StubDefaults, ReverseCodec)

  /** Decoding what "id" encoded gives the input back. */
  lemma IdentityRoundTrip(s: Settings, v: seq<Byte>)
    ensures EncodeAll(IdentityCodec, s, v) == Success(v)
    ensures DecodeAll(IdentityCodec, s, EncodeAll(IdentityCodec, s, v).value) == Success(v)
  {
    assert v + [] == v;
  }

  /** "rev" encodes to the reversed input, and decoding that gives the input back. */
  lemma ReverseRoundTrip(s: Settings, v: seq<Byte>)
    ensures EncodeAll(ReverseCodec, s, v) == Success(Reverse(v))
    ensures DecodeAll(ReverseCodec, s, EncodeAll(ReverseCodec, s, v).value) == Success(v)
  {
    assert [] + Reverse(v) == Reverse(v);
    assert Reverse(Reverse(v)) == v;
  }

  /** Neither stub has a level: any level option is refused with an error naming the
      algorithm and the tunable, whatever options follow it. */
  lemma StubsRefuseLevel(level: Level, rest: seq<Option>)
    ensures ApplyAll(Identity, StubDefaults, [WithLevel(level)] + rest)
            == Failure(UnsupportedOption("id", LevelKind))
    ensures ApplyAll(Reversal, StubDefaults, [WithLevel(level)] + rest)
            == Failure(UnsupportedOption("rev", LevelKind))
  {
  }

  /** Registration, lookup, listing and the factory's failures, against both stubs. */
  method RegistryScenario()
  {
    var registry := new Registry();
    var id := new Algorithm(Identity);
    var rev := new Algorithm(Reversal);
    registry.Register("id", id);
    registry.Register("rev", rev);
    assert registry.Registered("id") == Ok && registry.Registered("rev") == Ok;
    assert registry.Registered("gzip") == Err(NotRegistered("gzip"));

    var names := registry.Algorithms();
    assert names == ["id", "rev"] || names == ["rev", "id"];

    var missing := registry.NewAlgorithm("nonexistent", []);
    assert missing == Failure(NotRegistered("nonexistent"));

    var leveled := registry.NewAlgorithm("id", [WithLevel(5)]);
    StubsRefuseLevel(5, []);
    assert [WithLevel(5)] + [] == [WithLevel(5)];
    assert leveled == Failure(UnsupportedOption("id", LevelKind));
  }

  const Hello: seq<Byte> := [0x68, 0x65, 0x6c, 0x6c, 0x6f]

  const Olleh: seq<Byte> := [0x6f, 0x6c, 0x6c, 0x65, 0x68]

  /** "rev" turns "hello" into "olleh" and back, as one-shot calls. */
  lemma ReverseHello(s: Settings)
    ensures EncodeAll(ReverseCodec, s, Hello) == Success(Olleh)
    ensures DecodeAll(ReverseCodec, s, Olleh) == Success(Hello)
  {
    ReverseRoundTrip(s, Hello);
    assert Reverse(Hello) == Olleh;
  }

  /** "rev" turns "hello" into "olleh" and back. */
  method ReverseScenario(inst: Algorithm)
    requires inst.desc == Reversal
  {
    ReverseHello(inst.settings);
    var encoded := Encode(inst, Hello);
    assert encoded == Success(Olleh);
    var decoded := Decode(inst, Olleh);
    assert decoded == Success(Hello);
  }

  /** "id" leaves "hello" as it is, both ways. */
  method IdentityScenario(inst: Algorithm)
    requires inst.desc == Identity
  {
    IdentityRoundTrip(inst.settings, Hello);
    var encoded := Encode(inst, Hello);
    assert encoded == Success(Hello);
    var decoded := Decode(inst, Hello);
    assert decoded == Success(Hello);
  }
}
