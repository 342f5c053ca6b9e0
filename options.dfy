/** The option system: typed options, the per-algorithm description of which tunables
    exist, and the specification of applying a list of options in order. */
module Options {
  import opened CompressTypes
  import opened Streams

  /** An option, as built by WithLevel, WithLitWidth and WithEndian. */
  datatype Option = WithLevel(level: Level) | WithLitWidth(width: int) | WithEndian(endian: Endian) {

    function Kind(): OptionKind
    {
      match this
      case WithLevel(_) => LevelKind
      case WithLitWidth(_) => LitWidthKind
      case WithEndian(_) => EndianKind
    }

    function Value(): int
    {
      match this
      case WithLevel(l) => l
      case WithLitWidth(w) => w
      case WithEndian(e) => e
    }
  }

  /** How a concrete algorithm's setter for one tunable behaves: it has no such tunable,
      or it accepts exactly the values in [lo, hi]. */
  datatype Knob = Unsupported | Range(lo: int, hi: int) {
    predicate Allows(v: int)
    {
      Range? && lo <= v <= hi
    }
  }

  /** What the facade needs to know about one concrete algorithm. */
  datatype Descriptor = Descriptor(
    name: string,
    level: Knob,
    litWidth: Knob,
    endian: Knob,
    defaults: Settings,
    codec: Codec)
  {
    function KnobOf(k: OptionKind): Knob
    {
      match k
      case LevelKind => level
      case LitWidthKind => litWidth
      case EndianKind => endian
    }
  }

  /** Whether the algorithm described by `d` accepts option `o`. */
  predicate Accepts(d: Descriptor, o: Option)
  {
    d.KnobOf(o.Kind()).Allows(o.Value())
  }

  /** The error a setter of `d` reports for value `v` of tunable `k`. */
  function Rejection(d: Descriptor, k: OptionKind, v: int): Error
  {
    if d.KnobOf(k).Unsupported? then UnsupportedOption(d.name, k) else InvalidOption(d.name, k, v)
  }

  /** A setter (SetLevel, SetLitWidth, SetEndian) of the algorithm described by `d`. */
  function Set(d: Descriptor, s: Settings, k: OptionKind, v: int): (r: Result<Settings>)
    ensures r.Success? <==> d.KnobOf(k).Allows(v)
    ensures r.Success? ==> r.value.Get(k) == v && forall k' :: k' != k ==> r.value.Get(k') == s.Get(k')
    ensures r.Failure? && d.KnobOf(k).Unsupported? ==> r.error == UnsupportedOption(d.name, k)
    ensures r.Failure? && d.KnobOf(k).Range? ==> r.error == InvalidOption(d.name, k, v)
  {
    if d.KnobOf(k).Allows(v) then Success(s.Put(k, v)) else Failure(Rejection(d, k, v))
  }

  /** Applying option `o` calls the setter of its own kind with its own value. */
  function ApplyOption(d: Descriptor, s: Settings, o: Option): Result<Settings>
  {
    Set(d, s, o.Kind(), o.Value())
  }

  /** Applies `opts` in order from settings `s`, stopping at the first failure. */
  function ApplyAll(d: Descriptor, s: Settings, opts: seq<Option>): Result<Settings>
    decreases |opts|
  {
    if opts == [] then Success(s)
    else
      match ApplyOption(d, s, opts[0])
      case Failure(e) => Failure(e)
      case Success(s') => ApplyAll(d, s', opts[1..])
  }

  /** Continues an application result with more options. */
  function Then(r: Result<Settings>, d: Descriptor, rest: seq<Option>): Result<Settings>
  {
    match r
    case Failure(e) => Failure(e)
    case Success(s) => ApplyAll(d, s, rest)
  }

  /** Applying `a + b` is applying `a`, then, if that succeeded, `b`. */
  lemma {:induction false} ApplyAllAppend(d: Descriptor, s: Settings, a: seq<Option>, b: seq<Option>)
    ensures ApplyAll(d, s, a + b) == Then(ApplyAll(d, s, a), d, b)
    decreases |a|
  {
    if a != [] {
      assert (a + b)[0] == a[0];
      assert (a + b)[1..] == a[1..] + b;
      match ApplyOption(d, s, a[0])
      case Failure(e) =>
      case Success(s') =>
        ApplyAllAppend(d, s', a[1..], b);
    } else {
      assert a + b == b;
    }
  }

  /** Applying one more option after a successful prefix. */
  lemma ApplyAllStep(d: Descriptor, s: Settings, opts: seq<Option>, i: nat)
    requires i < |opts| && ApplyAll(d, s, opts[..i]).Success?
    ensures ApplyAll(d, s, opts[..i + 1]) == ApplyOption(d, ApplyAll(d, s, opts[..i]).value, opts[i])
  {
    assert opts[..i + 1] == opts[..i] + [opts[i]];
    ApplyAllAppend(d, s, opts[..i], [opts[i]]);
    var t := ApplyAll(d, s, opts[..i]).value;
    assert [opts[i]][1..] == [];
    match ApplyOption(d, t, opts[i])
    case Failure(e) =>
    case Success(t') =>
      assert ApplyAll(d, t, [opts[i]]) == ApplyAll(d, t', []);
  }

  /** Once the options up to and including position `i` fail, the options after `i`
      have no effect: the whole application fails with the same error. */
  lemma LaterOptionsNeverRun(d: Descriptor, s: Settings, opts: seq<Option>, i: nat)
    requires i < |opts| && ApplyAll(d, s, opts[..i + 1]).Failure?
    ensures ApplyAll(d, s, opts) == ApplyAll(d, s, opts[..i + 1])
  {
    assert opts == opts[..i + 1] + opts[i + 1..];
    ApplyAllAppend(d, s, opts[..i + 1], opts[i + 1..]);
  }

  /** Applying a list of options succeeds exactly when the algorithm accepts every one of them,
      whatever the starting settings. */
  lemma {:induction false} ApplyAllSucceedsIff(d: Descriptor, s: Settings, opts: seq<Option>)
    ensures ApplyAll(d, s, opts).Success? <==> forall i :: 0 <= i < |opts| ==> Accepts(d, opts[i])
    decreases |opts|
  {
    if opts != [] {
      match ApplyOption(d, s, opts[0])
      case Failure(e) =>
      case Success(s') =>
        ApplyAllSucceedsIff(d, s', opts[1..]);
        assert forall i :: 1 <= i < |opts| ==> opts[i] == opts[1..][i - 1];
    }
  }

  /** When option `k` is the first one the algorithm rejects, the application fails with
      exactly that option's error. */
  lemma {:induction false} FirstRejectionWins(d: Descriptor, s: Settings, opts: seq<Option>, k: nat)
    requires k < |opts|
    requires forall i :: 0 <= i < k ==> Accepts(d, opts[i])
    requires !Accepts(d, opts[k])
    ensures ApplyAll(d, s, opts) == Failure(Rejection(d, opts[k].Kind(), opts[k].Value()))
    decreases k
  {
    if k > 0 {
      var s' := ApplyOption(d, s, opts[0]).value;
      assert forall i :: 0 <= i < k - 1 ==> opts[1..][i] == opts[i + 1];
      FirstRejectionWins(d, s', opts[1..], k - 1);
    }
  }

  /** The value of the last option of kind `k` in `opts`, or `init` when there is none. */
  function LastValue(opts: seq<Option>, k: OptionKind, init: int): int
    decreases |opts|
  {
    if opts == [] then init
    else if opts[|opts| - 1].Kind() == k then opts[|opts| - 1].Value()
    else LastValue(opts[..|opts| - 1], k, init)
  }

  /** After a successful application, each tunable holds the value of the last option
      of its kind, or its starting value when no option named it (the last writer wins). */
  lemma {:induction false} LastOptionWins(d: Descriptor, s: Settings, opts: seq<Option>, k: OptionKind)
    requires ApplyAll(d, s, opts).Success?
    ensures ApplyAll(d, s, opts).value.Get(k) == LastValue(opts, k, s.Get(k))
    decreases |opts|
  {
    if opts != [] {
      var n := |opts| - 1;
      var init := opts[..n];
      assert opts == init + [opts[n]];
      ApplyAllAppend(d, s, init, [opts[n]]);
      var t := ApplyAll(d, s, init).value;
      var t' := ApplyOption(d, t, opts[n]).value;
      assert [opts[n]][1..] == [];
      assert ApplyAll(d, s, opts) == ApplyAll(d, t', []);
      LastOptionWins(d, s, init, k);
    }
  }
}
