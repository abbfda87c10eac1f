/**
 * The functional-options configuration protocol of the HTTP client wrapper,
 * stated on values: the configuration record, the four options, the defaults,
 * the effect of one option and the left fold of a sequence of options.
 */
module Options {

  /** Go's time.Duration: a signed 64-bit count of nanoseconds. */
  newtype Duration = d: int | -0x8000_0000_0000_0000 <= d < 0x8000_0000_0000_0000

  const Nanosecond: Duration := 1
  const Second: Duration := 1_000_000_000 * Nanosecond

  /**
   * The transport the underlying HTTP client uses. DefaultTransport stands
   * for a nil Transport (the library's default, which verifies certificates);
   * InsecureTransport for a transport whose TLS configuration skips
   * certificate and host-name verification.
   */
  datatype Transport = DefaultTransport | InsecureTransport

  /** An option: a deferred update of one field of the configuration. */
  datatype Option =
    | WithTimeout(timeout: Duration)
    | WithUserAgent(userAgent: string)
    | WithoutRedirects
    | UseInsecureTransport

  /** The resolved configuration a client holds. */
  datatype Config = Config(
    timeout: Duration,
    userAgent: string,
    followRedirects: bool,
    transport: Transport)

  const DefaultTimeout: Duration := 30 * Second
  const DefaultUserAgent: string := "My HTTP Client"

  /** The record a new client starts from, before any option runs. */
  const Defaults: Config := Config(DefaultTimeout, DefaultUserAgent, true, DefaultTransport)

  /** The fields of the configuration, as names. */
  datatype Field = TimeoutField | UserAgentField | FollowRedirectsField | TransportField

  /** The one field an option writes. */
  function FieldOf(o: Option): Field {
    match o
    case WithTimeout(_) => TimeoutField
    case WithUserAgent(_) => UserAgentField
    case WithoutRedirects => FollowRedirectsField
    case UseInsecureTransport => TransportField
  }

  /** Two configurations hold the same value in field f. */
  predicate Agree(a: Config, b: Config, f: Field) {
    match f
    case TimeoutField => a.timeout == b.timeout
    case UserAgentField => a.userAgent == b.userAgent
    case FollowRedirectsField => a.followRedirects == b.followRedirects
    case TransportField => a.transport == b.transport
  }

  /** Configuration c carries the setting that option o asks for. */
  predicate Holds(c: Config, o: Option) {
    match o
    case WithTimeout(d) => c.timeout == d
    case WithUserAgent(s) => c.userAgent == s
    case WithoutRedirects => !c.followRedirects
    case UseInsecureTransport => c.transport == InsecureTransport
  }

  /** Some option of ops writes field f. */
  predicate Touched(ops: seq<Option>, f: Field) {
    exists j :: 0 <= j < |ops| && FieldOf(ops[j]) == f
  }

  /**
   * The effect of one option: its argument is stored as given (no duration
   * or user agent is rejected, zero, negative and empty included), and every
   * other field is left alone.
   */
  function Apply(c: Config, o: Option): (r: Config)
    ensures Holds(r, o)
    ensures forall f :: f != FieldOf(o) ==> Agree(r, c, f)
  {
    match o
    case WithTimeout(d) => c.(timeout := d)
    case WithUserAgent(s) => c.(userAgent := s)
    case WithoutRedirects => c.(followRedirects := false)
    case UseInsecureTransport => c.(transport := InsecureTransport)
  }

  /**
   * Applies the options to c one after the other, first to last; the setting
   * of the final option is in effect in the result.
   */
  function ApplyAll(c: Config, ops: seq<Option>): (r: Config)
    ensures ops != [] ==> Holds(r, ops[|ops| - 1])
    decreases |ops|
  {
    if ops == [] then c else ApplyAll(Apply(c, ops[0]), ops[1..])
  }

  /** Agreement on every field is equality. */
  lemma AgreeEverywhere(a: Config, b: Config)
    requires Agree(a, b, TimeoutField) && Agree(a, b, UserAgentField)
    requires Agree(a, b, FollowRedirectsField) && Agree(a, b, TransportField)
    ensures a == b
  {
  }

  /** The setting an option asks for fixes the value of its field. */
  lemma HoldsFixesField(a: Config, b: Config, o: Option)
    requires Holds(a, o) && Holds(b, o)
    ensures Agree(a, b, FieldOf(o))
  {
  }

  /** Applying the options of a and then those of b is applying a + b. */
  lemma {:induction false} ApplyAllAppend(c: Config, a: seq<Option>, b: seq<Option>)
    ensures ApplyAll(c, a + b) == ApplyAll(ApplyAll(c, a), b)
    decreases |a|
  {
    if a != [] {
      assert (a + b)[0] == a[0];
      assert (a + b)[1..] == a[1..] + b;
      ApplyAllAppend(Apply(c, a[0]), a[1..], b);
    } else {
      assert a + b == b;
    }
  }

  /** One more option at the end of the sequence is applied last. */
  lemma ApplyAllSnoc(c: Config, ops: seq<Option>, o: Option)
    ensures ApplyAll(c, ops + [o]) == Apply(ApplyAll(c, ops), o)
  {
    ApplyAllAppend(c, ops, [o]);
    assert [o][1..] == [];
  }

  /** A field that no option of the sequence writes keeps its starting value. */
  lemma {:induction false} UntouchedFieldKept(c: Config, ops: seq<Option>, f: Field)
    requires forall j :: 0 <= j < |ops| ==> FieldOf(ops[j]) != f
    ensures Agree(ApplyAll(c, ops), c, f)
    decreases |ops|
  {
    if ops != [] {
      assert forall j :: 0 <= j < |ops[1..]| ==> ops[1..][j] == ops[j + 1];
      UntouchedFieldKept(Apply(c, ops[0]), ops[1..], f);
    }
  }

  /**
   * Last write wins: the last option of the sequence that writes a field
   * decides that field, whatever came before it.
   */
  lemma LastWriteWins(c: Config, ops: seq<Option>, i: int)
    requires 0 <= i < |ops|
    requires forall j :: i < j < |ops| ==> FieldOf(ops[j]) != FieldOf(ops[i])
    ensures Holds(ApplyAll(c, ops), ops[i])
  {
    var before, rest := ops[..i + 1], ops[i + 1..];
    assert ops == before + rest;
    ApplyAllAppend(c, before, rest);
    assert before == ops[..i] + [ops[i]];
    ApplyAllSnoc(c, ops[..i], ops[i]);
    var mid := ApplyAll(c, before);
    assert Holds(mid, ops[i]);
    assert forall j :: 0 <= j < |rest| ==> rest[j] == ops[i + 1 + j];
    UntouchedFieldKept(mid, rest, FieldOf(ops[i]));
  }

  /**
   * A field that some option writes ends with a value that does not depend on
   * the configuration the options started from.
   */
  lemma {:induction false} TouchedFieldOverwritten(c: Config, d: Config, ops: seq<Option>, f: Field)
    requires Touched(ops, f)
    ensures Agree(ApplyAll(c, ops), ApplyAll(d, ops), f)
    decreases |ops|
  {
    var rest := ops[1..];
    assert forall j :: 0 <= j < |rest| ==> rest[j] == ops[j + 1];
    if Touched(rest, f) {
      TouchedFieldOverwritten(Apply(c, ops[0]), Apply(d, ops[0]), rest, f);
    } else {
      assert FieldOf(ops[0]) == f;
      HoldsFixesField(Apply(c, ops[0]), Apply(d, ops[0]), ops[0]);
      UntouchedFieldKept(Apply(c, ops[0]), rest, f);
      UntouchedFieldKept(Apply(d, ops[0]), rest, f);
    }
  }

  /** Applying the same sequence of options a second time changes nothing. */
  lemma ApplyAllIdempotent(c: Config, ops: seq<Option>)
    ensures ApplyAll(ApplyAll(c, ops), ops) == ApplyAll(c, ops)
  {
    var once := ApplyAll(c, ops);
    forall f: Field
      ensures Agree(ApplyAll(once, ops), once, f)
    {
      if Touched(ops, f) {
        TouchedFieldOverwritten(once, c, ops, f);
      } else {
        UntouchedFieldKept(once, ops, f);
      }
    }
    AgreeEverywhere(ApplyAll(once, ops), once);
  }

  /** Repeating a sequence back to back resolves like the sequence alone. */
  lemma ApplyAllTwice(c: Config, ops: seq<Option>)
    ensures ApplyAll(c, ops + ops) == ApplyAll(c, ops)
  {
    ApplyAllAppend(c, ops, ops);
    ApplyAllIdempotent(c, ops);
  }

  /** Each single option is idempotent: applying it twice equals applying it once. */
  lemma ApplyIdempotent(c: Config, o: Option)
    ensures Apply(Apply(c, o), o) == Apply(c, o)
  {
    AgreeEverywhere(Apply(Apply(c, o), o), Apply(c, o));
  }

  /** Two options that write different fields commute. */
  lemma ApplyCommutes(c: Config, a: Option, b: Option)
    requires FieldOf(a) != FieldOf(b)
    ensures Apply(Apply(c, a), b) == Apply(Apply(c, b), a)
  {
    AgreeEverywhere(Apply(Apply(c, a), b), Apply(Apply(c, b), a));
  }

  /**
   * Swapping two adjacent options that write different fields, anywhere in
   * the sequence, does not change the resolved configuration.
   */
  lemma SwapAdjacent(c: Config, pre: seq<Option>, a: Option, b: Option, post: seq<Option>)
    requires FieldOf(a) != FieldOf(b)
    ensures ApplyAll(c, pre + [a, b] + post) == ApplyAll(c, pre + [b, a] + post)
  {
    var x := ApplyAll(c, pre);
    ApplyAllAppend(c, pre + [a, b], post);
    ApplyAllAppend(c, pre, [a, b]);
    ApplyAllAppend(c, pre + [b, a], post);
    ApplyAllAppend(c, pre, [b, a]);
    assert ApplyAll(x, [a, b]) == Apply(Apply(x, a), b) by {
      assert [a, b] == [a] + [b];
      ApplyAllSnoc(x, [a], b);
      ApplyAllSnoc(x, [], a);
    }
    assert ApplyAll(x, [b, a]) == Apply(Apply(x, b), a) by {
      assert [b, a] == [b] + [a];
      ApplyAllSnoc(x, [b], a);
      ApplyAllSnoc(x, [], b);
    }
    ApplyCommutes(x, a, b);
  }

  /**
   * Redirects stay enabled exactly when they were enabled at the start and no
   * option of the sequence is WithoutRedirects: no option turns them back on.
   */
  lemma {:induction false} FollowRedirectsResolved(c: Config, ops: seq<Option>)
    ensures ApplyAll(c, ops).followRedirects <==> c.followRedirects && WithoutRedirects !in ops
    decreases |ops|
  {
    if ops != [] {
      assert ops == [ops[0]] + ops[1..];
      assert WithoutRedirects in ops <==> ops[0] == WithoutRedirects || WithoutRedirects in ops[1..];
      FollowRedirectsResolved(Apply(c, ops[0]), ops[1..]);
    }
  }

  /**
   * Once WithoutRedirects has been applied, every later point of the sequence
   * has redirects switched off.
   */
  lemma WithoutRedirectsSticky(c: Config, ops: seq<Option>, i: int)
    requires 0 <= i < |ops| && ops[i] == WithoutRedirects
    ensures forall k :: i < k <= |ops| ==> !ApplyAll(c, ops[..k]).followRedirects
  {
    forall k | i < k <= |ops|
      ensures !ApplyAll(c, ops[..k]).followRedirects
    {
      assert ops[..k][i] == WithoutRedirects;
      FollowRedirectsResolved(c, ops[..k]);
    }
  }

  /**
   * The transport ends insecure exactly when some option is
   * UseInsecureTransport; it then discards whatever transport came before.
   */
  lemma {:induction false} TransportResolved(c: Config, ops: seq<Option>)
    ensures ApplyAll(c, ops).transport
         == if UseInsecureTransport in ops then InsecureTransport else c.transport
    decreases |ops|
  {
    if ops != [] {
      assert ops == [ops[0]] + ops[1..];
      assert UseInsecureTransport in ops <==> ops[0] == UseInsecureTransport || UseInsecureTransport in ops[1..];
      TransportResolved(Apply(c, ops[0]), ops[1..]);
    }
  }

  /** No options: the defaults, field by field. */
  lemma NoOptionsGiveDefaults()
    ensures ApplyAll(Defaults, []) == Config(30 * Second, "My HTTP Client", true, DefaultTransport)
    ensures ApplyAll(Defaults, []).timeout == 30_000_000_000
  {
  }

  /** Two timeouts in a row: the later one, ten seconds, wins. */
  lemma RepeatedTimeoutLastWins()
    ensures ApplyAll(Defaults, [WithTimeout(5 * Second), WithTimeout(10 * Second)]).timeout == 10 * Second
  {
    var ops := [WithTimeout(5 * Second), WithTimeout(10 * Second)];
    LastWriteWins(Defaults, ops, 1);
  }
}
