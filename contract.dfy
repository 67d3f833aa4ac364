/**
 * The fluent validation contract and its generic `requires` check: an empty
 * non-boolean value appends one (field, message) notification to the
 * contract's ledger, and the call returns the same contract for chaining.
 */
module Contracts {
  import opened Values

  /** One failed check: the field it concerns and the rendered message. */
  datatype Notification = Notification(field: string, message: string)

  /**
   * Stand-in for the default message `REQUIRED`, whose text lives outside
   * this model; like the real constant it holds one placeholder for the field.
   */
  const REQUIRED: string := "{} is required"

  /**
   * `template.format(field)`, reduced to the one form a single-argument
   * template takes here: the first `{}` is replaced by the field, and a
   * template without `{}` is returned as it is.
   */
  function Format(template: string, field: string): string
    decreases |template|
  {
    if |template| < 2 then template
    else if template[0] == '{' && template[1] == '}' then field + template[2..]
    else [template[0]] + Format(template[1..], field)
  }

  /** The template holds no brace at all, so `str.format` has nothing to substitute or reject. */
  predicate NoBraces(template: string) {
    '{' !in template && '}' !in template
  }

  /** A template without braces is its own rendering, whatever the field. */
  lemma {:induction false} FormatWithoutBraces(template: string, field: string)
    requires NoBraces(template)
    ensures Format(template, field) == template
  {
    if |template| >= 2 {
      assert template[0] in template;
      assert NoBraces(template[1..]) by {
        assert forall c :: c in template[1..] ==> c in template;
      }
      FormatWithoutBraces(template[1..], field);
      assert [template[0]] + template[1..] == template;
    }
  }

  /** The ledger after one `requires(value, field, message)` call on a contract holding `ledger`. */
  function AfterRequires(ledger: seq<Notification>, value: Value, field: string, message: string): (r: seq<Notification>)
    ensures |r| == |ledger| + (if IsEmpty(value) then 1 else 0)
    ensures r[..|ledger|] == ledger
    ensures |r| > |ledger| ==> r[|ledger|] == Notification(field, Format(message, field))
  {
    if IsEmpty(value) then ledger + [Notification(field, Format(message, field))] else ledger
  }

  /** The arguments of one `requires` call in a chain. */
  datatype Call = Call(value: Value, field: string, message: string)

  /** The ledger after the chain `.requires(c0...).requires(c1...)...` on a contract holding `ledger`. */
  function AfterChain(ledger: seq<Notification>, calls: seq<Call>): (r: seq<Notification>)
    ensures |ledger| <= |r| && r[..|ledger|] == ledger
    decreases |calls|
  {
    if calls == [] then ledger
    else
      var next := AfterRequires(ledger, calls[0].value, calls[0].field, calls[0].message);
      var r := AfterChain(next, calls[1..]);
      assert r[..|ledger|] == r[..|next|][..|ledger|];
      r
  }

  /** How many calls of the chain pass an empty (non-boolean, falsy) value. */
  function CountEmpty(calls: seq<Call>): (n: nat)
    decreases |calls|
  {
    if calls == [] then 0
    else (if IsEmpty(calls[0].value) then 1 else 0) + CountEmpty(calls[1..])
  }

  /** The notifications a chain produces, in call order: one per call whose value is empty. */
  function Failures(calls: seq<Call>): (r: seq<Notification>)
    ensures |r| == CountEmpty(calls)
    decreases |calls|
  {
    if calls == [] then []
    else if IsEmpty(calls[0].value) then
      [Notification(calls[0].field, Format(calls[0].message, calls[0].field))] + Failures(calls[1..])
    else Failures(calls[1..])
  }

  /** A chain appends exactly its failures, in order, after what the ledger already held. */
  lemma {:induction false} ChainAppendsFailures(ledger: seq<Notification>, calls: seq<Call>)
    ensures AfterChain(ledger, calls) == ledger + Failures(calls)
    decreases |calls|
  {
    if calls != [] {
      var c := calls[0];
      var next := AfterRequires(ledger, c.value, c.field, c.message);
      ChainAppendsFailures(next, calls[1..]);
      if IsEmpty(c.value) {
        var n := Notification(c.field, Format(c.message, c.field));
        assert next + Failures(calls[1..]) == ledger + ([n] + Failures(calls[1..]));
      }
    }
  }

  /** The number of notifications a chain adds equals the number of its empty values. */
  lemma {:induction false} ChainCount(ledger: seq<Notification>, calls: seq<Call>)
    ensures |AfterChain(ledger, calls)| == |ledger| + CountEmpty(calls)
  {
    ChainAppendsFailures(ledger, calls);
  }

  /** No call of the chain has an empty value exactly when none is counted. */
  lemma {:induction false} CountEmptyZero(calls: seq<Call>)
    ensures CountEmpty(calls) == 0 <==> forall i :: 0 <= i < |calls| ==> !IsEmpty(calls[i].value)
    decreases |calls|
  {
    if calls != [] {
      CountEmptyZero(calls[1..]);
      assert forall i :: 1 <= i < |calls| ==> calls[i] == calls[1..][i - 1];
    }
  }

  /** A fresh contract stays valid through a chain exactly when no value in it is empty. */
  lemma {:induction false} ChainValidIff(calls: seq<Call>)
    ensures AfterChain([], calls) == [] <==> forall i :: 0 <= i < |calls| ==> !IsEmpty(calls[i].value)
  {
    ChainCount([], calls);
    CountEmptyZero(calls);
  }

  /** A chain of boolean values, `True` or `False`, never adds a notification. */
  lemma {:induction false} BooleanChainAddsNothing(ledger: seq<Notification>, calls: seq<Call>)
    requires forall i :: 0 <= i < |calls| ==> calls[i].value.Bool?
    ensures AfterChain(ledger, calls) == ledger
  {
    ChainCount(ledger, calls);
    CountEmptyZero(calls);
  }

  /** Running two chains one after the other on the same contract is running their concatenation. */
  lemma {:induction false} ChainConcat(ledger: seq<Notification>, a: seq<Call>, b: seq<Call>)
    ensures AfterChain(ledger, a + b) == AfterChain(AfterChain(ledger, a), b)
    decreases |a|
  {
    if a == [] {
      assert a + b == b;
    } else {
      var next := AfterRequires(ledger, a[0].value, a[0].field, a[0].message);
      assert (a + b)[0] == a[0] && (a + b)[1..] == a[1..] + b;
      ChainConcat(next, a[1..], b);
    }
  }

  /**
   * A validation contract: the ledger of notifications it has collected.
   * It is valid while the ledger is empty.
   */
  class Contract {
    var notifications: seq<Notification>

    /** `Contract()`: a contract with an empty ledger. */
    constructor ()
      ensures notifications == []
    {
      notifications := [];
    }

    /** `is_valid`: no notification has been recorded. */
    predicate IsValid()
      reads this
    {
      notifications == []
    }

    /** `add_notification(field, message)`: appends one notification at the end of the ledger. */
    method AddNotification(field: string, message: string)
      modifies this
      ensures notifications == old(notifications) + [Notification(field, message)]
    {
      notifications := notifications + [Notification(field, message)];
    }

    /**
     * `requires(value, field, message=REQUIRED)`: records a notification for
     * `field` when `value` is empty, and returns this same contract.
     */
    method Requires(value: Value, field: string, message: string := REQUIRED) returns (chained: Contract)
      modifies this
      ensures chained == this
      ensures notifications == AfterRequires(old(notifications), value, field, message)
    {
      if !Truthy(value) && !value.Bool? {
        AddNotification(field, Format(message, field));
      }
      chained := this;
    }
  }

  /** The documented example `Contract().requires("", "field", "message")` leaves the contract invalid. */
  method DocExample() returns (contract: Contract)
    ensures !contract.IsValid()
    ensures contract.notifications == [Notification("field", "message")]
  {
    var c := new Contract();
    contract := c.Requires(Str(""), "field", "message");
    FormatWithoutBraces("message", "field");
  }

  /** `Contract().requires("", "a").requires("", "b")`: two notifications, in call order, on one contract. */
  method ChainExample() returns (contract: Contract)
    ensures contract.notifications
         == [Notification("a", Format(REQUIRED, "a")), Notification("b", Format(REQUIRED, "b"))]
  {
    var c := new Contract();
    var first := c.Requires(Str(""), "a");
    contract := first.Requires(Str(""), "b");
  }

  /** `Contract().requires(b, "field")` is valid for both booleans. */
  method BooleanExample(b: bool) returns (contract: Contract)
    ensures contract.IsValid()
  {
    var c := new Contract();
    contract := c.Requires(Bool(b), "field");
  }
}
