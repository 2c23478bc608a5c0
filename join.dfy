/**
 * The two-reference joins of the bot (slack-bot/index.js): `onValue2`
 * listens to two database references and calls back with both snapshots on
 * every arrival once both hold truthy data; `onceValue2` listens once to each
 * and calls back with both values. The closure variables `snap1` and `snap2`
 * are the fields; every callback invocation is appended to `calls`.
 */
module ValueJoin {
  import opened Wrappers

  /** The JSON value a database snapshot holds; `Null` when there is no data. */
  datatype Value =
    | Null
    | Bool(b: bool)
    | Number(n: int)
    | Text(s: string)
    | Record(fields: map<string, Value>)

  /** JavaScript truthiness: null, false, 0 and "" are falsy, everything else truthy. */
  predicate Truthy(v: Value)
  {
    match v
    case Null => false
    case Bool(b) => b
    case Number(n) => n != 0
    case Text(s) => s != ""
    case Record(_) => true
  }

  /** A database snapshot; `val` is what `snap.val()` returns. */
  datatype Snapshot = Snapshot(val: Value)

  /** `snap && snap.val()`: a snapshot has arrived and its value is truthy. */
  predicate Holds(s: Option<Snapshot>)
  {
    s.Some? && Truthy(s.value.val)
  }

  /** The gate refuses exactly JavaScript's falsy values, and any missing snapshot. */
  lemma HoldsExactly(s: Option<Snapshot>)
    ensures Holds(s) <==>
      s.Some? && s.value.val != Null && s.value.val != Bool(false) &&
      s.value.val != Number(0) && s.value.val != Text("")
  {
  }

  /** `onValue2(ref1, ref2, callback)` and the `detach` function it returns. */
  class OnValue2 {
    var snap1: Option<Snapshot>
    var snap2: Option<Snapshot>
    var attached: bool
    var calls: seq<(Snapshot, Snapshot)>

    /** Every call so far passed two snapshots whose values are both truthy. */
    ghost predicate Valid()
      reads this
    {
      forall i :: 0 <= i < |calls| ==> Truthy(calls[i].0.val) && Truthy(calls[i].1.val)
    }

    constructor ()
      ensures Valid()
      ensures snap1 == None && snap2 == None && attached && calls == []
    {
      snap1, snap2, attached, calls := None, None, true, [];
    }

    /** `on1`: a value event on the first reference (none reaches it once detached). */
    method On1(s: Snapshot)
      requires Valid()
      modifies this
      ensures Valid()
      ensures snap1 == (if old(attached) then Some(s) else old(snap1))
      ensures snap2 == old(snap2) && attached == old(attached)
      ensures calls == (if old(attached) && Holds(snap1) && Holds(snap2)
                        then old(calls) + [(snap1.value, snap2.value)] else old(calls))
    {
      if attached {
        snap1 := Some(s);
        Update();
      }
    }

    /** `on2`: a value event on the second reference. */
    method On2(s: Snapshot)
      requires Valid()
      modifies this
      ensures Valid()
      ensures snap2 == (if old(attached) then Some(s) else old(snap2))
      ensures snap1 == old(snap1) && attached == old(attached)
      ensures calls == (if old(attached) && Holds(snap1) && Holds(snap2)
                        then old(calls) + [(snap1.value, snap2.value)] else old(calls))
    {
      if attached {
        snap2 := Some(s);
        Update();
      }
    }

    /** `update`: calls back exactly when both stored snapshots hold truthy values. */
    method Update()
      requires Valid()
      modifies this`calls
      ensures Valid()
      ensures calls == (if Holds(snap1) && Holds(snap2) then old(calls) + [(snap1.value, snap2.value)] else old(calls))
    {
      if snap1.Some? && Truthy(snap1.value.val) && snap2.Some? && Truthy(snap2.value.val) {
        calls := calls + [(snap1.value, snap2.value)];
      }
    }

    /** `detach`: removes both listeners. */
    method Detach()
      requires Valid()
      modifies this`attached
      ensures Valid()
      ensures !attached
    {
      attached := false;
    }
  }

  /**
   * `onceValue2(ref1, ref2, callback)`: each reference delivers one value
   * event, after which its listener is gone; a slot that is still None is
   * still listening.
   */
  class OnceValue2 {
    var snap1: Option<Snapshot>
    var snap2: Option<Snapshot>
    var calls: seq<(Value, Value)>

    /**
     * The callback has run at most once, only after both values arrived, and
     * then with exactly those values.
     */
    ghost predicate Valid()
      reads this
    {
      && |calls| <= 1
      && (snap1.None? || snap2.None? ==> calls == [])
      && (calls != [] ==>
            Holds(snap1) && Holds(snap2) && calls == [(snap1.value.val, snap2.value.val)])
    }

    constructor ()
      ensures Valid()
      ensures snap1 == None && snap2 == None && calls == []
    {
      snap1, snap2, calls := None, None, [];
    }

    /** `on1`, run by the first reference's single value event. */
    method On1(s: Snapshot)
      requires Valid()
      modifies this
      ensures Valid()
      ensures snap1 == (if old(snap1).None? then Some(s) else old(snap1))
      ensures snap2 == old(snap2)
      ensures calls == (if old(snap1).None? && Holds(snap1) && Holds(snap2)
                        then [(snap1.value.val, snap2.value.val)] else old(calls))
    {
      if snap1.None? {
        snap1 := Some(s);
        Update();
      }
    }

    /** `on2`, run by the second reference's single value event. */
    method On2(s: Snapshot)
      requires Valid()
      modifies this
      ensures Valid()
      ensures snap2 == (if old(snap2).None? then Some(s) else old(snap2))
      ensures snap1 == old(snap1)
      ensures calls == (if old(snap2).None? && Holds(snap1) && Holds(snap2)
                        then [(snap1.value.val, snap2.value.val)] else old(calls))
    {
      if snap2.None? {
        snap2 := Some(s);
        Update();
      }
    }

    /**
     * `update` right after one of the two slots was first filled; until then
     * one slot was empty, so the callback has not run yet.
     */
    method Update()
      requires calls == []
      modifies this`calls
      ensures Valid()
      ensures calls == (if Holds(snap1) && Holds(snap2) then [(snap1.value.val, snap2.value.val)] else [])
    {
      if snap1.Some? && Truthy(snap1.value.val) && snap2.Some? && Truthy(snap2.value.val) {
        calls := calls + [(snap1.value.val, snap2.value.val)];
      }
    }
  }
}
