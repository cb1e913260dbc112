/** A cursor over a batch of weighted tuples that yields all deletions before any insertion, so that
    a consumer that understands only upserts never sees two rows with the same unique key. */
module PolarityCursor {
  import opened Common

  type Key(==, !new)
  type Val(==, !new)

  datatype Row = Row(key: Key, val: Val)

  datatype Tuple = Tuple(row: Row, weight: int)

  /** The batch behind a cursor: one group of tuples per key, in cursor order. */
  type Groups = seq<seq<Tuple>>

  predicate Wants(second: bool, weight: int)
  {
    if second then weight > 0 else weight < 0
  }

  /** The tuples that one pass yields, in cursor order. */
  function Wanted(ts: seq<Tuple>, second: bool): seq<Tuple>
  {
    if ts == [] then []
    else (if Wants(second, ts[0].weight) then [ts[0]] else []) + Wanted(ts[1..], second)
  }

  function WantedAll(gs: Groups, second: bool): seq<Tuple>
  {
    if gs == [] then [] else Wanted(gs[0], second) + WantedAll(gs[1..], second)
  }

  /** Every deletion in cursor order, then every insertion in cursor order. */
  function Emission(gs: Groups): seq<Tuple>
  {
    WantedAll(gs, false) + WantedAll(gs, true)
  }

  // ---------------------------------------------------------------- the wrapped cursor

  class SerCursor {
    const groups: Groups
    var key: nat
    var val: nat

    constructor (groups: Groups)
      ensures this.groups == groups && key == val == 0
    {
      this.groups, key, val := groups, 0, 0;
    }

    predicate KeyValid() reads this { key < |groups| }

    predicate ValValid() reads this { KeyValid() && val < |groups[key]| }

    function Weight(): int
      requires ValValid()
      reads this
    {
      groups[key][val].weight
    }

    method StepKey()
      modifies this
      ensures val == 0
      ensures key == (if old(KeyValid()) then old(key) + 1 else old(key))
    {
      if key < |groups| { key := key + 1; }
      val := 0;
    }

    method StepVal()
      modifies this`val
      ensures val == (if old(ValValid()) then old(val) + 1 else old(val))
    {
      if ValValid() { val := val + 1; }
    }

    method RewindKeys()
      modifies this
      ensures key == val == 0
    {
      key, val := 0, 0;
    }

    method RewindVals()
      modifies this`val
      ensures val == 0
    {
      val := 0;
    }
  }

  // ---------------------------------------------------------------- the two-pass cursor

  /** The tuple at value `v` of a key, if there is one and the pass wants it. */
  function Pick(ts: seq<Tuple>, second: bool, v: nat): seq<Tuple>
  {
    if v < |ts| && Wants(second, ts[v].weight) then [ts[v]] else []
  }

  /** What one pass yields of a key from value `v` on. */
  function WantedFrom(ts: seq<Tuple>, second: bool, v: nat): seq<Tuple>
    decreases |ts| - v
  {
    if v >= |ts| then [] else Pick(ts, second, v) + WantedFrom(ts, second, v + 1)
  }

  /** What one pass yields from key `k` on. */
  function KeysFrom(gs: Groups, second: bool, k: nat): seq<Tuple>
    decreases |gs| - k
  {
    if k >= |gs| then [] else WantedFrom(gs[k], second, 0) + KeysFrom(gs, second, k + 1)
  }

  lemma {:induction false} WantedFromSlice(ts: seq<Tuple>, second: bool, v: nat)
    requires v <= |ts|
    ensures WantedFrom(ts, second, v) == Wanted(ts[v..], second)
    decreases |ts| - v
  {
    if v < |ts| {
      WantedFromSlice(ts, second, v + 1);
      assert ts[v..][1..] == ts[v + 1..];
    }
  }

  lemma {:induction false} KeysFromSlice(gs: Groups, second: bool, k: nat)
    requires k <= |gs|
    ensures KeysFrom(gs, second, k) == WantedAll(gs[k..], second)
    decreases |gs| - k
  {
    if k < |gs| {
      KeysFromSlice(gs, second, k + 1);
      WantedFromSlice(gs[k], second, 0);
      assert gs[k][0..] == gs[k] && gs[k..][1..] == gs[k + 1..];
    }
  }

  /** What a cursor standing at value `v` of key `k` in the given pass still has to yield. */
  function From(gs: Groups, second: bool, k: nat, v: nat): seq<Tuple>
  {
    (if k < |gs| then WantedFrom(gs[k], second, v) else []) + AfterKey(gs, second, k)
  }

  function AfterKey(gs: Groups, second: bool, k: nat): seq<Tuple>
  {
    KeysFrom(gs, second, k + 1) + if second then [] else KeysFrom(gs, true, 0)
  }

  lemma FromKey(gs: Groups, second: bool, k: nat)
    ensures From(gs, second, k, 0) == KeysFrom(gs, second, k) + if second then [] else KeysFrom(gs, true, 0)
  {
    if k < |gs| {
      Assoc(WantedFrom(gs[k], second, 0), KeysFrom(gs, second, k + 1), if second then [] else KeysFrom(gs, true, 0));
    }
  }

  lemma FromStart(gs: Groups)
    ensures From(gs, false, 0, 0) == Emission(gs)
  {
    FromKey(gs, false, 0);
    KeysFromSlice(gs, false, 0);
    KeysFromSlice(gs, true, 0);
    assert gs[0..] == gs;
  }

  function CurrentAt(gs: Groups, second: bool, k: nat, v: nat): seq<Tuple>
  {
    if k < |gs| then Pick(gs[k], second, v) else []
  }

  function NextVal(gs: Groups, k: nat, v: nat): nat
  {
    if k < |gs| && v < |gs[k]| then v + 1 else v
  }

  /** Moving past a tuple that the pass does not want loses nothing; past one it wants, just it. */
  lemma FromStep(gs: Groups, second: bool, k: nat, v: nat)
    ensures From(gs, second, k, v) == CurrentAt(gs, second, k, v) + From(gs, second, k, NextVal(gs, k, v))
  {
    if k < |gs| && v < |gs[k]| {
      Assoc(Pick(gs[k], second, v), WantedFrom(gs[k], second, v + 1), AfterKey(gs, second, k));
    }
  }

  /** The position that follows the end of key `k`. */
  function NextKey(gs: Groups, second: bool, k: nat): (bool, nat)
  {
    if k + 1 >= |gs| && !second then (true, 0) else (second, k + 1)
  }

  lemma FromEndOfKey(gs: Groups, second: bool, k: nat)
    ensures k < |gs| ==> From(gs, second, k, |gs[k]|) == AfterKey(gs, second, k)
    ensures AfterKey(gs, second, k) == From(gs, NextKey(gs, second, k).0, NextKey(gs, second, k).1, 0)
  {
    FromKey(gs, second, k + 1);
    FromKey(gs, true, 0);
  }

  /** Beyond the last key of the second pass nothing is left. */
  lemma FromEnd(gs: Groups, second: bool, k: nat)
    requires k >= |gs| && (second || gs == [])
    ensures From(gs, second, k, 0) == [] == AfterKey(gs, second, k)
  {
  }

  class CursorWithPolarity {
    const cursor: SerCursor
    var secondPass: bool

    /** What is left to yield. */
    ghost function Remaining(): seq<Tuple>
      reads this, cursor
    {
      From(cursor.groups, secondPass, cursor.key, cursor.val)
    }

    /** The tuple under the cursor, if the current pass wants it. */
    ghost function Current(): seq<Tuple>
      reads this, cursor
    {
      CurrentAt(cursor.groups, secondPass, cursor.key, cursor.val)
    }

    ghost predicate InRange()
      reads this, cursor
    {
      if cursor.KeyValid() then cursor.val <= |cursor.groups[cursor.key]|
      else cursor.val == 0 && (secondPass || cursor.groups == [])
    }

    /** The cursor never rests on a tuple that the current pass does not want. */
    ghost predicate Settled()
      reads this, cursor
    {
      InRange() && (cursor.ValValid() ==> Wants(secondPass, cursor.Weight()))
    }

    ghost function Left(): nat
      reads cursor
    {
      if cursor.ValValid() then |cursor.groups[cursor.key]| - cursor.val else 0
    }

    constructor (cursor: SerCursor)
      requires cursor.key == cursor.val == 0
      modifies cursor
      ensures this.cursor == cursor && Settled()
      ensures Remaining() == Emission(cursor.groups)
    {
      this.cursor, secondPass := cursor, false;
      new;
      FromStart(cursor.groups);
      if cursor.KeyValid() {
        AdvanceVal();
      }
    }

    method AdvanceVal()
      requires InRange()
      modifies cursor`val
      ensures Settled() && Remaining() == old(Remaining()) && cursor.val >= old(cursor.val)
      decreases Left(), 1
    {
      while cursor.ValValid() &&
            ((!secondPass && cursor.Weight() >= 0) || (secondPass && cursor.Weight() <= 0))
        invariant InRange()
        invariant Remaining() == old(Remaining()) && cursor.val >= old(cursor.val)
        decreases Left()
      {
        StepVal();
      }
    }

    method StepVal()
      requires InRange()
      modifies cursor`val
      ensures Settled() && cursor.val >= old(cursor.val)
      ensures old(cursor.ValValid()) ==> cursor.val > old(cursor.val)
      ensures old(Remaining()) == old(Current()) + Remaining()
      decreases Left(), if cursor.ValValid() then 0 else 2
    {
      MoveVal();
      AdvanceVal();
    }

    method MoveVal()
      requires InRange()
      modifies cursor`val
      ensures InRange() && cursor.val == NextVal(cursor.groups, cursor.key, old(cursor.val))
      ensures old(Remaining()) == old(Current()) + Remaining()
    {
      FromStep(cursor.groups, secondPass, cursor.key, cursor.val);
      cursor.StepVal();
    }

    /** Skips what is left of the current key; the end of the first pass starts the second. */
    method StepKey()
      requires InRange()
      modifies this`secondPass, cursor
      ensures Settled() && Remaining() == AfterKey(cursor.groups, old(secondPass), old(cursor.key))
      ensures old(cursor.KeyValid()) ==>
                (secondPass, cursor.key) == NextKey(cursor.groups, old(secondPass), old(cursor.key))
    {
      ghost var gs, second, k := cursor.groups, secondPass, cursor.key;
      if cursor.KeyValid() {
        FromEndOfKey(gs, second, k);
      } else {
        FromEnd(gs, second, k);
        FromEnd(gs, true, |gs|);
      }
      MoveKey();
      assert Remaining() == AfterKey(gs, second, k);
      if cursor.KeyValid() {
        AdvanceVal();
      }
    }

    method MoveKey()
      requires InRange()
      modifies this`secondPass, cursor
      ensures InRange() && cursor.val == 0
      ensures if old(cursor.KeyValid())
              then (secondPass, cursor.key) == NextKey(cursor.groups, old(secondPass), old(cursor.key))
              else secondPass || cursor.groups == []
      ensures !old(cursor.KeyValid()) ==> !cursor.KeyValid()
    {
      cursor.StepKey();
      if !cursor.KeyValid() && !secondPass {
        cursor.RewindKeys();
        secondPass := true;
      }
    }

    /** From any point, starts the same sequence again. */
    method RewindKeys()
      modifies this`secondPass, cursor
      ensures Settled() && Remaining() == Emission(cursor.groups)
    {
      cursor.RewindKeys();
      secondPass := false;
      FromStart(cursor.groups);
      if cursor.KeyValid() {
        AdvanceVal();
      }
    }

    method RewindVals()
      requires !cursor.KeyValid() ==> secondPass || cursor.groups == []
      modifies cursor`val
      ensures Settled() && Remaining() == From(cursor.groups, secondPass, cursor.key, 0)
    {
      cursor.RewindVals();
      AdvanceVal();
    }
  }

  /** The nested key/value loop of an encoder terminates and yields what was left, in order. */
  method Drain(c: CursorWithPolarity) returns (out: seq<Tuple>)
    requires c.Settled()
    modifies c, c.cursor
    ensures out == old(c.Remaining())
  {
    out := [];
    while c.cursor.KeyValid()
      invariant c.Settled()
      invariant out + c.Remaining() == old(c.Remaining())
      decreases !c.secondPass, |c.cursor.groups| - c.cursor.key
    {
      ghost var pass, key := c.secondPass, c.cursor.key;
      while c.cursor.ValValid()
        invariant c.Settled() && c.secondPass == pass && c.cursor.key == key
        invariant out + c.Remaining() == old(c.Remaining())
        decreases c.Left()
      {
        var t := c.cursor.groups[c.cursor.key][c.cursor.val];
        ghost var before := c.Remaining();
        c.StepVal();
        Assoc(out, [t], c.Remaining());
        out := out + [t];
      }
      FromEndOfKey(c.cursor.groups, c.secondPass, c.cursor.key);
      c.StepKey();
    }
    FromEnd(c.cursor.groups, c.secondPass, c.cursor.key);
    assert out + [] == out;
  }

  /** The default `count_keys` of a cursor: over this one, each key is counted once per pass. */
  method CountKeys(c: CursorWithPolarity) returns (count: nat)
    requires c.Settled() && c.cursor.key == 0 && !c.secondPass
    modifies c, c.cursor
    ensures count == 2 * |c.cursor.groups|
  {
    count := 0;
    while c.cursor.KeyValid()
      invariant c.Settled() && c.cursor.key <= |c.cursor.groups|
      invariant c.cursor.groups != [] ==>
                  count == c.cursor.key + if c.secondPass then |c.cursor.groups| else 0
      invariant c.cursor.groups == [] ==> count == 0
      decreases !c.secondPass, |c.cursor.groups| - c.cursor.key
    {
      count := count + 1;
      c.StepKey();
    }
  }

  // ---------------------------------------------------------------- unique keys

  /** No two rows of the table share a unique key. */
  ghost predicate Unique<U(!new)>(table: set<Row>, u: Row -> U)
  {
    forall a, b | a in table && b in table && u(a) == u(b) :: a == b
  }

  function Rows(ts: seq<Tuple>): set<Row>
  {
    set i | 0 <= i < |ts| :: ts[i].row
  }

  ghost predicate Distinct(ts: seq<Tuple>)
  {
    forall i, j | 0 <= i < j < |ts| :: ts[i].row != ts[j].row
  }

  /** Tuple by tuple: a deletion removes its row, an insertion adds it. */
  function Apply(table: set<Row>, ts: seq<Tuple>): set<Row>
    decreases ts
  {
    if ts == [] then table
    else Apply(if ts[0].weight < 0 then table - {ts[0].row} else table + {ts[0].row}, ts[1..])
  }

  /** Along the way, every deleted row is there, and no row is inserted whose unique key is taken. */
  ghost predicate Safe<U(!new)>(table: set<Row>, ts: seq<Tuple>, u: Row -> U)
    decreases ts
  {
    ts == [] ||
    if ts[0].weight < 0 then ts[0].row in table && Safe(table - {ts[0].row}, ts[1..], u)
    else (forall r | r in table :: u(r) != u(ts[0].row)) && Safe(table + {ts[0].row}, ts[1..], u)
  }

  function Flatten(gs: Groups): seq<Tuple>
  {
    if gs == [] then [] else gs[0] + Flatten(gs[1..])
  }

  /** `gs` is the consolidated difference between two tables: each row once, and with weight 1 if it
      appears, -1 if it disappears and 0 otherwise. */
  ghost predicate Delta(gs: Groups, before: set<Row>, after: set<Row>)
  {
    var ts := Flatten(gs);
    && Distinct(ts)
    && (forall t | t in ts :: t.weight == (if t.row in after then 1 else 0) - (if t.row in before then 1 else 0))
    && (forall r | r in before + after && !(r in before && r in after) :: r in Rows(ts))
  }

  lemma RowsTail(ts: seq<Tuple>)
    requires ts != []
    ensures Rows(ts) == {ts[0].row} + Rows(ts[1..])
    ensures Distinct(ts) ==> Distinct(ts[1..]) && ts[0].row !in Rows(ts[1..])
  {
    forall r | r in Rows(ts) ensures r in {ts[0].row} + Rows(ts[1..]) {
      var i :| 0 <= i < |ts| && ts[i].row == r;
      if i > 0 { assert ts[1..][i - 1].row == r; }
    }
    forall r | r in Rows(ts[1..]) ensures r in Rows(ts) {
      var i :| 0 <= i < |ts[1..]| && ts[1..][i].row == r;
      assert ts[i + 1].row == r;
    }
  }

  lemma {:induction false} DeletionsSafe<U(!new)>(table: set<Row>, ds: seq<Tuple>, ins: seq<Tuple>, u: Row -> U)
    requires Distinct(ds) && (forall d | d in ds :: d.weight < 0) && Rows(ds) <= table
    ensures Apply(table, ds + ins) == Apply(table - Rows(ds), ins)
    ensures Safe(table, ds + ins, u) == Safe(table - Rows(ds), ins, u)
  {
    if ds == [] {
      assert ds + ins == ins && table - Rows(ds) == table;
    } else {
      RowsTail(ds);
      assert (ds + ins)[1..] == ds[1..] + ins;
      DeletionsSafe(table - {ds[0].row}, ds[1..], ins, u);
      assert table - {ds[0].row} - Rows(ds[1..]) == table - Rows(ds);
    }
  }

  lemma {:induction false} InsertionsSafe<U(!new)>(table: set<Row>, ins: seq<Tuple>, after: set<Row>, u: Row -> U)
    requires Distinct(ins) && (forall i | i in ins :: i.weight > 0)
    requires Rows(ins) !! table && Rows(ins) + table <= after && Unique(after, u)
    ensures Apply(table, ins) == table + Rows(ins)
    ensures Safe(table, ins, u)
    decreases ins
  {
    if ins == [] {
      assert table + Rows(ins) == table;
    } else {
      RowsTail(ins);
      InsertionsSafe(table + {ins[0].row}, ins[1..], after, u);
    }
  }

  lemma {:induction false} WantedAppend(a: seq<Tuple>, b: seq<Tuple>, second: bool)
    ensures Wanted(a + b, second) == Wanted(a, second) + Wanted(b, second)
  {
    if a == [] {
      assert a + b == b;
    } else {
      assert (a + b)[1..] == a[1..] + b;
      WantedAppend(a[1..], b, second);
      var first := if Wants(second, a[0].weight) then [a[0]] else [];
      Assoc(first, Wanted(a[1..], second), Wanted(b, second));
    }
  }

  lemma {:induction false} WantedAllFlat(gs: Groups, second: bool)
    ensures WantedAll(gs, second) == Wanted(Flatten(gs), second)
  {
    if gs != [] {
      WantedAllFlat(gs[1..], second);
      WantedAppend(gs[0], Flatten(gs[1..]), second);
    }
  }

  lemma {:induction false} WantedIsFilter(ts: seq<Tuple>, second: bool)
    ensures forall t :: t in Wanted(ts, second) <==> t in ts && if second then t.weight > 0 else t.weight < 0
    ensures Distinct(ts) ==> Distinct(Wanted(ts, second))
  {
    if ts != [] {
      WantedIsFilter(ts[1..], second);
      assert forall t :: t in ts <==> t == ts[0] || t in ts[1..];
      if Distinct(ts) {
        RowsTail(ts);
        var w := Wanted(ts[1..], second);
        forall i | 0 <= i < |w| ensures w[i].row != ts[0].row {
          assert w[i] in ts[1..];
        }
      }
    }
  }

  /** Applying the difference between two tables in the order in which the two-pass cursor yields it
      never inserts a row whose unique key is present, and ends at the new table. */
  lemma UniqueKeySafety<U(!new)>(gs: Groups, before: set<Row>, after: set<Row>, u: Row -> U)
    requires Delta(gs, before, after) && Unique(before, u) && Unique(after, u)
    ensures Safe(before, Emission(gs), u)
    ensures Apply(before, Emission(gs)) == after
  {
    var ts := Flatten(gs);
    var ds, ins := Wanted(ts, false), Wanted(ts, true);
    WantedAllFlat(gs, false);
    WantedAllFlat(gs, true);
    WantedIsFilter(ts, false);
    WantedIsFilter(ts, true);
    forall r ensures r in Rows(ds) <==> r in before && r !in after
             ensures r in Rows(ins) <==> r in after && r !in before {
      RowsOfDelta(ts, ds, ins, before, after, r);
    }
    DeletionsSafe(before, ds, ins, u);
    InsertionsSafe(before - Rows(ds), ins, after, u);
    assert before - Rows(ds) + Rows(ins) == after;
  }

  lemma RowsOfDelta(
      ts: seq<Tuple>, ds: seq<Tuple>, ins: seq<Tuple>, before: set<Row>, after: set<Row>, r: Row)
    requires forall t | t in ts :: t.weight == (if t.row in after then 1 else 0) - (if t.row in before then 1 else 0)
    requires r in before + after && !(r in before && r in after) ==> r in Rows(ts)
    requires forall t :: t in ds <==> t in ts && t.weight < 0
    requires forall t :: t in ins <==> t in ts && t.weight > 0
    ensures r in Rows(ds) <==> r in before && r !in after
    ensures r in Rows(ins) <==> r in after && r !in before
  {
    if r in Rows(ds) {
      var i :| 0 <= i < |ds| && ds[i].row == r;
      assert ds[i] in ts;
    }
    if r in Rows(ins) {
      var i :| 0 <= i < |ins| && ins[i].row == r;
      assert ins[i] in ts;
    }
    if r in before + after && !(r in before && r in after) {
      var i :| 0 <= i < |ts| && ts[i].row == r;
      var t := ts[i];
      assert t in ts;
      assert t in ds || t in ins;
      if t in ds {
        var j :| 0 <= j < |ds| && ds[j] == t;
      } else {
        var j :| 0 <= j < |ins| && ins[j] == t;
      }
    }
  }

  /** Without the two passes the guarantee fails: replacing a row by another one with the same unique
      key, in an order in which the new row comes first. */
  lemma OnePassIsUnsafe<U(!new)>(oldRow: Row, newRow: Row, u: Row -> U)
    requires oldRow != newRow && u(oldRow) == u(newRow)
    ensures var gs := [[Tuple(newRow, 1)], [Tuple(oldRow, -1)]];
      && Delta(gs, {oldRow}, {newRow}) && Unique({oldRow}, u) && Unique({newRow}, u)
      && !Safe({oldRow}, Flatten(gs), u)
  {
    var gs := [[Tuple(newRow, 1)], [Tuple(oldRow, -1)]];
    assert gs[1..] == [[Tuple(oldRow, -1)]] && gs[1..][1..] == [];
    var ts := [Tuple(newRow, 1), Tuple(oldRow, -1)];
    assert Flatten(gs[1..]) == [Tuple(oldRow, -1)] + Flatten([]);
    assert Flatten(gs) == ts;
    assert ts[0].row in Rows(ts) && ts[1].row in Rows(ts);
  }
}
