/** The live-ownership ledger (`crates/usai-runtime/src/ownership.rs`).

    A `Book` is what the ledger means: the record of every live operation and the
    ids handed out so far. `Ledger` is how it is kept: two maps and a gauge that
    every method must keep in agreement with the book. */
module Ledgers {
  import opened Wrappers

  type WorldId = nat
  type OpId = nat

  datatype OpState = Running | LogicallyCancelled

  datatype OpRecord = OpRecord(op: OpId, world: WorldId, kind: string, state: OpState)

  datatype Book = Book(records: map<OpId, OpRecord>, lastWorld: nat, lastOp: nat)

  /** Every record is filed under its own id, and no id above `lastOp` is in use. */
  ghost predicate Sound(b: Book)
  {
    forall op | op in b.records :: b.records[op].op == op && 1 <= op <= b.lastOp
  }

  function Opened(b: Book, world: WorldId, kind: string): Book
  {
    var op := b.lastOp + 1;
    b.(records := b.records[op := OpRecord(op, world, kind, Running)], lastOp := op)
  }

  function Cancelled(r: OpRecord): OpRecord
  {
    r.(state := LogicallyCancelled)
  }

  function WithWorldCancelled(b: Book, world: WorldId): Book
  {
    b.(records := map op | op in b.records ::
         if b.records[op].world == world then Cancelled(b.records[op]) else b.records[op])
  }

  ghost function CancelledIn(records: map<OpId, OpRecord>, ops: seq<OpId>): map<OpId, OpRecord>
  {
    map op | op in records :: if op in ops then Cancelled(records[op]) else records[op]
  }

  lemma CancelledOneMore(records: map<OpId, OpRecord>, ops: seq<OpId>, i: nat)
    requires i < |ops|
    ensures var done := CancelledIn(records, ops[..i]);
            CancelledIn(records, ops[..i + 1]) == if ops[i] in done then done[ops[i] := Cancelled(done[ops[i]])] else done
  {
    assert ops[..i + 1] == ops[..i] + [ops[i]];
  }

  predicate Owns(b: Book, world: WorldId, op: OpId)
  {
    op in b.records && b.records[op].world == world
  }

  function WithOpCancelled(b: Book, op: OpId, world: WorldId): Book
  {
    if Owns(b, world, op) then b.(records := b.records[op := Cancelled(b.records[op])]) else b
  }

  predicate Deliverable(b: Book, world: WorldId, op: OpId)
  {
    Owns(b, world, op) && b.records[op].state == Running
  }

  function Released(b: Book, op: OpId): Book
  {
    b.(records := b.records - {op})
  }

  /** All records of `world` with an id of at most `n`, in id order: a plain filter
      over every record, which is what `outstanding_for` has to agree with. */
  function RecordsUpTo(b: Book, world: WorldId, n: nat): seq<OpRecord>
  {
    if n == 0 then []
    else RecordsUpTo(b, world, n - 1) + if Owns(b, world, n) then [b.records[n]] else []
  }

  function RecordsOf(b: Book, world: WorldId): seq<OpRecord>
  {
    RecordsUpTo(b, world, b.lastOp)
  }

  ghost predicate Increasing(s: seq<nat>)
  {
    forall i, j | 0 <= i < j < |s| :: s[i] < s[j]
  }

  ghost predicate Lists(b: Book, w: WorldId, ops: seq<OpId>)
  {
    Increasing(ops) && forall op :: op in ops <==> Owns(b, w, op)
  }

  /** `byWorld` files every record once under its world, and files no empty list. */
  ghost predicate IsIndex(b: Book, byWorld: map<WorldId, seq<OpId>>)
  {
    && (forall w | w in byWorld :: byWorld[w] != [] && Lists(b, w, byWorld[w]))
    && (forall op | op in b.records :: b.records[op].world in byWorld)
  }

  /** What the two maps and the gauge owe the book. */
  ghost predicate Keeps(b: Book, byWorld: map<WorldId, seq<OpId>>, liveOps: int)
  {
    Sound(b) && IsIndex(b, byWorld) && liveOps == |b.records|
  }

  /** Two increasing sequences with the same elements are the same sequence. */
  lemma {:induction false} IncreasingUnique(s: seq<nat>, t: seq<nat>)
    requires Increasing(s) && Increasing(t)
    requires forall x :: x in s <==> x in t
    ensures s == t
  {
    if s == [] {
      assert forall k | 0 <= k < |t| :: t[k] in s;
    } else {
      assert s[|s| - 1] in t;
      assert t[|t| - 1] in s;
      var a, c := s[..|s| - 1], t[..|t| - 1];
      assert s[|s| - 1] == t[|t| - 1];
      forall x ensures x in a <==> x in c {
        if x in a { assert x in s && x < s[|s| - 1]; }
        if x in c { assert x in t && x < t[|t| - 1]; }
      }
      IncreasingUnique(a, c);
      assert s == a + [s[|s| - 1]] && t == c + [t[|t| - 1]];
    }
  }

  /** The index carries no information of its own: the records determine it. */
  lemma IndexIsDetermined(b: Book, x: map<WorldId, seq<OpId>>, y: map<WorldId, seq<OpId>>)
    requires IsIndex(b, x) && IsIndex(b, y)
    ensures x == y
  {
    forall w | w in x ensures w in y && x[w] == y[w] {
      assert Owns(b, w, x[w][0]);
      IncreasingUnique(x[w], y[w]);
    }
    forall w | w in y ensures w in x {
      assert Owns(b, w, y[w][0]);
    }
  }

  lemma ListsOpened(b: Book, world: WorldId, kind: string, w: WorldId, ops: seq<OpId>)
    requires Sound(b) && Lists(b, w, ops)
    ensures Lists(Opened(b, world, kind), w, if w == world then ops + [b.lastOp + 1] else ops)
  {
    assert forall i | 0 <= i < |ops| :: ops[i] in ops && Owns(b, w, ops[i]);
    assert forall o | o != b.lastOp + 1 :: Owns(Opened(b, world, kind), w, o) <==> Owns(b, w, o);
    assert !Owns(b, w, b.lastOp + 1);
  }

  lemma OpenedKeeps(b: Book, byWorld: map<WorldId, seq<OpId>>, liveOps: int, world: WorldId, kind: string)
    requires Keeps(b, byWorld, liveOps)
    ensures var ops := if world in byWorld then byWorld[world] else [];
      Keeps(Opened(b, world, kind), byWorld[world := ops + [b.lastOp + 1]], liveOps + 1)
  {
    var b' := Opened(b, world, kind);
    var ops := if world in byWorld then byWorld[world] else [];
    var index := byWorld[world := ops + [b.lastOp + 1]];
    assert Lists(b, world, ops) by {
      if world !in byWorld { assert forall o :: !Owns(b, world, o); }
    }
    forall w | w in index ensures index[w] != [] && Lists(b', w, index[w]) {
      ListsOpened(b, world, kind, w, if w == world then ops else byWorld[w]);
    }
  }

  /** Cancelling changes no ownership. */
  lemma CancelledKeeps(b: Book, b': Book, byWorld: map<WorldId, seq<OpId>>, liveOps: int)
    requires Keeps(b, byWorld, liveOps) && b' == b.(records := b'.records)
    requires b'.records.Keys == b.records.Keys
    requires forall op | op in b.records ::
        b'.records[op].world == b.records[op].world && b'.records[op].op == b.records[op].op
    ensures Keeps(b', byWorld, liveOps)
  {
    assert |b'.records| == |b'.records.Keys| && |b.records| == |b.records.Keys|;
    forall w | w in byWorld ensures Lists(b', w, byWorld[w]) {
      assert Lists(b, w, byWorld[w]);
      assert forall op :: Owns(b', w, op) <==> Owns(b, w, op);
    }
  }

  lemma ReleasedKeeps(b: Book, byWorld: map<WorldId, seq<OpId>>, liveOps: int, op: OpId, kept: seq<OpId>)
    requires Keeps(b, byWorld, liveOps) && op in b.records && Increasing(kept)
    requires forall o :: o in kept <==> o in byWorld[b.records[op].world] && o != op
    ensures var w := b.records[op].world;
      Keeps(Released(b, op), if kept == [] then byWorld - {w} else byWorld[w := kept], liveOps - 1)
  {
    var w, b' := b.records[op].world, Released(b, op);
    var index := if kept == [] then byWorld - {w} else byWorld[w := kept];
    assert b'.records.Keys == b.records.Keys - {op};
    assert forall v, o :: Owns(b', v, o) <==> Owns(b, v, o) && o != op;
    assert Lists(b, w, byWorld[w]);
    forall v | v in index ensures index[v] != [] && Lists(b', v, index[v]) {
      if v != w { assert Lists(b, v, byWorld[v]); }
    }
    forall o | o in b'.records ensures b'.records[o].world in index {
      if b'.records[o].world == w { assert Owns(b, w, o); assert o in kept; }
    }
  }

  function Ids(rs: seq<OpRecord>): (ids: seq<OpId>)
    ensures |ids| == |rs| && forall k | 0 <= k < |rs| :: ids[k] == rs[k].op
  {
    seq(|rs|, k requires 0 <= k < |rs| => rs[k].op)
  }

  lemma {:induction false} RecordsUpToExact(b: Book, world: WorldId, n: nat)
    requires Sound(b)
    ensures var rs := RecordsUpTo(b, world, n);
      && Increasing(Ids(rs))
      && (forall k | 0 <= k < |rs| :: Owns(b, world, rs[k].op) && rs[k] == b.records[rs[k].op] && rs[k].op <= n)
      && (forall op | 1 <= op <= n && Owns(b, world, op) :: b.records[op] in rs)
  {
    if n > 0 {
      RecordsUpToExact(b, world, n - 1);
    }
  }

  /** A list of records that is increasing in id and lists exactly the records of
      `world` is the filter. */
  lemma RecordsOfUnique(b: Book, world: WorldId, rs: seq<OpRecord>)
    requires Sound(b)
    requires Increasing(Ids(rs))
    requires forall k | 0 <= k < |rs| :: Owns(b, world, rs[k].op) && rs[k] == b.records[rs[k].op]
    requires forall op | Owns(b, world, op) :: op in Ids(rs)
    ensures rs == RecordsOf(b, world)
  {
    var all := RecordsOf(b, world);
    RecordsUpToExact(b, world, b.lastOp);
    forall op ensures op in Ids(rs) <==> op in Ids(all) {
      if op in Ids(rs) {
        assert Owns(b, world, op);
        var k :| 0 <= k < |all| && all[k] == b.records[op];
        assert Ids(all)[k] == op;
      }
      if op in Ids(all) {
        assert Owns(b, world, op);
      }
    }
    IncreasingUnique(Ids(rs), Ids(all));
    assert forall k | 0 <= k < |rs| :: rs[k].op == Ids(rs)[k] && all[k].op == Ids(all)[k];
  }

  /** A world's entry, or its absence, lists its operations. */
  lemma ListedOps(b: Book, byWorld: map<WorldId, seq<OpId>>, w: WorldId)
    requires IsIndex(b, byWorld)
    ensures Lists(b, w, if w in byWorld then byWorld[w] else [])
  {
    if w !in byWorld {
      assert forall o :: !Owns(b, w, o);
    }
  }

  lemma CancelledInWorld(b: Book, world: WorldId, ops: seq<OpId>)
    requires Lists(b, world, ops)
    ensures CancelledIn(b.records, ops) == WithWorldCancelled(b, world).records
  {
    assert forall op | op in b.records :: op in ops <==> Owns(b, world, op);
  }

  lemma IdsOfRecords(b: Book, world: WorldId, ops: seq<OpId>)
    requires Sound(b) && Lists(b, world, ops)
    ensures ops == Ids(RecordsOf(b, world))
  {
    assert forall k | 0 <= k < |ops| :: ops[k] in ops && Owns(b, world, ops[k]);
    var rs := seq(|ops|, k requires 0 <= k < |ops| => b.records[ops[k]]);
    assert Ids(rs) == ops;
    RecordsOfUnique(b, world, rs);
  }

  /** One ledger per runtime. */
  class Ledger {
    var nextWorld: nat
    var nextOp: nat
    var byOp: map<OpId, OpRecord>
    var byWorld: map<WorldId, seq<OpId>>
    /** The `live_ops` gauge; an integer, so that an underflow would be visible. */
    var liveOps: int

    ghost function View(): Book
      reads this
    {
      Book(byOp, nextWorld, nextOp)
    }

    ghost predicate Valid()
      reads this
    {
      Keeps(View(), byWorld, liveOps)
    }

    constructor ()
      ensures Valid() && View() == Book(map[], 0, 0)
    {
      nextWorld, nextOp, byOp, byWorld, liveOps := 0, 0, map[], map[], 0;
    }

    method NextWorldId() returns (w: WorldId)
      requires Valid()
      modifies this
      ensures Valid()
      ensures View() == old(View()).(lastWorld := w) && w == old(nextWorld) + 1
    {
      nextWorld := nextWorld + 1;
      w := nextWorld;
    }

    method Start(world: WorldId, kind: string) returns (op: OpId)
      requires Valid()
      modifies this
      ensures Valid()
      ensures View() == Opened(old(View()), world, kind)
      ensures op == View().lastOp && op !in old(byOp)
    {
      nextOp := nextOp + 1;
      op := nextOp;
      byOp := byOp[op := OpRecord(op, world, kind, Running)];
      var ops := if world in byWorld then byWorld[world] else [];
      byWorld := byWorld[world := ops + [op]];
      liveOps := liveOps + 1;
      OpenedKeeps(old(View()), old(byWorld), old(liveOps), world, kind);
    }

    /** Returns the world's operations in the order they were started. */
    method CancelWorld(world: WorldId) returns (ops: seq<OpId>)
      requires Valid()
      modifies this`byOp
      ensures Valid()
      ensures View() == WithWorldCancelled(old(View()), world)
      ensures ops == Ids(RecordsOf(old(View()), world))
    {
      ops := if world in byWorld then byWorld[world] else [];
      ghost var before := View();
      ListedOps(before, byWorld, world);
      var i := 0;
      while i < |ops|
        invariant 0 <= i <= |ops|
        invariant byOp == CancelledIn(before.records, ops[..i])
      {
        CancelledOneMore(before.records, ops, i);
        if ops[i] in byOp {
          byOp := byOp[ops[i] := Cancelled(byOp[ops[i]])];
        }
        i := i + 1;
      }
      assert ops[..|ops|] == ops;
      CancelledInWorld(before, world, ops);
      CancelledKeeps(before, View(), byWorld, liveOps);
      IdsOfRecords(before, world, ops);
    }

    method CancelOp(op: OpId, world: WorldId) returns (found: bool)
      requires Valid()
      modifies this`byOp
      ensures Valid()
      ensures View() == WithOpCancelled(old(View()), op, world)
      ensures found <==> Owns(old(View()), world, op)
    {
      found := op in byOp && byOp[op].world == world;
      if found {
        ghost var before := View();
        byOp := byOp[op := Cancelled(byOp[op])];
        CancelledKeeps(before, View(), byWorld, liveOps);
      }
    }

    method IsDeliverable(world: WorldId, op: OpId) returns (yes: bool)
      requires Valid()
      ensures yes <==> Deliverable(View(), world, op)
    {
      yes := op in byOp && byOp[op].world == world && byOp[op].state == Running;
    }

    /** Releases the record of `op` and returns it, if there is one. */
    method Release(op: OpId) returns (record: Option<OpRecord>)
      requires Valid()
      modifies this`byOp, this`byWorld, this`liveOps
      ensures Valid()
      ensures View() == Released(old(View()), op)
      ensures record == if op in old(byOp) then Some(old(byOp)[op]) else None
      ensures liveOps == old(liveOps) - (if record.Some? then 1 else 0) && liveOps >= 0
    {
      if op !in byOp {
        assert byOp == byOp - {op};
        return None;
      }
      ghost var before := View();
      record := Some(byOp[op]);
      var w := byOp[op].world;
      byOp := byOp - {op};
      liveOps := liveOps - 1;
      if w in byWorld {
        assert Lists(before, w, byWorld[w]);
        var kept := Without(byWorld[w], op);
        if kept == [] {
          byWorld := byWorld - {w};
        } else {
          byWorld := byWorld[w := kept];
        }
        ReleasedKeeps(before, old(byWorld), old(liveOps), op, kept);
      }
    }

    /** `retain(|o| o != op)`. */
    static method Without(ops: seq<OpId>, op: OpId) returns (kept: seq<OpId>)
      requires Increasing(ops)
      ensures Increasing(kept)
      ensures forall o :: o in kept <==> o in ops && o != op
    {
      kept := [];
      for i := 0 to |ops|
        invariant Increasing(kept)
        invariant forall o :: o in kept <==> o in ops[..i] && o != op
        invariant forall o | o in kept && i < |ops| :: o < ops[i]
      {
        assert forall k | 0 <= k < |kept| :: kept[k] in kept;
        assert ops[..i + 1] == ops[..i] + [ops[i]];
        if ops[i] != op {
          kept := kept + [ops[i]];
        }
      }
      assert ops[..|ops|] == ops;
    }

    method OutstandingFor(world: WorldId) returns (rs: seq<OpRecord>)
      requires Valid()
      ensures rs == RecordsOf(View(), world)
    {
      rs := [];
      if world in byWorld {
        var ops := byWorld[world];
        var i := 0;
        while i < |ops|
          invariant 0 <= i <= |ops| && |rs| == i
          invariant forall k | 0 <= k < i :: ops[k] in byOp && rs[k] == byOp[ops[k]]
        {
          assert Owns(View(), world, ops[i]);
          if ops[i] in byOp {
            rs := rs + [byOp[ops[i]]];
          }
          i := i + 1;
        }
        assert Ids(rs) == ops;
      } else {
        assert forall op :: !Owns(View(), world, op);
      }
      RecordsOfUnique(View(), world, rs);
    }

    method LiveRecords() returns (n: nat)
      requires Valid()
      ensures n == |View().records| == liveOps
    {
      n := |byOp|;
    }
  }

  /** RAII owner of one record: whether it is released by hand or dropped, and even
      if both happen, the record goes exactly once. */
  class OpGuard {
    const ledger: Ledger
    const op: OpId
    var released: bool

    constructor (ledger: Ledger, op: OpId)
      ensures this.ledger == ledger && this.op == op && !released
    {
      this.ledger, this.op, released := ledger, op, false;
    }

    method Release()
      requires ledger.Valid() && !released
      modifies this, ledger`byOp, ledger`byWorld, ledger`liveOps
      ensures ledger.Valid() && released
      ensures ledger.View() == Released(old(ledger.View()), op)
    {
      released := true;
      var _ := ledger.Release(op);
      Drop();
    }

    method Drop()
      requires ledger.Valid()
      modifies ledger`byOp, ledger`byWorld, ledger`liveOps
      ensures ledger.Valid()
      ensures ledger.View() == if released then old(ledger.View()) else Released(old(ledger.View()), op)
    {
      if !released {
        var _ := ledger.Release(op);
      }
    }
  }
}
