/** Migrations: discovering files in order, and migrators that share one ledger
    (`crates/usai-runtime/src/db.rs`). Applying a file is one step that inserts its ledger row if absent. */
module Migrations {
  import opened Text
  import opened Wrappers

  datatype File = File(name: string, path: string, checksum: string)

  predicate Increasing(files: seq<File>)
  {
    forall i, j :: 0 <= i < j < |files| ==> Less(files[i].name, files[j].name)
  }

  // ---- Discovering --------------------------------------------------------------

  /** By name, then path. */
  predicate Before(a: File, b: File)
  {
    Less(a.name, b.name) || (a.name == b.name && !Less(b.path, a.path))
  }

  predicate Ordered(files: seq<File>)
  {
    forall i, j :: 0 <= i < j < |files| ==> files[i].name == files[j].name || Less(files[i].name, files[j].name)
  }

  function Insert(files: seq<File>, f: File): seq<File>
  {
    if files == [] then [f]
    else if Before(files[|files| - 1], f) then files + [f]
    else Insert(files[..|files| - 1], f) + [files[|files| - 1]]
  }

  predicate DistinctPaths(files: seq<File>)
  {
    forall i, j :: 0 <= i < j < |files| ==> files[i].path != files[j].path
  }

  lemma {:induction false} InsertKeepsPaths(files: seq<File>, f: File)
    requires DistinctPaths(files) && forall g :: g in files ==> g.path != f.path
    ensures DistinctPaths(Insert(files, f)) && forall g :: g in Insert(files, f) <==> g in files || g == f
    decreases |files|
  {
    if files != [] && !Before(files[|files| - 1], f) {
      var rest, last := files[..|files| - 1], files[|files| - 1];
      assert files == rest + [last];
      InsertKeepsPaths(rest, f);
      var r := Insert(rest, f);
      forall i | 0 <= i < |r| ensures r[i].path != last.path {
        assert r[i] in r;
      }
    }
  }

  lemma {:induction false} InsertOrders(files: seq<File>, f: File)
    requires Ordered(files)
    ensures Ordered(Insert(files, f)) && forall g :: g in Insert(files, f) <==> g in files || g == f
    decreases |files|
  {
    if files != [] {
      var rest, last := files[..|files| - 1], files[|files| - 1];
      assert files == rest + [last];
      LessTotal(last.name, f.name);
      if Before(last, f) {
        forall i | 0 <= i < |files| ensures files[i].name == f.name || Less(files[i].name, f.name) {
          if i < |rest| && Less(files[i].name, last.name) && Less(last.name, f.name) {
            LessTransitive(files[i].name, last.name, f.name);
          }
        }
      } else {
        InsertOrders(rest, f);
        var r := Insert(rest, f);
        forall i | 0 <= i < |r| ensures r[i].name == last.name || Less(r[i].name, last.name) {
          assert r[i] in r;
        }
      }
    }
  }

  function SortFiles(files: seq<File>): seq<File>
  {
    if files == [] then [] else Insert(SortFiles(files[..|files| - 1]), files[|files| - 1])
  }

  lemma {:induction false} SortOrders(files: seq<File>)
    requires DistinctPaths(files)
    ensures Ordered(SortFiles(files)) && DistinctPaths(SortFiles(files)) && forall g :: g in SortFiles(files) <==> g in files
    decreases |files|
  {
    if files != [] {
      var rest, last := files[..|files| - 1], files[|files| - 1];
      assert files == rest + [last];
      SortOrders(rest);
      InsertKeepsPaths(SortFiles(rest), last);
      InsertOrders(SortFiles(rest), last);
    }
  }

  /** `discover_migrations`: each path once, in order, and no name twice. */
  method Discover(found: seq<File>) returns (r: Result<seq<File>, (File, File)>)
    ensures r.Ok? ==> Increasing(r.value)
    ensures r.Ok? ==> (forall f :: f in r.value ==> f in found) && (forall f :: f in found ==> HasPath(r.value, f.path))
    ensures r.Err? ==>
      && r.error.0 in found && r.error.1 in found
      && r.error.0.name == r.error.1.name && r.error.0.path != r.error.1.path
  {
    var files := OncePerPath(found);
    SortOrders(files);
    var sorted := SortFiles(files);
    var same := SameNext(sorted);
    match same {
      case Some(i) =>
        assert sorted[i] in sorted && sorted[i + 1] in sorted;
        return Err((sorted[i], sorted[i + 1]));
      case None =>
        StrictIfNoneEqual(sorted);
        forall f | f in found ensures HasPath(sorted, f.path) {
          assert HasPath(files, f.path);
          var g :| g in files && g.path == f.path;
          assert g in sorted;
        }
        return Ok(sorted);
    }
  }

  method OncePerPath(found: seq<File>) returns (files: seq<File>)
    ensures DistinctPaths(files) && (forall f :: f in files ==> f in found)
    ensures forall f :: f in found ==> HasPath(files, f.path)
  {
    files := [];
    for i := 0 to |found|
      invariant DistinctPaths(files) && (forall f :: f in files ==> f in found)
      invariant forall k :: 0 <= k < i ==> HasPath(files, found[k].path)
    {
      if !HasPath(files, found[i].path) {
        var files' := files + [found[i]];
        assert found[i] in files';
        forall k | 0 <= k < i ensures HasPath(files', found[k].path) {
          assert HasPath(files, found[k].path);
          var g :| g in files && g.path == found[k].path;
          assert g in files';
        }
        forall j | 0 <= j < |files| ensures files[j].path != found[i].path {
          assert files[j] in files;
        }
        files := files';
      }
    }
  }

  method SameNext(files: seq<File>) returns (r: Option<nat>)
    ensures r.Some? ==> r.value + 1 < |files| && files[r.value].name == files[r.value + 1].name
    ensures r.None? ==> forall k :: 0 < k < |files| ==> files[k - 1].name != files[k].name
  {
    var i := 1;
    while i < |files|
      invariant 1 <= i && forall k :: 0 < k < i && k < |files| ==> files[k - 1].name != files[k].name
    {
      if files[i - 1].name == files[i].name {
        return Some(i - 1);
      }
      i := i + 1;
    }
    return None;
  }

  predicate HasPath(files: seq<File>, path: string)
  {
    exists g :: g in files && g.path == path
  }

  lemma StrictIfNoneEqual(files: seq<File>)
    requires Ordered(files) && forall k :: 0 < k < |files| ==> files[k - 1].name != files[k].name
    ensures Increasing(files)
  {
    forall i, j | 0 <= i < j < |files| ensures Less(files[i].name, files[j].name) {
      StrictBetween(files, i, j);
    }
  }

  lemma {:induction false} StrictBetween(files: seq<File>, i: nat, j: nat)
    requires i < j < |files| && Ordered(files) && forall k :: 0 < k < |files| ==> files[k - 1].name != files[k].name
    ensures Less(files[i].name, files[j].name)
    decreases j - i
  {
    assert Less(files[j - 1].name, files[j].name);
    if i < j - 1 {
      StrictBetween(files, i, j - 1);
      LessTransitive(files[i].name, files[j - 1].name, files[j].name);
    }
  }

  // ---- Migrators over one ledger --------------------------------------------------

  type Ledger = map<string, string>

  datatype Outcome = Running | Finished | Mismatched | Failed

  /** A `migrate` under way: what was applied when it began, and how far it is. */
  datatype Migrator = Migrator(files: seq<File>, snapshot: Ledger, next: nat, done: seq<string>, outcome: Outcome)

  datatype Entry = Entry(owner: nat, name: string, checksum: string)

  datatype State = State(ledger: Ledger, migrators: seq<Migrator>, log: seq<Entry>)

  datatype Step = Begin(files: seq<File>) | Turn(id: nat, works: bool)

  /** One turn of `migrate`'s loop, on the ledger as it then is; `works` is whether the SQL ran. */
  function Turned(m: Migrator, id: nat, ledger: Ledger, works: bool): (Migrator, Option<Entry>)
  {
    if m.outcome != Running then (m, None)
    else if m.next >= |m.files| then (m.(outcome := Finished), None)
    else
      var f := m.files[m.next];
      if f.name in m.snapshot then
        if m.snapshot[f.name] != f.checksum then (m.(outcome := Mismatched), None) else (m.(next := m.next + 1), None)
      else if !works then (m.(outcome := Failed), None)
      else if f.name in ledger then (m.(next := m.next + 1), None)
      else (m.(next := m.next + 1, done := m.done + [f.name]), Some(Entry(id, f.name, f.checksum)))
  }

  /** A step that is not possible does nothing. */
  function Apply(s: State, step: Step): State
  {
    match step
    case Begin(files) =>
      if Increasing(files) then s.(migrators := s.migrators + [Migrator(files, s.ledger, 0, [], Running)]) else s
    case Turn(id, works) =>
      if id >= |s.migrators| then s else
        var (m, entry) := Turned(s.migrators[id], id, s.ledger, works);
        var s' := s.(migrators := s.migrators[id := m]);
        match entry
        case None => s'
        case Some(e) => s'.(ledger := s.ledger[e.name := e.checksum], log := s.log + [e])
  }

  function Run(s: State, steps: seq<Step>): State
    decreases |steps|
  {
    if steps == [] then s else Apply(Run(s, steps[..|steps| - 1]), steps[|steps| - 1])
  }

  function Initial(ledger: Ledger): State
  {
    State(ledger, [], [])
  }

  // ---- What every run keeps ----------------------------------------------------------

  predicate Sub(a: Ledger, b: Ledger)
  {
    forall n :: n in a ==> n in b && b[n] == a[n]
  }

  /** Each name is logged once, and the ledger is what it was and the log. */
  predicate LogOk(initial: Ledger, ledger: Ledger, log: seq<Entry>)
  {
    && (forall i, j :: 0 <= i < j < |log| ==> log[i].name != log[j].name)
    && Sub(initial, ledger)
    && (forall i :: 0 <= i < |log| ==>
          log[i].name !in initial && log[i].name in ledger && ledger[log[i].name] == log[i].checksum)
    && (forall n :: n in ledger ==> n in initial || Logged(log, n))
  }

  predicate Logged(log: seq<Entry>, n: string)
  {
    exists e :: e in log && e.name == n
  }

  /** The names one migrator applied, in order. */
  function OwnNames(log: seq<Entry>, id: nat): seq<string>
  {
    if log == [] then []
    else OwnNames(log[..|log| - 1], id) + if log[|log| - 1].owner == id then [log[|log| - 1].name] else []
  }

  /** A file that a migrator is past: there with its own checksum when it began, or put there by it
      under its own checksum, or put there by another since. */
  predicate Past(f: File, m: Migrator, id: nat, log: seq<Entry>)
  {
    if f.name in m.snapshot then m.snapshot[f.name] == f.checksum
    else exists e :: e in log && e.name == f.name && (e.owner == id ==> e.checksum == f.checksum)
  }

  /** A name of one of the first `n` files. */
  predicate Among(name: string, files: seq<File>, n: nat)
  {
    exists k :: 0 <= k < n && k < |files| && files[k].name == name
  }

  predicate DoneOk(m: Migrator)
  {
    && (forall i, j :: 0 <= i < j < |m.done| ==> Less(m.done[i], m.done[j]))
    && (forall i, k :: 0 <= i < |m.done| && m.next <= k < |m.files| ==> Less(m.done[i], m.files[k].name))
    && (forall i :: 0 <= i < |m.done| ==> Among(m.done[i], m.files, m.next))
  }

  predicate MigratorOk(m: Migrator, id: nat, ledger: Ledger, log: seq<Entry>)
  {
    && m.next <= |m.files| && Increasing(m.files) && Sub(m.snapshot, ledger)
    && (forall k :: 0 <= k < m.next ==> Past(m.files[k], m, id, log))
    && m.done == OwnNames(log, id) && DoneOk(m)
    && (m.outcome == Finished ==> m.next == |m.files|)
    && (m.outcome == Mismatched ==>
          m.next < |m.files| && m.files[m.next].name in m.snapshot
          && m.snapshot[m.files[m.next].name] != m.files[m.next].checksum)
  }

  predicate MigratorsOk(initial: Ledger, ms: seq<Migrator>, ledger: Ledger, log: seq<Entry>)
  {
    ms != [] ==>
      && MigratorOk(ms[|ms| - 1], |ms| - 1, ledger, log) && Sub(initial, ms[|ms| - 1].snapshot)
      && MigratorsOk(initial, ms[..|ms| - 1], ledger, log)
  }

  lemma {:induction false} MigratorAt(initial: Ledger, ms: seq<Migrator>, ledger: Ledger, log: seq<Entry>, id: nat)
    requires MigratorsOk(initial, ms, ledger, log) && id < |ms|
    ensures MigratorOk(ms[id], id, ledger, log) && Sub(initial, ms[id].snapshot)
    decreases |ms|
  {
    if id < |ms| - 1 {
      MigratorAt(initial, ms[..|ms| - 1], ledger, log, id);
    }
  }

  /** One migrator's turn, where nothing is inserted. */
  lemma {:induction false} OneReplaced(initial: Ledger, ms: seq<Migrator>, ledger: Ledger, log: seq<Entry>, id: nat, m': Migrator)
    requires MigratorsOk(initial, ms, ledger, log) && id < |ms|
    requires MigratorOk(m', id, ledger, log) && Sub(initial, m'.snapshot)
    ensures MigratorsOk(initial, ms[id := m'], ledger, log)
    decreases |ms|
  {
    var n := |ms| - 1;
    if id < n {
      OneReplaced(initial, ms[..n], ledger, log, id, m');
      assert ms[id := m'][..n] == ms[..n][id := m'];
    } else {
      assert ms[id := m'][..n] == ms[..n];
    }
  }

  /** Another's insertion leaves every migrator in order. */
  lemma {:induction false} OthersAllKeep(initial: Ledger, ms: seq<Migrator>, ledger: Ledger, log: seq<Entry>, e: Entry)
    requires MigratorsOk(initial, ms, ledger, log) && e.owner >= |ms| && e.name !in ledger
    ensures MigratorsOk(initial, ms, ledger[e.name := e.checksum], log + [e])
    decreases |ms|
  {
    if ms != [] {
      OthersKeep(ms[|ms| - 1], |ms| - 1, ledger, log, e);
      OthersAllKeep(initial, ms[..|ms| - 1], ledger, log, e);
    }
  }

  lemma {:induction false} OneInserted(initial: Ledger, ms: seq<Migrator>, ledger: Ledger, log: seq<Entry>, id: nat, m': Migrator, e: Entry)
    requires MigratorsOk(initial, ms, ledger, log) && id < |ms| && e.owner == id && e.name !in ledger
    requires MigratorOk(m', id, ledger[e.name := e.checksum], log + [e]) && Sub(initial, m'.snapshot)
    ensures MigratorsOk(initial, ms[id := m'], ledger[e.name := e.checksum], log + [e])
    decreases |ms|
  {
    var n := |ms| - 1;
    if id < n {
      OthersKeep(ms[n], n, ledger, log, e);
      OneInserted(initial, ms[..n], ledger, log, id, m', e);
      assert ms[id := m'][..n] == ms[..n][id := m'];
    } else {
      OthersAllKeep(initial, ms[..n], ledger, log, e);
      assert ms[id := m'][..n] == ms[..n];
    }
  }

  predicate Inv(initial: Ledger, s: State)
  {
    && LogOk(initial, s.ledger, s.log)
    && (forall e :: e in s.log ==> e.owner < |s.migrators|)
    && MigratorsOk(initial, s.migrators, s.ledger, s.log)
  }

  lemma LogKeeps(initial: Ledger, ledger: Ledger, log: seq<Entry>, e: Entry)
    requires LogOk(initial, ledger, log) && e.name !in ledger
    ensures LogOk(initial, ledger[e.name := e.checksum], log + [e])
  {
    var log', ledger' := log + [e], ledger[e.name := e.checksum];
    assert e in log';
    forall n | n in ledger' && n !in initial ensures Logged(log', n) {
      if n != e.name {
        var o :| o in log && o.name == n;
        assert o in log';
      }
    }
  }

  lemma {:induction false} OwnNamesNone(log: seq<Entry>, id: nat)
    requires forall e :: e in log ==> e.owner != id
    ensures OwnNames(log, id) == []
    decreases |log|
  {
    if log != [] {
      assert log[|log| - 1] in log;
      OwnNamesNone(log[..|log| - 1], id);
    }
  }

  /** Another's turn leaves a migrator in order. */
  lemma OthersKeep(m: Migrator, id: nat, ledger: Ledger, log: seq<Entry>, e: Entry)
    requires MigratorOk(m, id, ledger, log) && e.owner != id && e.name !in ledger
    ensures MigratorOk(m, id, ledger[e.name := e.checksum], log + [e])
  {
    var log' := log + [e];
    assert log'[..|log|] == log;
    forall k | 0 <= k < m.next ensures Past(m.files[k], m, id, log') {
      PastGrows(m.files[k], m, id, log, e);
    }
  }

  lemma PastGrows(f: File, m: Migrator, id: nat, log: seq<Entry>, e: Entry)
    requires Past(f, m, id, log)
    ensures Past(f, m, id, log + [e])
  {
    if f.name !in m.snapshot {
      var o :| o in log && o.name == f.name && (o.owner == id ==> o.checksum == f.checksum);
      assert o in log + [e];
    }
  }

  /** A migrator's own turn, where nothing is inserted. */
  lemma QuietTurn(m: Migrator, id: nat, initial: Ledger, ledger: Ledger, log: seq<Entry>, works: bool)
    requires MigratorOk(m, id, ledger, log) && LogOk(initial, ledger, log)
    requires Sub(initial, m.snapshot)
    requires Turned(m, id, ledger, works).1 == None
    ensures MigratorOk(Turned(m, id, ledger, works).0, id, ledger, log)
  {
    var m' := Turned(m, id, ledger, works).0;
    if m'.next > m.next && m.files[m.next].name !in m.snapshot {
      var f := m.files[m.next];
      var e :| e in log && e.name == f.name;
      if e.owner == id {
        OwnNamesHave(log, id, e);
        var i :| 0 <= i < |m.done| && m.done[i] == f.name;
        LessIrreflexive(f.name);
      }
      assert Past(f, m', id, log);
    }
    forall k | 0 <= k < m'.next ensures Past(m'.files[k], m', id, log) {
      if k < m.next {
        assert Past(m.files[k], m, id, log);
      }
    }
  }

  lemma OwnTurn(m: Migrator, id: nat, ledger: Ledger, log: seq<Entry>, e: Entry)
    requires MigratorOk(m, id, ledger, log)
    requires m.next < |m.files| && e == Entry(id, m.files[m.next].name, m.files[m.next].checksum)
    requires m.outcome == Running && e.name !in ledger
    ensures MigratorOk(m.(next := m.next + 1, done := m.done + [e.name]), id, ledger[e.name := e.checksum], log + [e])
  {
    var m', log' := m.(next := m.next + 1, done := m.done + [e.name]), log + [e];
    assert log'[..|log|] == log;
    forall k | 0 <= k < m'.next ensures Past(m'.files[k], m', id, log') {
      if k < m.next {
        assert Past(m.files[k], m, id, log);
        PastGrows(m.files[k], m', id, log, e);
      } else {
        assert e in log';
      }
    }
  }

  lemma {:induction false} OwnNamesHave(log: seq<Entry>, id: nat, e: Entry)
    requires e in log && e.owner == id
    ensures e.name in OwnNames(log, id)
    decreases |log|
  {
    if log[|log| - 1] != e {
      assert log == log[..|log| - 1] + [log[|log| - 1]];
      OwnNamesHave(log[..|log| - 1], id, e);
    }
  }

  lemma BeginKeeps(initial: Ledger, s: State, files: seq<File>)
    requires Inv(initial, s)
    ensures Inv(initial, Apply(s, Begin(files)))
  {
    if Increasing(files) {
      var s' := Apply(s, Begin(files));
      OwnNamesNone(s.log, |s.migrators|);
      assert s'.migrators[..|s.migrators|] == s.migrators;
    }
  }

  /** What an inserting turn does to its migrator. */
  predicate Inserts(m: Migrator, id: nat, ledger: Ledger, m': Migrator, e: Entry)
  {
    && m.outcome == Running && m.next < |m.files| && e == Entry(id, m.files[m.next].name, m.files[m.next].checksum)
    && e.name !in ledger && m' == m.(next := m.next + 1, done := m.done + [e.name])
  }

  lemma TurnedInserts(m: Migrator, id: nat, ledger: Ledger, works: bool)
    requires Turned(m, id, ledger, works).1.Some?
    ensures Inserts(m, id, ledger, Turned(m, id, ledger, works).0, Turned(m, id, ledger, works).1.value)
  {
  }

  lemma TurnKeeps(initial: Ledger, s: State, id: nat, works: bool)
    requires Inv(initial, s) && id < |s.migrators|
    ensures Inv(initial, Apply(s, Turn(id, works)))
  {
    var m := s.migrators[id];
    var (m', entry) := Turned(m, id, s.ledger, works);
    MigratorAt(initial, s.migrators, s.ledger, s.log, id);
    match entry {
      case None =>
        QuietTurn(m, id, initial, s.ledger, s.log, works);
        OneReplaced(initial, s.migrators, s.ledger, s.log, id, m');
      case Some(e) =>
        TurnedInserts(m, id, s.ledger, works);
        LogKeeps(initial, s.ledger, s.log, e);
        OwnTurn(m, id, s.ledger, s.log, e);
        OneInserted(initial, s.migrators, s.ledger, s.log, id, m', e);
    }
  }

  lemma {:induction false} RunKeeps(initial: Ledger, steps: seq<Step>)
    ensures Inv(initial, Run(Initial(initial), steps))
    decreases |steps|
  {
    if steps != [] {
      var s := Run(Initial(initial), steps[..|steps| - 1]);
      RunKeeps(initial, steps[..|steps| - 1]);
      match steps[|steps| - 1] {
        case Begin(files) => BeginKeeps(initial, s, files);
        case Turn(id, works) =>
          if id < |s.migrators| {
            TurnKeeps(initial, s, id, works);
          }
      }
    }
  }

  // ---- The properties ------------------------------------------------------------------

  /** However migrators interleave, no name is applied twice, and what the ledger held it still holds. */
  lemma AppliedOnce(initial: Ledger, steps: seq<Step>)
    ensures var s := Run(Initial(initial), steps);
            && (forall i, j :: 0 <= i < j < |s.log| ==> s.log[i].name != s.log[j].name)
            && (forall e :: e in s.log ==> e.name !in initial && e.name in s.ledger && s.ledger[e.name] == e.checksum)
            && Sub(initial, s.ledger)
            && (forall n :: n in s.ledger ==> n in initial || Logged(s.log, n))
  {
    RunKeeps(initial, steps);
  }

  /** A successful `migrate` leaves every file in the ledger, under its own checksum unless another
      put it there since it began, and reports exactly what it applied, in increasing order. */
  lemma SuccessConverges(initial: Ledger, steps: seq<Step>, id: nat)
    requires var s := Run(Initial(initial), steps); id < |s.migrators| && s.migrators[id].outcome == Finished
    ensures var s := Run(Initial(initial), steps);
            var m := s.migrators[id];
            && m.done == OwnNames(s.log, id)
            && (forall i, j :: 0 <= i < j < |m.done| ==> Less(m.done[i], m.done[j]))
            && forall f :: f in m.files ==>
                 && f.name in s.ledger
                 && (s.ledger[f.name] == f.checksum
                     || (f.name !in m.snapshot && exists e :: e in s.log && e.name == f.name && e.owner != id))
  {
    RunKeeps(initial, steps);
    var s := Run(Initial(initial), steps);
    var m := s.migrators[id];
    MigratorAt(initial, s.migrators, s.ledger, s.log, id);
    forall f | f in m.files
      ensures f.name in s.ledger
      ensures s.ledger[f.name] == f.checksum
              || (f.name !in m.snapshot && exists e :: e in s.log && e.name == f.name && e.owner != id)
    {
      var k :| 0 <= k < |m.files| && m.files[k] == f;
      assert Past(m.files[k], m, id, s.log);
      if f.name !in m.snapshot {
        var e :| e in s.log && e.name == f.name && (e.owner == id ==> e.checksum == f.checksum);
        assert s.ledger[e.name] == e.checksum;
      }
    }
  }

  /** A mismatch is one the ledger had when the migrator began, and only files before it were applied. */
  lemma MismatchStops(initial: Ledger, steps: seq<Step>, id: nat)
    requires var s := Run(Initial(initial), steps); id < |s.migrators| && s.migrators[id].outcome == Mismatched
    ensures var s := Run(Initial(initial), steps);
            var m := s.migrators[id];
            && m.next < |m.files| && m.files[m.next].name in m.snapshot
            && m.snapshot[m.files[m.next].name] != m.files[m.next].checksum
            && (forall k :: 0 <= k < m.next ==> m.files[k].name in s.ledger)
            && (forall n :: n in OwnNames(s.log, id) ==> Among(n, m.files, m.next))
            && (forall n, k :: n in OwnNames(s.log, id) && m.next <= k < |m.files| ==> n != m.files[k].name)
  {
    RunKeeps(initial, steps);
    var s := Run(Initial(initial), steps);
    var m := s.migrators[id];
    MigratorAt(initial, s.migrators, s.ledger, s.log, id);
    forall k | 0 <= k < m.next ensures m.files[k].name in s.ledger {
      assert Past(m.files[k], m, id, s.log);
    }
    forall n, k | n in OwnNames(s.log, id) && m.next <= k < |m.files| ensures n != m.files[k].name {
      LessIrreflexive(n);
    }
  }

  // ---- One `migrate` from start to end, alone ---------------------------------------------

  /** The rest of the loop: the ledger it leaves, and what it reports or the file it stopped at. */
  function Migrated(files: seq<File>, snapshot: Ledger, ledger: Ledger, done: seq<string>): (Ledger, Result<seq<string>, File>)
  {
    if files == [] then (ledger, Ok(done))
    else
      var f := files[0];
      if f.name in snapshot then
        if snapshot[f.name] != f.checksum then (ledger, Err(f)) else Migrated(files[1..], snapshot, ledger, done)
      else if f.name in ledger then Migrated(files[1..], snapshot, ledger, done)
      else Migrated(files[1..], snapshot, ledger[f.name := f.checksum], done + [f.name])
  }

  class Database {
    var ledger: Ledger

    /** `apply_migration`: under a lock, inserted if absent. */
    method ApplyIfAbsent(name: string, checksum: string) returns (applied: bool)
      modifies this
      ensures applied <==> name !in old(ledger)
      ensures ledger == if applied then old(ledger)[name := checksum] else old(ledger)
    {
      applied := name !in ledger;
      if applied {
        ledger := ledger[name := checksum];
      }
    }

    method Migrate(files: seq<File>) returns (r: Result<seq<string>, File>)
      modifies this
      ensures (ledger, r) == Migrated(files, old(ledger), old(ledger), [])
    {
      var applied, done := ledger, [];
      for i := 0 to |files|
        invariant Migrated(files[i..], applied, ledger, done) == Migrated(files, applied, applied, [])
      {
        assert files[i..][1..] == files[i + 1..];
        var f := files[i];
        if f.name in applied {
          if applied[f.name] != f.checksum {
            return Err(f);
          }
        } else {
          var mine := ApplyIfAbsent(f.name, f.checksum);
          if mine {
            done := done + [f.name];
          }
        }
      }
      return Ok(done);
    }
  }

  predicate Recorded(f: File, ledger: Ledger)
  {
    f.name in ledger && ledger[f.name] == f.checksum
  }

  /** A successful run only adds, and records every file under its own checksum. */
  lemma {:induction false} MigratedRecords(files: seq<File>, snapshot: Ledger, ledger: Ledger, done: seq<string>)
    requires Increasing(files) && Sub(snapshot, ledger)
    requires forall f :: f in files && f.name in ledger ==> f.name in snapshot
    requires Migrated(files, snapshot, ledger, done).1.Ok?
    ensures var ledger' := Migrated(files, snapshot, ledger, done).0;
            Sub(ledger, ledger') && forall f :: f in files ==> Recorded(f, ledger')
  {
    if files != [] {
      var f, rest := files[0], files[1..];
      forall g | g in rest ensures g in files && g.name != f.name {
        var i :| 0 <= i < |rest| && rest[i] == g;
        assert files[i + 1] == g;
        LessIrreflexive(f.name);
      }
      var ledger1 := if f.name in ledger then ledger else ledger[f.name := f.checksum];
      var done1 := if f.name in ledger then done else done + [f.name];
      MigratedRecords(rest, snapshot, ledger1, done1);
      assert forall g :: g in files ==> g == f || g in rest;
    }
  }

  lemma {:induction false} MigratedNothing(files: seq<File>, ledger: Ledger, done: seq<string>)
    requires forall f :: f in files ==> Recorded(f, ledger)
    ensures Migrated(files, ledger, ledger, done) == (ledger, Ok(done))
  {
    if files != [] {
      assert Recorded(files[0], ledger);
      assert forall g :: g in files[1..] ==> g in files;
      MigratedNothing(files[1..], ledger, done);
    }
  }

  /** A second `migrate` after one that succeeded applies nothing and changes nothing. */
  lemma SecondMigrateIsIdle(files: seq<File>, ledger: Ledger)
    requires Increasing(files) && Migrated(files, ledger, ledger, []).1.Ok?
    ensures var ledger' := Migrated(files, ledger, ledger, []).0;
            Migrated(files, ledger', ledger', []) == (ledger', Ok([]))
  {
    MigratedRecords(files, ledger, ledger, []);
    MigratedNothing(files, Migrated(files, ledger, ledger, []).0, []);
  }

  // ---- What a lone migrate reports -----------------------------------------------------------

  /** A file whose name the ledger has under another checksum. */
  predicate Clashes(f: File, ledger: Ledger)
  {
    f.name in ledger && ledger[f.name] != f.checksum
  }

  predicate Rising(names: seq<string>)
  {
    forall i, j :: 0 <= i < j < |names| ==> Less(names[i], names[j])
  }

  /** Reported so far is what the ledger gained so far, in order, and all of it is before what is to come. */
  ghost predicate SoFar(files: seq<File>, snapshot: Ledger, ledger: Ledger, done: seq<string>)
  {
    && Sub(snapshot, ledger) && Rising(done)
    && (forall x :: x in done <==> x in ledger && x !in snapshot)
    && (forall d, f :: d in done && f in files ==> Less(d, f.name))
  }

  lemma RisingMore(done: seq<string>, name: string)
    requires Rising(done) && forall d :: d in done ==> Less(d, name)
    ensures Rising(done + [name])
  {
    assert forall i :: 0 <= i < |done| ==> done[i] in done;
  }

  lemma SoFarMore(files: seq<File>, snapshot: Ledger, ledger: Ledger, done: seq<string>)
    requires files != [] && Increasing(files) && SoFar(files, snapshot, ledger, done) && files[0].name !in snapshot
    ensures files[0].name !in ledger
    ensures SoFar(files[1..], snapshot, ledger[files[0].name := files[0].checksum], done + [files[0].name])
  {
    var f, rest := files[0], files[1..];
    assert f in files;
    if f.name in ledger {
      assert f.name in done;
      LessIrreflexive(f.name);
    }
    RisingMore(done, f.name);
    forall d, g | d in done + [f.name] && g in rest ensures Less(d, g.name) {
      var i :| 0 <= i < |rest| && rest[i] == g;
      assert files[i + 1] == g && g in files;
    }
  }

  lemma SoFarSkips(files: seq<File>, snapshot: Ledger, ledger: Ledger, done: seq<string>)
    requires files != [] && SoFar(files, snapshot, ledger, done)
    ensures SoFar(files[1..], snapshot, ledger, done)
  {
    assert forall g :: g in files[1..] ==> g in files;
  }

  lemma IncreasingRest(files: seq<File>)
    requires files != [] && Increasing(files)
    ensures Increasing(files[1..])
  {
  }

  /** The rest of the loop: it succeeds exactly if no file clashes, reports exactly what the ledger gained, in
      order, and gains exactly the files not yet there, up to the first that clashes. */
  lemma {:induction false} MigratedReports(files: seq<File>, snapshot: Ledger, ledger: Ledger, done: seq<string>)
    requires Increasing(files) && SoFar(files, snapshot, ledger, done)
    ensures var (ledger', r) := Migrated(files, snapshot, ledger, done);
      && (r.Ok? <==> forall f :: f in files ==> !Clashes(f, snapshot))
      && (r.Ok? ==> SoFar([], snapshot, ledger', r.value) && forall f :: f in files ==> f.name in ledger')
      && (r.Err? ==> r.error in files && Clashes(r.error, snapshot))
  {
    if files != [] {
      var f := files[0];
      IncreasingRest(files);
      assert forall g :: g in files <==> g == f || g in files[1..];
      if f.name in snapshot {
        SoFarSkips(files, snapshot, ledger, done);
        if !Clashes(f, snapshot) {
          MigratedReports(files[1..], snapshot, ledger, done);
          KeptBy(files[1..], snapshot, ledger, done, f.name);
        }
      } else {
        SoFarMore(files, snapshot, ledger, done);
        MigratedReports(files[1..], snapshot, ledger[f.name := f.checksum], done + [f.name]);
        KeptBy(files[1..], snapshot, ledger[f.name := f.checksum], done + [f.name], f.name);
      }
    } else {
      assert SoFar([], snapshot, ledger, done);
    }
  }

  lemma {:induction false} KeptBy(files: seq<File>, snapshot: Ledger, ledger: Ledger, done: seq<string>, name: string)
    requires name in ledger
    ensures var l := Migrated(files, snapshot, ledger, done).0; name in l && l[name] == ledger[name]
  {
    if files != [] {
      var f := files[0];
      if f.name in snapshot || f.name in ledger {
        KeptBy(files[1..], snapshot, ledger, done, name);
      } else {
        KeptBy(files[1..], snapshot, ledger[f.name := f.checksum], done + [f.name], name);
      }
    }
  }

  /** Every `migrate` by itself: it succeeds if and only if no file is in the ledger under another checksum.
      Then it reports exactly the names the ledger gained, in increasing order, and every file is recorded
      under its own checksum; otherwise it names a file that clashes. */
  lemma MigrateReportsExactly(files: seq<File>, ledger: Ledger)
    requires Increasing(files)
    ensures var (ledger', r) := Migrated(files, ledger, ledger, []);
      && (r.Ok? <==> forall f :: f in files ==> !Clashes(f, ledger))
      && (r.Ok? ==> Rising(r.value) && (forall x :: x in r.value <==> x in ledger' && x !in ledger)
                    && Sub(ledger, ledger') && forall f :: f in files ==> Recorded(f, ledger'))
      && (r.Err? ==> r.error in files && Clashes(r.error, ledger))
  {
    MigratedReports(files, ledger, ledger, []);
    if Migrated(files, ledger, ledger, []).1.Ok? {
      MigratedRecords(files, ledger, ledger, []);
    }
  }

  /** And what the ledger gains, whether or not it succeeds, are files, under their own checksums. */
  lemma {:induction false} GainsOnlyFiles(files: seq<File>, snapshot: Ledger, ledger: Ledger, done: seq<string>, x: string)
    requires x in Migrated(files, snapshot, ledger, done).0 && x !in ledger
    ensures exists f :: f in files && f.name == x && Migrated(files, snapshot, ledger, done).0[x] == f.checksum
  {
    var f := files[0];
    var l := Migrated(files, snapshot, ledger, done).0;
    if f.name in snapshot || f.name in ledger {
      GainsOnlyFiles(files[1..], snapshot, ledger, done, x);
    } else if x == f.name {
      KeptBy(files[1..], snapshot, ledger[f.name := f.checksum], done + [f.name], x);
      assert f in files && l[x] == f.checksum;
    } else {
      GainsOnlyFiles(files[1..], snapshot, ledger[f.name := f.checksum], done + [f.name], x);
    }
  }
}
