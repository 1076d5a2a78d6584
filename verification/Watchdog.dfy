/** The watchdog over guest entries (`crates/usai-runtime/src/world.rs`) and the count of live worlds
    that keeps it awake (`crates/usai-runtime/src/idle.rs`). A tick is one step. */
module Watchdog {

  type Id = nat

  /** One world's watch. A deadline of 0 is disarmed; `guarded` is a guest entry under way. */
  datatype Slot = Slot(live: bool, deadline: nat, flag: bool, guarded: bool)

  datatype Event = Armed(id: Id, deadline: nat) | Ended(id: Id) | Ticked(now: nat)

  /** What an entry was told when it finished, and how long the log then was. */
  datatype Report = Report(id: Id, over: bool, at: nat)

  datatype State = State(
    slots: seq<Slot>, watched: seq<Id>, idle: nat, waking: bool, log: seq<Event>, reports: seq<Report>)

  datatype Step =
    | Register | Arm(id: Id, now: nat, slice: nat) | Finish(id: Id) | Unwind(id: Id) | DropSlot(id: Id)
    | Wake | Tick(now: nat)

  // ---- The operations -----------------------------------------------------------

  function ArmedSlot(s: Slot, now: nat, slice: nat): Slot
  {
    s.(flag := false, deadline := if now + slice == 0 then 1 else now + slice, guarded := true)
  }

  function Disarmed(s: Slot): Slot
  {
    s.(deadline := 0, guarded := false)
  }

  /** A due slot is fired. */
  function Fired(s: Slot, now: nat): Slot
  {
    if s.live && s.deadline != 0 && now >= s.deadline then s.(flag := true) else s
  }

  predicate Live(slots: seq<Slot>, id: Id)
  {
    id < |slots| && slots[id].live
  }

  /** The slots after a tick over `watched`. */
  function FiredAll(slots: seq<Slot>, watched: seq<Id>, now: nat): (r: seq<Slot>)
    ensures |r| == |slots|
  {
    seq(|slots|, i requires 0 <= i < |slots| => if i in watched then Fired(slots[i], now) else slots[i])
  }

  /** The watches whose world is not gone. */
  function Retained(slots: seq<Slot>, watched: seq<Id>): (r: seq<Id>)
    ensures forall id :: id in r <==> id in watched && Live(slots, id)
  {
    if watched == [] then []
    else
      var rest, last := Retained(slots, watched[..|watched| - 1]), watched[|watched| - 1];
      assert watched == watched[..|watched| - 1] + [last];
      if Live(slots, last) then rest + [last] else rest
  }

  predicate Enabled(s: State, step: Step)
  {
    match step
    case Register => true
    case Arm(id, _, _) => Live(s.slots, id) && !s.slots[id].guarded
    case Finish(id) => Live(s.slots, id) && s.slots[id].guarded
    case Unwind(id) => Live(s.slots, id) && s.slots[id].guarded
    case DropSlot(id) => Live(s.slots, id) && !s.slots[id].guarded
    case Wake => s.idle > 0
    case Tick(_) => s.waking
  }

  function Effect(s: State, step: Step): State
    requires Enabled(s, step)
  {
    match step
    case Register =>
      s.(slots := s.slots + [Slot(true, 0, false, false)], watched := s.watched + [|s.slots|], idle := s.idle + 1)
    case Arm(id, now, slice) =>
      var slot := ArmedSlot(s.slots[id], now, slice);
      s.(slots := s.slots[id := slot], log := s.log + [Armed(id, slot.deadline)])
    case Finish(id) =>
      s.(slots := s.slots[id := Disarmed(s.slots[id])], log := s.log + [Ended(id)],
         reports := s.reports + [Report(id, s.slots[id].flag, |s.log|)])
    case Unwind(id) => s.(slots := s.slots[id := Disarmed(s.slots[id])], log := s.log + [Ended(id)])
    case DropSlot(id) =>
      s.(slots := s.slots[id := s.slots[id].(live := false)], idle := if s.idle > 0 then s.idle - 1 else 0)
    case Wake => s.(waking := true)
    case Tick(now) =>
      s.(slots := FiredAll(s.slots, s.watched, now), watched := Retained(s.slots, s.watched), waking := false,
         log := s.log + [Ticked(now)])
  }

  function Apply(s: State, step: Step): State
  {
    if Enabled(s, step) then Effect(s, step) else s
  }

  function Run(steps: seq<Step>): State
  {
    if steps == [] then State([], [], 0, false, [], []) else Apply(Run(steps[..|steps| - 1]), steps[|steps| - 1])
  }

  // ---- What the history says --------------------------------------------------------

  /** The deadline of the entry under way, 0 when there is none. */
  function DeadlineOf(log: seq<Event>, id: Id): nat
  {
    if log == [] then 0
    else
      var last, before := log[|log| - 1], log[..|log| - 1];
      match last
      case Armed(i, d) => if i == id then d else DeadlineOf(before, id)
      case Ended(i) => if i == id then 0 else DeadlineOf(before, id)
      case Ticked(_) => DeadlineOf(before, id)
  }

  /** Whether a tick has landed at or past its own deadline while the latest entry was armed. */
  predicate Overdue(log: seq<Event>, id: Id)
  {
    if log == [] then false
    else
      var last, before := log[|log| - 1], log[..|log| - 1];
      match last
      case Armed(i, _) => i != id && Overdue(before, id)
      case Ended(_) => Overdue(before, id)
      case Ticked(now) => Overdue(before, id) || (DeadlineOf(before, id) != 0 && now >= DeadlineOf(before, id))
  }

  /** From an arming at `i` the entry stays under way up to `j`. */
  predicate UnderWay(log: seq<Event>, id: Id, i: nat, j: nat)
  {
    i < j <= |log| && log[i].Armed? && log[i].id == id
    && forall k :: i < k < j ==> !(log[k].Armed? && log[k].id == id) && log[k] != Ended(id)
  }

  /** The tick that catches an entry: armed at `i`, still under way at `j`, and past its own deadline. */
  predicate Caught(log: seq<Event>, id: Id, i: nat, j: nat)
  {
    j < |log| && UnderWay(log, id, i, j) && log[j].Ticked? && log[j].now >= log[i].deadline
    && forall k :: i < k < |log| ==> !(log[k].Armed? && log[k].id == id)
  }

  predicate ArmsOk(log: seq<Event>)
  {
    forall e :: e in log && e.Armed? ==> e.deadline > 0
  }

  /** The entry under way at the end of a log was armed here. */
  predicate ArmedHere(log: seq<Event>, id: Id, i: nat)
  {
    UnderWay(log, id, i, |log|) && log[i].deadline == DeadlineOf(log, id)
  }

  lemma UnderWayOn(before: seq<Event>, last: Event, id: Id, i: nat)
    requires i < |before|
    ensures UnderWay(before + [last], id, i, |before| + 1)
       <==> UnderWay(before, id, i, |before|) && !(last.Armed? && last.id == id) && last != Ended(id)
  {
    var log := before + [last];
    assert log[|before|] == last;
    assert forall k :: 0 <= k < |before| ==> log[k] == before[k];
  }

  lemma DeadlineOn(before: seq<Event>, last: Event, id: Id)
    ensures DeadlineOf(before + [last], id)
         == if last.Armed? && last.id == id then last.deadline
            else if last == Ended(id) then 0 else DeadlineOf(before, id)
  {
    assert (before + [last])[..|before|] == before;
  }

  /** An entry under way has the deadline the history says. */
  lemma {:induction false} UnderWayHas(log: seq<Event>, id: Id, i: nat)
    requires UnderWay(log, id, i, |log|)
    ensures ArmedHere(log, id, i)
    decreases |log|
  {
    var before, last := log[..|log| - 1], log[|log| - 1];
    assert log == before + [last];
    DeadlineOn(before, last, id);
    if i < |before| {
      UnderWayOn(before, last, id, i);
      UnderWayHas(before, id, i);
    }
  }

  /** A deadline in the history is that of an entry under way. */
  lemma {:induction false} DeadlineMeans(log: seq<Event>, id: Id) returns (i: nat)
    requires DeadlineOf(log, id) != 0
    ensures ArmedHere(log, id, i)
    decreases |log|
  {
    var before, last := log[..|log| - 1], log[|log| - 1];
    assert log == before + [last];
    DeadlineOn(before, last, id);
    if last.Armed? && last.id == id {
      i := |before|;
    } else {
      i := DeadlineMeans(before, id);
      UnderWayOn(before, last, id, i);
    }
  }

  lemma CaughtOn(before: seq<Event>, last: Event, id: Id, i: nat, j: nat)
    requires j < |before|
    ensures Caught(before + [last], id, i, j) <==> Caught(before, id, i, j) && !(last.Armed? && last.id == id)
  {
    var log := before + [last];
    assert log[|before|] == last;
    assert forall k :: 0 <= k < |before| ==> log[k] == before[k];
  }

  /** A tick catches what is under way and due, and nothing else. */
  lemma CaughtNow(before: seq<Event>, last: Event, id: Id, i: nat)
    requires ArmsOk(before)
    ensures Caught(before + [last], id, i, |before|)
       <==> last.Ticked? && ArmedHere(before, id, i) && last.now >= DeadlineOf(before, id)
  {
    var log := before + [last];
    assert log[|before|] == last;
    assert forall k :: 0 <= k < |before| ==> log[k] == before[k];
    if UnderWay(before, id, i, |before|) {
      UnderWayHas(before, id, i);
    }
  }

  ghost predicate SomeCaught(log: seq<Event>, id: Id)
  {
    exists i: nat, j: nat :: Caught(log, id, i, j)
  }

  lemma OverdueOn(before: seq<Event>, last: Event, id: Id)
    ensures Overdue(before + [last], id)
         <==> (Overdue(before, id) && !(last.Armed? && last.id == id))
              || (last.Ticked? && DeadlineOf(before, id) != 0 && last.now >= DeadlineOf(before, id))
  {
    assert (before + [last])[..|before|] == before;
  }

  lemma CaughtWhenOverdue(before: seq<Event>, last: Event, id: Id)
    requires ArmsOk(before) && Overdue(before + [last], id) && (Overdue(before, id) ==> SomeCaught(before, id))
    ensures SomeCaught(before + [last], id)
  {
    OverdueOn(before, last, id);
    if Overdue(before, id) && !(last.Armed? && last.id == id) {
      var i: nat, j: nat :| Caught(before, id, i, j);
      CaughtOn(before, last, id, i, j);
    } else {
      var i := DeadlineMeans(before, id);
      CaughtNow(before, last, id, i);
    }
  }

  lemma OverdueWhenCaught(before: seq<Event>, last: Event, id: Id, i: nat, j: nat)
    requires ArmsOk(before) && Caught(before + [last], id, i, j) && (SomeCaught(before, id) ==> Overdue(before, id))
    ensures Overdue(before + [last], id)
  {
    OverdueOn(before, last, id);
    if j < |before| {
      CaughtOn(before, last, id, i, j);
    } else {
      CaughtNow(before, last, id, i);
      assert before[i] in before;
    }
  }

  /** The flag's history is exactly that some tick caught the latest entry. */
  lemma {:induction false} OverdueMeans(log: seq<Event>, id: Id)
    requires ArmsOk(log)
    ensures Overdue(log, id) <==> SomeCaught(log, id)
    decreases |log|
  {
    if log != [] {
      var before, last := log[..|log| - 1], log[|log| - 1];
      assert log == before + [last];
      OverdueMeans(before, id);
      if Overdue(log, id) {
        CaughtWhenOverdue(before, last, id);
      }
      if SomeCaught(log, id) {
        var i: nat, j: nat :| Caught(log, id, i, j);
        OverdueWhenCaught(before, last, id, i, j);
      }
    }
  }

  // ---- What every run keeps ------------------------------------------------------------

  predicate SlotOk(s: Slot, id: Id, log: seq<Event>)
  {
    s.live ==> s.flag == Overdue(log, id) && s.deadline == DeadlineOf(log, id)
  }

  function LiveCount(slots: seq<Slot>): nat
  {
    if slots == [] then 0 else LiveCount(slots[..|slots| - 1]) + if slots[|slots| - 1].live then 1 else 0
  }

  predicate LogOk(log: seq<Event>, n: nat)
  {
    forall e :: e in log ==> (e.Armed? ==> e.deadline > 0 && e.id < n) && (e.Ended? ==> e.id < n)
  }

  predicate ReportOk(r: Report, log: seq<Event>)
  {
    r.at < |log| && log[r.at] == Ended(r.id) && (r.over <==> Overdue(log[..r.at], r.id))
  }

  predicate Inv(s: State)
  {
    && LogOk(s.log, |s.slots|)
    && (forall id: Id :: id < |s.slots| ==> SlotOk(s.slots[id], id, s.log))
    && (forall id: Id :: id < |s.slots| && Live(s.slots, id) ==> id in s.watched)
    && s.idle == LiveCount(s.slots)
    && (forall r :: r in s.reports ==> ReportOk(r, s.log))
  }

  lemma {:induction false} CountUpdate(slots: seq<Slot>, id: Id, slot: Slot)
    requires id < |slots|
    ensures LiveCount(slots[id := slot])
         == LiveCount(slots) - (if slots[id].live then 1 else 0) + (if slot.live then 1 else 0)
    decreases |slots|
  {
    var last := |slots| - 1;
    if id < last {
      CountUpdate(slots[..last], id, slot);
      assert slots[id := slot][..last] == slots[..last][id := slot];
    } else {
      assert slots[id := slot][..last] == slots[..last];
    }
  }

  lemma {:induction false} CountSame(a: seq<Slot>, b: seq<Slot>)
    requires |a| == |b| && forall i :: 0 <= i < |a| ==> a[i].live == b[i].live
    ensures LiveCount(a) == LiveCount(b)
    decreases |a|
  {
    if a != [] {
      CountSame(a[..|a| - 1], b[..|b| - 1]);
    }
  }

  lemma {:induction false} CountLive(slots: seq<Slot>, id: Id)
    requires Live(slots, id)
    ensures LiveCount(slots) > 0
    decreases |slots|
  {
    if id < |slots| - 1 {
      CountLive(slots[..|slots| - 1], id);
    }
  }

  lemma {:induction false} Unheard(log: seq<Event>, id: Id)
    requires LogOk(log, id)
    ensures DeadlineOf(log, id) == 0 && !Overdue(log, id)
    decreases |log|
  {
    if log != [] {
      assert log[|log| - 1] in log;
      assert forall e :: e in log[..|log| - 1] ==> e in log;
      Unheard(log[..|log| - 1], id);
    }
  }

  lemma ReportsKeep(reports: seq<Report>, log: seq<Event>, e: Event)
    requires forall r :: r in reports ==> ReportOk(r, log)
    ensures forall r :: r in reports ==> ReportOk(r, log + [e])
  {
    forall r | r in reports ensures ReportOk(r, log + [e]) {
      assert (log + [e])[..r.at] == log[..r.at];
    }
  }

  /** An event about one slot says nothing of the others. */
  lemma OthersUnchanged(log: seq<Event>, e: Event, id: Id)
    requires !e.Ticked? && e.id != id
    ensures Overdue(log + [e], id) == Overdue(log, id) && DeadlineOf(log + [e], id) == DeadlineOf(log, id)
  {
    assert (log + [e])[..|log|] == log;
  }

  lemma SlotStep(s: State, id: Id, slot: Slot, e: Event)
    requires Inv(s) && Live(s.slots, id) && slot.live && !e.Ticked? && e.id == id && (e.Armed? ==> e.deadline > 0)
    requires SlotOk(slot, id, s.log + [e])
    ensures Inv(s.(slots := s.slots[id := slot], log := s.log + [e]))
  {
    var s' := s.(slots := s.slots[id := slot], log := s.log + [e]);
    CountUpdate(s.slots, id, slot);
    ReportsKeep(s.reports, s.log, e);
    forall k: Id | k < |s'.slots| ensures SlotOk(s'.slots[k], k, s'.log) {
      assert SlotOk(s.slots[k], k, s.log);
      if k != id {
        OthersUnchanged(s.log, e, k);
      }
    }
    forall k: Id | Live(s'.slots, k) ensures k in s'.watched { assert Live(s.slots, k); }
  }

  lemma RegisterKeeps(s: State)
    requires Inv(s)
    ensures Inv(Effect(s, Register))
  {
    var s' := Effect(s, Register);
    assert s'.slots[..|s.slots|] == s.slots;
    Unheard(s.log, |s.slots|);
    forall k: Id | k < |s'.slots| ensures SlotOk(s'.slots[k], k, s'.log) {
      if k < |s.slots| {
        assert SlotOk(s.slots[k], k, s.log);
      }
    }
    forall k: Id | Live(s'.slots, k) ensures k in s'.watched {
      if k < |s.slots| {
        assert Live(s.slots, k);
      }
    }
  }

  lemma EntryKeeps(s: State, step: Step)
    requires Inv(s) && Enabled(s, step) && (step.Arm? || step.Finish? || step.Unwind?)
    ensures Inv(Effect(s, step))
  {
    var id := step.id;
    assert SlotOk(s.slots[id], id, s.log);
    if step.Arm? {
      var slot := ArmedSlot(s.slots[id], step.now, step.slice);
      assert (s.log + [Armed(id, slot.deadline)])[..|s.log|] == s.log;
      SlotStep(s, id, slot, Armed(id, slot.deadline));
    } else {
      assert (s.log + [Ended(id)])[..|s.log|] == s.log;
      SlotStep(s, id, Disarmed(s.slots[id]), Ended(id));
    }
  }

  lemma DropKeeps(s: State, id: Id)
    requires Inv(s) && Enabled(s, DropSlot(id))
    ensures Inv(Effect(s, DropSlot(id)))
  {
    var s' := Effect(s, DropSlot(id));
    CountUpdate(s.slots, id, s'.slots[id]);
    CountLive(s.slots, id);
    forall k: Id | k < |s'.slots| ensures SlotOk(s'.slots[k], k, s'.log) { assert SlotOk(s.slots[k], k, s.log); }
    forall k: Id | Live(s'.slots, k) ensures k in s'.watched { assert Live(s.slots, k); }
  }

  lemma TickKeeps(s: State, now: nat)
    requires Inv(s) && s.waking
    ensures Inv(Effect(s, Tick(now)))
  {
    var s' := Effect(s, Tick(now));
    CountSame(s.slots, s'.slots);
    ReportsKeep(s.reports, s.log, Ticked(now));
    assert s'.log[..|s.log|] == s.log;
    forall k: Id | k < |s'.slots| ensures SlotOk(s'.slots[k], k, s'.log) {
      assert SlotOk(s.slots[k], k, s.log);
      assert s.slots[k].live ==> Live(s.slots, k) && k in s.watched;
    }
    forall k: Id | Live(s'.slots, k) ensures k in s'.watched { assert Live(s.slots, k); }
  }

  lemma {:induction false} RunKeeps(steps: seq<Step>)
    ensures Inv(Run(steps))
    decreases |steps|
  {
    if steps != [] {
      var s, step := Run(steps[..|steps| - 1]), steps[|steps| - 1];
      RunKeeps(steps[..|steps| - 1]);
      if Enabled(s, step) {
        match step {
          case Register => RegisterKeeps(s);
          case DropSlot(id) => DropKeeps(s, id);
          case Tick(now) => TickKeeps(s, now);
          case Wake =>
          case _ => EntryKeeps(s, step);
        }
      }
    }
  }

  // ---- The properties ---------------------------------------------------------------------

  lemma {:induction false} PrefixArms(log: seq<Event>, n: nat, at: nat)
    requires LogOk(log, n) && at <= |log|
    ensures ArmsOk(log[..at])
  {
  }

  /** On every run, an entry was reported over its slice exactly when some tick landed at or past its
      own deadline while it was armed; what earlier entries did plays no part. */
  lemma ReportsExact(steps: seq<Step>, r: Report)
    requires r in Run(steps).reports
    ensures var log := Run(steps).log;
            && r.at < |log| && log[r.at] == Ended(r.id)
            && (r.over <==> exists i: nat, j: nat :: Caught(log[..r.at], r.id, i, j))
  {
    RunKeeps(steps);
    var s := Run(steps);
    assert ReportOk(r, s.log);
    PrefixArms(s.log, |s.slots|, r.at);
    OverdueMeans(s.log[..r.at], r.id);
  }

  /** The live count is the number of live watches, and while there is one the ticker is not parked
      and every tick reaches it. */
  lemma TicksContinue(steps: seq<Step>, id: Id)
    ensures var s := Run(steps);
            && s.idle == LiveCount(s.slots)
            && (Live(s.slots, id) ==> s.idle > 0 && Enabled(s, Wake) && id in s.watched)
  {
    RunKeeps(steps);
    var s := Run(steps);
    if Live(s.slots, id) {
      CountLive(s.slots, id);
    }
  }

  // ---- What each step logs ------------------------------------------------------------

  /** The step armed this watch for `slice` from its `now`; zero, which means disarmed, is never used. */
  predicate ArmedBy(step: Step, e: Event)
  {
    step.Arm? && e.Armed? && e.id == step.id && e.deadline > 0
    && (e.deadline == step.now + step.slice || (step.now + step.slice == 0 && e.deadline == 1))
  }

  /** On every run each logged deadline is its arming's time and slice added up. */
  lemma {:induction false} EveryArmIsTimed(steps: seq<Step>, e: Event)
    requires e in Run(steps).log && e.Armed?
    ensures exists k :: 0 <= k < |steps| && ArmedBy(steps[k], e)
  {
    var before, step := steps[..|steps| - 1], steps[|steps| - 1];
    if e in Run(before).log {
      EveryArmIsTimed(before, e);
      var k :| 0 <= k < |before| && ArmedBy(before[k], e);
      assert steps[k] == before[k];
    } else {
      assert ArmedBy(step, e);
    }
  }

  /** And an arming of a live watch with no entry under way is logged. */
  lemma ArmIsLogged(steps: seq<Step>, id: Id, now: nat, slice: nat)
    requires var s := Run(steps); Live(s.slots, id) && !s.slots[id].guarded
    ensures var s, s' := Run(steps), Run(steps + [Arm(id, now, slice)]);
      && |s'.log| == |s.log| + 1 && s'.log[..|s.log|] == s.log && ArmedBy(Arm(id, now, slice), s'.log[|s.log|])
      && !s'.slots[id].flag && s'.slots[id].deadline == s'.log[|s.log|].deadline
  {
    var steps' := steps + [Arm(id, now, slice)];
    assert steps'[..|steps'| - 1] == steps;
  }

  /** A finish of an entry under way is logged and reported, once, as over exactly if a tick caught it. */
  lemma FinishIsReported(steps: seq<Step>, id: Id)
    requires var s := Run(steps); Live(s.slots, id) && s.slots[id].guarded
    ensures var s, s' := Run(steps), Run(steps + [Finish(id)]);
      && s'.log == s.log + [Ended(id)] && |s'.reports| == |s.reports| + 1 && s'.reports[..|s.reports|] == s.reports
      && var r := s'.reports[|s.reports|];
      r.id == id && r.at == |s.log| && (r.over <==> exists i: nat, j: nat :: Caught(s.log, id, i, j))
  {
    var steps' := steps + [Finish(id)];
    assert steps'[..|steps'| - 1] == steps;
    var s, s' := Run(steps), Run(steps');
    var r := s'.reports[|s.reports|];
    assert r in s'.reports && s'.log[..|s.log|] == s.log;
    ReportsExact(steps', r);
  }

  /** While a watch is live the ticker can be woken; each waking is good for one tick, and a tick at or past
      the deadline of an armed watch raises its flag. */
  lemma WakeThenTick(steps: seq<Step>, id: Id, now: nat, later: nat)
    requires Live(Run(steps).slots, id)
    ensures var s := Run(steps); var s' := Run(steps + [Wake] + [Tick(now)]);
      && s'.log == s.log + [Ticked(now)] && Live(s'.slots, id) && id in s'.watched
      && (s.slots[id].deadline != 0 && now >= s.slots[id].deadline ==> s'.slots[id].flag)
      && Run(steps + [Wake] + [Tick(now)] + [Tick(later)]) == s'
  {
    TicksContinue(steps, id);
    var woken := steps + [Wake];
    var ticked := woken + [Tick(now)];
    assert woken[..|woken| - 1] == steps && ticked[..|ticked| - 1] == woken;
    var again := ticked + [Tick(later)];
    assert again[..|again| - 1] == ticked;
  }

  // ---- The source's own form: cells updated in place -----------------------------------------

  class WatchSlot {
    var deadline: nat
    var flag: bool
    /** CPU time of the entries so far. */
    var cpu: nat
    ghost var guarded: bool

    constructor ()
      ensures View() == Slot(true, 0, false, false) && cpu == 0
    {
      deadline, flag, cpu, guarded := 0, false, 0, false;
    }

    ghost function View(): Slot
      reads this
    {
      Slot(true, deadline, flag, guarded)
    }

    /** `Watchdog::arm`. */
    method Arm(now: nat, slice: nat)
      modifies this
      ensures View() == ArmedSlot(old(View()), now, slice) && deadline > 0 && cpu == old(cpu)
    {
      flag := false;
      deadline := if now + slice == 0 then 1 else now + slice;
      guarded := true;
    }

    /** `Watchdog::finish`: disarmed first, then the entry's CPU time is added and the flag read. */
    method Finish(cpuStart: nat, cpuNow: nat) returns (over: bool)
      modifies this
      ensures View() == Disarmed(old(View())) && over == old(View()).flag
      ensures cpu == old(cpu) + if cpuNow < cpuStart then 0 else cpuNow - cpuStart
    {
      deadline := 0;
      guarded := false;
      cpu := cpu + if cpuNow < cpuStart then 0 else cpuNow - cpuStart;
      over := flag;
    }

    /** The service's look at one slot. */
    method Look(now: nat)
      modifies this
      ensures View() == Fired(old(View()), now) && cpu == old(cpu)
    {
      if deadline != 0 && now >= deadline {
        flag := true;
      }
    }
  }

  /** What one more watch adds to a tick. */
  lemma OneMoreWatch(slots: seq<Slot>, watched: seq<Id>, id: Id, now: nat)
    ensures var fired := FiredAll(slots, watched, now);
      && FiredAll(slots, watched + [id], now) == (if Live(fired, id) then fired[id := Fired(fired[id], now)] else fired)
      && Retained(slots, watched + [id]) == Retained(slots, watched) + (if Live(fired, id) then [id] else [])
  {
    assert (watched + [id])[..|watched|] == watched;
    FiredLive(slots, watched, id, now);
  }

  lemma FiredLive(slots: seq<Slot>, watched: seq<Id>, id: Id, now: nat)
    ensures Live(FiredAll(slots, watched, now), id) <==> Live(slots, id)
  {
  }

  /** The watchdog's list of watches, over the slots they point to. */
  class WatchdogService {
    var slots: seq<Slot>
    var watched: seq<Id>

    /** One tick: watches whose world is gone are dropped, the others fired if due. */
    method Tick(now: nat)
      modifies this
      ensures slots == FiredAll(old(slots), old(watched), now)
      ensures watched == Retained(old(slots), old(watched))
    {
      var kept: seq<Id> := [];
      for i := 0 to |watched|
        invariant watched == old(watched) && kept == Retained(old(slots), watched[..i])
        invariant slots == FiredAll(old(slots), watched[..i], now)
      {
        var id := watched[i];
        OneMoreWatch(old(slots), watched[..i], id, now);
        assert watched[..i + 1] == watched[..i] + [id];
        if Live(slots, id) {
          slots := slots[id := Fired(slots[id], now)];
          kept := kept + [id];
        }
      }
      assert watched[..|watched|] == watched;
      watched := kept;
    }
  }
}
