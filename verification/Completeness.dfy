/** Nothing is lost: over every run, what became of each operation that was started, and in which
    order a world's completions reached it (`ownership.rs`, `host_ops.rs`, `world.rs`).

    `Ownership` says that nothing wrong is delivered. Here the log of a run is read the other way:
    whatever was started is still recorded, or the log says why it is not. */
module Completeness {
  import opened Wrappers
  import opened Ledgers
  import opened Ownership

  // ---- What the log says of starts --------------------------------------------

  ghost predicate StartedIn(log: seq<Event>, w: WorldId, op: OpId)
  {
    Started(w, op) in log
  }

  /** Why an operation may have left the ledger. */
  ghost predicate Gone(log: seq<Event>, w: WorldId, op: OpId)
  {
    || Delivered(w, op) in log
    || Aborted(w, op) in log
    || WorldAbandoned(w) in log
    || !Interested(log, w, op)
  }

  ghost predicate AccountedFor(b: Book, log: seq<Event>, w: WorldId, op: OpId)
  {
    Owns(b, w, op) || Gone(log, w, op)
  }

  ghost predicate Accounted(b: Book, log: seq<Event>)
  {
    forall w: WorldId, op: OpId | StartedIn(log, w, op) :: AccountedFor(b, log, w, op)
  }

  lemma GoneStays(log: seq<Event>, e: Event, w: WorldId, op: OpId)
    requires Gone(log, w, op) && e != Started(w, op)
    ensures Gone(log + [e], w, op)
  {
    if !Interested(log, w, op) {
      if e == WorldCancelled(w) || e == WorldRetired(w) || e == GuestCancelled(w, op) {
        InterestEnds(log, e, w, op);
      } else {
        SameInterest(log, e, w, op);
      }
    }
  }

  /** An operation the event does not release is still recorded, or was gone before. */
  lemma AccountedGrows(b: Book, b': Book, log: seq<Event>, e: Event)
    requires Accounted(b, log) && (e.Started? ==> !StartedIn(log, e.world, e.op) && Owns(b', e.world, e.op))
    requires forall w: WorldId, op: OpId | StartedIn(log, w, op) && Owns(b, w, op) :: AccountedFor(b', log + [e], w, op)
    ensures Accounted(b', log + [e])
  {
    forall w: WorldId, op: OpId | StartedIn(log + [e], w, op) ensures AccountedFor(b', log + [e], w, op) {
      if StartedIn(log, w, op) {
        assert AccountedFor(b, log, w, op);
        if !Owns(b, w, op) {
          GoneStays(log, e, w, op);
        }
      }
    }
  }

  lemma {:induction false} DroppedAllLeaves(s: System, cs: seq<Completion>, op: OpId)
    requires op in s.book.records && forall c | c in cs :: c.op != op
    ensures var b := DroppedAll(s, cs).book; op in b.records && b.records[op] == s.book.records[op]
    decreases |cs|
  {
    if cs != [] {
      DroppedAllLeaves(Dropped(s, cs[|cs| - 1].op), cs[..|cs| - 1], op);
    }
  }

  /** Releasing one operation, for a reason the event gives or gave before. */
  lemma AccountedDrop(b: Book, b': Book, log: seq<Event>, e: Event, w: WorldId, op: OpId)
    requires Accounted(b, log) && !e.Started? && Owns(b, w, op) && Gone(log + [e], w, op)
    requires forall o | o in b.records && o != op :: o in b'.records && b'.records[o].world == b.records[o].world
    ensures Accounted(b', log + [e])
  {
    forall v: WorldId, o: OpId | StartedIn(log, v, o) && Owns(b, v, o) ensures AccountedFor(b', log + [e], v, o) {
      assert o == op ==> v == w;
    }
    AccountedGrows(b, b', log, e);
  }

  /** Releasing what one world held, when the event says that the world is gone. */
  lemma AccountedEnd(b: Book, b': Book, log: seq<Event>, e: Event, w: WorldId)
    requires Accounted(b, log) && (e == WorldAbandoned(w) || e == WorldRetired(w))
    requires forall o | o in b.records && b.records[o].world != w :: o in b'.records && b'.records[o].world == b.records[o].world
    ensures Accounted(b', log + [e])
  {
    forall v: WorldId, op: OpId | StartedIn(log, v, op) && Owns(b, v, op) ensures AccountedFor(b', log + [e], v, op) {
      if v == w && e.WorldRetired? {
        InterestEnds(log, e, w, op);
      }
    }
    AccountedGrows(b, b', log, e);
  }

  // ---- What the log says of tasks -----------------------------------------------

  /** A task is there exactly from its start to its send or its abort. */
  ghost predicate TasksTold(tasks: map<OpId, Task>, lastOp: nat, log: seq<Event>)
  {
    && (forall op | op in tasks :: UnderWay(log, tasks[op].world, op))
    && (forall w: WorldId, op: OpId | StartedIn(log, w, op) :: op <= lastOp && TaskTold(tasks, log, w, op))
    && (forall w: WorldId, op: OpId | TaskOver(log, w, op) :: op <= lastOp)
  }

  ghost predicate TaskTold(tasks: map<OpId, Task>, log: seq<Event>, w: WorldId, op: OpId)
  {
    if op in tasks then tasks[op].world == w else TaskOver(log, w, op)
  }

  ghost predicate TaskOver(log: seq<Event>, w: WorldId, op: OpId)
  {
    SendMade(w, op) in log || Aborted(w, op) in log
  }

  ghost predicate UnderWay(log: seq<Event>, w: WorldId, op: OpId)
  {
    StartedIn(log, w, op) && !TaskOver(log, w, op)
  }

  /** What one more event says of starts and tasks. */
  lemma EventSays(log: seq<Event>, e: Event, w: WorldId, op: OpId)
    ensures StartedIn(log + [e], w, op) <==> StartedIn(log, w, op) || e == Started(w, op)
    ensures TaskOver(log + [e], w, op) <==> TaskOver(log, w, op) || e == SendMade(w, op) || e == Aborted(w, op)
  {
  }

  lemma TasksGrow(tasks: map<OpId, Task>, tasks': map<OpId, Task>, lastOp: nat, lastOp': nat, log: seq<Event>, e: Event)
    requires TasksTold(tasks, lastOp, log) && lastOp <= lastOp'
    requires e.Started? || e.SendMade? || e.Aborted? ==> e.op <= lastOp'
    requires forall o | o in tasks' :: UnderWay(log + [e], tasks'[o].world, o)
    requires forall w: WorldId, o: OpId | StartedIn(log + [e], w, o) :: TaskTold(tasks', log + [e], w, o)
    ensures TasksTold(tasks', lastOp', log + [e])
  {
    forall w: WorldId, o: OpId | StartedIn(log + [e], w, o) || TaskOver(log + [e], w, o) ensures o <= lastOp' {
      EventSays(log, e, w, o);
    }
  }

  lemma TasksOther(tasks: map<OpId, Task>, lastOp: nat, log: seq<Event>, e: Event)
    requires TasksTold(tasks, lastOp, log) && !e.Started? && !e.SendMade? && !e.Aborted?
    ensures TasksTold(tasks, lastOp, log + [e])
  {
    var log' := log + [e];
    forall o | o in tasks ensures UnderWay(log', tasks[o].world, o) {
      EventSays(log, e, tasks[o].world, o);
    }
    forall w: WorldId, o: OpId | StartedIn(log', w, o) ensures TaskTold(tasks, log', w, o) {
      EventSays(log, e, w, o);
    }
    TasksGrow(tasks, tasks, lastOp, lastOp, log, e);
  }

  lemma TasksStart(tasks: map<OpId, Task>, lastOp: nat, log: seq<Event>, w: WorldId)
    requires TasksTold(tasks, lastOp, log) && lastOp + 1 !in tasks
    ensures TasksTold(tasks[lastOp + 1 := Task(w, false)], lastOp + 1, log + [Started(w, lastOp + 1)])
  {
    var e := Started(w, lastOp + 1);
    var tasks', log' := tasks[lastOp + 1 := Task(w, false)], log + [e];
    forall o | o in tasks' ensures UnderWay(log', tasks'[o].world, o) {
      EventSays(log, e, tasks'[o].world, o);
    }
    forall v: WorldId, o: OpId | StartedIn(log', v, o) ensures TaskTold(tasks', log', v, o) {
      EventSays(log, e, v, o);
    }
    TasksGrow(tasks, tasks', lastOp, lastOp + 1, log, e);
  }

  lemma TasksEnd(tasks: map<OpId, Task>, lastOp: nat, log: seq<Event>, op: OpId, e: Event)
    requires TasksTold(tasks, lastOp, log) && op in tasks
    requires e == SendMade(tasks[op].world, op) || e == Aborted(tasks[op].world, op)
    ensures TasksTold(tasks - {op}, lastOp, log + [e])
  {
    var log', tasks' := log + [e], tasks - {op};
    assert UnderWay(log, tasks[op].world, op);
    forall o | o in tasks' ensures UnderWay(log', tasks'[o].world, o) {
      EventSays(log, e, tasks[o].world, o);
    }
    forall v: WorldId, o: OpId | StartedIn(log', v, o) ensures TaskTold(tasks', log', v, o) {
      EventSays(log, e, v, o);
      assert TaskTold(tasks, log, v, o);
    }
    TasksGrow(tasks, tasks', lastOp, lastOp, log, e);
  }

  lemma TasksFinish(tasks: map<OpId, Task>, lastOp: nat, log: seq<Event>, op: OpId)
    requires TasksTold(tasks, lastOp, log) && op in tasks
    ensures TasksTold(tasks[op := tasks[op].(finished := true)], lastOp, log)
  {
    var tasks' := tasks[op := tasks[op].(finished := true)];
    forall o | o in tasks' ensures UnderWay(log, tasks'[o].world, o) {
      assert UnderWay(log, tasks[o].world, o);
    }
    forall w: WorldId, o: OpId | StartedIn(log, w, o) ensures TaskTold(tasks', log, w, o) {
      assert TaskTold(tasks, log, w, o);
    }
  }

  // ---- What the log says of a world ------------------------------------------------

  /** The operations whose completions were sent to a world, in order. */
  function SentTo(log: seq<Event>, w: WorldId): seq<OpId>
  {
    if log == [] then []
    else
      var e := log[|log| - 1];
      SentTo(log[..|log| - 1], w) + if e.SendMade? && e.world == w then [e.op] else []
  }

  /** Those that came out of its channel, to the guest or dropped as late, in order. */
  function TakenBy(log: seq<Event>, w: WorldId): seq<OpId>
  {
    if log == [] then []
    else
      var e := log[|log| - 1];
      TakenBy(log[..|log| - 1], w) + if (e.Delivered? || e.DroppedLate?) && e.world == w then [e.op] else []
  }

  function Ops(cs: seq<Completion>): (ops: seq<OpId>)
    ensures |ops| == |cs| && forall i :: 0 <= i < |cs| ==> ops[i] == cs[i].op
  {
    seq(|cs|, i requires 0 <= i < |cs| => cs[i].op)
  }

  ghost predicate QueueTold(world: World, w: WorldId, log: seq<Event>)
  {
    if Receiving(world) then SentTo(log, w) == TakenBy(log, w) + Ops(world.queue) else TakenBy(log, w) <= SentTo(log, w)
  }

  ghost predicate PhaseTold(world: World, w: WorldId, log: seq<Event>)
  {
    && (world.accepting <==> WorldCancelled(w) !in log && WorldRetired(w) !in log)
    && (world.phase == Retired <==> WorldRetired(w) in log)
    && (world.phase == Abandoned <==> WorldAbandoned(w) in log)
    && (world.routing.Some? ==> Delivered(w, world.routing.value.op) in log)
  }

  ghost predicate WorldTold(world: World, w: WorldId, log: seq<Event>)
  {
    PhaseTold(world, w, log) && QueueTold(world, w, log)
  }

  ghost predicate WorldsTold(worlds: seq<World>, log: seq<Event>)
  {
    && (forall i | 0 <= i < |worlds| :: WorldTold(worlds[i], i + 1, log))
    && (forall e | e in log :: 1 <= e.world <= |worlds|)
  }

  lemma OneMoreEvent(log: seq<Event>, e: Event, w: WorldId)
    ensures SentTo(log + [e], w) == SentTo(log, w) + if e.SendMade? && e.world == w then [e.op] else []
    ensures TakenBy(log + [e], w) == TakenBy(log, w) + if (e.Delivered? || e.DroppedLate?) && e.world == w then [e.op] else []
  {
    assert (log + [e])[..|log|] == log;
  }

  lemma OtherWorldTold(world: World, w: WorldId, log: seq<Event>, e: Event)
    requires WorldTold(world, w, log) && e.world != w
    ensures WorldTold(world, w, log + [e])
  {
    OneMoreEvent(log, e, w);
  }

  /** An event about one world, and what that world became. */
  lemma WorldsReplacedTold(worlds: seq<World>, log: seq<Event>, i: nat, u: World, e: Event)
    requires WorldsTold(worlds, log) && i < |worlds| && e.world == i + 1 && WorldTold(u, i + 1, log + [e])
    ensures WorldsTold(worlds[i := u], log + [e])
  {
    var worlds' := worlds[i := u];
    forall j | 0 <= j < |worlds'| ensures WorldTold(worlds'[j], j + 1, log + [e]) {
      if j != i {
        OtherWorldTold(worlds[j], j + 1, log, e);
      }
    }
  }

  /** Events of operations that neither enter nor leave a channel. */
  lemma AsideTold(worlds: seq<World>, log: seq<Event>, e: Event)
    requires WorldsTold(worlds, log) && 1 <= e.world <= |worlds|
    requires e.Started? || e.GuestCancelled? || e.Aborted?
    ensures WorldsTold(worlds, log + [e])
  {
    var w := e.world;
    assert WorldTold(worlds[w - 1], w, log + [e]) by {
      assert WorldTold(worlds[w - 1], w, log);
      OneMoreEvent(log, e, w);
    }
    WorldsReplacedTold(worlds, log, w - 1, worlds[w - 1], e);
    assert worlds[w - 1 := worlds[w - 1]] == worlds;
  }

  lemma {:induction false} NoEventsYet(log: seq<Event>, w: WorldId)
    requires forall e | e in log :: e.world != w
    ensures SentTo(log, w) == [] && TakenBy(log, w) == []
  {
    if log != [] {
      assert log[|log| - 1] in log;
      NoEventsYet(log[..|log| - 1], w);
    }
  }

  lemma NewWorldTold(worlds: seq<World>, log: seq<Event>)
    requires WorldsTold(worlds, log)
    ensures WorldsTold(worlds + [World(Creating, true, [], None)], log)
  {
    NoEventsYet(log, |worlds| + 1);
  }

  lemma SendTold(world: World, w: WorldId, op: OpId, log: seq<Event>)
    requires WorldTold(world, w, log)
    ensures WorldTold(if Receiving(world) then world.(queue := world.queue + [Completion(w, op)]) else world, w,
                      log + [SendMade(w, op)])
  {
    OneMoreEvent(log, SendMade(w, op), w);
    assert Ops(world.queue + [Completion(w, op)]) == Ops(world.queue) + [op];
  }

  lemma TakeTold(world: World, w: WorldId, log: seq<Event>, e: Event, routing: Option<Completion>)
    requires WorldTold(world, w, log) && Receiving(world) && world.queue != [] && world.routing.None?
    requires e == Delivered(w, world.queue[0].op) || e == DroppedLate(w, world.queue[0].op)
    requires routing.Some? ==> e == Delivered(w, routing.value.op)
    ensures WorldTold(world.(queue := world.queue[1..], routing := routing), w, log + [e])
  {
    var u := world.(queue := world.queue[1..], routing := routing);
    assert PhaseTold(u, w, log + [e]);
    assert QueueTold(u, w, log + [e]) by {
      OneMoreEvent(log, e, w);
      assert Ops(world.queue) == [world.queue[0].op] + Ops(world.queue[1..]);
      Regroup(TakenBy(log, w), [world.queue[0].op], Ops(world.queue[1..]));
    }
  }

  lemma Regroup(a: seq<OpId>, b: seq<OpId>, c: seq<OpId>)
    ensures a + (b + c) == (a + b) + c
  {
  }

  lemma AnswerTold(world: World, w: WorldId, log: seq<Event>, e: Event)
    requires WorldTold(world, w, log) && e.world == w && (e.Answered? || e.Unanswered?)
    ensures WorldTold(world.(routing := None), w, log + [e])
  {
    OneMoreEvent(log, e, w);
  }

  lemma CancelTold(world: World, w: WorldId, log: seq<Event>)
    requires WorldTold(world, w, log)
    ensures WorldTold(world.(accepting := false), w, log + [WorldCancelled(w)])
  {
    OneMoreEvent(log, WorldCancelled(w), w);
  }

  lemma EndTold(world: World, w: WorldId, log: seq<Event>, e: Event)
    requires WorldTold(world, w, log) && Receiving(world) && (e == WorldRetired(w) || e == WorldAbandoned(w))
    ensures WorldTold(
              World(if e.WorldRetired? then Retired else Abandoned, world.accepting && e.WorldAbandoned?, [], None), w, log + [e])
  {
    OneMoreEvent(log, e, w);
  }

  // ---- What the log says of the gauges ------------------------------------------------

  function Answers(log: seq<Event>, accepted: bool): nat
  {
    if log == [] then 0
    else Answers(log[..|log| - 1], accepted) +
         var e := log[|log| - 1]; if e.Answered? && e.accepted == accepted then 1 else 0
  }

  function Lates(log: seq<Event>): nat
  {
    if log == [] then 0 else Lates(log[..|log| - 1]) + if log[|log| - 1].DroppedLate? then 1 else 0
  }

  ghost predicate GaugesTold(g: Gauges, log: seq<Event>)
  {
    g.delivered == Answers(log, true) && g.droppedLate == Lates(log) + Answers(log, false)
  }

  /** One more event, and the gauges it moves. */
  lemma GaugesGrow(g: Gauges, g': Gauges, log: seq<Event>, e: Event)
    requires GaugesTold(g, log)
    requires g'.delivered == g.delivered + if e.Answered? && e.accepted then 1 else 0
    requires g'.droppedLate == g.droppedLate + if e.DroppedLate? || (e.Answered? && !e.accepted) then 1 else 0
    ensures GaugesTold(g', log + [e])
  {
    assert (log + [e])[..|log|] == log;
  }

  // ---- What a step logs ------------------------------------------------------------------

  ghost function EventOf(s: System, step: Step): seq<Event>
    requires Enabled(s, step)
  {
    match step
    case CreateWorld => []
    case Instantiated(_) => []
    case InstantiateFailed(w) => [WorldAbandoned(w)]
    case GuestStart(w, _) => if At(s, w).accepting then [Started(w, s.book.lastOp + 1)] else []
    case GuestCancel(w, op) => [GuestCancelled(w, op)]
    case TaskFinished(_) => []
    case TaskAborted(op) => [Aborted(s.tasks[op].world, op)]
    case Send(op) => [SendMade(s.tasks[op].world, op)]
    case Route(w) => [TakenEvent(s, w)]
    case Returned(w, accepted) => [Answered(w, At(s, w).routing.value.op, accepted)]
    case RouteFailed(w) => [Unanswered(w, At(s, w).routing.value.op)]
    case CancelWorld(w) => [WorldCancelled(w)]
    case Retire(w) => [WorldRetired(w)]
  }

  ghost function TakenEvent(s: System, w: WorldId): Event
    requires Known(s, w) && At(s, w).queue != []
  {
    var op := At(s, w).queue[0].op; if Deliverable(s.book, w, op) then Delivered(w, op) else DroppedLate(w, op)
  }

  lemma {:induction false} DroppedAllFrames(s: System, cs: seq<Completion>)
    ensures var r := DroppedAll(s, cs);
      r == s.(book := r.book, gauges := r.gauges) && SameGauges(s.gauges, r.gauges) && r.book.lastOp == s.book.lastOp
    decreases |cs|
  {
    if cs != [] {
      DroppedAllFrames(Dropped(s, cs[|cs| - 1].op), cs[..|cs| - 1]);
    }
  }

  ghost predicate SameGauges(g: Gauges, g': Gauges)
  {
    g'.delivered == g.delivered && g'.droppedLate == g.droppedLate && g'.worldsCreated == g.worldsCreated
  }

  /** What the end of a world leaves alone. */
  lemma EndFrames(s: System, w: WorldId, phase: Phase)
    requires Known(s, w)
    ensures var r := Emptied(s, w, phase);
      && r == s.(book := r.book, gauges := r.gauges,
                 worlds := s.worlds[w - 1 := At(s, w).(phase := phase, queue := [], routing := None)])
      && SameGauges(s.gauges, r.gauges) && r.book.lastOp == s.book.lastOp
  {
    DroppedAllFrames(With(s, w, At(s, w).(phase := phase, queue := [], routing := None)), Guards(At(s, w)));
  }

  lemma StepLogs(s: System, step: Step)
    requires Enabled(s, step) && WorldsOk(s.book, s.worlds)
    ensures Apply(s, step).log == s.log + EventOf(s, step)
  {
    match step
    case InstantiateFailed(w) => EndFrames(s, w, Abandoned);
    case Retire(w) => EndFrames(Uninterested(s, w), w, Retired);
    case Route(w) => HeadIsOwned(s, w);
    case _ =>
  }

  // ---- Every step: the tasks ---------------------------------------------------------------

  lemma FreshId(s: System)
    requires BookOk(s.book, |s.worlds|) && TasksOk(s.book, s.tasks)
    ensures s.book.lastOp + 1 !in s.book.records && s.book.lastOp + 1 !in s.tasks
  {
  }

  lemma OtherTasks(s: System, step: Step)
    requires Enabled(s, step) && !step.GuestStart? && !step.TaskFinished? && !step.TaskAborted? && !step.Send?
    ensures Apply(s, step).tasks == s.tasks && Apply(s, step).book.lastOp == s.book.lastOp
  {
    match step
    case InstantiateFailed(w) => EndFrames(s, w, Abandoned);
    case Retire(w) => EndFrames(Uninterested(s, w), w, Retired);
    case _ =>
  }

  lemma NoTaskEvent(s: System, step: Step)
    requires Enabled(s, step) && !step.GuestStart? && !step.TaskFinished? && !step.TaskAborted? && !step.Send?
    ensures forall e | e in EventOf(s, step) :: !e.Started? && !e.SendMade? && !e.Aborted?
    ensures EventOf(s, step) == [] || EventOf(s, step) == [EventOf(s, step)[0]]
  {
  }

  lemma TasksMaybe(tasks: map<OpId, Task>, lastOp: nat, log: seq<Event>, es: seq<Event>)
    requires TasksTold(tasks, lastOp, log) && (es == [] || es == [es[0]])
    requires forall e | e in es :: !e.Started? && !e.SendMade? && !e.Aborted?
    ensures TasksTold(tasks, lastOp, log + es)
  {
    if es == [] {
      assert log + es == log;
    } else {
      assert es[0] in es;
      TasksOther(tasks, lastOp, log, es[0]);
    }
  }

  lemma EndedTask(s: System, step: Step, op: OpId)
    requires Enabled(s, step) && (step == TaskAborted(op) || step == Send(op))
    ensures Apply(s, step).tasks == s.tasks - {op} && Apply(s, step).book.lastOp == s.book.lastOp
  {
  }

  lemma StartTasks(s: System, w: WorldId, kind: string)
    requires Enabled(s, GuestStart(w, kind)) && TasksTold(s.tasks, s.book.lastOp, s.log) && s.book.lastOp + 1 !in s.tasks
    ensures var s' := Apply(s, GuestStart(w, kind)); TasksTold(s'.tasks, s'.book.lastOp, s'.log)
  {
    if At(s, w).accepting {
      TasksStart(s.tasks, s.book.lastOp, s.log, w);
    }
  }

  lemma EndTasks(s: System, step: Step, op: OpId)
    requires Enabled(s, step) && WorldsOk(s.book, s.worlds) && TasksTold(s.tasks, s.book.lastOp, s.log)
    requires step == TaskAborted(op) || step == Send(op)
    ensures var s' := Apply(s, step); TasksTold(s'.tasks, s'.book.lastOp, s'.log)
  {
    StepLogs(s, step);
    EndedTask(s, step, op);
    TasksEnd(s.tasks, s.book.lastOp, s.log, op, EventOf(s, step)[0]);
  }

  lemma QuietTasks(s: System, step: Step)
    requires Enabled(s, step) && WorldsOk(s.book, s.worlds) && TasksTold(s.tasks, s.book.lastOp, s.log)
    requires !step.GuestStart? && !step.TaskFinished? && !step.TaskAborted? && !step.Send?
    ensures var s' := Apply(s, step); TasksTold(s'.tasks, s'.book.lastOp, s'.log)
  {
    StepLogs(s, step);
    OtherTasks(s, step);
    NoTaskEvent(s, step);
    TasksMaybe(s.tasks, s.book.lastOp, s.log, EventOf(s, step));
  }

  lemma StepTasks(s: System, step: Step)
    requires Inv(s) && Enabled(s, step) && TasksTold(s.tasks, s.book.lastOp, s.log)
    ensures var s' := Apply(s, step); TasksTold(s'.tasks, s'.book.lastOp, s'.log)
  {
    match step
    case GuestStart(w, kind) =>
      FreshId(s);
      StartTasks(s, w, kind);
    case TaskFinished(op) => TasksFinish(s.tasks, s.book.lastOp, s.log, op);
    case TaskAborted(op) => EndTasks(s, step, op);
    case Send(op) => EndTasks(s, step, op);
    case _ => QuietTasks(s, step);
  }

  // ---- Every step: the worlds ----------------------------------------------------------------

  lemma InstantiatedWorlds(worlds: seq<World>, log: seq<Event>, i: nat)
    requires WorldsTold(worlds, log) && i < |worlds| && worlds[i].phase == Creating
    ensures WorldsTold(worlds[i := worlds[i].(phase := Live)], log)
  {
    var worlds' := worlds[i := worlds[i].(phase := Live)];
    forall j | 0 <= j < |worlds'| ensures WorldTold(worlds'[j], j + 1, log) {
      assert WorldTold(worlds[j], j + 1, log);
    }
  }

  /** One world becomes another, as the event says. */
  lemma OneWorld(s: System, s': System, w: WorldId, u: World, e: Event)
    requires WorldsTold(s.worlds, s.log) && Known(s, w) && e.world == w && WorldTold(u, w, s.log + [e])
    requires s'.worlds == s.worlds[w - 1 := u] && s'.log == s.log + [e]
    ensures WorldsTold(s'.worlds, s'.log)
  {
    WorldsReplacedTold(s.worlds, s.log, w - 1, u, e);
  }

  lemma SentFrame(s: System, op: OpId)
    requires Enabled(s, Send(op))
    ensures var s' := Apply(s, Send(op)); var w := s.tasks[op].world; var to := At(s, w);
      && s'.worlds == s.worlds[w - 1 := if Receiving(to) then to.(queue := to.queue + [Completion(w, op)]) else to]
      && (Receiving(to) ==> s'.book == s.book)
  {
  }

  lemma SendWorlds(s: System, op: OpId)
    requires Enabled(s, Send(op)) && WorldsTold(s.worlds, s.log)
    ensures WorldsTold(Apply(s, Send(op)).worlds, Apply(s, Send(op)).log)
  {
    var w := s.tasks[op].world;
    SentFrame(s, op);
    assert WorldTold(At(s, w), w, s.log);
    SendTold(At(s, w), w, op, s.log);
    OneWorld(s, Apply(s, Send(op)), w, Apply(s, Send(op)).worlds[w - 1], SendMade(w, op));
  }

  lemma RoutedFrame(s: System, w: WorldId)
    requires Enabled(s, Route(w)) && At(s, w).queue[0].world == w
    ensures var world, c, d := At(s, w), At(s, w).queue[0], Deliverable(s.book, w, At(s, w).queue[0].op);
      Routed(s, w).worlds == s.worlds[w - 1 := world.(queue := world.queue[1..], routing := if d then Some(c) else None)]
  {
    var world, c := At(s, w), At(s, w).queue[0];
    var u := world.(queue := world.queue[1..]);
    assert s.worlds[w - 1 := u][w - 1 := u.(routing := Some(c))] == s.worlds[w - 1 := u.(routing := Some(c))];
    assert u == u.(routing := None);
  }

  lemma RouteWorlds(s: System, w: WorldId)
    requires Enabled(s, Route(w)) && WorldsTold(s.worlds, s.log) && WorldsOk(s.book, s.worlds)
    ensures WorldsTold(Apply(s, Route(w)).worlds, Apply(s, Route(w)).log)
  {
    var world, c := At(s, w), At(s, w).queue[0];
    var r := if Deliverable(s.book, w, c.op) then Some(c) else None;
    HeadIsOwned(s, w);
    StepLogs(s, Route(w));
    RoutedFrame(s, w);
    assert WorldTold(world, w, s.log);
    TakeTold(world, w, s.log, TakenEvent(s, w), r);
    OneWorld(s, Apply(s, Route(w)), w, world.(queue := world.queue[1..], routing := r), TakenEvent(s, w));
  }

  lemma FinishWorlds(s: System, step: Step, w: WorldId)
    requires Enabled(s, step) && WorldsTold(s.worlds, s.log) && (step.Returned? || step.RouteFailed?) && step.w == w
    ensures WorldsTold(Apply(s, step).worlds, Apply(s, step).log)
  {
    var e := EventOf(s, step)[0];
    assert WorldTold(At(s, w), w, s.log);
    AnswerTold(At(s, w), w, s.log, e);
    OneWorld(s, Apply(s, step), w, At(s, w).(routing := None), e);
  }

  lemma CancelWorlds(s: System, w: WorldId)
    requires Enabled(s, CancelWorld(w)) && WorldsTold(s.worlds, s.log)
    ensures WorldsTold(Apply(s, CancelWorld(w)).worlds, Apply(s, CancelWorld(w)).log)
  {
    assert WorldTold(At(s, w), w, s.log);
    CancelTold(At(s, w), w, s.log);
    OneWorld(s, Apply(s, CancelWorld(w)), w, At(s, w).(accepting := false), WorldCancelled(w));
  }

  lemma RetireWorlds(s: System, w: WorldId)
    requires Enabled(s, Retire(w)) && WorldsTold(s.worlds, s.log)
    ensures WorldsTold(Apply(s, Retire(w)).worlds, Apply(s, Retire(w)).log)
  {
    EndFrames(Uninterested(s, w), w, Retired);
    assert WorldTold(At(s, w), w, s.log);
    EndTold(At(s, w), w, s.log, WorldRetired(w));
    OneWorld(s, Apply(s, Retire(w)), w, World(Retired, false, [], None), WorldRetired(w));
  }

  lemma AbandonWorlds(s: System, w: WorldId)
    requires Enabled(s, InstantiateFailed(w)) && WorldsTold(s.worlds, s.log)
    ensures WorldsTold(Apply(s, InstantiateFailed(w)).worlds, Apply(s, InstantiateFailed(w)).log)
  {
    EndFrames(s, w, Abandoned);
    assert WorldTold(At(s, w), w, s.log);
    EndTold(At(s, w), w, s.log, WorldAbandoned(w));
    OneWorld(s, Apply(s, InstantiateFailed(w)), w, World(Abandoned, At(s, w).accepting, [], None), WorldAbandoned(w));
  }

  lemma AsideWorlds(s: System, step: Step)
    requires Enabled(s, step) && WorldsTold(s.worlds, s.log)
    requires step.GuestStart? || step.GuestCancel? || (step.TaskAborted? && Known(s, s.tasks[step.op].world))
    ensures WorldsTold(Apply(s, step).worlds, Apply(s, step).log)
  {
    if EventOf(s, step) != [] {
      AsideTold(s.worlds, s.log, EventOf(s, step)[0]);
    }
  }

  lemma NewWorlds(s: System, step: Step)
    requires Enabled(s, step) && WorldsTold(s.worlds, s.log)
    requires step.CreateWorld? || step.Instantiated? || step.TaskFinished?
    ensures WorldsTold(Apply(s, step).worlds, Apply(s, step).log)
  {
    match step
    case CreateWorld => NewWorldTold(s.worlds, s.log);
    case Instantiated(w) => InstantiatedWorlds(s.worlds, s.log, w - 1);
    case TaskFinished(_) =>
  }

  lemma StepWorlds(s: System, step: Step)
    requires Inv(s) && Enabled(s, step) && WorldsTold(s.worlds, s.log)
    ensures WorldsTold(Apply(s, step).worlds, Apply(s, step).log)
  {
    match step
    case CreateWorld => NewWorlds(s, step);
    case Instantiated(_) => NewWorlds(s, step);
    case TaskFinished(_) => NewWorlds(s, step);
    case InstantiateFailed(w) => AbandonWorlds(s, w);
    case TaskAborted(op) =>
      TaskWorldKnown(s, op);
      AsideWorlds(s, step);
    case Send(op) => SendWorlds(s, op);
    case Route(w) => RouteWorlds(s, w);
    case Returned(w, _) => FinishWorlds(s, step, w);
    case RouteFailed(w) => FinishWorlds(s, step, w);
    case CancelWorld(w) => CancelWorlds(s, w);
    case Retire(w) => RetireWorlds(s, w);
    case _ => AsideWorlds(s, step);
  }

  // ---- Every step: the gauges -------------------------------------------------------------------

  lemma GaugeMoves(s: System, step: Step)
    requires Enabled(s, step) && WorldsOk(s.book, s.worlds)
    ensures var g, g', es := s.gauges, Apply(s, step).gauges, EventOf(s, step);
      && g'.delivered == g.delivered + Answers(es, true)
      && g'.droppedLate == g.droppedLate + Lates(es) + Answers(es, false)
  {
    match step
    case InstantiateFailed(w) => EndFrames(s, w, Abandoned);
    case Retire(w) => EndFrames(Uninterested(s, w), w, Retired);
    case Route(w) => HeadIsOwned(s, w);
    case _ =>
  }

  lemma StepGauges(s: System, step: Step)
    requires Enabled(s, step) && WorldsOk(s.book, s.worlds) && GaugesTold(s.gauges, s.log)
    ensures GaugesTold(Apply(s, step).gauges, Apply(s, step).log)
  {
    StepLogs(s, step);
    GaugeMoves(s, step);
    var es := EventOf(s, step);
    if es == [] {
      assert s.log + es == s.log;
    } else {
      assert es == [es[0]];
      GaugesGrow(s.gauges, Apply(s, step).gauges, s.log, es[0]);
    }
  }

  // ---- Every step: the starts ---------------------------------------------------------------------

  ghost predicate NoneAfter(log: seq<Event>, lastOp: nat)
  {
    forall v: WorldId, op: OpId | StartedIn(log, v, op) :: op <= lastOp
  }

  lemma StartAccounted(b: Book, log: seq<Event>, w: WorldId, kind: string)
    requires Accounted(b, log) && b.lastOp + 1 !in b.records && NoneAfter(log, b.lastOp)
    ensures Accounted(Opened(b, w, kind), log + [Started(w, b.lastOp + 1)])
  {
    AccountedGrows(b, Opened(b, w, kind), log, Started(w, b.lastOp + 1));
  }

  /** What was recorded for a world still is. */
  ghost predicate KeepsAll(b: Book, b': Book)
  {
    forall o | o in b.records :: o in b'.records && b'.records[o].world == b.records[o].world
  }

  lemma KeptAccounted(b: Book, b': Book, log: seq<Event>, e: Event)
    requires Accounted(b, log) && KeepsAll(b, b') && !e.Started?
    ensures Accounted(b', log + [e])
  {
    AccountedGrows(b, b', log, e);
  }

  lemma KeptSameLog(b: Book, b': Book, log: seq<Event>)
    requires Accounted(b, log) && KeepsAll(b, b')
    ensures Accounted(b', log)
  {
    forall w: WorldId, op: OpId | StartedIn(log, w, op) ensures AccountedFor(b', log, w, op) {
      assert AccountedFor(b, log, w, op);
    }
  }

  /** Records other than `op`'s are as they were. */
  ghost predicate AllBut(b: Book, b': Book, op: OpId)
  {
    forall o | o in b.records && o != op :: o in b'.records && b'.records[o].world == b.records[o].world
  }

  /** A step that releases one operation, for a reason the log now gives. */
  lemma ReleaseAccounted(s: System, s': System, e: Event, w: WorldId, op: OpId)
    requires Accounted(s.book, s.log) && Owns(s.book, w, op) && AllBut(s.book, s'.book, op)
    requires s'.log == s.log + [e] && !e.Started? && Gone(s'.log, w, op)
    ensures Accounted(s'.book, s'.log)
  {
    AccountedDrop(s.book, s'.book, s.log, e, w, op);
  }

  lemma AbortAccounted(s: System, op: OpId)
    requires Accounted(s.book, s.log) && Enabled(s, TaskAborted(op)) && Owns(s.book, s.tasks[op].world, op)
    ensures Accounted(Apply(s, TaskAborted(op)).book, Apply(s, TaskAborted(op)).log)
  {
    var w := s.tasks[op].world;
    ReleaseAccounted(s, Apply(s, TaskAborted(op)), Aborted(w, op), w, op);
  }

  lemma EndedIsGone(world: World, w: WorldId, log: seq<Event>, e: Event, op: OpId)
    requires PhaseTold(world, w, log) && !Receiving(world)
    ensures Gone(log + [e], w, op)
  {
    assert WorldRetired(w) in log || WorldAbandoned(w) in log;
    assert WorldRetired(w) in log + [e] || WorldAbandoned(w) in log + [e];
  }

  /** A send to a world that is still there releases nothing. */
  lemma SendAccounted(s: System, op: OpId)
    requires Accounted(s.book, s.log) && Enabled(s, Send(op)) && Owns(s.book, s.tasks[op].world, op)
    requires PhaseTold(At(s, s.tasks[op].world), s.tasks[op].world, s.log)
    ensures Accounted(Apply(s, Send(op)).book, Apply(s, Send(op)).log)
  {
    var w, s' := s.tasks[op].world, Apply(s, Send(op));
    if Receiving(At(s, w)) {
      KeptAccounted(s.book, s'.book, s.log, SendMade(w, op));
    } else {
      EndedIsGone(At(s, w), w, s.log, SendMade(w, op), op);
      ReleaseAccounted(s, s', SendMade(w, op), w, op);
    }
  }

  lemma LateIsGone(b: Book, log: seq<Event>, w: WorldId, op: OpId)
    requires StatesHist(b, log) && Owns(b, w, op) && !Deliverable(b, w, op)
    ensures Gone(log + [DroppedLate(w, op)], w, op)
  {
    SameInterest(log, DroppedLate(w, op), w, op);
  }

  lemma RouteAccounted(s: System, w: WorldId)
    requires Accounted(s.book, s.log) && Enabled(s, Route(w)) && StatesHist(s.book, s.log)
    requires At(s, w).queue[0].world == w && Owns(s.book, w, At(s, w).queue[0].op)
    ensures Accounted(Routed(s, w).book, Routed(s, w).log)
  {
    var op := At(s, w).queue[0].op;
    if Deliverable(s.book, w, op) {
      KeptAccounted(s.book, Routed(s, w).book, s.log, Delivered(w, op));
    } else {
      LateIsGone(s.book, s.log, w, op);
      ReleaseAccounted(s, Routed(s, w), DroppedLate(w, op), w, op);
    }
  }

  lemma RoutingIsOwned(s: System, w: WorldId)
    requires WorldsOk(s.book, s.worlds) && Known(s, w) && At(s, w).routing.Some?
    ensures Owns(s.book, w, At(s, w).routing.value.op)
  {
    var world := At(s, w);
    assert WorldOk(s.book, w, world);
    assert Guards(world)[|world.queue|] == world.routing.value;
  }

  lemma FinishAccounted(s: System, step: Step, w: WorldId)
    requires Accounted(s.book, s.log) && Enabled(s, step) && (step.Returned? || step.RouteFailed?) && step.w == w
    requires Owns(s.book, w, At(s, w).routing.value.op) && PhaseTold(At(s, w), w, s.log)
    ensures Accounted(Apply(s, step).book, Apply(s, step).log)
  {
    var op, e := At(s, w).routing.value.op, EventOf(s, step)[0];
    assert Delivered(w, op) in s.log + [e];
    ReleaseAccounted(s, Apply(s, step), e, w, op);
  }

  ghost predicate AllButWorld(b: Book, b': Book, w: WorldId)
  {
    forall o | o in b.records && b.records[o].world != w :: o in b'.records && b'.records[o].world == b.records[o].world
  }

  /** Emptying a world releases only what was its own. */
  lemma EmptiedReleases(s: System, w: WorldId, phase: Phase)
    requires WorldsOk(s.book, s.worlds) && Known(s, w)
    ensures AllButWorld(s.book, Emptied(s, w, phase).book, w)
  {
    var u, cs := At(s, w).(phase := phase, queue := [], routing := None), Guards(At(s, w));
    assert WorldOk(s.book, w, At(s, w));
    forall o | o in s.book.records && s.book.records[o].world != w
      ensures var b := DroppedAll(With(s, w, u), cs).book; o in b.records && b.records[o] == s.book.records[o]
    {
      DroppedAllLeaves(With(s, w, u), cs, o);
    }
  }

  lemma AbandonAccounted(s: System, w: WorldId)
    requires Accounted(s.book, s.log) && Enabled(s, InstantiateFailed(w)) && WorldsOk(s.book, s.worlds)
    ensures Accounted(Apply(s, InstantiateFailed(w)).book, Apply(s, InstantiateFailed(w)).log)
  {
    EndFrames(s, w, Abandoned);
    EmptiedReleases(s, w, Abandoned);
    AccountedEnd(s.book, Apply(s, InstantiateFailed(w)).book, s.log, WorldAbandoned(w), w);
  }

  lemma RetireAccounted(s: System, w: WorldId)
    requires Accounted(s.book, s.log) && Enabled(s, Retire(w)) && Inv(s)
    ensures Accounted(Apply(s, Retire(w)).book, Apply(s, Retire(w)).log)
  {
    var t := Uninterested(s, w);
    UninterestedKeeps(s, w);
    EndFrames(t, w, Retired);
    EmptiedReleases(t, w, Retired);
    AccountedEnd(s.book, Apply(s, Retire(w)).book, s.log, WorldRetired(w), w);
  }

  /** Steps that release nothing. */
  lemma QuietAccounted(s: System, step: Step)
    requires Accounted(s.book, s.log) && Enabled(s, step)
    requires step.CreateWorld? || step.Instantiated? || step.TaskFinished?
    ensures Accounted(Apply(s, step).book, Apply(s, step).log)
  {
    KeptSameLog(s.book, Apply(s, step).book, s.log);
  }

  lemma CancelAccounted(s: System, step: Step)
    requires Accounted(s.book, s.log) && Enabled(s, step) && (step.GuestCancel? || step.CancelWorld?)
    ensures Accounted(Apply(s, step).book, Apply(s, step).log)
  {
    KeptAccounted(s.book, Apply(s, step).book, s.log, EventOf(s, step)[0]);
  }

  lemma GrantAccounted(s: System, w: WorldId, kind: string)
    requires Accounted(s.book, s.log) && Enabled(s, GuestStart(w, kind))
    requires s.book.lastOp + 1 !in s.book.records && NoneAfter(s.log, s.book.lastOp)
    ensures Accounted(Started'(s, w, kind).book, Started'(s, w, kind).log)
  {
    StartAccounted(s.book, s.log, w, kind);
  }

  lemma SentAccounted(s: System, op: OpId)
    requires TasksOk(s.book, s.tasks) && Accounted(s.book, s.log) && WorldsTold(s.worlds, s.log) && Enabled(s, Send(op))
    ensures Accounted(Apply(s, Send(op)).book, Apply(s, Send(op)).log)
  {
    var w := s.tasks[op].world;
    assert Owns(s.book, w, op);
    assert WorldTold(At(s, w), w, s.log);
    SendAccounted(s, op);
  }

  lemma RoutedAccounted(s: System, w: WorldId)
    requires WorldsOk(s.book, s.worlds) && StatesHist(s.book, s.log) && Accounted(s.book, s.log) && Enabled(s, Route(w))
    ensures Accounted(Apply(s, Route(w)).book, Apply(s, Route(w)).log)
  {
    HeadIsOwned(s, w);
    RouteAccounted(s, w);
  }

  /** The steps of guests and tasks. */
  lemma WorkAccounted(s: System, step: Step)
    requires TasksOk(s.book, s.tasks) && BookOk(s.book, |s.worlds|) && Enabled(s, step)
    requires Accounted(s.book, s.log) && WorldsTold(s.worlds, s.log) && NoneAfter(s.log, s.book.lastOp)
    requires step.GuestStart? || step.TaskAborted? || step.Send?
    ensures Accounted(Apply(s, step).book, Apply(s, step).log)
  {
    match step
    case GuestStart(w, kind) =>
      FreshId(s);
      GrantAccounted(s, w, kind);
    case TaskAborted(op) => AbortAccounted(s, op);
    case Send(op) => SentAccounted(s, op);
  }

  lemma StepAccounted(s: System, step: Step)
    requires Inv(s) && Hist(s) && Enabled(s, step)
    requires Accounted(s.book, s.log) && WorldsTold(s.worlds, s.log) && NoneAfter(s.log, s.book.lastOp)
    ensures Accounted(Apply(s, step).book, Apply(s, step).log)
  {
    match step
    case CreateWorld => QuietAccounted(s, step);
    case Instantiated(_) => QuietAccounted(s, step);
    case TaskFinished(_) => QuietAccounted(s, step);
    case InstantiateFailed(w) => AbandonAccounted(s, w);
    case GuestCancel(_, _) => CancelAccounted(s, step);
    case CancelWorld(_) => CancelAccounted(s, step);
    case Route(w) => RoutedAccounted(s, w);
    case Returned(w, _) => AnsweredAccounted(s, step, w);
    case RouteFailed(w) => AnsweredAccounted(s, step, w);
    case Retire(w) => RetireAccounted(s, w);
    case _ => WorkAccounted(s, step);
  }

  lemma AnsweredAccounted(s: System, step: Step, w: WorldId)
    requires Inv(s) && Accounted(s.book, s.log) && WorldsTold(s.worlds, s.log)
    requires Enabled(s, step) && (step.Returned? || step.RouteFailed?) && step.w == w
    ensures Accounted(Apply(s, step).book, Apply(s, step).log)
  {
    RoutingIsOwned(s, w);
    assert WorldTold(At(s, w), w, s.log);
    FinishAccounted(s, step, w);
  }

  // ---- Every step -----------------------------------------------------------------------------------

  ghost predicate Told(s: System)
  {
    && Accounted(s.book, s.log)
    && TasksTold(s.tasks, s.book.lastOp, s.log)
    && WorldsTold(s.worlds, s.log)
    && GaugesTold(s.gauges, s.log)
  }

  lemma StartedBefore(tasks: map<OpId, Task>, lastOp: nat, log: seq<Event>)
    requires TasksTold(tasks, lastOp, log)
    ensures NoneAfter(log, lastOp)
  {
  }

  /** The log keeps telling what became of everything. */
  lemma StepTells(s: System, step: Step)
    requires Inv(s) && Hist(s) && Told(s) && Enabled(s, step)
    ensures Told(Apply(s, step))
  {
    var s' := Apply(s, step);
    assert Accounted(s'.book, s'.log) by {
      StartedBefore(s.tasks, s.book.lastOp, s.log);
      StepAccounted(s, step);
    }
    assert TasksTold(s'.tasks, s'.book.lastOp, s'.log) by { StepTasks(s, step); }
    assert WorldsTold(s'.worlds, s'.log) by { StepWorlds(s, step); }
    assert GaugesTold(s'.gauges, s'.log) by { StepGauges(s, step); }
  }

  lemma {:induction false} RunTells(s: System, steps: seq<Step>)
    requires Inv(s) && Hist(s) && Told(s) && Runs(s, steps)
    ensures Told(After(s, steps)) && Inv(After(s, steps))
    decreases |steps|
  {
    if steps != [] {
      StepTells(s, steps[0]);
      StepKeeps(s, steps[0]);
      StepHist(s, steps[0]);
      RunTells(Apply(s, steps[0]), steps[1..]);
    }
  }

  // ---- Whole runs -------------------------------------------------------------------------

  lemma RunTold(steps: seq<Step>)
    requires Runs(Initial(), steps)
    ensures Told(After(Initial(), steps)) && Inv(After(Initial(), steps))
  {
    RunTells(Initial(), steps);
  }

  /** What became of the operation that `log[i]` started. */
  ghost predicate LeftFor(log: seq<Event>, i: nat)
    requires i < |log| && log[i].Started?
  {
    var w, op := log[i].world, log[i].op;
    || Delivered(w, op) in log
    || Aborted(w, op) in log
    || WorldAbandoned(w) in log || WorldCancelled(w) in log || WorldRetired(w) in log
    || exists j | i < j < |log| :: log[j] == GuestCancelled(w, op)
  }

  lemma GoneMeans(log: seq<Event>, i: nat)
    requires i < |log| && log[i].Started? && Gone(log, log[i].world, log[i].op)
    ensures LeftFor(log, i)
  {
    var w, op := log[i].world, log[i].op;
    assert StartedAt(log, w, op, i) || GuestCancelled(w, op) in log[i..];
    if GuestCancelled(w, op) in log[i..] {
      var k :| 0 <= k < |log[i..]| && log[i..][k] == GuestCancelled(w, op);
      assert log[i + k] == GuestCancelled(w, op) && k > 0;
    }
  }

  /** On every run each operation that was started is recorded for its world with its one guard, or has left
      the ledger for a cause the log names: it was delivered, cancelled by its guest since, aborted, or its
      world was cancelled, retired or abandoned. */
  lemma EveryStartIsAccounted(steps: seq<Step>, i: nat)
    requires Runs(Initial(), steps) && i < |After(Initial(), steps).log| && After(Initial(), steps).log[i].Started?
    ensures var s := After(Initial(), steps); var w, op := s.log[i].world, s.log[i].op;
      (Owns(s.book, w, op) && GuardsOf(s.tasks, s.worlds, op) == 1) || LeftFor(s.log, i)
  {
    RunTold(steps);
    OwnershipConserved(steps);
    var s := After(Initial(), steps);
    assert s.log[i] in s.log;
    assert StartedIn(s.log, s.log[i].world, s.log[i].op);
    assert AccountedFor(s.book, s.log, s.log[i].world, s.log[i].op);
    if !Owns(s.book, s.log[i].world, s.log[i].op) {
      GoneMeans(s.log, i);
    }
  }

  /** On every run a task is there exactly until its send or its abort. */
  lemma TaskUntilSent(steps: seq<Step>, e: Event)
    requires Runs(Initial(), steps) && e in After(Initial(), steps).log && e.Started?
    ensures var s := After(Initial(), steps);
      && (e.op in s.tasks <==> SendMade(e.world, e.op) !in s.log && Aborted(e.world, e.op) !in s.log)
      && (e.op in s.tasks ==> s.tasks[e.op].world == e.world)
  {
    RunTold(steps);
    var s := After(Initial(), steps);
    assert StartedIn(s.log, e.world, e.op);
    assert TaskTold(s.tasks, s.log, e.world, e.op);
    assert e.op in s.tasks ==> UnderWay(s.log, s.tasks[e.op].world, e.op);
  }

  /** On every run a start by a world that has been neither cancelled nor retired is granted: it is logged
      under an id no start had before, recorded as running, and has its task. Any other changes nothing. */
  lemma StartIsGrantedIff(steps: seq<Step>, w: WorldId, kind: string)
    requires Runs(Initial(), steps) && Enabled(After(Initial(), steps), GuestStart(w, kind))
    ensures var s := After(Initial(), steps); var s', op := Apply(s, GuestStart(w, kind)), s.book.lastOp + 1;
      && (WorldCancelled(w) in s.log || WorldRetired(w) in s.log ==> s' == s)
      && (WorldCancelled(w) !in s.log && WorldRetired(w) !in s.log ==>
            && s'.log == s.log + [Started(w, op)] && (forall e | e in s.log && e.Started? :: e.op != op)
            && Deliverable(s'.book, w, op) && op in s'.tasks && s'.tasks[op] == Task(w, false)
            && s'.gauges.liveOps == s.gauges.liveOps + 1)
  {
    RunTold(steps);
    var s := After(Initial(), steps);
    assert WorldTold(At(s, w), w, s.log);
    forall e | e in s.log && e.Started? ensures e.op != s.book.lastOp + 1 {
      assert StartedIn(s.log, e.world, e.op);
    }
  }

  /** On every run what came out of a world's channel is what was sent to it, from the first on and in order;
      and what was sent and has not come out is waiting there, as long as there is a receiver. */
  lemma ChannelIsExact(steps: seq<Step>, w: WorldId)
    requires Runs(Initial(), steps) && Known(After(Initial(), steps), w)
    ensures var s := After(Initial(), steps);
      && TakenBy(s.log, w) <= SentTo(s.log, w)
      && (WorldRetired(w) !in s.log && WorldAbandoned(w) !in s.log ==>
            SentTo(s.log, w) == TakenBy(s.log, w) + Ops(At(s, w).queue))
  {
    RunTold(steps);
    var s := After(Initial(), steps);
    assert WorldTold(At(s, w), w, s.log);
  }

  /** Two places of the log that send to a world, in order, with the operations at these places of `SentTo`. */
  lemma {:induction false} SendsAt(log: seq<Event>, w: WorldId, p: nat, q: nat) returns (a: nat, b: nat)
    requires p < q < |SentTo(log, w)|
    ensures a < b < |log| && log[a] == SendMade(w, SentTo(log, w)[p]) && log[b] == SendMade(w, SentTo(log, w)[q])
    decreases |log|
  {
    var before := log[..|log| - 1];
    if q < |SentTo(before, w)| {
      a, b := SendsAt(before, w, p, q);
    } else {
      a := SendAt(before, w, p);
      b := |log| - 1;
    }
  }

  lemma {:induction false} SendAt(log: seq<Event>, w: WorldId, p: nat) returns (a: nat)
    requires p < |SentTo(log, w)|
    ensures a < |log| && log[a] == SendMade(w, SentTo(log, w)[p])
    decreases |log|
  {
    var before := log[..|log| - 1];
    if p < |SentTo(before, w)| {
      a := SendAt(before, w, p);
    } else {
      a := |log| - 1;
    }
  }

  /** How many came out of a world's channel before place `j` is the rank of the one taken there. */
  lemma {:induction false} TakenAt(log: seq<Event>, w: WorldId, j: nat)
    requires j < |log| && (log[j].Delivered? || log[j].DroppedLate?) && log[j].world == w
    ensures var p := |TakenBy(log[..j], w)|; p < |TakenBy(log, w)| && TakenBy(log, w)[p] == log[j].op
    decreases |log|
  {
    var before := log[..|log| - 1];
    if j < |before| {
      TakenAt(before, w, j);
      assert before[..j] == log[..j];
    } else {
      assert log[..j] == before;
    }
  }

  /** On every run deliveries to a world come in the order of the sends. */
  lemma DeliveriesInOrder(steps: seq<Step>, w: WorldId, j: nat, k: nat) returns (a: nat, b: nat)
    requires Runs(Initial(), steps) && j < k < |After(Initial(), steps).log|
    requires var log := After(Initial(), steps).log; log[j].Delivered? && log[k].Delivered? && log[j].world == log[k].world == w
    ensures var log := After(Initial(), steps).log;
      a < b < |log| && log[a] == SendMade(w, log[j].op) && log[b] == SendMade(w, log[k].op)
  {
    var s := After(Initial(), steps);
    RunTold(steps);
    assert s.log[j] in s.log;
    ChannelIsExact(steps, w);
    var p, q := |TakenBy(s.log[..j], w)|, |TakenBy(s.log[..k], w)|;
    TakenAt(s.log, w, j);
    TakenAt(s.log, w, k);
    assert p < q by {
      TakenAt(s.log[..k], w, j);
      assert s.log[..k][..j] == s.log[..j];
    }
    a, b := SendsAt(s.log, w, p, q);
  }

  /** On every run the gauges of completions are what the log counts. */
  lemma CompletionsCounted(steps: seq<Step>)
    requires Runs(Initial(), steps)
    ensures var s := After(Initial(), steps);
      && s.gauges.delivered == Answers(s.log, true)
      && s.gauges.droppedLate == Lates(s.log) + Answers(s.log, false)
  {
    RunTold(steps);
  }

  /** The way of one operation, from its start to the guest's answer. */
  function RoundTripOf(w: WorldId, kind: string, op: OpId): seq<Step>
  {
    [GuestStart(w, kind)] + ([TaskFinished(op)] + ([Send(op)] + ([Route(w)] + ([Returned(w, true)] + []))))
  }

  lemma RunsOn(s: System, step: Step, rest: seq<Step>)
    requires Enabled(s, step) && Runs(Apply(s, step), rest)
    ensures Runs(s, [step] + rest) && After(s, [step] + rest) == After(Apply(s, step), rest)
  {
    assert ([step] + rest)[1..] == rest;
  }

  lemma TakenIsAnswered(s: System, w: WorldId, op: OpId)
    requires Known(s, w) && At(s, w).phase == Live && At(s, w).queue == [Completion(w, op)] && At(s, w).routing.None?
    requires Deliverable(s.book, w, op)
    ensures var steps := [Route(w)] + ([Returned(w, true)] + []);
      && Runs(s, steps)
      && After(s, steps).log == s.log + [Delivered(w, op)] + [Answered(w, op, true)]
      && op !in After(s, steps).book.records
  {
    var s2 := Apply(s, Route(w));
    assert At(s2, w).routing == Some(Completion(w, op)) && s2.log == s.log + [Delivered(w, op)];
    RunsOn(s2, Returned(w, true), []);
    RunsOn(s, Route(w), [Returned(w, true)] + []);
  }

  /** An operation of a live world whose channel is empty, sent and taken, is answered. */
  lemma SentIsAnswered(s: System, w: WorldId, op: OpId)
    requires Known(s, w) && At(s, w).phase == Live && At(s, w).queue == [] && At(s, w).routing.None?
    requires op in s.tasks && s.tasks[op] == Task(w, true) && Deliverable(s.book, w, op)
    ensures var steps := [Send(op)] + ([Route(w)] + ([Returned(w, true)] + []));
      && Runs(s, steps)
      && After(s, steps).log == s.log + [SendMade(w, op)] + [Delivered(w, op)] + [Answered(w, op, true)]
      && op !in After(s, steps).book.records
  {
    var s1 := Apply(s, Send(op));
    assert At(s1, w) == At(s, w).(queue := [Completion(w, op)]) && s1.book == s.book;
    TakenIsAnswered(s1, w, op);
    RunsOn(s, Send(op), [Route(w)] + ([Returned(w, true)] + []));
  }

  /** From every reachable state, a live world that accepts and has nothing waiting can start an operation
      and have it answered. */
  lemma AnswerIsReachable(steps: seq<Step>, w: WorldId, kind: string)
    requires Runs(Initial(), steps) && Known(After(Initial(), steps), w)
    requires var s := After(Initial(), steps);
      At(s, w).phase == Live && WorldCancelled(w) !in s.log && At(s, w).queue == [] && At(s, w).routing.None?
    ensures var s := After(Initial(), steps); var op := s.book.lastOp + 1; var way := RoundTripOf(w, kind, op);
      && Runs(s, way) && op !in After(s, way).book.records
      && After(s, way).log
         == s.log + [Started(w, op)] + [SendMade(w, op)] + [Delivered(w, op)] + [Answered(w, op, true)]
  {
    RunTold(steps);
    var s := After(Initial(), steps);
    var op := s.book.lastOp + 1;
    assert WorldTold(At(s, w), w, s.log);
    WayFrom(s, w, kind);
  }

  lemma WayFrom(s: System, w: WorldId, kind: string)
    requires Known(s, w) && At(s, w).phase == Live && At(s, w).accepting && At(s, w).queue == [] && At(s, w).routing.None?
    ensures var op := s.book.lastOp + 1; var way := RoundTripOf(w, kind, op);
      && Runs(s, way) && op !in After(s, way).book.records
      && After(s, way).log
         == s.log + [Started(w, op)] + [SendMade(w, op)] + [Delivered(w, op)] + [Answered(w, op, true)]
  {
    var op := s.book.lastOp + 1;
    var s1 := Apply(s, GuestStart(w, kind));
    var s2 := Apply(s1, TaskFinished(op));
    SentIsAnswered(s2, w, op);
    RunsOn(s1, TaskFinished(op), [Send(op)] + ([Route(w)] + ([Returned(w, true)] + [])));
    RunsOn(s, GuestStart(w, kind), [TaskFinished(op)] + ([Send(op)] + ([Route(w)] + ([Returned(w, true)] + []))));
  }

  /** How many of the steps brought a world to life. */
  function Births(steps: seq<Step>): nat
  {
    if steps == [] then 0 else (if steps[0].Instantiated? then 1 else 0) + Births(steps[1..])
  }

  lemma StepBirths(s: System, step: Step)
    requires Enabled(s, step)
    ensures Apply(s, step).gauges.worldsCreated == s.gauges.worldsCreated + if step.Instantiated? then 1 else 0
  {
    match step
    case InstantiateFailed(w) => EndFrames(s, w, Abandoned);
    case Retire(w) => EndFrames(Uninterested(s, w), w, Retired);
    case _ =>
  }

  /** The gauge of worlds created counts those that came to life. */
  lemma {:induction false} WorldsCounted(s: System, steps: seq<Step>)
    requires Runs(s, steps)
    ensures After(s, steps).gauges.worldsCreated == s.gauges.worldsCreated + Births(steps)
    decreases |steps|
  {
    if steps != [] {
      StepBirths(s, steps[0]);
      WorldsCounted(Apply(s, steps[0]), steps[1..]);
    }
  }
}
