/** Who owns an external operation, over every interleaving of guests, owner tasks
    and drivers (`ownership.rs`, `host_ops.rs`, `world.rs`).

    The guard of an operation is never a thing of its own here: it is held by the
    operation's task, by a completion waiting in a world's channel, or by the
    completion a driver is handing to its guest. Nothing in the state forces those
    three to be exclusive or complete; `Inv` says they are, and every step keeps it. */
module Ownership {
  import opened Wrappers
  import opened Ledgers

  const CHANNEL_CAPACITY := 64

  /** `Abandoned`: instantiation failed, so the driver never existed. */
  datatype Phase = Creating | Live | Retired | Abandoned

  datatype Completion = Completion(world: WorldId, op: OpId)

  datatype World = World(phase: Phase, accepting: bool, queue: seq<Completion>, routing: Option<Completion>)

  datatype Task = Task(world: WorldId, finished: bool)

  datatype Gauges = Gauges(
    worldsCreated: int, liveWorlds: int, liveOps: int,
    delivered: int, droppedLate: int, rejectedStale: int)

  /** What happened, in order. Only the properties below read it. */
  datatype Event =
    | Started(world: WorldId, op: OpId)
    | GuestCancelled(world: WorldId, op: OpId)
    | WorldCancelled(world: WorldId)
    | WorldRetired(world: WorldId)
    | WorldAbandoned(world: WorldId)
    | Aborted(world: WorldId, op: OpId)
    | SendMade(world: WorldId, op: OpId)
    | Delivered(world: WorldId, op: OpId)
    | DroppedLate(world: WorldId, op: OpId)
    | Answered(world: WorldId, op: OpId, accepted: bool)
    | Unanswered(world: WorldId, op: OpId)

  /** `worlds[w - 1]` is the world with id `w`: ids count up from one. */
  datatype System = System(
    book: Book, tasks: map<OpId, Task>, worlds: seq<World>, gauges: Gauges, log: seq<Event>)

  datatype Step =
    | CreateWorld
    | Instantiated(w: WorldId)
    | InstantiateFailed(w: WorldId)
    | GuestStart(w: WorldId, kind: string)
    | GuestCancel(w: WorldId, op: OpId)
    | TaskFinished(op: OpId)
    | TaskAborted(op: OpId)
    | Send(op: OpId)
    | Route(w: WorldId)
    | Returned(w: WorldId, accepted: bool)
    | RouteFailed(w: WorldId)
    | CancelWorld(w: WorldId)
    | Retire(w: WorldId)

  function Initial(): System
  {
    System(Book(map[], 0, 0), map[], [], Gauges(0, 0, 0, 0, 0, 0), [])
  }

  predicate Known(s: System, w: WorldId)
  {
    1 <= w <= |s.worlds|
  }

  function At(s: System, w: WorldId): World
    requires Known(s, w)
  {
    s.worlds[w - 1]
  }

  function With(s: System, w: WorldId, world: World): System
    requires Known(s, w)
  {
    s.(worlds := s.worlds[w - 1 := world])
  }

  function Logged(s: System, e: Event): System
  {
    s.(log := s.log + [e])
  }

  /** Dropping or releasing a guard. */
  function Dropped(s: System, op: OpId): System
  {
    if op in s.book.records
    then s.(book := Released(s.book, op), gauges := s.gauges.(liveOps := s.gauges.liveOps - 1))
    else s
  }

  function DroppedAll(s: System, cs: seq<Completion>): System
    decreases |cs|
  {
    if cs == [] then s else DroppedAll(Dropped(s, cs[|cs| - 1].op), cs[..|cs| - 1])
  }

  /** The completions, guards included, a world's driver holds. */
  function Guards(world: World): seq<Completion>
  {
    world.queue + if world.routing.Some? then [world.routing.value] else []
  }

  predicate Receiving(world: World)
  {
    world.phase == Creating || world.phase == Live
  }

  predicate Enabled(s: System, step: Step)
  {
    match step
    case CreateWorld => true
    case Instantiated(w) => Known(s, w) && At(s, w).phase == Creating
    case InstantiateFailed(w) => Known(s, w) && At(s, w).phase == Creating
    case GuestStart(w, _) => Known(s, w) && At(s, w).phase != Abandoned
    case GuestCancel(w, _) => Known(s, w)
    case TaskFinished(op) => op in s.tasks
    case TaskAborted(op) => op in s.tasks
    case Send(op) =>
      && op in s.tasks && s.tasks[op].finished && Known(s, s.tasks[op].world)
      && var to := At(s, s.tasks[op].world); (Receiving(to) ==> |to.queue| < CHANNEL_CAPACITY)
    case Route(w) => Known(s, w) && At(s, w).phase == Live && At(s, w).routing.None? && At(s, w).queue != []
    case Returned(w, _) => Known(s, w) && At(s, w).routing.Some?
    case RouteFailed(w) => Known(s, w) && At(s, w).routing.Some?
    case CancelWorld(w) => Known(s, w) && At(s, w).phase == Live
    case Retire(w) => Known(s, w) && At(s, w).phase == Live
  }

  function Started'(s: System, w: WorldId, kind: string): System
    requires Known(s, w)
  {
    if !At(s, w).accepting then s
    else
      var op := s.book.lastOp + 1;
      Logged(s.(book := Opened(s.book, w, kind),
                tasks := s.tasks[op := Task(w, false)],
                gauges := s.gauges.(liveOps := s.gauges.liveOps + 1)),
             Started(w, op))
  }

  /** A send to a world whose receiver is gone drops the completion, guard and all. */
  function Sent(s: System, op: OpId): System
    requires op in s.tasks && Known(s, s.tasks[op].world)
  {
    var w := s.tasks[op].world;
    var s' := s.(tasks := s.tasks - {op});
    if Receiving(At(s, w))
    then With(s', w, At(s, w).(queue := At(s, w).queue + [Completion(w, op)]))
    else Dropped(s', op)
  }

  /** The one routing gate: identity, then the ledger, then the guest. */
  function Routed(s: System, w: WorldId): System
    requires Known(s, w) && At(s, w).queue != []
  {
    var c := At(s, w).queue[0];
    var s' := With(s, w, At(s, w).(queue := At(s, w).queue[1..]));
    if c.world != w then
      Dropped(s'.(gauges := s'.gauges.(rejectedStale := s'.gauges.rejectedStale + 1)), c.op)
    else if !Deliverable(s.book, w, c.op) then
      Logged(Dropped(s'.(gauges := s'.gauges.(droppedLate := s'.gauges.droppedLate + 1)), c.op), DroppedLate(w, c.op))
    else
      Logged(With(s', w, At(s', w).(routing := Some(c))), Delivered(w, c.op))
  }

  function Finished(s: System, w: WorldId): System
    requires Known(s, w) && At(s, w).routing.Some?
  {
    Dropped(With(s, w, At(s, w).(routing := None)), At(s, w).routing.value.op)
  }

  /** The world loses interest: it starts nothing more and its operations are cancelled. */
  function Uninterested(s: System, w: WorldId): System
    requires Known(s, w)
  {
    With(s, w, At(s, w).(accepting := false)).(book := WithWorldCancelled(s.book, w))
  }

  function Emptied(s: System, w: WorldId, phase: Phase): System
    requires Known(s, w)
  {
    DroppedAll(With(s, w, At(s, w).(phase := phase, queue := [], routing := None)), Guards(At(s, w)))
  }

  function Apply(s: System, step: Step): System
    requires Enabled(s, step)
  {
    match step
    case CreateWorld =>
      s.(worlds := s.worlds + [World(Creating, true, [], None)],
         book := s.book.(lastWorld := s.book.lastWorld + 1))
    case Instantiated(w) =>
      With(s, w, At(s, w).(phase := Live)).(
        gauges := s.gauges.(worldsCreated := s.gauges.worldsCreated + 1, liveWorlds := s.gauges.liveWorlds + 1))
    case InstantiateFailed(w) => Logged(Emptied(s, w, Abandoned), WorldAbandoned(w))
    case GuestStart(w, kind) => Started'(s, w, kind)
    case GuestCancel(w, op) => Logged(s.(book := WithOpCancelled(s.book, op, w)), GuestCancelled(w, op))
    case TaskFinished(op) => s.(tasks := s.tasks[op := s.tasks[op].(finished := true)])
    case TaskAborted(op) => Logged(Dropped(s.(tasks := s.tasks - {op}), op), Aborted(s.tasks[op].world, op))
    case Send(op) => Logged(Sent(s, op), SendMade(s.tasks[op].world, op))
    case Route(w) => Routed(s, w)
    case Returned(w, accepted) =>
      var s' := Finished(s, w);
      Logged(s'.(gauges := if accepted then s'.gauges.(delivered := s'.gauges.delivered + 1)
                           else s'.gauges.(droppedLate := s'.gauges.droppedLate + 1)),
             Answered(w, At(s, w).routing.value.op, accepted))
    case RouteFailed(w) => Logged(Finished(s, w), Unanswered(w, At(s, w).routing.value.op))
    case CancelWorld(w) => Logged(Uninterested(s, w), WorldCancelled(w))
    case Retire(w) =>
      var s' := Emptied(Uninterested(s, w), w, Retired);
      Logged(s'.(gauges := s'.gauges.(liveWorlds := s'.gauges.liveWorlds - 1)), WorldRetired(w))
  }

  // ---- The invariant --------------------------------------------------------

  function Count(cs: seq<Completion>, op: OpId): nat
  {
    if cs == [] then 0 else Count(cs[..|cs| - 1], op) + if cs[|cs| - 1].op == op then 1 else 0
  }

  /** How many guards of `op` the worlds hold, and how many guards in all. */
  function Held(worlds: seq<World>, op: OpId): nat
  {
    if worlds == [] then 0
    else Held(worlds[..|worlds| - 1], op) + Count(Guards(worlds[|worlds| - 1]), op)
  }

  function HeldInAll(worlds: seq<World>): nat
  {
    if worlds == [] then 0
    else HeldInAll(worlds[..|worlds| - 1]) + |Guards(worlds[|worlds| - 1])|
  }

  function LiveCount(worlds: seq<World>): nat
  {
    if worlds == [] then 0
    else LiveCount(worlds[..|worlds| - 1]) + if worlds[|worlds| - 1].phase == Live then 1 else 0
  }

  function GuardsOf(tasks: map<OpId, Task>, worlds: seq<World>, op: OpId): nat
  {
    Held(worlds, op) + if op in tasks then 1 else 0
  }

  /** What the book and the world with id `w` owe each other. */
  ghost predicate WorldOk(b: Book, w: WorldId, world: World)
  {
    && (forall c | c in Guards(world) :: c.world == w && Owns(b, w, c.op))
    && (!Receiving(world) ==> Guards(world) == [])
    && (world.phase == Creating ==> world.routing.None?)
    && (world.phase == Retired ==> !world.accepting)
    && (!world.accepting ==> forall op :: !Deliverable(b, w, op))
  }

  ghost predicate WorldsOk(b: Book, worlds: seq<World>)
  {
    forall i | 0 <= i < |worlds| :: WorldOk(b, i + 1, worlds[i])
  }

  ghost predicate TasksOk(b: Book, tasks: map<OpId, Task>)
  {
    forall op | op in tasks :: Owns(b, tasks[op].world, op)
  }

  ghost predicate BookOk(b: Book, n: nat)
  {
    Sound(b) && b.lastWorld == n && forall op | op in b.records :: 1 <= b.records[op].world <= n
  }

  /** The guards held, plus those in `owed`, are the records: one each. */
  ghost predicate Balanced(
    records: map<OpId, OpRecord>, tasks: map<OpId, Task>, worlds: seq<World>, owed: seq<Completion>)
  {
    && (forall op: OpId {:trigger GuardsOf(tasks, worlds, op)} ::
          GuardsOf(tasks, worlds, op) + Count(owed, op) == if op in records then 1 else 0)
    && |tasks| + HeldInAll(worlds) + |owed| == |records|
  }

  ghost predicate Gauged(s: System)
  {
    && s.gauges.liveOps == |s.book.records|
    && s.gauges.liveWorlds == LiveCount(s.worlds)
    && s.gauges.rejectedStale == 0
  }

  /** The invariant in the middle of a step that still has the guards `owed` to drop. */
  ghost predicate InvBut(s: System, owed: seq<Completion>)
  {
    && BookOk(s.book, |s.worlds|)
    && TasksOk(s.book, s.tasks)
    && WorldsOk(s.book, s.worlds)
    && Balanced(s.book.records, s.tasks, s.worlds, owed)
    && Gauged(s)
  }

  /** Each record has exactly one guard, each guard exactly one record, and the
      gauges say how many there are. */
  ghost predicate Inv(s: System)
  {
    InvBut(s, [])
  }

  // ---- Counting guards ------------------------------------------------------

  lemma {:induction false} CountConcat(x: seq<Completion>, y: seq<Completion>, op: OpId)
    ensures Count(x + y, op) == Count(x, op) + Count(y, op)
  {
    if y == [] {
      assert x + y == x;
    } else {
      var n := |y| - 1;
      CountConcat(x, y[..n], op);
      assert (x + y)[..|x + y| - 1] == x + y[..n];
    }
  }

  lemma {:induction false} CountMember(cs: seq<Completion>, c: Completion)
    requires c in cs
    ensures Count(cs, c.op) > 0
  {
    var n := |cs| - 1;
    if cs[n] != c {
      CountMember(cs[..n], c);
    }
  }

  lemma {:induction false} HeldUpdate(worlds: seq<World>, i: nat, u: World, op: OpId)
    requires i < |worlds|
    ensures Held(worlds[i := u], op) == Held(worlds, op) - Count(Guards(worlds[i]), op) + Count(Guards(u), op)
    ensures HeldInAll(worlds[i := u]) == HeldInAll(worlds) - |Guards(worlds[i])| + |Guards(u)|
    ensures LiveCount(worlds[i := u])
         == LiveCount(worlds) - (if worlds[i].phase == Live then 1 else 0) + if u.phase == Live then 1 else 0
    ensures Held(worlds, op) >= Count(Guards(worlds[i]), op)
  {
    var n := |worlds| - 1;
    if i < n {
      HeldUpdate(worlds[..n], i, u, op);
      assert worlds[i := u][..n] == worlds[..n][i := u];
    } else {
      assert worlds[i := u][..n] == worlds[..n];
    }
  }

  lemma {:induction false} NothingHeld(worlds: seq<World>)
    requires forall i | 0 <= i < |worlds| :: Guards(worlds[i]) == [] && worlds[i].phase != Live
    ensures HeldInAll(worlds) == 0 && LiveCount(worlds) == 0
  {
    if worlds != [] {
      NothingHeld(worlds[..|worlds| - 1]);
    }
  }

  /** Replacing one world by another moves guards of `op` between worlds and debt. */
  ghost predicate MoveBalances(from: World, owed: seq<Completion>, to: World, owed': seq<Completion>, op: OpId)
  {
    Count(Guards(from), op) + Count(owed, op) == Count(Guards(to), op) + Count(owed', op)
  }

  lemma BalanceMoves(
    records: map<OpId, OpRecord>, tasks: map<OpId, Task>,
    worlds: seq<World>, i: nat, owed: seq<Completion>, u: World, owed': seq<Completion>)
    requires i < |worlds| && Balanced(records, tasks, worlds, owed)
    requires forall op: OpId :: MoveBalances(worlds[i], owed, u, owed', op)
    requires |Guards(worlds[i])| + |owed| == |Guards(u)| + |owed'|
    ensures Balanced(records, tasks, worlds[i := u], owed')
  {
    HeldUpdate(worlds, i, u, 0);
    forall op: OpId
      ensures GuardsOf(tasks, worlds[i := u], op) + Count(owed', op) == if op in records then 1 else 0
    {
      HeldUpdate(worlds, i, u, op);
      assert MoveBalances(worlds[i], owed, u, owed', op);
      assert GuardsOf(tasks, worlds, op) + Count(owed, op) == if op in records then 1 else 0;
    }
  }

  lemma BalanceTask(records: map<OpId, OpRecord>, tasks: map<OpId, Task>, worlds: seq<World>, c: Completion)
    requires c.op in tasks && Balanced(records, tasks, worlds, [])
    ensures Balanced(records, tasks - {c.op}, worlds, [c])
  {
    var tasks' := tasks - {c.op};
    assert tasks'.Keys == tasks.Keys - {c.op} && |tasks'| == |tasks'.Keys|;
    forall o: OpId ensures GuardsOf(tasks', worlds, o) + Count([c], o) == if o in records then 1 else 0 {
      assert GuardsOf(tasks, worlds, o) + Count([], o) == if o in records then 1 else 0;
    }
  }

  lemma WorldsReplaced(b: Book, worlds: seq<World>, i: nat, u: World)
    requires i < |worlds| && WorldsOk(b, worlds) && WorldOk(b, i + 1, u)
    ensures WorldsOk(b, worlds[i := u])
  {
  }

  // ---- Books that only get calmer -------------------------------------------

  /** `b'` is `b` with some operations released or cancelled. */
  ghost predicate Calmer(b: Book, b': Book)
  {
    && b' == b.(records := b'.records)
    && forall op | op in b'.records ::
         && op in b.records
         && b'.records[op] == b.records[op].(state := b'.records[op].state)
         && (b'.records[op].state == Running ==> b.records[op].state == Running)
  }

  lemma CalmerWorld(b: Book, b': Book, w: WorldId, world: World)
    requires WorldOk(b, w, world) && Calmer(b, b')
    requires forall c | c in Guards(world) :: c.op in b'.records
    ensures WorldOk(b', w, world)
  {
    forall op ensures Deliverable(b', w, op) ==> Deliverable(b, w, op) {}
  }

  /** A calmer book that still records every guard keeps tasks and worlds in order. */
  lemma StillOk(s: System, b': Book)
    requires TasksOk(s.book, s.tasks) && WorldsOk(s.book, s.worlds) && BookOk(s.book, |s.worlds|)
    requires Calmer(s.book, b')
    requires forall op: OpId | GuardsOf(s.tasks, s.worlds, op) > 0 :: op in b'.records
    ensures TasksOk(b', s.tasks) && WorldsOk(b', s.worlds) && BookOk(b', |s.worlds|)
  {
    forall op | op in s.tasks ensures Owns(b', s.tasks[op].world, op) {
      assert GuardsOf(s.tasks, s.worlds, op) > 0;
    }
    forall i | 0 <= i < |s.worlds| ensures WorldOk(b', i + 1, s.worlds[i]) {
      forall c | c in Guards(s.worlds[i]) ensures c.op in b'.records {
        CountMember(Guards(s.worlds[i]), c);
        HeldUpdate(s.worlds, i, s.worlds[i], c.op);
        assert GuardsOf(s.tasks, s.worlds, c.op) > 0;
      }
      CalmerWorld(s.book, b', i + 1, s.worlds[i]);
    }
  }

  lemma CalmerKeeps(s: System, b': Book)
    requires Inv(s) && Calmer(s.book, b') && b'.records.Keys == s.book.records.Keys
    ensures Inv(s.(book := b'))
  {
    assert |b'.records| == |b'.records.Keys| && |s.book.records| == |s.book.records.Keys|;
    StillOk(s, b');
  }

  /** Dropping an owed guard releases its record and pays the debt. */
  lemma DropPays(s: System, owed: seq<Completion>, c: Completion)
    requires InvBut(s, owed + [c])
    ensures InvBut(Dropped(s, c.op), owed)
  {
    var op := c.op;
    assert (owed + [c])[..|owed|] == owed;
    assert GuardsOf(s.tasks, s.worlds, op) + Count(owed + [c], op) == if op in s.book.records then 1 else 0;
    var b' := Released(s.book, op);
    assert b'.records.Keys == s.book.records.Keys - {op} && |b'.records| == |b'.records.Keys|;
    forall o: OpId
      ensures GuardsOf(s.tasks, s.worlds, o) + Count(owed, o) == if o in b'.records then 1 else 0
    {
      assert GuardsOf(s.tasks, s.worlds, o) + Count(owed + [c], o) == if o in s.book.records then 1 else 0;
    }
    StillOk(s, b');
  }

  lemma {:induction false} DropsPay(s: System, cs: seq<Completion>)
    requires InvBut(s, cs)
    ensures Inv(DroppedAll(s, cs))
    ensures DroppedAll(s, cs) == s.(book := DroppedAll(s, cs).book, gauges := DroppedAll(s, cs).gauges)
    decreases |cs|
  {
    if cs != [] {
      var n := |cs| - 1;
      assert cs == cs[..n] + [cs[n]];
      DropPays(s, cs[..n], cs[n]);
      DropsPay(Dropped(s, cs[n].op), cs[..n]);
    }
  }

  // ---- Every step keeps it --------------------------------------------------

  lemma OneMore<T>(m: map<OpId, T>, op: OpId, v: T)
    requires op !in m
    ensures |m[op := v]| == |m| + 1
  {
    assert m[op := v].Keys == m.Keys + {op};
    assert |m[op := v]| == |m[op := v].Keys| && |m| == |m.Keys|;
  }

  lemma StartBalances(
    records: map<OpId, OpRecord>, tasks: map<OpId, Task>, worlds: seq<World>, op: OpId, r: OpRecord, t: Task)
    requires Balanced(records, tasks, worlds, []) && op !in records && op !in tasks
    ensures Balanced(records[op := r], tasks[op := t], worlds, [])
    ensures |records[op := r]| == |records| + 1
  {
    var records', tasks' := records[op := r], tasks[op := t];
    OneMore(records, op, r);
    OneMore(tasks, op, t);
    forall o: OpId ensures GuardsOf(tasks', worlds, o) + Count([], o) == if o in records' then 1 else 0 {
      assert GuardsOf(tasks, worlds, o) + Count([], o) == if o in records then 1 else 0;
    }
  }

  lemma StartKeeps(s: System, w: WorldId, kind: string)
    requires Inv(s) && Known(s, w)
    ensures Inv(Started'(s, w, kind))
  {
    if At(s, w).accepting {
      var op := s.book.lastOp + 1;
      StartBalances(s.book.records, s.tasks, s.worlds, op, OpRecord(op, w, kind, Running), Task(w, false));
      OpenedWorlds(s.book, w, kind, s.worlds);
    }
  }

  lemma OpenedWorlds(b: Book, w: WorldId, kind: string, worlds: seq<World>)
    requires Sound(b) && WorldsOk(b, worlds) && 1 <= w <= |worlds| && worlds[w - 1].accepting
    ensures WorldsOk(Opened(b, w, kind), worlds)
  {
    forall i | 0 <= i < |worlds| ensures WorldOk(Opened(b, w, kind), i + 1, worlds[i]) {
      var v: WorldId := i + 1;
      forall op ensures Deliverable(Opened(b, w, kind), v, op) ==> Deliverable(b, v, op) || v == w {}
    }
  }

  lemma UninterestedKeeps(s: System, w: WorldId)
    requires Inv(s) && Known(s, w)
    ensures Inv(Uninterested(s, w))
  {
    var b' := WithWorldCancelled(s.book, w);
    assert Calmer(s.book, b') && b'.records.Keys == s.book.records.Keys;
    CalmerKeeps(s, b');
    var t, u := s.(book := b'), At(s, w).(accepting := false);
    forall op: OpId ensures MoveBalances(At(t, w), [], u, [], op) {}
    WithKeeps(t, w, [], u, []);
  }

  /** Replacing one world by another that is in order, with the debt to match. */
  lemma WithKeeps(s: System, w: WorldId, owed: seq<Completion>, u: World, owed': seq<Completion>)
    requires InvBut(s, owed) && Known(s, w) && WorldOk(s.book, w, u)
    requires forall op: OpId :: MoveBalances(At(s, w), owed, u, owed', op)
    requires |Guards(At(s, w))| + |owed| == |Guards(u)| + |owed'|
    ensures var s' := With(s, w, u);
      InvBut(s'.(gauges := s'.gauges.(liveWorlds := s.gauges.liveWorlds
                   - (if At(s, w).phase == Live then 1 else 0) + if u.phase == Live then 1 else 0)), owed')
  {
    BalanceMoves(s.book.records, s.tasks, s.worlds, w - 1, owed, u, owed');
    HeldUpdate(s.worlds, w - 1, u, 0);
    WorldsReplaced(s.book, s.worlds, w - 1, u);
  }

  /** Taking a task's guard out leaves exactly that guard owed. */
  lemma TaskTaken(s: System, op: OpId, c: Completion)
    requires Inv(s) && op in s.tasks && c.op == op
    ensures InvBut(s.(tasks := s.tasks - {op}), [c])
  {
    BalanceTask(s.book.records, s.tasks, s.worlds, c);
  }

  /** A world that takes in an owed completion of its own settles the debt. */
  lemma EnqueuePays(s: System, w: WorldId, c: Completion)
    requires InvBut(s, [c]) && Known(s, w) && Receiving(At(s, w))
    requires c.world == w && Owns(s.book, w, c.op)
    ensures Inv(With(s, w, At(s, w).(queue := At(s, w).queue + [c])))
  {
    var u := At(s, w).(queue := At(s, w).queue + [c]);
    assert WorldOk(s.book, w, u) by { Queued(At(s, w), c, 0); }
    forall o: OpId ensures MoveBalances(At(s, w), [c], u, [], o) {
      Queued(At(s, w), c, o);
    }
    WithKeeps(s, w, [c], u, []);
  }

  lemma SendKeeps(s: System, op: OpId)
    requires Inv(s) && Enabled(s, Send(op))
    ensures Inv(Apply(s, Send(op)))
  {
    var w, s' := s.tasks[op].world, s.(tasks := s.tasks - {op});
    assert Owns(s.book, w, op);
    TaskTaken(s, op, Completion(w, op));
    if Receiving(At(s, w)) {
      EnqueuePays(s', w, Completion(w, op));
    } else {
      DropPays(s', [], Completion(w, op));
    }
  }

  lemma Queued(world: World, c: Completion, op: OpId)
    ensures var u := world.(queue := world.queue + [c]);
      && |Guards(u)| == |Guards(world)| + 1
      && Count(Guards(u), op) == Count(Guards(world), op) + (if op == c.op then 1 else 0)
      && (forall d :: d in Guards(u) <==> d in Guards(world) || d == c)
  {
    var tail := if world.routing.Some? then [world.routing.value] else [];
    CountConcat(world.queue + [c], tail, op);
    CountConcat(world.queue, [c], op);
    CountConcat(world.queue, tail, op);
  }

  /** Taking the head of the queue leaves exactly its guard owed. */
  lemma QueueHead(world: World, op: OpId)
    requires world.queue != [] && world.routing.None?
    ensures var c, u := world.queue[0], world.(queue := world.queue[1..]);
      && Guards(world) == [c] + Guards(u) && Guards(u.(routing := Some(c))) == Guards(u) + [c]
      && Count(Guards(world), op) == Count(Guards(u), op) + Count([c], op)
      && Count(Guards(u.(routing := Some(c))), op) == Count(Guards(world), op)
  {
    var c, u := world.queue[0], world.(queue := world.queue[1..]);
    assert Guards(world) == [c] + Guards(u);
    CountConcat([c], Guards(u), op);
    CountConcat(Guards(u), [c], op);
  }

  lemma DeliverKeeps(s: System, w: WorldId)
    requires Inv(s) && Enabled(s, Route(w)) && Deliverable(s.book, w, At(s, w).queue[0].op)
    ensures Inv(Routed(s, w))
  {
    var world := At(s, w);
    var c, u := world.queue[0], world.(queue := world.queue[1..]);
    var v := u.(routing := Some(c));
    QueueHead(world, 0);
    assert c in Guards(world);
    forall op: OpId ensures MoveBalances(world, [], v, [], op) {
      QueueHead(world, op);
    }
    WithKeeps(s, w, [], v, []);
    assert With(With(s, w, u), w, v).worlds == s.worlds[w - 1 := v];
  }

  lemma RejectKeeps(s: System, w: WorldId)
    requires Inv(s) && Enabled(s, Route(w)) && !Deliverable(s.book, w, At(s, w).queue[0].op)
    ensures Inv(Routed(s, w))
  {
    var world := At(s, w);
    var c, u := world.queue[0], world.(queue := world.queue[1..]);
    QueueHead(world, 0);
    assert c in Guards(world);
    forall op: OpId ensures MoveBalances(world, [], u, [c], op) {
      QueueHead(world, op);
    }
    WithKeeps(s, w, [], u, [c]);
    var s' := With(s, w, u);
    DropPays(s', [], c);
  }

  lemma FinishKeeps(s: System, w: WorldId)
    requires Inv(s) && Known(s, w) && At(s, w).routing.Some?
    ensures Inv(Finished(s, w))
  {
    var world := At(s, w);
    var c, u := world.routing.value, world.(routing := None);
    assert Guards(u) == u.queue && Guards(world) == Guards(u) + [c];
    forall op: OpId ensures MoveBalances(world, [], u, [c], op) {
      CountConcat(Guards(u), [c], op);
    }
    WithKeeps(s, w, [], u, [c]);
    DropPays(With(s, w, u), [], c);
  }

  /** Emptying a world pays every guard it held; the live gauge goes with its phase. */
  lemma EmptiedKeeps(s: System, w: WorldId, phase: Phase)
    requires Inv(s) && Known(s, w) && Receiving(At(s, w))
    requires phase == Abandoned || phase == Retired
    requires phase == Retired ==> !At(s, w).accepting
    ensures var r := Emptied(s, w, phase);
      Inv(r.(gauges := r.gauges.(liveWorlds := r.gauges.liveWorlds - if At(s, w).phase == Live then 1 else 0)))
  {
    var world := At(s, w);
    var u := world.(phase := phase, queue := [], routing := None);
    assert Guards(u) == [];
    forall op: OpId ensures MoveBalances(world, [], u, Guards(world), op) {}
    WithKeeps(s, w, [], u, Guards(world));
    var d := if world.phase == Live then 1 else 0;
    var s' := With(s, w, u);
    DropsPay(s'.(gauges := s'.gauges.(liveWorlds := s'.gauges.liveWorlds - d)), Guards(world));
    DroppedAllFrame(s', Guards(world), d);
  }

  /** `DroppedAll` neither reads nor writes the live-world gauge. */
  lemma {:induction false} DroppedAllFrame(s: System, cs: seq<Completion>, d: int)
    ensures var r := DroppedAll(s, cs);
      && DroppedAll(s.(gauges := s.gauges.(liveWorlds := s.gauges.liveWorlds - d)), cs)
         == r.(gauges := r.gauges.(liveWorlds := r.gauges.liveWorlds - d))
      && r == s.(book := r.book, gauges := r.gauges)
    decreases |cs|
  {
    if cs != [] {
      DroppedAllFrame(Dropped(s, cs[|cs| - 1].op), cs[..|cs| - 1], d);
    }
  }

  lemma CreateKeeps(s: System)
    requires Inv(s)
    ensures Inv(Apply(s, CreateWorld))
  {
    var s', n := Apply(s, CreateWorld), |s.worlds|;
    assert s'.worlds[..n] == s.worlds;
    assert Guards(s'.worlds[n]) == [];
    forall op: OpId ensures GuardsOf(s'.tasks, s'.worlds, op) == GuardsOf(s.tasks, s.worlds, op) {}
    forall i | 0 <= i < |s'.worlds| ensures WorldOk(s'.book, i + 1, s'.worlds[i]) {
      if i < n {
        var w: WorldId := i + 1;
        assert s'.worlds[i] == s.worlds[i];
        forall op ensures Deliverable(s'.book, w, op) ==> Deliverable(s.book, w, op) {}
      }
    }
  }

  lemma TaskFinishedKeeps(s: System, op: OpId)
    requires Inv(s) && op in s.tasks
    ensures Inv(Apply(s, TaskFinished(op)))
  {
    var s' := Apply(s, TaskFinished(op));
    assert s'.tasks.Keys == s.tasks.Keys && |s'.tasks| == |s'.tasks.Keys|;
    forall o: OpId ensures GuardsOf(s'.tasks, s.worlds, o) == GuardsOf(s.tasks, s.worlds, o) {}
  }

  lemma RetireKeeps(s: System, w: WorldId)
    requires Inv(s) && Enabled(s, Retire(w))
    ensures Inv(Apply(s, Retire(w)))
  {
    UninterestedKeeps(s, w);
    EmptiedKeeps(Uninterested(s, w), w, Retired);
  }

  lemma RouteKeeps(s: System, w: WorldId)
    requires Inv(s) && Enabled(s, Route(w))
    ensures Inv(Apply(s, Route(w)))
  {
    if Deliverable(s.book, w, At(s, w).queue[0].op) { DeliverKeeps(s, w); } else { RejectKeeps(s, w); }
  }

  lemma InstantiatedKeeps(s: System, w: WorldId)
    requires Inv(s) && Enabled(s, Instantiated(w))
    ensures Inv(Apply(s, Instantiated(w)))
  {
    forall op: OpId ensures MoveBalances(At(s, w), [], At(s, w).(phase := Live), [], op) {}
    WithKeeps(s, w, [], At(s, w).(phase := Live), []);
  }

  lemma GuestCancelKeeps(s: System, w: WorldId, op: OpId)
    requires Inv(s) && Known(s, w)
    ensures Inv(Apply(s, GuestCancel(w, op)))
  {
    CalmerKeeps(s, WithOpCancelled(s.book, op, w));
  }

  lemma AbortKeeps(s: System, op: OpId)
    requires Inv(s) && op in s.tasks
    ensures Inv(Apply(s, TaskAborted(op)))
  {
    TaskTaken(s, op, Completion(0, op));
    DropPays(s.(tasks := s.tasks - {op}), [], Completion(0, op));
  }

  lemma ReturnedKeeps(s: System, w: WorldId, accepted: bool)
    requires Inv(s) && Enabled(s, Returned(w, accepted))
    ensures Inv(Apply(s, Returned(w, accepted)))
  {
    FinishKeeps(s, w);
  }

  lemma CancelWorldKeeps(s: System, w: WorldId)
    requires Inv(s) && Enabled(s, CancelWorld(w))
    ensures Inv(Apply(s, CancelWorld(w)))
  {
    UninterestedKeeps(s, w);
  }

  lemma InstantiateFailedKeeps(s: System, w: WorldId)
    requires Inv(s) && Enabled(s, InstantiateFailed(w))
    ensures Inv(Apply(s, InstantiateFailed(w)))
  {
    EmptiedKeeps(s, w, Abandoned);
  }

  /** Conservation, one step at a time. */
  lemma StepKeeps(s: System, step: Step)
    requires Inv(s) && Enabled(s, step)
    ensures Inv(Apply(s, step))
  {
    match step
    case CreateWorld => CreateKeeps(s);
    case Instantiated(w) => InstantiatedKeeps(s, w);
    case InstantiateFailed(w) => InstantiateFailedKeeps(s, w);
    case GuestStart(w, kind) => StartKeeps(s, w, kind);
    case GuestCancel(w, op) => GuestCancelKeeps(s, w, op);
    case TaskFinished(op) => TaskFinishedKeeps(s, op);
    case TaskAborted(op) => AbortKeeps(s, op);
    case Send(op) => SendKeeps(s, op);
    case Route(w) => RouteKeeps(s, w);
    case Returned(w, accepted) => ReturnedKeeps(s, w, accepted);
    case RouteFailed(w) => FinishKeeps(s, w);
    case CancelWorld(w) => CancelWorldKeeps(s, w);
    case Retire(w) => RetireKeeps(s, w);
  }

  // ---- What the log of a run can look like ----------------------------------

  /** World `w` started `op`, has not cancelled it since, and has neither been
      cancelled nor retired. */
  ghost predicate Interested(log: seq<Event>, w: WorldId, op: OpId)
  {
    && WorldCancelled(w) !in log
    && WorldRetired(w) !in log
    && exists i: nat :: StartedAt(log, w, op, i)
  }

  /** World `w` started `op` at this place of the log and has not cancelled it since. */
  ghost predicate StartedAt(log: seq<Event>, w: WorldId, op: OpId, i: nat)
  {
    i < |log| && log[i] == Started(w, op) && GuestCancelled(w, op) !in log[i..]
  }

  ghost predicate DeliveredIn(log: seq<Event>, op: OpId)
  {
    exists i | 0 <= i < |log| :: log[i].Delivered? && log[i].op == op
  }

  /** Every delivery went to an interested world, and was the operation's first. */
  ghost predicate SafeLog(log: seq<Event>)
  {
    forall i | 0 <= i < |log| && log[i].Delivered? ::
      Interested(log[..i], log[i].world, log[i].op) && !DeliveredIn(log[..i], log[i].op)
  }

  ghost predicate RecordsHist(b: Book, worlds: seq<World>, log: seq<Event>)
  {
    forall op | op in b.records && DeliveredIn(log, op) ::
      && 1 <= b.records[op].world <= |worlds|
      && var r := worlds[b.records[op].world - 1].routing; r.Some? && r.value.op == op
  }

  /** A record is running exactly while its world is still interested in it. */
  ghost predicate StatesHist(b: Book, log: seq<Event>)
  {
    forall op | op in b.records ::
      b.records[op].state == Running <==> Interested(log, b.records[op].world, op)
  }

  ghost predicate EventsHist(lastOp: nat, worlds: seq<World>, log: seq<Event>)
  {
    && (forall e | e in log :: e.world <= |worlds| && (e.Delivered? || e.Started? ==> e.op <= lastOp))
    && (forall i | 0 <= i < |worlds| && worlds[i].accepting ::
          WorldCancelled(i + 1) !in log && WorldRetired(i + 1) !in log)
  }

  ghost predicate Explained(b: Book, worlds: seq<World>, log: seq<Event>)
  {
    && StatesHist(b, log)
    && RecordsHist(b, worlds, log)
    && EventsHist(b.lastOp, worlds, log)
  }

  /** The log explains the state. */
  ghost predicate Hist(s: System)
  {
    Explained(s.book, s.worlds, s.log)
  }

  /** Events about other worlds and other operations change nobody's interest. */
  lemma SameInterest(log: seq<Event>, e: Event, w: WorldId, op: OpId)
    requires e != WorldCancelled(w) && e != WorldRetired(w) && e != GuestCancelled(w, op) && e != Started(w, op)
    ensures Interested(log + [e], w, op) <==> Interested(log, w, op)
  {
    var log' := log + [e];
    if Interested(log, w, op) {
      var i: nat :| StartedAt(log, w, op, i);
      assert log'[i] == Started(w, op) && log'[i..] == log[i..] + [e];
      assert StartedAt(log', w, op, i);
    }
    if Interested(log', w, op) {
      var i: nat :| StartedAt(log', w, op, i);
      assert log[i] == Started(w, op) && log'[i..] == log[i..] + [e];
      assert StartedAt(log, w, op, i);
      forall x | x in log ensures x in log' {}
    }
  }

  lemma InterestEnds(log: seq<Event>, e: Event, w: WorldId, op: OpId)
    requires e == WorldCancelled(w) || e == WorldRetired(w) || e == GuestCancelled(w, op)
    ensures !Interested(log + [e], w, op)
  {
    var log' := log + [e];
    assert log'[|log|] == e;
    if e == GuestCancelled(w, op) {
      forall i: nat ensures !StartedAt(log', w, op, i) {
        if i < |log'| {
          assert log'[i..][|log| - i] == e;
        }
      }
    }
  }

  ghost predicate Neutral(e: Event, b: Book)
  {
    && !e.WorldCancelled? && !e.WorldRetired?
    && (e.GuestCancelled? || e.Started? ==> !Owns(b, e.world, e.op))
  }

  lemma NeutralStates(b: Book, log: seq<Event>, e: Event)
    requires StatesHist(b, log) && Neutral(e, b)
    ensures StatesHist(b, log + [e])
  {
    forall op | op in b.records
      ensures b.records[op].state == Running <==> Interested(log + [e], b.records[op].world, op)
    {
      assert Owns(b, b.records[op].world, op);
      SameInterest(log, e, b.records[op].world, op);
    }
  }

  lemma OpCancelledStates(b: Book, log: seq<Event>, op: OpId, w: WorldId)
    requires StatesHist(b, log)
    ensures StatesHist(WithOpCancelled(b, op, w), log + [GuestCancelled(w, op)])
  {
    var e := GuestCancelled(w, op);
    if Owns(b, w, op) {
      var b' := WithOpCancelled(b, op, w);
      forall o | o in b'.records
        ensures b'.records[o].state == Running <==> Interested(log + [e], b'.records[o].world, o)
      {
        if o == op { InterestEnds(log, e, w, op); } else { SameInterest(log, e, b.records[o].world, o); }
      }
    } else {
      NeutralStates(b, log, e);
    }
  }

  lemma WorldCancelledStates(b: Book, log: seq<Event>, w: WorldId, e: Event)
    requires StatesHist(b, log) && (e == WorldCancelled(w) || e == WorldRetired(w))
    ensures StatesHist(WithWorldCancelled(b, w), log + [e])
  {
    var b' := WithWorldCancelled(b, w);
    forall o | o in b'.records
      ensures b'.records[o].state == Running <==> Interested(log + [e], b'.records[o].world, o)
    {
      if b.records[o].world == w { InterestEnds(log, e, w, o); } else { SameInterest(log, e, b.records[o].world, o); }
    }
  }

  lemma SafeExtends(log: seq<Event>, e: Event)
    requires SafeLog(log)
    requires e.Delivered? ==> Interested(log, e.world, e.op) && !DeliveredIn(log, e.op)
    ensures SafeLog(log + [e])
  {
    var log' := log + [e];
    forall i | 0 <= i < |log'| && log'[i].Delivered?
      ensures Interested(log'[..i], log'[i].world, log'[i].op) && !DeliveredIn(log'[..i], log'[i].op)
    {
      assert log'[..i] == log[..i];
      if i < |log| { assert log'[i] == log[i]; } else { assert log[..i] == log; }
    }
  }

  lemma DeliveredExtends(log: seq<Event>, e: Event, op: OpId)
    ensures DeliveredIn(log + [e], op) <==> DeliveredIn(log, op) || (e.Delivered? && e.op == op)
  {
    var log' := log + [e];
    if DeliveredIn(log, op) {
      var i :| 0 <= i < |log| && log[i].Delivered? && log[i].op == op;
      assert log'[i] == log[i];
    }
    assert log'[|log|] == e;
  }

  /** An event that is not a delivery, from a world that accepts nothing if the event ends it. */
  lemma HistExtends(b: Book, worlds: seq<World>, log: seq<Event>, e: Event)
    requires RecordsHist(b, worlds, log) && EventsHist(b.lastOp, worlds, log)
    requires !e.Delivered? && e.world <= |worlds| && (e.Started? ==> e.op <= b.lastOp)
    requires e.WorldCancelled? || e.WorldRetired? ==> 1 <= e.world ==> !worlds[e.world - 1].accepting
    ensures RecordsHist(b, worlds, log + [e]) && EventsHist(b.lastOp, worlds, log + [e])
  {
    forall op | op in b.records ensures DeliveredIn(log + [e], op) == DeliveredIn(log, op) {
      DeliveredExtends(log, e, op);
    }
  }

  /** Events that neither start nor cancel nor deliver. */
  predicate Passing(e: Event)
  {
    e.WorldAbandoned? || e.Aborted? || e.SendMade? || e.DroppedLate? || e.Answered? || e.Unanswered?
  }

  lemma PassingHist(s: System, e: Event)
    requires Hist(s) && Passing(e) && e.world <= |s.worlds|
    ensures Hist(Logged(s, e))
  {
    NeutralStates(s.book, s.log, e);
    HistExtends(s.book, s.worlds, s.log, e);
  }

  /** `b'` is `b` with some records gone. */
  ghost predicate Shrunk(b: Book, b': Book)
  {
    && b' == b.(records := b'.records)
    && forall op | op in b'.records :: op in b.records && b'.records[op] == b.records[op]
  }

  lemma ShrunkStates(b: Book, b': Book, log: seq<Event>)
    requires StatesHist(b, log) && Shrunk(b, b')
    ensures StatesHist(b', log) && Calmer(b, b')
  {
  }

  lemma CalmerHist(b: Book, b': Book, worlds: seq<World>, log: seq<Event>)
    requires RecordsHist(b, worlds, log) && Calmer(b, b')
    ensures RecordsHist(b', worlds, log)
  {
  }

  lemma DroppedShrinks(s: System, op: OpId)
    ensures Shrunk(s.book, Dropped(s, op).book) && op !in Dropped(s, op).book.records
  {
  }

  lemma {:induction false} DroppedAllShrinks(s: System, cs: seq<Completion>)
    ensures var r := DroppedAll(s, cs);
      && r == s.(book := r.book, gauges := r.gauges)
      && Shrunk(s.book, r.book) && forall c | c in cs :: c.op !in r.book.records
    decreases |cs|
  {
    if cs != [] {
      DroppedAllShrinks(Dropped(s, cs[|cs| - 1].op), cs[..|cs| - 1]);
    }
  }

  /** Replacing a world, with the operation it was routing either kept or released. */
  lemma ReplacedHist(b: Book, b': Book, worlds: seq<World>, i: nat, u: World, log: seq<Event>)
    requires RecordsHist(b, worlds, log) && EventsHist(b.lastOp, worlds, log) && Calmer(b, b')
    requires i < |worlds| && (u.accepting ==> worlds[i].accepting)
    requires u.routing != worlds[i].routing ==>
      worlds[i].routing.Some? ==> worlds[i].routing.value.op !in b'.records
    ensures RecordsHist(b', worlds[i := u], log) && EventsHist(b'.lastOp, worlds[i := u], log)
  {
  }

  lemma ReplacedExplained(b: Book, b': Book, worlds: seq<World>, i: nat, u: World, log: seq<Event>)
    requires Explained(b, worlds, log) && Shrunk(b, b')
    requires i < |worlds| && (u.accepting ==> worlds[i].accepting)
    requires u.routing != worlds[i].routing ==>
      worlds[i].routing.Some? ==> worlds[i].routing.value.op !in b'.records
    ensures Explained(b', worlds[i := u], log)
  {
    ShrunkStates(b, b', log);
    ReplacedHist(b, b', worlds, i, u, log);
  }

  lemma StartStates(b: Book, log: seq<Event>, w: WorldId, kind: string)
    requires StatesHist(b, log) && Sound(b)
    requires WorldCancelled(w) !in log && WorldRetired(w) !in log
    ensures StatesHist(Opened(b, w, kind), log + [Started(w, b.lastOp + 1)])
  {
    var e := Started(w, b.lastOp + 1);
    NeutralStates(b, log, e);
    assert (log + [e])[|log|] == e && (log + [e])[|log|..] == [e];
    assert StartedAt(log + [e], w, b.lastOp + 1, |log|);
  }

  lemma StartRecords(b: Book, worlds: seq<World>, log: seq<Event>, w: WorldId, kind: string)
    requires RecordsHist(b, worlds, log) && EventsHist(b.lastOp, worlds, log)
    ensures RecordsHist(Opened(b, w, kind), worlds, log)
  {
    assert !DeliveredIn(log, b.lastOp + 1);
  }

  lemma StartHist(s: System, w: WorldId, kind: string)
    requires Sound(s.book) && Hist(s) && Known(s, w)
    ensures Hist(Started'(s, w, kind))
  {
    if At(s, w).accepting {
      StartExplained(s.book, s.worlds, s.log, w, kind);
    }
  }

  lemma StartExplained(b: Book, worlds: seq<World>, log: seq<Event>, w: WorldId, kind: string)
    requires Sound(b) && Explained(b, worlds, log) && 1 <= w <= |worlds| && worlds[w - 1].accepting
    ensures Explained(Opened(b, w, kind), worlds, log + [Started(w, b.lastOp + 1)])
  {
    var e := Started(w, b.lastOp + 1);
    assert StatesHist(Opened(b, w, kind), log + [e]) by { StartStates(b, log, w, kind); }
    assert RecordsHist(Opened(b, w, kind), worlds, log) by { StartRecords(b, worlds, log, w, kind); }
    HistExtends(Opened(b, w, kind), worlds, log, e);
  }

  lemma DeliverRecords(b: Book, worlds: seq<World>, i: nat, v: World, c: Completion, log: seq<Event>)
    requires RecordsHist(b, worlds, log) && Owns(b, i + 1, c.op)
    requires i < |worlds| && worlds[i].routing.None? && v.routing == Some(c)
    ensures !DeliveredIn(log, c.op)
    ensures RecordsHist(b, worlds[i := v], log + [Delivered(i + 1, c.op)])
  {
    var e := Delivered(i + 1, c.op);
    forall o | o in b.records
      ensures DeliveredIn(log + [e], o) <==> DeliveredIn(log, o) || o == c.op
    {
      DeliveredExtends(log, e, o);
    }
  }

  lemma DeliverExplained(b: Book, worlds: seq<World>, i: nat, v: World, c: Completion, log: seq<Event>)
    requires Explained(b, worlds, log) && Sound(b) && i < |worlds| && Deliverable(b, i + 1, c.op)
    requires worlds[i].routing.None? && v.routing == Some(c) && v.accepting == worlds[i].accepting
    ensures Explained(b, worlds[i := v], log + [Delivered(i + 1, c.op)])
  {
    DeliverRecords(b, worlds, i, v, c, log);
    NeutralStates(b, log, Delivered(i + 1, c.op));
  }

  lemma DeliverHist(s: System, w: WorldId)
    requires Sound(s.book) && Hist(s) && Enabled(s, Route(w))
    requires At(s, w).queue[0].world == w && Deliverable(s.book, w, At(s, w).queue[0].op)
    ensures Hist(Routed(s, w))
  {
    var c, u := At(s, w).queue[0], At(s, w).(queue := At(s, w).queue[1..]);
    var v := u.(routing := Some(c));
    DeliverExplained(s.book, s.worlds, w - 1, v, c, s.log);
    assert s.worlds[w - 1 := u][w - 1 := v] == s.worlds[w - 1 := v];
  }

  lemma RejectHist(s: System, w: WorldId)
    requires Hist(s) && Enabled(s, Route(w))
    requires At(s, w).queue[0].world == w && !Deliverable(s.book, w, At(s, w).queue[0].op)
    ensures Hist(Routed(s, w))
  {
    var c, u := At(s, w).queue[0], At(s, w).(queue := At(s, w).queue[1..]);
    var b', worlds' := Dropped(s, c.op).book, s.worlds[w - 1 := u];
    assert Explained(b', worlds', s.log) by {
      DroppedShrinks(s, c.op);
      ReplacedExplained(s.book, b', s.worlds, w - 1, u, s.log);
    }
    var t := Dropped(With(s, w, u), c.op);
    assert t.book == b' && t.worlds == worlds' && t.log == s.log;
    PassingHist(t, DroppedLate(w, c.op));
    var r := Routed(s, w);
    assert r.book == t.book && r.worlds == t.worlds && r.log == Logged(t, DroppedLate(w, c.op)).log;
  }

  lemma RouteHist(s: System, w: WorldId)
    requires Inv(s) && Hist(s) && Enabled(s, Route(w))
    ensures Hist(Apply(s, Route(w)))
  {
    var world := At(s, w);
    assert world.queue[0].world == w by {
      assert WorldOk(s.book, w, world);
      assert Guards(world)[0] == world.queue[0];
    }
    if Deliverable(s.book, w, world.queue[0].op) { DeliverHist(s, w); } else { RejectHist(s, w); }
  }

  lemma FinishFrame(s: System, w: WorldId)
    requires Known(s, w) && At(s, w).routing.Some?
    ensures var r := Finished(s, w);
      && r.book == Dropped(s, At(s, w).routing.value.op).book && r.log == s.log
      && r.worlds == s.worlds[w - 1 := At(s, w).(routing := None)]
  {
  }

  lemma FinishHist(s: System, w: WorldId)
    requires Hist(s) && Known(s, w) && At(s, w).routing.Some?
    ensures Hist(Finished(s, w))
  {
    var op := At(s, w).routing.value.op;
    var u, b' := At(s, w).(routing := None), Dropped(s, op).book;
    assert Explained(b', s.worlds[w - 1 := u], s.log) by {
      DroppedShrinks(s, op);
      ReplacedExplained(s.book, b', s.worlds, w - 1, u, s.log);
    }
    FinishFrame(s, w);
  }

  lemma EmptiedHist(s: System, w: WorldId, phase: Phase)
    requires Hist(s) && Known(s, w)
    ensures var r := Emptied(s, w, phase);
      && Hist(r) && r.log == s.log && |r.worlds| == |s.worlds| && Shrunk(s.book, r.book)
      && At(r, w).accepting == At(s, w).accepting
  {
    var world := At(s, w);
    var u := world.(phase := phase, queue := [], routing := None);
    DroppedAllShrinks(With(s, w, u), Guards(world));
    assert world.routing.Some? ==> Guards(world)[|world.queue|] == world.routing.value;
    ReplacedExplained(s.book, Emptied(s, w, phase).book, s.worlds, w - 1, u, s.log);
  }

  lemma UninterestedExplained(b: Book, worlds: seq<World>, w: WorldId, u: World, log: seq<Event>, e: Event)
    requires Explained(b, worlds, log) && 1 <= w <= |worlds| && (e == WorldCancelled(w) || e == WorldRetired(w))
    requires !u.accepting && u.routing == worlds[w - 1].routing
    ensures Explained(WithWorldCancelled(b, w), worlds[w - 1 := u], log + [e])
  {
    var b', worlds' := WithWorldCancelled(b, w), worlds[w - 1 := u];
    assert StatesHist(b', log + [e]) by { WorldCancelledStates(b, log, w, e); }
    assert RecordsHist(b', worlds', log) && EventsHist(b'.lastOp, worlds', log) by {
      assert Calmer(b, b');
      ReplacedHist(b, b', worlds, w - 1, u, log);
    }
    HistExtends(b', worlds', log, e);
  }

  /** Losing interest and saying so, in a log entry that ends the world's interest. */
  lemma UninterestedHist(s: System, w: WorldId, e: Event)
    requires Hist(s) && Known(s, w) && (e == WorldCancelled(w) || e == WorldRetired(w))
    ensures Hist(Logged(Uninterested(s, w), e))
  {
    UninterestedExplained(s.book, s.worlds, w, At(s, w).(accepting := false), s.log, e);
  }

  lemma RetireHist(s: System, w: WorldId)
    requires Hist(s) && Enabled(s, Retire(w))
    ensures Hist(Apply(s, Retire(w)))
  {
    UninterestedHist(s, w, WorldRetired(w));
    var t := Uninterested(s, w);
    EmptiedHist(Logged(t, WorldRetired(w)), w, Retired);
    EmptiedLogged(t, w, WorldRetired(w));
  }

  lemma {:induction false} DroppedAllLogged(s: System, cs: seq<Completion>, e: Event)
    ensures DroppedAll(Logged(s, e), cs) == Logged(DroppedAll(s, cs), e)
    decreases |cs|
  {
    if cs != [] {
      DroppedAllLogged(Dropped(s, cs[|cs| - 1].op), cs[..|cs| - 1], e);
    }
  }

  lemma EmptiedLogged(s: System, w: WorldId, e: Event)
    requires Known(s, w)
    ensures Emptied(Logged(s, e), w, Retired) == Logged(Emptied(s, w, Retired), e)
  {
    DroppedAllLogged(With(s, w, At(s, w).(phase := Retired, queue := [], routing := None)), Guards(At(s, w)), e);
  }

  lemma SendHist(s: System, op: OpId)
    requires Hist(s) && Enabled(s, Send(op))
    ensures Hist(Sent(s, op)) && |Sent(s, op).worlds| == |s.worlds|
  {
    var w := s.tasks[op].world;
    if Receiving(At(s, w)) {
      var u := At(s, w).(queue := At(s, w).queue + [Completion(w, op)]);
      ReplacedExplained(s.book, s.book, s.worlds, w - 1, u, s.log);
      assert Sent(s, op).worlds == s.worlds[w - 1 := u];
    } else {
      DropHist(s.(tasks := s.tasks - {op}), op);
    }
  }

  lemma InstantiatedHist(s: System, w: WorldId)
    requires Hist(s) && Enabled(s, Instantiated(w))
    ensures Hist(Apply(s, Instantiated(w)))
  {
    ReplacedExplained(s.book, s.book, s.worlds, w - 1, At(s, w).(phase := Live), s.log);
  }

  lemma GuestCancelHist(s: System, w: WorldId, op: OpId)
    requires Hist(s) && Known(s, w)
    ensures Hist(Apply(s, GuestCancel(w, op)))
  {
    var b' := WithOpCancelled(s.book, op, w);
    CalmerHist(s.book, b', s.worlds, s.log);
    OpCancelledStates(s.book, s.log, op, w);
    HistExtends(b', s.worlds, s.log, GuestCancelled(w, op));
  }

  lemma DropHist(s: System, op: OpId)
    requires Hist(s)
    ensures Hist(Dropped(s, op))
  {
    DroppedShrinks(s, op);
    ShrunkStates(s.book, Dropped(s, op).book, s.log);
    CalmerHist(s.book, Dropped(s, op).book, s.worlds, s.log);
  }

  lemma ReturnedHist(s: System, w: WorldId, accepted: bool)
    requires Hist(s) && Enabled(s, Returned(w, accepted))
    ensures Hist(Apply(s, Returned(w, accepted)))
  {
    FinishHist(s, w);
    PassingHist(Finished(s, w), Answered(w, At(s, w).routing.value.op, accepted));
  }

  lemma RouteFailedHist(s: System, w: WorldId)
    requires Hist(s) && Enabled(s, RouteFailed(w))
    ensures Hist(Apply(s, RouteFailed(w)))
  {
    FinishHist(s, w);
    PassingHist(Finished(s, w), Unanswered(w, At(s, w).routing.value.op));
  }

  lemma TaskWorldKnown(s: System, op: OpId)
    requires TasksOk(s.book, s.tasks) && BookOk(s.book, |s.worlds|) && op in s.tasks
    ensures Known(s, s.tasks[op].world)
  {
    assert Owns(s.book, s.tasks[op].world, op);
  }

  lemma AbortHist(s: System, op: OpId)
    requires Hist(s) && op in s.tasks && Known(s, s.tasks[op].world)
    ensures Hist(Apply(s, TaskAborted(op)))
  {
    DropHist(s.(tasks := s.tasks - {op}), op);
    PassingHist(Dropped(s.(tasks := s.tasks - {op}), op), Aborted(s.tasks[op].world, op));
  }

  lemma AbandonHist(s: System, w: WorldId)
    requires Hist(s) && Enabled(s, InstantiateFailed(w))
    ensures Hist(Apply(s, InstantiateFailed(w)))
  {
    EmptiedHist(s, w, Abandoned);
    PassingHist(Emptied(s, w, Abandoned), WorldAbandoned(w));
  }

  lemma SendMadeHist(s: System, op: OpId)
    requires Hist(s) && Enabled(s, Send(op))
    ensures Hist(Apply(s, Send(op)))
  {
    SendHist(s, op);
    PassingHist(Sent(s, op), SendMade(s.tasks[op].world, op));
  }

  /** Delivery safety, one step at a time. */
  lemma StepHist(s: System, step: Step)
    requires Inv(s) && Hist(s) && Enabled(s, step)
    ensures Hist(Apply(s, step))
  {
    match step
    case CreateWorld =>
    case Instantiated(w) => InstantiatedHist(s, w);
    case InstantiateFailed(w) => AbandonHist(s, w);
    case GuestStart(w, kind) => StartHist(s, w, kind);
    case GuestCancel(w, op) => GuestCancelHist(s, w, op);
    case TaskFinished(op) =>
    case TaskAborted(op) =>
      TaskWorldKnown(s, op);
      AbortHist(s, op);
    case Send(op) => SendMadeHist(s, op);
    case Route(w) => RouteHist(s, w);
    case Returned(w, accepted) => ReturnedHist(s, w, accepted);
    case RouteFailed(w) => RouteFailedHist(s, w);
    case CancelWorld(w) => UninterestedHist(s, w, WorldCancelled(w));
    case Retire(w) => RetireHist(s, w);
  }

  /** The only step that logs a delivery logs a safe one. */
  lemma StepSafe(s: System, step: Step)
    requires Inv(s) && Hist(s) && SafeLog(s.log) && Enabled(s, step)
    ensures SafeLog(Apply(s, step).log)
  {
    if step.Route? {
      RouteSafe(s, step.w);
    } else {
      LogGrows(s, step);
      GrownSafe(s.log, Apply(s, step).log);
    }
  }

  lemma GrownSafe(log: seq<Event>, log': seq<Event>)
    requires SafeLog(log)
    requires log' == log || (|log'| == |log| + 1 && log' == log + [log'[|log|]] && !log'[|log|].Delivered?)
    ensures SafeLog(log')
  {
    if log' != log {
      SafeExtends(log, log'[|log|]);
    }
  }

  /** Only a deliverable head is logged, as a delivery. */
  lemma RouteLogs(s: System, w: WorldId)
    requires Enabled(s, Route(w))
    ensures var c := At(s, w).queue[0];
      || Routed(s, w).log == s.log
      || Routed(s, w).log == s.log + [DroppedLate(w, c.op)]
      || (Deliverable(s.book, w, c.op) && Routed(s, w).log == s.log + [Delivered(w, c.op)])
  {
  }

  lemma DeliverSafe(b: Book, worlds: seq<World>, i: nat, c: Completion, log: seq<Event>)
    requires Explained(b, worlds, log) && SafeLog(log) && Deliverable(b, i + 1, c.op)
    requires i < |worlds| && worlds[i].routing.None?
    ensures SafeLog(log + [Delivered(i + 1, c.op)])
  {
    DeliverRecords(b, worlds, i, worlds[i].(routing := Some(c)), c, log);
    SafeExtends(log, Delivered(i + 1, c.op));
  }

  lemma RouteSafe(s: System, w: WorldId)
    requires Hist(s) && SafeLog(s.log) && Enabled(s, Route(w))
    ensures SafeLog(Routed(s, w).log)
  {
    RouteLogs(s, w);
    GateSafe(s.book, s.worlds, w - 1, At(s, w).queue[0], s.log, Routed(s, w).log);
  }

  lemma GateSafe(b: Book, worlds: seq<World>, i: nat, c: Completion, log: seq<Event>, log': seq<Event>)
    requires Explained(b, worlds, log) && SafeLog(log) && i < |worlds| && worlds[i].routing.None?
    requires
      || log' == log
      || log' == log + [DroppedLate(i + 1, c.op)]
      || (Deliverable(b, i + 1, c.op) && log' == log + [Delivered(i + 1, c.op)])
    ensures SafeLog(log')
  {
    if log' == log + [DroppedLate(i + 1, c.op)] {
      SafeExtends(log, DroppedLate(i + 1, c.op));
    } else if log' != log {
      DeliverSafe(b, worlds, i, c, log);
    }
  }

  /** Apart from a delivery, a step logs at most one event, which is none. */
  lemma LogGrows(s: System, step: Step)
    requires Enabled(s, step) && !step.Route?
    ensures var log' := Apply(s, step).log;
      log' == s.log || (|log'| == |s.log| + 1 && log' == s.log + [log'[|s.log|]] && !log'[|s.log|].Delivered?)
  {
    match step
    case InstantiateFailed(w) =>
      DroppedAllShrinks(With(s, w, At(s, w).(phase := Abandoned, queue := [], routing := None)), Guards(At(s, w)));
    case Retire(w) =>
      var t := Uninterested(s, w);
      DroppedAllShrinks(With(t, w, At(t, w).(phase := Retired, queue := [], routing := None)), Guards(At(t, w)));
    case _ =>
  }

  // ---- Whole runs -----------------------------------------------------------

  predicate Runs(s: System, steps: seq<Step>)
    decreases |steps|
  {
    steps == [] || (Enabled(s, steps[0]) && Runs(Apply(s, steps[0]), steps[1..]))
  }

  function After(s: System, steps: seq<Step>): System
    requires Runs(s, steps)
    decreases |steps|
  {
    if steps == [] then s else After(Apply(s, steps[0]), steps[1..])
  }

  lemma {:induction false} RunKeeps(s: System, steps: seq<Step>)
    requires Inv(s) && Hist(s) && SafeLog(s.log) && Runs(s, steps)
    ensures Inv(After(s, steps)) && Hist(After(s, steps)) && SafeLog(After(s, steps).log)
    decreases |steps|
  {
    if steps != [] {
      StepKeeps(s, steps[0]);
      StepHist(s, steps[0]);
      StepSafe(s, steps[0]);
      RunKeeps(Apply(s, steps[0]), steps[1..]);
    }
  }

  /** On every run each record has one guard and each guard one record, the gauge
      `live_ops` is the number of both, and no completion is ever misaddressed. */
  lemma OwnershipConserved(steps: seq<Step>)
    requires Runs(Initial(), steps)
    ensures var s := After(Initial(), steps);
      && Inv(s)
      && (forall op: OpId :: GuardsOf(s.tasks, s.worlds, op) == if op in s.book.records then 1 else 0)
      && s.gauges.liveOps == |s.book.records| == |s.tasks| + HeldInAll(s.worlds)
      && s.gauges.liveWorlds == LiveCount(s.worlds)
      && s.gauges.rejectedStale == 0
  {
    RunKeeps(Initial(), steps);
    var s := After(Initial(), steps);
    forall op: OpId ensures GuardsOf(s.tasks, s.worlds, op) == if op in s.book.records then 1 else 0 {
      assert Count([], op) == 0;
    }
  }

  /** Once every task has ended and every driver is retired, or never came to be,
      the ledger is empty and the gauges are back at zero. */
  lemma BackToBaseline(steps: seq<Step>)
    requires Runs(Initial(), steps)
    requires After(Initial(), steps).tasks == map[]
    requires forall i | 0 <= i < |After(Initial(), steps).worlds| :: !Receiving(After(Initial(), steps).worlds[i])
    ensures var s := After(Initial(), steps);
      s.book.records == map[] && s.gauges.liveOps == 0 && s.gauges.liveWorlds == 0
  {
    OwnershipConserved(steps);
    var s := After(Initial(), steps);
    forall i | 0 <= i < |s.worlds| ensures Guards(s.worlds[i]) == [] {
      assert WorldOk(s.book, i + 1, s.worlds[i]);
    }
    NothingHeld(s.worlds);
  }

  /** With no record left the by-world index is empty too. */
  lemma BaselineIndex(b: Book, byWorld: map<WorldId, seq<OpId>>)
    requires b.records == map[] && IsIndex(b, byWorld)
    ensures byWorld == map[]
  {
    IndexIsDetermined(b, byWorld, map[]);
  }

  lemma DeliveredOnce(log: seq<Event>, j: nat, k: nat)
    requires SafeLog(log) && j < k < |log| && log[k].Delivered?
    ensures !(log[j].Delivered? && log[j].op == log[k].op)
  {
    assert log[..k][j] == log[j];
  }

  /** Delivery safety on every run: what reaches a guest was started by that very
      world, was not cancelled by it between start and delivery, reaches it before
      the world is cancelled or retired, and reaches it once. */
  lemma DeliverySafety(steps: seq<Step>, k: nat)
    requires Runs(Initial(), steps)
    requires k < |After(Initial(), steps).log| && After(Initial(), steps).log[k].Delivered?
    ensures var log := After(Initial(), steps).log; var w, op := log[k].world, log[k].op;
      && (exists i | 0 <= i < k :: log[i] == Started(w, op)
            && forall j | i < j < k :: log[j] != GuestCancelled(w, op))
      && (forall j | 0 <= j < k :: log[j] != WorldCancelled(w) && log[j] != WorldRetired(w))
      && (forall j | 0 <= j < |log| && j != k :: !(log[j].Delivered? && log[j].op == op))
  {
    RunKeeps(Initial(), steps);
    var log := After(Initial(), steps).log;
    var w, op := log[k].world, log[k].op;
    var before := log[..k];
    var i: nat :| StartedAt(before, w, op, i);
    assert log[i] == Started(w, op);
    forall j | i < j < k ensures log[j] != GuestCancelled(w, op) {
      assert before[i..][j - i] == log[j];
    }
    forall j | 0 <= j < k ensures log[j] != WorldCancelled(w) && log[j] != WorldRetired(w) {
      assert before[j] == log[j];
    }
    forall j | 0 <= j < |log| && j != k ensures !(log[j].Delivered? && log[j].op == op) {
      if j < k {
        DeliveredOnce(log, j, k);
      } else if log[j].Delivered? {
        DeliveredOnce(log, k, j);
      }
    }
  }

  lemma HeadIsOwned(s: System, w: WorldId)
    requires WorldsOk(s.book, s.worlds) && Known(s, w) && At(s, w).queue != []
    ensures At(s, w).queue[0].world == w && Owns(s.book, w, At(s, w).queue[0].op)
  {
    var world := At(s, w);
    assert WorldOk(s.book, w, world);
    assert Guards(world)[0] == world.queue[0];
  }

  /** A completion is handed to the guest, or dropped as late. */
  ghost predicate Gated(s: System, s': System, w: WorldId, op: OpId, delivered: bool)
  {
    && (delivered ==>
          && s'.log == s.log + [Delivered(w, op)] && s'.book == s.book
          && Known(s', w) && At(s', w).routing == Some(Completion(w, op)))
    && (!delivered ==>
          && s'.log == s.log + [DroppedLate(w, op)] && op !in s'.book.records
          && s'.gauges.droppedLate == s.gauges.droppedLate + 1)
  }

  lemma GateActs(s: System, w: WorldId)
    requires Known(s, w) && At(s, w).queue != [] && At(s, w).queue[0].world == w
    ensures var op := At(s, w).queue[0].op; Gated(s, Routed(s, w), w, op, Deliverable(s.book, w, op))
  {
  }

  /** The gate is exact: on every run, the completion at the head of a world's queue is
      handed to the guest if and only if the world is still interested in it, and is
      otherwise dropped as late with its record released. */
  lemma GateIsExact(steps: seq<Step>, w: WorldId)
    requires Runs(Initial(), steps) && Enabled(After(Initial(), steps), Route(w))
    ensures var s := After(Initial(), steps); var op := At(s, w).queue[0].op;
      Gated(s, Apply(s, Route(w)), w, op, Interested(s.log, w, op))
  {
    RunKeeps(Initial(), steps);
    var s := After(Initial(), steps);
    HeadIsOwned(s, w);
    GateActs(s, w);
    assert StatesHist(s.book, s.log);
  }
}
