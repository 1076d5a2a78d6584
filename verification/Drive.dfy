/** The event loop that drives one world (`crates/usai-runtime/src/world.rs`).

    Everything the loop cannot decide — clocks, tokens, guest replies, arrivals — comes
    in as a list of `Turn`s, and the theorems hold for every such list. `Step` says what
    one turn does to the loop's state; `Driver.Drive` is the loop itself. */
module Drive {
  import opened Wrappers

  datatype Family = Finite | ConnectionBound | Persistent

  datatype Termination = Completed | Cancelled | DeadlineExceeded | Faulted

  /** What the world was created with. Times are in milliseconds. */
  datatype Config = Config(family: Family, stream: bool, hasStop: bool, deadline: Option<nat>, unwindGrace: nat)

  const STREAM_GRACE_BOUND := 1000

  /** A stream keeps writing to its client through the grace, so there it is at most a second. */
  function Grace(cfg: Config): (g: nat)
    ensures g <= cfg.unwindGrace && (cfg.stream ==> g <= 1000)
    ensures g < cfg.unwindGrace ==> cfg.stream && g == 1000
  {
    if cfg.stream && STREAM_GRACE_BOUND < cfg.unwindGrace then STREAM_GRACE_BOUND else cfg.unwindGrace
  }

  datatype Reply = Settled | Pending | Broken

  datatype Arrival = Nothing | Closed | Arrived(ok: bool)

  /** One turn of the loop as the outside decides it: when the guest's state is read and
      what it says, when the select is polled and which tokens have fired by then, what
      the channel holds, whether the guest entry this turn makes succeeds, and when it is over. */
  datatype Turn = Turn(
    stateAt: nat, state: Reply,
    selectAt: nat, cancelFired: bool, stopFired: bool, arrival: Arrival,
    guestOk: bool, doneAt: nat)

  /** `deadlineAt` bounds synchronous guest work, `timer` is the armed deadline future.
      `waiting`: the select was polled and nothing was ready. The four counters at the
      end only record what happened. */
  datatype State = State(
    ended: Option<Termination>,
    waiting: bool,
    deadlineAt: Option<nat>,
    timer: Option<nat>,
    stopArmed: bool,
    stopFired: bool,
    stoppedAtDeadline: bool,
    interested: bool,
    overruns: nat,
    expiries: nat,
    graces: nat,
    stopAsks: nat,
    routed: nat)

  /** A driver created at `createdAt` whose loop starts at `drivenAt`. */
  function Begin(cfg: Config, createdAt: nat, drivenAt: nat): State
  {
    var deadlineAt := if cfg.deadline.Some? then Some(createdAt + cfg.deadline.value) else None;
    var timer := if cfg.deadline.Some? then Some(drivenAt + cfg.deadline.value) else None;
    State(None, false, deadlineAt, timer, cfg.hasStop, false, false, true, 0, 0, 0, 0, 0)
  }

  predicate Passed(at: Option<nat>, now: nat)
  {
    at.Some? && at.value <= now
  }

  function End(s: State, how: Termination): State
  {
    s.(ended := Some(how), waiting := false)
  }

  /** `deadline_interrupted`: interest is lost and the world ends by its deadline. */
  function Interrupted(s: State): State
  {
    End(s.(interested := false), DeadlineExceeded)
  }

  /** A guest error: before the deadline a fault, after it the deadline's doing, and in
      the grace an overrun. */
  function Failed(s: State, now: nat): State
  {
    if !Passed(s.deadlineAt, now) then End(s, Faulted)
    else if s.stoppedAtDeadline then Interrupted(s.(overruns := s.overruns + 1))
    else Interrupted(s)
  }

  datatype Arm = CancelArm | StopArm | DeadlineArm | ChannelArm

  /** The select is biased: the first ready arm in this order wins. */
  function Chosen(s: State, t: Turn): Arm
  {
    if t.cancelFired then CancelArm
    else if s.stopArmed && (t.stopFired || s.stopFired) then StopArm
    else if Passed(s.timer, t.selectAt) then DeadlineArm
    else ChannelArm
  }

  predicate MayUnwind(cfg: Config, s: State)
  {
    !s.stoppedAtDeadline && cfg.family != Finite && cfg.hasStop
  }

  /** The guest is asked to stop, which happens once. */
  function Asked(s: State, t: Turn): State
  {
    var s' := s.(waiting := false, stopArmed := false, stopAsks := s.stopAsks + 1);
    if t.guestOk then s'
    else if s.stoppedAtDeadline then Interrupted(s'.(overruns := s.overruns + 1))
    else End(s', Faulted)
  }

  /** The timer has fired: the grace opens, or the run ends. */
  function Expired(cfg: Config, s: State, t: Turn): State
  {
    var s' := s.(waiting := false, expiries := s.expiries + 1);
    if MayUnwind(cfg, s) then
      var until := Some(t.selectAt + Grace(cfg));
      s'.(stoppedAtDeadline := true, graces := s.graces + 1, timer := until, deadlineAt := until, stopFired := true)
    else if s.stoppedAtDeadline then Interrupted(s'.(overruns := s.overruns + 1))
    else Interrupted(s')
  }

  function Routed(s: State): State
  {
    s.(waiting := false, routed := s.routed + 1)
  }

  /** What the channel gives is routed. */
  function Received(s: State, t: Turn): State
  {
    match t.arrival
    case Nothing => s.(waiting := true)
    case Closed => End(s, Faulted)
    case Arrived(ok) => if ok then Routed(s) else Failed(Routed(s), t.doneAt)
  }

  function Select(cfg: Config, s: State, t: Turn): State
  {
    match Chosen(s, t)
    case CancelArm => End(s.(interested := false), if t.guestOk then Cancelled else Faulted)
    case StopArm => Asked(s, t)
    case DeadlineArm => Expired(cfg, s, t)
    case ChannelArm => Received(s, t)
  }

  function Step(cfg: Config, s: State, t: Turn): State
  {
    if s.ended.Some? then s
    else if s.waiting || t.state == Pending then Select(cfg, s, t)
    else if t.state == Broken then Failed(s, t.stateAt)
    else End(s, if s.stoppedAtDeadline then DeadlineExceeded else Completed)
  }

  function Run(cfg: Config, s: State, turns: seq<Turn>): State
  {
    if turns == [] then s else Step(cfg, Run(cfg, s, turns[..|turns| - 1]), turns[|turns| - 1])
  }

  // ---- The deadline discipline ----------------------------------------------

  ghost predicate Disciplined(cfg: Config, s: State)
  {
    // The deadline fires at most twice; the second time always ends the run, and so
    // does the first unless it opens the grace.
    && s.expiries <= 2
    && (s.expiries == 2 ==> s.ended == Some(DeadlineExceeded))
    && (s.expiries == 1 ==> s.stoppedAtDeadline || s.ended == Some(DeadlineExceeded))
    // The grace opens at most once, and only for a world that can be asked to stop.
    && s.graces == (if s.stoppedAtDeadline then 1 else 0)
    && (s.stoppedAtDeadline ==> s.expiries >= 1 && cfg.family != Finite && cfg.hasStop)
    // A run that entered it never ends as completed.
    && (s.stoppedAtDeadline ==> s.ended != Some(Completed))
    // An overrun is exactly a run cut off in its grace.
    && s.overruns == (if s.ended == Some(DeadlineExceeded) && s.stoppedAtDeadline && !s.interested then 1 else 0)
    // The guest is asked to stop at most once, and only through its token.
    && s.stopAsks <= (if s.stopArmed then 0 else 1)
    && (s.stopArmed || s.stopAsks == 1 ==> cfg.hasStop)
    // Interest is lost only by ending, never by completing, and a run that ends as
    // deadline-exceeded keeps it only when it unwound by itself within the grace.
    && (!s.interested ==> s.ended.Some? && s.ended != Some(Completed))
    && (s.ended == Some(Cancelled) ==> !s.interested)
    && (s.ended == Some(DeadlineExceeded) ==> !s.interested || s.stoppedAtDeadline)
    // Without a deadline nothing of the kind happens.
    && s.timer.Some? == s.deadlineAt.Some? == cfg.deadline.Some?
    && (cfg.deadline.None? ==> s.expiries == 0 && s.ended != Some(DeadlineExceeded))
  }

  lemma FailedDisciplined(cfg: Config, s: State, now: nat)
    requires Disciplined(cfg, s) && s.ended.None?
    ensures Disciplined(cfg, Failed(s, now))
  {
  }

  lemma StopDisciplined(cfg: Config, s: State, t: Turn)
    requires Disciplined(cfg, s) && s.ended.None? && s.stopArmed
    ensures Disciplined(cfg, Asked(s, t))
  {
  }

  lemma DeadlineDisciplined(cfg: Config, s: State, t: Turn)
    requires Disciplined(cfg, s) && s.ended.None? && s.timer.Some?
    ensures Disciplined(cfg, Expired(cfg, s, t))
  {
  }

  lemma ChannelDisciplined(cfg: Config, s: State, t: Turn)
    requires Disciplined(cfg, s) && s.ended.None?
    ensures Disciplined(cfg, Received(s, t))
  {
    assert Disciplined(cfg, Routed(s)) by { RoutedDisciplined(cfg, s); }
    FailedDisciplined(cfg, Routed(s), t.doneAt);
  }

  lemma RoutedDisciplined(cfg: Config, s: State)
    requires Disciplined(cfg, s)
    ensures Disciplined(cfg, Routed(s))
  {
  }

  lemma StepDisciplined(cfg: Config, s: State, t: Turn)
    requires Disciplined(cfg, s)
    ensures Disciplined(cfg, Step(cfg, s, t))
  {
    if s.ended.None? {
      if s.waiting || t.state == Pending {
        match Chosen(s, t)
        case CancelArm =>
        case StopArm => StopDisciplined(cfg, s, t);
        case DeadlineArm => DeadlineDisciplined(cfg, s, t);
        case ChannelArm => ChannelDisciplined(cfg, s, t);
      } else if t.state == Broken {
        FailedDisciplined(cfg, s, t.stateAt);
      }
    }
  }

  /** Every run, whatever its turns, obeys the discipline. */
  lemma {:induction false} DeadlineDiscipline(cfg: Config, createdAt: nat, drivenAt: nat, turns: seq<Turn>)
    ensures Disciplined(cfg, Run(cfg, Begin(cfg, createdAt, drivenAt), turns))
  {
    if turns != [] {
      DeadlineDiscipline(cfg, createdAt, drivenAt, turns[..|turns| - 1]);
      StepDisciplined(cfg, Run(cfg, Begin(cfg, createdAt, drivenAt), turns[..|turns| - 1]), turns[|turns| - 1]);
    }
  }

  // ---- A flood of completions -----------------------------------------------

  /** The select is polled this turn with the deadline already passed. */
  predicate Late(s: State, t: Turn)
  {
    s.ended.None? && (s.waiting || t.state == Pending) && Passed(s.timer, t.selectAt)
  }

  function LatePolls(cfg: Config, s: State, turns: seq<Turn>): nat
  {
    if turns == [] then 0
    else
      var before := turns[..|turns| - 1];
      LatePolls(cfg, s, before) + if Late(Run(cfg, s, before), turns[|turns| - 1]) then 1 else 0
  }

  /** A late poll never routes a completion: it ends the run, opens the grace or asks the
      guest to stop, which can happen once. */
  lemma LatePollActs(cfg: Config, s: State, t: Turn)
    requires Late(s, t)
    ensures var s' := Step(cfg, s, t);
      && s'.routed == s.routed
      && (s'.ended.Some? || (s'.expiries == s.expiries + 1 && s'.graces == s.graces + 1)
          || (s'.stopAsks == s.stopAsks + 1 && !s'.stopArmed))
  {
  }

  lemma SelectGrows(cfg: Config, s: State, t: Turn)
    ensures var s' := Select(cfg, s, t); s'.graces >= s.graces && s'.stopAsks >= s.stopAsks
  {
    match Chosen(s, t)
    case StopArm => assert Asked(s, t).graces == s.graces;
    case DeadlineArm => assert Expired(cfg, s, t).stopAsks == s.stopAsks;
    case ChannelArm => assert Received(s, t).graces == s.graces && Received(s, t).stopAsks == s.stopAsks;
    case CancelArm =>
  }

  lemma CountersGrow(cfg: Config, s: State, t: Turn)
    ensures var s' := Step(cfg, s, t);
      s'.graces >= s.graces && s'.stopAsks >= s.stopAsks && (s.ended.Some? ==> s' == s)
  {
    SelectGrows(cfg, s, t);
  }

  /** However many completions queue up, on no run is the loop polled more than three times past its
      armed deadline: once to open the grace, once for the stop, once to end. */
  lemma {:induction false} FloodIsBounded(cfg: Config, createdAt: nat, drivenAt: nat, turns: seq<Turn>)
    ensures var s0 := Begin(cfg, createdAt, drivenAt); var s := Run(cfg, s0, turns);
      && LatePolls(cfg, s0, turns) <= s.graces + s.stopAsks + (if s.ended.Some? then 1 else 0)
      && LatePolls(cfg, s0, turns) <= 3
  {
    var s0 := Begin(cfg, createdAt, drivenAt);
    DeadlineDiscipline(cfg, createdAt, drivenAt, turns);
    if turns != [] {
      var before, t := turns[..|turns| - 1], turns[|turns| - 1];
      FloodIsBounded(cfg, createdAt, drivenAt, before);
      CountersGrow(cfg, Run(cfg, s0, before), t);
      if Late(Run(cfg, s0, before), t) {
        LatePollActs(cfg, Run(cfg, s0, before), t);
      }
    }
  }

  /** With clocks that do not run backwards, an expired deadline takes effect at once or
      right after the single stop turn, whatever else is ready. */
  lemma ExpiryIsPrompt(cfg: Config, s: State, t: Turn, t': Turn)
    requires Late(s, t) && t.selectAt <= t'.selectAt
    ensures var s' := Step(cfg, s, t); var s'' := Step(cfg, s', t');
      || s'.ended.Some?
      || s'.expiries == s.expiries + 1
      || (s''.routed == s.routed && (s''.ended.Some? || s''.expiries == s.expiries + 1))
  {
    LatePollActs(cfg, s, t);
    var s' := Step(cfg, s, t);
    if s'.ended.None? && s'.expiries == s.expiries {
      assert s'.timer == s.timer;
      if t'.state == Pending {
        LatePollActs(cfg, s', t');
      }
    }
  }

  // ---- The loop -------------------------------------------------------------

  class Driver {
    const cfg: Config
    var deadlineAt: Option<nat>
    /** What losing interest does: no new operations, the world's token fired, its records cancelled. */
    var accepting: bool
    var tokenFired: bool
    var recordsCancelled: bool
    /** The `deadline_unwind_overruns` gauge. */
    var overruns: nat
    // The loop's own variables.
    var timer: Option<nat>
    var stop: bool
    var stopFired: bool
    var stoppedAtDeadline: bool
    var waiting: bool

    constructor (cfg: Config, now: nat)
      ensures this.cfg == cfg && Interest(true) && overruns == 0
      ensures deadlineAt == Begin(cfg, now, now).deadlineAt
    {
      this.cfg := cfg;
      deadlineAt := if cfg.deadline.Some? then Some(now + cfg.deadline.value) else None;
      accepting, tokenFired, recordsCancelled, overruns := true, false, false, 0;
      timer, stop, stopFired, stoppedAtDeadline, waiting := None, false, false, false, false;
    }

    /** The three cells say the same thing. */
    ghost predicate Interest(interested: bool)
      reads this
    {
      accepting == interested && tokenFired == !interested && recordsCancelled == !interested
    }

    /** The driver is in state `s`; once the run has ended the loop's variables are gone. */
    ghost predicate Agrees(s: State)
      reads this
    {
      && Interest(s.interested) && overruns == s.overruns && deadlineAt == s.deadlineAt
      && (s.ended.None? ==>
            && timer == s.timer && stop == s.stopArmed && stopFired == s.stopFired
            && stoppedAtDeadline == s.stoppedAtDeadline && waiting == s.waiting)
    }

    method DeadlineInterrupted() returns (how: Termination)
      modifies this`accepting, this`tokenFired, this`recordsCancelled
      ensures how == DeadlineExceeded && Interest(false)
    {
      accepting, tokenFired, recordsCancelled := false, true, true;
      how := DeadlineExceeded;
    }

    method UnwindOverran() returns (how: Termination)
      modifies this`accepting, this`tokenFired, this`recordsCancelled, this`overruns
      ensures how == DeadlineExceeded && Interest(false) && overruns == old(overruns) + 1
    {
      overruns := overruns + 1;
      how := DeadlineInterrupted();
    }

    /** `cancel_world`: whether or not the guest can be told, interest is lost. */
    method CancelWorld(guestOk: bool) returns (told: bool)
      modifies this`accepting, this`tokenFired, this`recordsCancelled
      ensures told == guestOk && Interest(false)
    {
      accepting, tokenFired, recordsCancelled := false, true, true;
      told := guestOk;
    }

    /** What an error out of the guest means at time `now`. */
    method GuestFailed(now: nat, ghost s: State) returns (how: Option<Termination>)
      requires Agrees(s) && s.ended.None?
      modifies this`accepting, this`tokenFired, this`recordsCancelled, this`overruns
      ensures Agrees(Failed(s, now)) && how == Failed(s, now).ended
    {
      if deadlineAt.Some? && deadlineAt.value <= now {
        var e;
        if stoppedAtDeadline {
          e := UnwindOverran();
        } else {
          e := DeadlineInterrupted();
        }
        how := Some(e);
      } else {
        how := Some(Faulted);
      }
    }

    method OnStop(t: Turn, ghost s: State) returns (how: Option<Termination>)
      requires Agrees(s) && s.ended.None?
      modifies this
      ensures Agrees(Asked(s, t)) && how == Asked(s, t).ended
    {
      stop, waiting, how := false, false, None;
      if !t.guestOk {
        if stoppedAtDeadline {
          var e := UnwindOverran();
          how := Some(e);
        } else {
          how := Some(Faulted);
        }
      }
    }

    method OnDeadline(t: Turn, ghost s: State) returns (how: Option<Termination>)
      requires Agrees(s) && s.ended.None?
      modifies this
      ensures Agrees(Expired(cfg, s, t)) && how == Expired(cfg, s, t).ended
    {
      waiting, how := false, None;
      if !stoppedAtDeadline && cfg.family != Finite && cfg.hasStop {
        stoppedAtDeadline := true;
        timer := Some(t.selectAt + Grace(cfg));
        deadlineAt := Some(t.selectAt + Grace(cfg));
        stopFired := true;
      } else if stoppedAtDeadline {
        var e := UnwindOverran();
        how := Some(e);
      } else {
        var told := CancelWorld(t.guestOk);
        if told {
          how := Some(DeadlineExceeded);
        } else {
          var e := DeadlineInterrupted();
          how := Some(e);
        }
      }
    }

    method OnArrival(ok: bool, doneAt: nat, ghost s: State) returns (how: Option<Termination>)
      requires Agrees(s) && s.ended.None?
      modifies this
      ensures ok ==> Agrees(Routed(s)) && how == None
      ensures !ok ==> Agrees(Failed(Routed(s), doneAt)) && how == Failed(Routed(s), doneAt).ended
    {
      waiting, how := false, None;
      if !ok {
        how := GuestFailed(doneAt, Routed(s));
      }
    }

    method OnChannel(t: Turn, ghost s: State) returns (how: Option<Termination>)
      requires Agrees(s) && s.ended.None?
      modifies this
      ensures Agrees(Received(s, t)) && how == Received(s, t).ended
    {
      how := None;
      match t.arrival
      case Nothing => waiting := true;
      case Closed => how := Some(Faulted);
      case Arrived(ok) =>
        how := OnArrival(ok, t.doneAt, s);
    }

    /** The biased select. */
    method Poll(t: Turn, ghost s: State) returns (how: Option<Termination>)
      requires Agrees(s) && s.ended.None?
      modifies this
      ensures Agrees(Select(cfg, s, t)) && how == Select(cfg, s, t).ended
    {
      if t.cancelFired {
        var told := CancelWorld(t.guestOk);
        how := Some(if told then Cancelled else Faulted);
      } else if stop && (t.stopFired || stopFired) {
        how := OnStop(t, s);
      } else if timer.Some? && timer.value <= t.selectAt {
        how := OnDeadline(t, s);
      } else {
        how := OnChannel(t, s);
      }
    }

    /** One turn of the loop. */
    method Once(t: Turn, ghost s: State) returns (how: Option<Termination>)
      requires Agrees(s) && s.ended.None?
      modifies this
      ensures Agrees(Step(cfg, s, t)) && how == Step(cfg, s, t).ended
    {
      if !waiting && t.state == Settled {
        how := Some(if stoppedAtDeadline then DeadlineExceeded else Completed);
      } else if !waiting && t.state == Broken {
        how := GuestFailed(t.stateAt, s);
      } else {
        how := Poll(t, s);
      }
    }

    /** Runs the loop for as long as the turns last. It returns as `Run` says it ends,
        or `None` if the turns run out first. */
    method Drive(createdAt: nat, drivenAt: nat, turns: seq<Turn>) returns (how: Option<Termination>)
      requires Interest(true) && overruns == 0 && deadlineAt == Begin(cfg, createdAt, drivenAt).deadlineAt
      modifies this
      ensures var s := Run(cfg, Begin(cfg, createdAt, drivenAt), turns); Agrees(s) && how == s.ended
    {
      timer := if cfg.deadline.Some? then Some(drivenAt + cfg.deadline.value) else None;
      stop, stopFired, stoppedAtDeadline, waiting := cfg.hasStop, false, false, false;
      ghost var s0 := Begin(cfg, createdAt, drivenAt);
      how := None;
      var i := 0;
      while i < |turns| && how.None?
        invariant 0 <= i <= |turns|
        invariant Agrees(Run(cfg, s0, turns[..i])) && how == Run(cfg, s0, turns[..i]).ended
      {
        assert turns[..i + 1][..i] == turns[..i];
        how := Once(turns[i], Run(cfg, s0, turns[..i]));
        i := i + 1;
      }
      RunEnded(cfg, s0, turns, i);
    }
  }

  /** Once a run has ended, the remaining turns do not matter. */
  lemma {:induction false} RunEnded(cfg: Config, s: State, turns: seq<Turn>, i: nat)
    requires i <= |turns| && (i < |turns| ==> Run(cfg, s, turns[..i]).ended.Some?)
    ensures Run(cfg, s, turns) == Run(cfg, s, turns[..i])
    decreases |turns| - i
  {
    if i < |turns| {
      assert turns[..i + 1][..i] == turns[..i];
      RunEnded(cfg, s, turns, i + 1);
    } else {
      assert turns[..i] == turns;
    }
  }
}
