/** Why a world ended as it did, read off the turns alone (`crates/usai-runtime/src/world.rs`).

    `Drive` says what each turn does to the state of the loop. Here there is no such state: every
    question is about the list of turns, such as whether the timer had opened the grace before the
    k-th of them, and the theorem is that the loop ends at the first turn with a cause, by that cause. */
module Endings {
  import opened Wrappers
  import opened Drive

  datatype History = History(cfg: Config, createdAt: nat, drivenAt: nat, turns: seq<Turn>)

  // ---- What the turns say ---------------------------------------------------

  /** The loop is still in the select of the turn before, which found nothing ready. */
  ghost predicate Waits(h: History, k: nat)
    requires k <= |h.turns|
    decreases k, 0
  {
    k > 0 && Polls(h, k - 1) && !h.turns[k - 1].cancelFired && !StopReady(h, k - 1) && !TimerFired(h, k - 1)
    && h.turns[k - 1].arrival == Nothing
  }

  /** The guest's state is read. */
  ghost predicate Reads(h: History, k: nat)
    requires k < |h.turns|
    decreases k, 1
  {
    !Waits(h, k)
  }

  /** The select is polled. */
  ghost predicate Polls(h: History, k: nat)
    requires k < |h.turns|
    decreases k, 1
  {
    Waits(h, k) || h.turns[k].state == Pending
  }

  /** The timer has opened the grace before this turn. */
  ghost predicate InGrace(h: History, k: nat)
    requires k <= |h.turns|
    decreases k, 0
  {
    exists g: nat | g < k :: OpensGrace(h, g)
  }

  ghost predicate OpensGrace(h: History, k: nat)
    requires k < |h.turns|
    decreases k, 2
  {
    && Polls(h, k) && !h.turns[k].cancelFired && !StopReady(h, k) && TimerFired(h, k)
    && !InGrace(h, k) && h.cfg.family != Finite && h.cfg.hasStop
  }

  ghost predicate Asks(h: History, k: nat)
    requires k < |h.turns|
    decreases k, 2
  {
    Polls(h, k) && !h.turns[k].cancelFired && StopReady(h, k)
  }

  /** The stop token has fired, from outside or by the grace, and the guest has not been asked yet. */
  ghost predicate StopReady(h: History, k: nat)
    requires k < |h.turns|
    decreases k, 1
  {
    && h.cfg.hasStop && (h.turns[k].stopFired || InGrace(h, k))
    && !exists a: nat | a < k :: Asks(h, a)
  }

  /** The deadline, counted from when the loop began, or the grace has passed when the select is polled. */
  ghost predicate TimerFired(h: History, k: nat)
    requires k < |h.turns|
    decreases k, 1
  {
    && h.cfg.deadline.Some?
    && if InGrace(h, k)
       then exists g: nat | g < k :: OpensGrace(h, g) && h.turns[g].selectAt + Grace(h.cfg) <= h.turns[k].selectAt
       else h.drivenAt + h.cfg.deadline.value <= h.turns[k].selectAt
  }

  /** The deadline, counted from when the world was created, or the grace has passed at this time. */
  ghost predicate PastBound(h: History, k: nat, now: nat)
    requires k < |h.turns|
  {
    && h.cfg.deadline.Some?
    && if InGrace(h, k)
       then exists g: nat | g < k :: OpensGrace(h, g) && h.turns[g].selectAt + Grace(h.cfg) <= now
       else h.createdAt + h.cfg.deadline.value <= now
  }

  /** The channel is looked at: no token has fired and no timer. */
  ghost predicate Listens(h: History, k: nat)
    requires k < |h.turns|
  {
    Polls(h, k) && !h.turns[k].cancelFired && !StopReady(h, k) && !TimerFired(h, k)
  }

  // ---- The causes ------------------------------------------------------------

  /** The guest had settled, and the timer never opened the grace. */
  ghost predicate Completes(h: History, k: nat)
    requires k < |h.turns|
  {
    Reads(h, k) && h.turns[k].state == Settled && !InGrace(h, k)
  }

  /** The owner's token had fired, and the guest could be told. */
  ghost predicate Cancels(h: History, k: nat)
    requires k < |h.turns|
  {
    Polls(h, k) && h.turns[k].cancelFired && h.turns[k].guestOk
  }

  /** A guest error before the deadline, in its state or in routing; a stop refused outside the grace; a
      closed channel; or a cancel the guest could not be told of. */
  ghost predicate Faults(h: History, k: nat)
    requires k < |h.turns|
  {
    var t := h.turns[k];
    || (Reads(h, k) && t.state == Broken && !PastBound(h, k, t.stateAt))
    || (Listens(h, k) && t.arrival == Arrived(false) && !PastBound(h, k, t.doneAt))
    || (Asks(h, k) && !t.guestOk && !InGrace(h, k))
    || (Listens(h, k) && t.arrival == Closed)
    || (Polls(h, k) && t.cancelFired && !t.guestOk)
  }

  /** A guest that settled in the grace; a guest error past the deadline; a stop refused in the grace; or a
      timer that opens no grace. */
  ghost predicate Exceeds(h: History, k: nat)
    requires k < |h.turns|
  {
    var t := h.turns[k];
    || (Reads(h, k) && t.state == Settled && InGrace(h, k))
    || (Reads(h, k) && t.state == Broken && PastBound(h, k, t.stateAt))
    || (Listens(h, k) && t.arrival == Arrived(false) && PastBound(h, k, t.doneAt))
    || (Asks(h, k) && !t.guestOk && InGrace(h, k))
    || (Polls(h, k) && !t.cancelFired && !StopReady(h, k) && TimerFired(h, k) && !OpensGrace(h, k))
  }

  ghost predicate Cause(h: History, k: nat, how: Termination)
    requires k < |h.turns|
  {
    match how
    case Completed => Completes(h, k)
    case Cancelled => Cancels(h, k)
    case Faulted => Faults(h, k)
    case DeadlineExceeded => Exceeds(h, k)
  }

  ghost predicate Uncaused(h: History, k: nat)
    requires k < |h.turns|
  {
    forall how :: !Cause(h, k, how)
  }

  // ---- The loop agrees --------------------------------------------------------

  function Before(h: History, k: nat): State
    requires k <= |h.turns|
  {
    Run(h.cfg, Begin(h.cfg, h.createdAt, h.drivenAt), h.turns[..k])
  }

  lemma OneTurn(h: History, k: nat)
    requires k < |h.turns|
    ensures Before(h, k + 1) == Step(h.cfg, Before(h, k), h.turns[k])
  {
    assert h.turns[..k + 1][..k] == h.turns[..k];
  }

  /** The grace opens once. */
  lemma OneGrace(h: History, g: nat, g': nat)
    requires g < |h.turns| && g' < |h.turns| && OpensGrace(h, g) && OpensGrace(h, g')
    ensures g == g'
  {
  }

  ghost predicate AskedBefore(h: History, k: nat)
    requires k <= |h.turns|
  {
    exists a: nat | a < k :: Asks(h, a)
  }

  /** Where the armed timer and the guest's bound stand. */
  ghost predicate ClocksOk(h: History, k: nat, s: State)
    requires k <= |h.turns|
  {
    && (InGrace(h, k) ==>
          exists g: nat | g < k :: OpensGrace(h, g) && s.timer == s.deadlineAt == Some(h.turns[g].selectAt + Grace(h.cfg)))
    && (!InGrace(h, k) ==>
          && s.timer == Begin(h.cfg, h.createdAt, h.drivenAt).timer
          && s.deadlineAt == Begin(h.cfg, h.createdAt, h.drivenAt).deadlineAt)
  }

  ghost predicate Agrees(h: History, k: nat, s: State)
    requires k <= |h.turns|
  {
    && s.waiting == Waits(h, k)
    && s.stoppedAtDeadline == s.stopFired == InGrace(h, k)
    && s.stopArmed == (h.cfg.hasStop && !AskedBefore(h, k))
    && ClocksOk(h, k, s) && (InGrace(h, k) ==> h.cfg.deadline.Some?)
  }

  lemma TimerMeans(h: History, k: nat, s: State)
    requires k < |h.turns| && Agrees(h, k, s)
    ensures TimerFired(h, k) <==> Passed(s.timer, h.turns[k].selectAt)
  {
    if InGrace(h, k) {
      var g: nat :| g < k && OpensGrace(h, g) && s.timer == Some(h.turns[g].selectAt + Grace(h.cfg));
      forall g': nat | g' < k && OpensGrace(h, g') ensures g' == g { OneGrace(h, g, g'); }
    }
  }

  lemma BoundMeans(h: History, k: nat, s: State, now: nat)
    requires k < |h.turns| && Agrees(h, k, s)
    ensures PastBound(h, k, now) <==> Passed(s.deadlineAt, now)
  {
    if InGrace(h, k) {
      var g: nat :| g < k && OpensGrace(h, g) && s.deadlineAt == Some(h.turns[g].selectAt + Grace(h.cfg));
      forall g': nat | g' < k && OpensGrace(h, g') ensures g' == g { OneGrace(h, g, g'); }
    }
  }

  lemma StopMeans(h: History, k: nat, s: State)
    requires k < |h.turns| && Agrees(h, k, s)
    ensures StopReady(h, k) <==> s.stopArmed && (h.turns[k].stopFired || s.stopFired)
  {
    assert AskedBefore(h, k) <==> exists a: nat | a < k :: Asks(h, a);
  }

  /** Which arm of the select the turn takes. */
  lemma ArmMeans(h: History, k: nat, s: State)
    requires k < |h.turns| && Agrees(h, k, s) && s.ended.None?
    ensures Polls(h, k) <==> s.waiting || h.turns[k].state == Pending
    ensures Polls(h, k) ==>
      && (Chosen(s, h.turns[k]) == CancelArm <==> h.turns[k].cancelFired)
      && (Chosen(s, h.turns[k]) == StopArm <==> Asks(h, k))
      && (Chosen(s, h.turns[k]) == ChannelArm <==> Listens(h, k))
      && (OpensGrace(h, k) <==> Chosen(s, h.turns[k]) == DeadlineArm && MayUnwind(h.cfg, s))
  {
    TimerMeans(h, k, s);
    StopMeans(h, k, s);
  }

  lemma PollEnds(h: History, k: nat, s: State, how: Termination)
    requires k < |h.turns| && Agrees(h, k, s) && s.ended.None? && Polls(h, k)
    ensures Select(h.cfg, s, h.turns[k]).ended == Some(how) <==> PollCause(h, k, how)
  {
    ArmMeans(h, k, s);
    BoundMeans(h, k, s, h.turns[k].doneAt);
    assert Failed(Routed(s), h.turns[k].doneAt).ended
        == Some(if PastBound(h, k, h.turns[k].doneAt) then DeadlineExceeded else Faulted);
  }

  /** The causes found by the select. */
  ghost predicate PollCause(h: History, k: nat, how: Termination)
    requires k < |h.turns|
  {
    var t := h.turns[k];
    && Polls(h, k)
    && match how
       case Completed => false
       case Cancelled => t.cancelFired && t.guestOk
       case Faulted =>
         || (Listens(h, k) && t.arrival == Arrived(false) && !PastBound(h, k, t.doneAt))
         || (Asks(h, k) && !t.guestOk && !InGrace(h, k))
         || (Listens(h, k) && t.arrival == Closed)
         || (t.cancelFired && !t.guestOk)
       case DeadlineExceeded =>
         || (Listens(h, k) && t.arrival == Arrived(false) && PastBound(h, k, t.doneAt))
         || (Asks(h, k) && !t.guestOk && InGrace(h, k))
         || (!t.cancelFired && !StopReady(h, k) && TimerFired(h, k) && !OpensGrace(h, k))
  }

  lemma CausePolled(h: History, k: nat, how: Termination)
    requires k < |h.turns| && Polls(h, k)
    ensures Cause(h, k, how) <==> PollCause(h, k, how)
  {
  }

  lemma CauseRead(h: History, k: nat, how: Termination)
    requires k < |h.turns| && !Polls(h, k)
    ensures Cause(h, k, how) <==>
      if h.turns[k].state == Settled then how == (if InGrace(h, k) then DeadlineExceeded else Completed)
      else how == if PastBound(h, k, h.turns[k].stateAt) then DeadlineExceeded else Faulted
  {
  }

  /** A turn ends the run by its cause, and only by it. */
  lemma TurnEnds(h: History, k: nat, s: State, how: Termination)
    requires k < |h.turns| && Agrees(h, k, s) && s.ended.None?
    ensures Step(h.cfg, s, h.turns[k]).ended == Some(how) <==> Cause(h, k, how)
  {
    if Polls(h, k) {
      PollEnds(h, k, s, how);
      CausePolled(h, k, how);
    } else {
      BoundMeans(h, k, s, h.turns[k].stateAt);
      CauseRead(h, k, how);
    }
  }

  lemma GraceSoFar(h: History, k: nat)
    requires k < |h.turns|
    ensures InGrace(h, k + 1) <==> InGrace(h, k) || OpensGrace(h, k)
    ensures AskedBefore(h, k + 1) <==> AskedBefore(h, k) || Asks(h, k)
  {
  }

  lemma ClocksMove(h: History, k: nat, s: State, s': State)
    requires k < |h.turns| && ClocksOk(h, k, s) && (OpensGrace(h, k) ==> !InGrace(h, k))
    requires OpensGrace(h, k) ==> s'.timer == s'.deadlineAt == Some(h.turns[k].selectAt + Grace(h.cfg))
    requires !OpensGrace(h, k) ==> s'.timer == s.timer && s'.deadlineAt == s.deadlineAt
    ensures ClocksOk(h, k + 1, s')
  {
    GraceSoFar(h, k);
    if OpensGrace(h, k) {
      assert k < k + 1;
    } else if InGrace(h, k) {
      var g: nat :| g < k && OpensGrace(h, g) && s.timer == s.deadlineAt == Some(h.turns[g].selectAt + Grace(h.cfg));
      assert g < k + 1;
    }
  }

  /** What a select that does not end the run leaves, arm by arm. */
  lemma SelectLeaves(cfg: Config, s: State, t: Turn)
    requires s.ended.None? && Select(cfg, s, t).ended.None?
    ensures var s', arm := Select(cfg, s, t), Chosen(s, t); var opens := arm == DeadlineArm;
      && arm != CancelArm && (opens ==> MayUnwind(cfg, s))
      && s'.waiting == (arm == ChannelArm && t.arrival == Nothing)
      && s'.stopArmed == (s.stopArmed && arm != StopArm)
      && s'.stoppedAtDeadline == (s.stoppedAtDeadline || opens) && s'.stopFired == (s.stopFired || opens)
      && (if opens then s'.timer == s'.deadlineAt == Some(t.selectAt + Grace(cfg))
          else s'.timer == s.timer && s'.deadlineAt == s.deadlineAt)
  {
  }

  lemma SelectCounts(cfg: Config, s: State, t: Turn)
    ensures var s', arm := Select(cfg, s, t), Chosen(s, t);
      && s'.routed == s.routed + Counted(arm == ChannelArm && t.arrival.Arrived?)
      && s'.stopAsks == s.stopAsks + Counted(arm == StopArm)
      && s'.graces == s.graces + Counted(arm == DeadlineArm && MayUnwind(cfg, s))
  {
    match Chosen(s, t)
    case CancelArm =>
    case StopArm => assert Asked(s, t).graces == s.graces;
    case DeadlineArm => assert Expired(cfg, s, t).stopAsks == s.stopAsks;
    case ChannelArm => assert Received(s, t).graces == s.graces;
  }

  /** What each turn counts. */
  ghost function Counted(p: bool): nat
  {
    if p then 1 else 0
  }

  /** A turn that does not end the run leaves the state the turns say. */
  lemma TurnAgrees(h: History, k: nat, s: State)
    requires k < |h.turns| && Agrees(h, k, s) && s.ended.None? && Step(h.cfg, s, h.turns[k]).ended.None?
    ensures Agrees(h, k + 1, Step(h.cfg, s, h.turns[k]))
  {
    var s' := Step(h.cfg, s, h.turns[k]);
    assert Polls(h, k);
    SelectLeaves(h.cfg, s, h.turns[k]);
    ArmMeans(h, k, s);
    GraceSoFar(h, k);
    ClocksMove(h, k, s, s');
    assert s'.waiting == Waits(h, k + 1) by { WaitsMeans(h, k); }
  }

  lemma WaitsMeans(h: History, k: nat)
    requires k < |h.turns|
    ensures Waits(h, k + 1) <==> Listens(h, k) && h.turns[k].arrival == Nothing
  {
  }

  lemma NotEnded(h: History, k: nat, s: State)
    requires k < |h.turns| && Agrees(h, k, s) && s.ended.None? && Step(h.cfg, s, h.turns[k]).ended.None?
    ensures Uncaused(h, k)
  {
    forall how ensures !Cause(h, k, how) {
      TurnEnds(h, k, s, how);
    }
  }

  lemma {:induction false} LoopAgrees(h: History, k: nat)
    requires k <= |h.turns| && Before(h, k).ended.None?
    ensures Agrees(h, k, Before(h, k))
    ensures forall j: nat | j < k :: Uncaused(h, j)
  {
    if k > 0 {
      OneTurn(h, k - 1);
      var s := Before(h, k - 1);
      LoopAgrees(h, k - 1);
      NotEnded(h, k - 1, s);
      TurnAgrees(h, k - 1, s);
    }
  }

  // ---- Whole runs ---------------------------------------------------------------

  /** The first turn with a cause is this one, and this is its cause. */
  ghost predicate FirstCause(h: History, k: nat, how: Termination)
    requires k < |h.turns|
  {
    Cause(h, k, how) && forall j: nat | j < k :: Uncaused(h, j)
  }

  /** The loop is still running before turn `k` exactly when no turn before it has a cause. */
  lemma {:induction false} RunningIff(h: History, k: nat)
    requires k <= |h.turns|
    ensures Before(h, k).ended.None? <==> forall j: nat | j < k :: Uncaused(h, j)
  {
    if k > 0 {
      RunningIff(h, k - 1);
      OneTurn(h, k - 1);
      if Before(h, k - 1).ended.None? {
        LoopAgrees(h, k - 1);
        if Before(h, k).ended.None? {
          NotEnded(h, k - 1, Before(h, k - 1));
        } else {
          var how := Before(h, k).ended.value;
          TurnEnds(h, k - 1, Before(h, k - 1), how);
          assert !Uncaused(h, k - 1);
        }
      }
    }
  }

  lemma EndsAtFirst(h: History, k: nat, how: Termination)
    requires k < |h.turns| && FirstCause(h, k, how)
    ensures Before(h, |h.turns|).ended == Some(how)
  {
    RunningIff(h, k);
    LoopAgrees(h, k);
    TurnEnds(h, k, Before(h, k), how);
    OneTurn(h, k);
    RunEnded(h.cfg, Begin(h.cfg, h.createdAt, h.drivenAt), h.turns, k + 1);
    assert h.turns[..|h.turns|] == h.turns;
  }

  lemma {:induction false} FirstExists(h: History, n: nat) returns (k: nat, how: Termination)
    requires n <= |h.turns| && Before(h, n).ended.Some?
    ensures k < n && FirstCause(h, k, how)
  {
    OneTurn(h, n - 1);
    if Before(h, n - 1).ended.Some? {
      k, how := FirstExists(h, n - 1);
    } else {
      k, how := n - 1, Before(h, n).ended.value;
      LoopAgrees(h, k);
      TurnEnds(h, k, Before(h, k), how);
    }
  }

  /** On every list of turns the loop ends as it does if and only if that is the cause at the first turn
      that has one. */
  lemma EndsByItsCause(cfg: Config, createdAt: nat, drivenAt: nat, turns: seq<Turn>, how: Termination)
    ensures var h := History(cfg, createdAt, drivenAt, turns);
      Run(cfg, Begin(cfg, createdAt, drivenAt), turns).ended == Some(how)
      <==> exists k: nat | k < |turns| :: FirstCause(h, k, how)
  {
    var h := History(cfg, createdAt, drivenAt, turns);
    assert turns[..|turns|] == turns;
    if Before(h, |turns|).ended == Some(how) {
      var k, how' := FirstExists(h, |turns|);
      EndsAtFirst(h, k, how');
      assert FirstCause(h, k, how);
    }
    if k: nat :| k < |turns| && FirstCause(h, k, how) {
      EndsAtFirst(h, k, how);
    }
  }

  /** And it runs on if and only if no turn has a cause. */
  lemma RunsOnIff(cfg: Config, createdAt: nat, drivenAt: nat, turns: seq<Turn>)
    ensures var h := History(cfg, createdAt, drivenAt, turns);
      Run(cfg, Begin(cfg, createdAt, drivenAt), turns).ended.None? <==> forall k: nat | k < |turns| :: Uncaused(h, k)
  {
    assert turns[..|turns|] == turns;
    RunningIff(History(cfg, createdAt, drivenAt, turns), |turns|);
  }

  /** A fired owner token beats every other ready arm: the turn that finds it ends the run as cancelled, or
      as faulted if the guest cannot be told, and neither asks, nor expires, nor routes. */
  lemma OwnerComesFirst(h: History, k: nat)
    requires k < |h.turns| && Before(h, k).ended.None? && Polls(h, k) && h.turns[k].cancelFired
    ensures var s, s' := Before(h, k), Before(h, k + 1);
      && s'.ended == Some(if h.turns[k].guestOk then Cancelled else Faulted) && !s'.interested
      && s'.stopAsks == s.stopAsks && s'.expiries == s.expiries && s'.routed == s.routed
  {
    LoopAgrees(h, k);
    ArmMeans(h, k, Before(h, k));
    OneTurn(h, k);
  }

  ghost predicate Routes(h: History, k: nat)
    requires k < |h.turns|
  {
    Listens(h, k) && h.turns[k].arrival.Arrived?
  }

  /** A turn routes, asks or opens the grace exactly when the turns say so. */
  lemma TurnCounts(h: History, k: nat)
    requires k < |h.turns| && Before(h, k).ended.None?
    ensures var s, s' := Before(h, k), Before(h, k + 1);
      && s'.routed == s.routed + Counted(Routes(h, k))
      && s'.stopAsks == s.stopAsks + Counted(Asks(h, k))
      && s'.graces == s.graces + Counted(OpensGrace(h, k))
  {
    LoopAgrees(h, k);
    ArmMeans(h, k, Before(h, k));
    OneTurn(h, k);
    if Polls(h, k) {
      SelectCounts(h.cfg, Before(h, k), h.turns[k]);
    }
  }

  /** Interest in the world's operations is lost by the turn that ends the run, and exactly if that finds the
      owner's token fired, or the deadline exceeded by a guest that had not settled. */
  lemma InterestLostIff(h: History, k: nat)
    requires k < |h.turns| && Before(h, k).ended.None?
    ensures Before(h, k).interested
    ensures !Before(h, k + 1).interested <==>
      || (Polls(h, k) && h.turns[k].cancelFired)
      || (Exceeds(h, k) && !(Reads(h, k) && h.turns[k].state == Settled))
  {
    DeadlineDiscipline(h.cfg, h.createdAt, h.drivenAt, h.turns[..k]);
    LoopAgrees(h, k);
    OneTurn(h, k);
    LosesIff(h, k, Before(h, k));
  }

  lemma LosesIff(h: History, k: nat, s: State)
    requires k < |h.turns| && Agrees(h, k, s) && s.ended.None? && s.interested
    ensures !Step(h.cfg, s, h.turns[k]).interested <==>
      || (Polls(h, k) && h.turns[k].cancelFired)
      || (Exceeds(h, k) && !(Reads(h, k) && h.turns[k].state == Settled))
  {
    TurnEnds(h, k, s, DeadlineExceeded);
    ArmMeans(h, k, s);
    var t := h.turns[k];
    if Polls(h, k) && t.cancelFired {
    } else if Polls(h, k) {
      SelectLoses(h.cfg, s, t);
    } else {
      FailedLoses(s, t.stateAt);
    }
  }

  lemma FailedLoses(s: State, now: nat)
    requires s.interested
    ensures !Failed(s, now).interested <==> Failed(s, now).ended == Some(DeadlineExceeded)
  {
  }

  lemma SelectLoses(cfg: Config, s: State, t: Turn)
    requires s.interested && s.ended.None? && Chosen(s, t) != CancelArm
    ensures !Select(cfg, s, t).interested <==> Select(cfg, s, t).ended == Some(DeadlineExceeded)
  {
    FailedLoses(Routed(s), t.doneAt);
  }
}
