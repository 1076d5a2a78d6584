/** The life of revisions and the work admitted on them (`crates/usai-runtime/src/runtime.rs`).

    `Life` is which revisions there are and what state each is in; `Books` is who has been
    admitted. A step of the runtime is an indivisible piece of one of its operations, cut
    at the operation's awaits, and an admission after its state check; a step that is not enabled changes nothing, so every list of
    steps is a run. Control operations are serialised: while an activation is under way no
    other control operation starts, and a revision being drained is not activated. */
module Revisions {
  import opened Wrappers
  import opened Admission

  type RevisionId = nat

  datatype RevisionState = Installed | Active | Draining | Retired

  /** `Binding`: past the state check, resources still being opened. `Swapped`: the new
      revision is active and the old one, if any, is not draining yet. */
  datatype Activation =
    | Binding(id: RevisionId)
    | Swapped(id: RevisionId, previous: Option<RevisionId>)

  /** `states` keeps every revision ever installed: work may hold on to one that the
      runtime no longer holds. `settlers` are the background retirements. */
  datatype Life = Life(
    maxRevisions: nat,
    next: RevisionId,
    states: map<RevisionId, RevisionState>,
    held: set<RevisionId>,
    active: Option<RevisionId>,
    activation: Option<Activation>,
    drains: set<RevisionId>,
    settlers: multiset<RevisionId>)

  datatype Ticket = Ticket(revision: RevisionId, index: nat)

  datatype Account = Account(inFlight: int, live: seq<int>, app: Pool, workloads: seq<Option<Pool>>)

  /** `checked`: admissions past their state check and not counted yet. `tickets`: admissions
      outstanding. `children`: queued children retained. */
  datatype Books = Books(
    accounts: map<RevisionId, Account>, worlds: Pool, checked: seq<Ticket>, tickets: seq<Ticket>, children: seq<RevisionId>)

  datatype Runtime = Runtime(life: Life, books: Books, appConcurrency: nat)

  datatype Mode = Ordinary | InFlight | Verification

  datatype Step =
    | Install(limits: seq<Option<nat>>)
    | InstallInvalid
    | ActivateBegin(id: RevisionId)
    | BindFailed
    | ActivateSwap
    | ActivateFinish
    | Settle(id: RevisionId)
    | SettleGivesUp(id: RevisionId)
    | DrainBegin(id: RevisionId)
    | DrainFinish(id: RevisionId)
    | DrainTimeout(id: RevisionId)
    | Remove(id: RevisionId)
    | ShutdownTake
    | Check(id: RevisionId, index: nat, mode: Mode)
    | Take(k: nat)
    | Drop(k: nat)
    | RetainChild(id: RevisionId)
    | ReleaseChild(k: nat)

  function Initial(maxRevisions: nat, maxWorlds: nat, appConcurrency: nat): Runtime
  {
    Runtime(
      Life(maxRevisions, 1, map[], {}, None, None, {}, multiset{}),
      Books(map[], Pool(maxWorlds, 0, 0), [], [], []),
      appConcurrency)
  }

  // ---- Lifecycle ------------------------------------------------------------

  function InState(l: Life, id: RevisionId, state: RevisionState): Life
  {
    l.(states := l.states[id := state])
  }

  function Retiring(l: Life, id: RevisionId): Life
  {
    InState(l, id, Retired).(held := l.held - {id})
  }

  /** `busy(id)`: the revision has work in flight. */
  predicate Enabled(l: Life, step: Step, busy: bool)
  {
    match step
    case Install(_) => l.activation.None?
    case InstallInvalid => l.activation.None?
    case ActivateBegin(id) => l.activation.None? && id !in l.drains
    case BindFailed => l.activation.Some? && l.activation.value.Binding?
    case ActivateSwap => l.activation.Some? && l.activation.value.Binding?
    case ActivateFinish => l.activation.Some? && l.activation.value.Swapped?
    case Settle(id) => id in l.settlers && id in l.states
    case SettleGivesUp(id) => id in l.settlers && busy
    case DrainBegin(id) => l.activation.None? && id !in l.drains
    case DrainFinish(id) => id in l.drains && !busy
    case DrainTimeout(id) => id in l.drains
    case Remove(id) => l.activation.None?
    case ShutdownTake => l.activation.None? && l.active.None?
    case _ => false
  }

  /** The part of a step that concerns the revisions. */
  function Lived(l: Life, step: Step, busy: bool): Life
    requires Enabled(l, step, busy)
  {
    match step
    case Install(_) =>
      if |l.held| >= l.maxRevisions then l
      else InState(l, l.next, Installed).(held := l.held + {l.next}, next := l.next + 1)
    case InstallInvalid =>
      if |l.held| >= l.maxRevisions then l else l.(next := l.next + 1)
    case ActivateBegin(id) =>
      if id !in l.held || id !in l.states || l.states[id] == Active then l
      else l.(activation := Some(Binding(id)))
    case BindFailed => l.(activation := None)
    case ActivateSwap =>
      var id := l.activation.value.id;
      InState(l, id, Active).(active := Some(id), activation := Some(Swapped(id, l.active)))
    case ActivateFinish =>
      var a := l.activation.value;
      var l' := l.(activation := None);
      if a.previous.Some? && a.previous.value != a.id && a.previous.value in l.held
      then InState(l', a.previous.value, Draining).(settlers := l.settlers + multiset{a.previous.value})
      else l'
    case Settle(id) =>
      if l.states[id] != Draining then l.(settlers := l.settlers - multiset{id})
      else if busy then l
      else Retiring(l, id).(settlers := l.settlers - multiset{id})
    case SettleGivesUp(id) => l.(settlers := l.settlers - multiset{id})
    case DrainBegin(id) =>
      if id !in l.held || id !in l.states then l
      else
        var l' := l.(active := if l.active == Some(id) then None else l.active, drains := l.drains + {id});
        if l.states[id] == Active then InState(l', id, Draining) else l'
    case DrainFinish(id) => Retiring(l, id).(drains := l.drains - {id})
    case DrainTimeout(id) => l.(drains := l.drains - {id})
    case Remove(id) =>
      if id in l.held && id in l.states && (l.states[id] == Installed || l.states[id] == Retired)
      then l.(held := l.held - {id})
      else l
    case ShutdownTake =>
      l.(states := map id | id in l.states :: if id in l.held then Retired else l.states[id], held := {})
  }

  // ---- Admission ------------------------------------------------------------

  predicate Admits(state: RevisionState, mode: Mode)
  {
    match mode
    case Ordinary => state == Active
    case InFlight => state == Active || state == Draining
    case Verification => state == Installed || state == Active
  }

  function Fresh(limits: seq<Option<nat>>, appConcurrency: nat): Account
  {
    Account(0, seq(|limits|, _ => 0), Pool(appConcurrency, 0, 0),
            seq(|limits|, i requires 0 <= i < |limits| =>
              if limits[i].Some? then Some(Pool(limits[i].value, 0, 0)) else None))
  }

  function PoolsFor(b: Books, id: RevisionId, i: nat): Pools
    requires id in b.accounts && i < |b.accounts[id].workloads|
  {
    Pools(b.worlds, b.accounts[id].app, b.accounts[id].workloads[i])
  }

  function WithPools(b: Books, id: RevisionId, i: nat, ps: Pools): Books
    requires id in b.accounts && i < |b.accounts[id].workloads|
  {
    var a := b.accounts[id];
    b.(worlds := ps.worlds, accounts := b.accounts[id := a.(app := ps.app, workloads := a.workloads[i := ps.workload])])
  }

  /** Counting one more, or one fewer, unit of work on slot `i` of revision `id`. */
  function WithWork(b: Books, id: RevisionId, i: nat, d: int): Books
    requires id in b.accounts && i < |b.accounts[id].live|
  {
    var a := b.accounts[id];
    b.(accounts := b.accounts[id := a.(inFlight := a.inFlight + d, live := a.live[i := a.live[i] + d])])
  }

  predicate HasSlot(b: Books, id: RevisionId, i: nat)
  {
    id in b.accounts && i < |b.accounts[id].workloads| && i < |b.accounts[id].live|
  }

  function BooksAdmit(b: Books, id: RevisionId, i: nat): Books
    requires HasSlot(b, id, i)
  {
    var ps := PoolsFor(b, id, i);
    var b' := WithPools(b, id, i, Admitted(ps));
    if Refusal(ps).Some? then b' else WithWork(b', id, i, 1).(tickets := b.tickets + [Ticket(id, i)])
  }

  /** An admission past its check takes its permits and is counted, or is refused. */
  function BooksTake(b: Books, k: nat): Books
    requires k < |b.checked| && HasSlot(b, b.checked[k].revision, b.checked[k].index)
  {
    BooksAdmit(b, b.checked[k].revision, b.checked[k].index).(checked := b.checked[..k] + b.checked[k + 1..])
  }

  function Returned3(ps: Pools): Pools
  {
    Pools(Returned(ps.worlds), Returned(ps.app), if ps.workload.Some? then Some(Returned(ps.workload.value)) else None)
  }

  function BooksDrop(b: Books, k: nat): Books
    requires k < |b.tickets| && HasSlot(b, b.tickets[k].revision, b.tickets[k].index)
  {
    var t := b.tickets[k];
    var b' := WithPools(b, t.revision, t.index, Returned3(PoolsFor(b, t.revision, t.index)));
    WithWork(b', t.revision, t.index, -1).(tickets := b.tickets[..k] + b.tickets[k + 1..])
  }

  function WithChildren(b: Books, id: RevisionId, d: int, children: seq<RevisionId>): Books
    requires id in b.accounts
  {
    b.(accounts := b.accounts[id := b.accounts[id].(inFlight := b.accounts[id].inFlight + d)], children := children)
  }

  function OfRevision(ts: seq<Ticket>, id: RevisionId): nat
  {
    if ts == [] then 0
    else OfRevision(ts[..|ts| - 1], id) + if ts[|ts| - 1].revision == id then 1 else 0
  }

  function OfSlot(ts: seq<Ticket>, id: RevisionId, i: nat): nat
  {
    if ts == [] then 0
    else OfSlot(ts[..|ts| - 1], id, i) + if ts[|ts| - 1] == Ticket(id, i) then 1 else 0
  }

  function OfChild(cs: seq<RevisionId>, id: RevisionId): nat
  {
    if cs == [] then 0
    else OfChild(cs[..|cs| - 1], id) + if cs[|cs| - 1] == id then 1 else 0
  }

  /** The part of a step that concerns the work. A child is queued by a running world of
      the same revision. */
  function Booked(s: Runtime, step: Step): Books
  {
    var b := s.books;
    match step
    case Install(limits) =>
      if |s.life.held| >= s.life.maxRevisions || s.life.activation.Some? then b
      else b.(accounts := b.accounts[s.life.next := Fresh(limits, s.appConcurrency)])
    case Check(id, i, mode) =>
      if id in s.life.states && Admits(s.life.states[id], mode) && HasSlot(b, id, i)
      then b.(checked := b.checked + [Ticket(id, i)])
      else b
    case Take(k) =>
      if k < |b.checked| && HasSlot(b, b.checked[k].revision, b.checked[k].index) then BooksTake(b, k) else b
    case Drop(k) =>
      if k < |b.tickets| && HasSlot(b, b.tickets[k].revision, b.tickets[k].index) then BooksDrop(b, k) else b
    case RetainChild(id) =>
      if id in b.accounts && OfRevision(b.tickets, id) > 0 then WithChildren(b, id, 1, b.children + [id]) else b
    case ReleaseChild(k) =>
      if k < |b.children| && b.children[k] in b.accounts
      then WithChildren(b, b.children[k], -1, b.children[..k] + b.children[k + 1..])
      else b
    case _ => b
  }

  predicate Busy(b: Books, step: Step)
  {
    match step
    case Settle(id) => id in b.accounts && b.accounts[id].inFlight != 0
    case SettleGivesUp(id) => id in b.accounts && b.accounts[id].inFlight != 0
    case DrainFinish(id) => id in b.accounts && b.accounts[id].inFlight != 0
    case _ => false
  }

  function Apply(s: Runtime, step: Step): Runtime
  {
    var busy := Busy(s.books, step);
    Runtime(if Enabled(s.life, step, busy) then Lived(s.life, step, busy) else s.life, Booked(s, step), s.appConcurrency)
  }

  function Run(s: Runtime, steps: seq<Step>): Runtime
  {
    if steps == [] then s else Apply(Run(s, steps[..|steps| - 1]), steps[|steps| - 1])
  }

  // ---- What the lifecycle keeps ---------------------------------------------

  ghost predicate IsActive(l: Life, id: RevisionId)
  {
    id in l.held && id in l.states && l.states[id] == Active
  }

  /** The active pointer names a held, active revision, and there is no other, save the
      one an activation has just replaced and not yet sent draining. */
  ghost predicate Coherent(l: Life)
  {
    && (l.active.Some? ==> IsActive(l, l.active.value))
    && (forall id: RevisionId | IsActive(l, id) ::
          l.active == Some(id) || (exists a :: l.activation == Some(a) && a.Swapped? && a.previous == Some(id)))
  }

  ghost predicate Tidy(l: Life)
  {
    && 1 <= l.next && |l.held| <= l.maxRevisions
    && l.held <= l.states.Keys
    && (forall id | id in l.states ::
          && 1 <= id < l.next
          && (if id in l.held then l.states[id] != Retired else l.states[id] == Retired || l.states[id] == Installed))
    && (forall id | id in l.drains :: id in l.states && l.states[id] != Active)
    && (forall id | id in l.settlers :: id in l.states)
    && (l.activation.Some? ==>
          var a := l.activation.value;
          && a.id in l.states && a.id !in l.drains
          && (a.Binding? ==> l.states[a.id] != Active)
          && (a.Swapped? ==>
                && l.active == Some(a.id)
                && (a.previous.Some? ==> a.previous.value != a.id && IsActive(l, a.previous.value))))
  }

  ghost predicate LifeInv(l: Life)
  {
    Coherent(l) && Tidy(l)
  }

  /** An activation swaps in a revision the runtime still holds. */
  predicate Unraced(l: Life, step: Step)
  {
    step.ActivateSwap? && Enabled(l, step, false) ==> l.activation.value.id in l.held
  }

  lemma InstallKeeps(l: Life, step: Step)
    requires LifeInv(l) && Enabled(l, step, false) && (step.Install? || step.InstallInvalid?)
    ensures LifeInv(Lived(l, step, false))
  {
    var l' := Lived(l, step, false);
    assert l.next !in l.states;
    assert Coherent(l') by {
      forall x: RevisionId ensures IsActive(l', x) <==> IsActive(l, x) {}
    }
  }

  lemma SwapKeeps(l: Life)
    requires LifeInv(l) && Enabled(l, ActivateSwap, false) && Unraced(l, ActivateSwap)
    ensures LifeInv(Lived(l, ActivateSwap, false))
  {
    var l', id := Lived(l, ActivateSwap, false), l.activation.value.id;
    forall x: RevisionId ensures IsActive(l', x) <==> IsActive(l, x) || x == id {}
    assert l'.activation == Some(Swapped(id, l.active));
  }

  lemma FinishKeeps(l: Life)
    requires LifeInv(l) && Enabled(l, ActivateFinish, false)
    ensures LifeInv(Lived(l, ActivateFinish, false))
  {
    var l', a := Lived(l, ActivateFinish, false), l.activation.value;
    forall x: RevisionId ensures IsActive(l', x) <==> IsActive(l, x) && Some(x) != a.previous {}
  }

  lemma RetiringKeeps(l: Life, id: RevisionId)
    requires LifeInv(l) && id in l.states && l.states[id] != Active
    ensures LifeInv(Retiring(l, id))
  {
    var l' := Retiring(l, id);
    forall x: RevisionId ensures IsActive(l', x) <==> IsActive(l, x) {}
    assert |l'.held| <= |l.held|;
  }

  lemma SettleKeeps(l: Life, step: Step, busy: bool)
    requires LifeInv(l) && Enabled(l, step, busy) && (step.Settle? || step.DrainFinish?)
    ensures LifeInv(Lived(l, step, busy))
  {
    if step.DrainFinish? || (l.states[step.id] == Draining && !busy) {
      RetiringKeeps(l, step.id);
    }
    var l' := Lived(l, step, busy);
    var r := if step.DrainFinish? || (l.states[step.id] == Draining && !busy) then Retiring(l, step.id) else l;
    forall x: RevisionId ensures IsActive(l', x) <==> IsActive(r, x) {}
  }

  lemma DrainBeginKeeps(l: Life, id: RevisionId)
    requires LifeInv(l) && Enabled(l, DrainBegin(id), false)
    ensures LifeInv(Lived(l, DrainBegin(id), false))
  {
    var l' := Lived(l, DrainBegin(id), false);
    if id in l.held {
      forall x: RevisionId ensures IsActive(l', x) <==> IsActive(l, x) && x != id {}
    }
  }

  lemma RemoveKeeps(l: Life, step: Step)
    requires LifeInv(l) && Enabled(l, step, false) && (step.Remove? || step.ShutdownTake?)
    ensures LifeInv(Lived(l, step, false))
  {
    var l' := Lived(l, step, false);
    forall x: RevisionId ensures IsActive(l', x) <==> IsActive(l, x) {}
    assert |l'.held| <= |l.held|;
  }

  lemma OtherKeeps(l: Life, step: Step, busy: bool)
    requires LifeInv(l) && Enabled(l, step, busy)
    requires step.ActivateBegin? || step.BindFailed? || step.SettleGivesUp? || step.DrainTimeout?
    ensures LifeInv(Lived(l, step, busy))
  {
    var l' := Lived(l, step, busy);
    forall x: RevisionId ensures IsActive(l', x) <==> IsActive(l, x) {}
  }

  lemma LifeKeeps(l: Life, step: Step, busy: bool)
    requires LifeInv(l) && Enabled(l, step, busy) && Unraced(l, step)
    ensures LifeInv(Lived(l, step, busy))
  {
    match step
    case Install(_) => InstallKeeps(l, step);
    case InstallInvalid => InstallKeeps(l, step);
    case ActivateSwap => SwapKeeps(l);
    case ActivateFinish => FinishKeeps(l);
    case Settle(_) => SettleKeeps(l, step, busy);
    case DrainFinish(_) => SettleKeeps(l, step, busy);
    case DrainBegin(id) => DrainBeginKeeps(l, id);
    case Remove(_) => RemoveKeeps(l, step);
    case ShutdownTake => RemoveKeeps(l, step);
    case _ => OtherKeeps(l, step, busy);
  }

  // ---- Whole runs -----------------------------------------------------------

  ghost predicate CoherentRun(s: Runtime, steps: seq<Step>)
  {
    Coherent(Run(s, steps).life) && (steps == [] || CoherentRun(s, steps[..|steps| - 1]))
  }

  predicate UnracedRun(s: Runtime, steps: seq<Step>)
  {
    steps == [] ||
    (UnracedRun(s, steps[..|steps| - 1]) && Unraced(Run(s, steps[..|steps| - 1]).life, steps[|steps| - 1]))
  }

  /** A run is coherent from end to end exactly when no activation was overtaken by the
      background retirement of its own revision. */
  lemma {:induction false} CoherentIffUnraced(s: Runtime, steps: seq<Step>)
    requires LifeInv(s.life)
    ensures CoherentRun(s, steps) <==> UnracedRun(s, steps)
    ensures UnracedRun(s, steps) ==> LifeInv(Run(s, steps).life)
  {
    if steps != [] {
      var before, step := steps[..|steps| - 1], steps[|steps| - 1];
      CoherentIffUnraced(s, before);
      var t := Run(s, before);
      var busy := Busy(t.books, step);
      if UnracedRun(s, before) && Enabled(t.life, step, busy) {
        if Unraced(t.life, step) {
          LifeKeeps(t.life, step, busy);
        } else {
          assert !IsActive(Lived(t.life, step, busy), t.life.activation.value.id);
        }
      }
    }
  }

  /** In a coherent state with no activation half way, `active` and the state cells say
      the same thing. */
  lemma ActiveIffUnique(l: Life, id: RevisionId)
    requires Coherent(l) && (l.activation.Some? ==> l.activation.value.Binding?)
    ensures l.active == Some(id) <==> IsActive(l, id) && forall other: RevisionId | IsActive(l, other) :: other == id
  {
  }

  /** Only a drain of it, or the swap to another, ends a revision's being the active one;
      in particular no background retirement does, however it was scheduled. */
  lemma ActiveStays(l: Life, step: Step, busy: bool, id: RevisionId)
    requires LifeInv(l) && Enabled(l, step, busy) && Unraced(l, step) && l.active == Some(id)
    requires step != DrainBegin(id) && step != ActivateSwap
    ensures var l' := Lived(l, step, busy); l'.active == Some(id) && IsActive(l', id)
  {
    LifeKeeps(l, step, busy);
  }

  /** The steps that set a state, on a retired revision the runtime does not hold. */
  lemma RetiredStaysSet(l: Life, step: Step, id: RevisionId)
    requires step.Install? || step.ActivateSwap? || step.ActivateFinish?
    requires Enabled(l, step, false) && Unraced(l, step)
    requires id in l.states && l.states[id] == Retired && id !in l.held && id != l.next
    ensures var l' := Lived(l, step, false); id in l'.states && l'.states[id] == Retired
  {
  }

  lemma RetiredStaysEnding(l: Life, step: Step, busy: bool, id: RevisionId)
    requires step.Settle? || step.DrainBegin? || step.DrainFinish? || step.ShutdownTake?
    requires Enabled(l, step, busy) && id in l.states && l.states[id] == Retired && id !in l.held
    ensures var l' := Lived(l, step, busy); id in l'.states && l'.states[id] == Retired
  {
  }

  lemma RetiredStays(l: Life, step: Step, busy: bool, id: RevisionId)
    requires Enabled(l, step, busy) && Unraced(l, step)
    requires id in l.states && l.states[id] == Retired && id !in l.held && id != l.next
    ensures var l' := Lived(l, step, busy); id in l'.states && l'.states[id] == Retired
  {
    if step.Install? || step.ActivateSwap? || step.ActivateFinish? {
      RetiredStaysSet(l, step, id);
    } else if step.Settle? || step.DrainBegin? || step.DrainFinish? || step.ShutdownTake? {
      RetiredStaysEnding(l, step, busy, id);
    } else {
      assert Lived(l, step, busy).states == l.states;
    }
  }

  /** Retirement is for good: whatever the next step, a retired revision stays retired
      and no admission on it passes its check in any mode. */
  lemma RetiredForGood(s: Runtime, step: Step, id: RevisionId)
    requires LifeInv(s.life) && Unraced(s.life, step)
    requires id in s.life.states && s.life.states[id] == Retired
    ensures id in Apply(s, step).life.states && Apply(s, step).life.states[id] == Retired
    ensures forall i, mode :: Booked(s, Check(id, i, mode)) == s.books
  {
    if Enabled(s.life, step, Busy(s.books, step)) {
      RetiredStays(s.life, step, Busy(s.books, step), id);
    }
  }

  // ---- When an activation can be overtaken ----------------------------------

  /** The revision being bound cannot be retired meanwhile: it is not draining with its
      background retirement still to come. */
  predicate Unthreatened(l: Life, id: RevisionId)
  {
    id in l.held && id in l.states && !(l.states[id] == Draining && id in l.settlers)
  }

  ghost predicate BindingUnthreatened(l: Life)
  {
    l.activation.Some? && l.activation.value.Binding? ==> Unthreatened(l, l.activation.value.id)
  }

  /** An activation starts only on a revision no retirement is waiting to remove. */
  predicate SafeStart(l: Life, step: Step)
  {
    step.ActivateBegin? && Enabled(l, step, false) && step.id in l.held ==> Unthreatened(l, step.id)
  }

  /** While a revision is being bound, only its own retirement could threaten it. */
  lemma BindingStays(l: Life, step: Step, busy: bool, id: RevisionId)
    requires Tidy(l) && Enabled(l, step, busy) && l.activation == Some(Binding(id)) && Unthreatened(l, id)
    ensures Unraced(l, step) && BindingUnthreatened(Lived(l, step, busy))
  {
    match step
    case Settle(x) => assert x == id ==> l.states[id] != Draining;
    case DrainFinish(x) => assert x != id;
    case _ =>
  }

  lemma NoBindingStarts(l: Life, step: Step, busy: bool)
    requires Enabled(l, step, busy) && !step.ActivateBegin?
    requires l.activation.Some? ==> l.activation.value.Swapped?
    ensures var a := Lived(l, step, busy).activation; a.Some? ==> a.value.Swapped?
  {
  }

  lemma SafeStartKeeps(l: Life, step: Step, busy: bool)
    requires LifeInv(l) && Enabled(l, step, busy) && BindingUnthreatened(l) && SafeStart(l, step)
    ensures Unraced(l, step) && BindingUnthreatened(Lived(l, step, busy))
  {
    if l.activation.Some? && l.activation.value.Binding? {
      BindingStays(l, step, busy, l.activation.value.id);
    } else if !step.ActivateBegin? {
      NoBindingStarts(l, step, busy);
    }
  }

  ghost predicate SafeStarts(s: Runtime, steps: seq<Step>)
  {
    steps == [] ||
    (SafeStarts(s, steps[..|steps| - 1]) && SafeStart(Run(s, steps[..|steps| - 1]).life, steps[|steps| - 1]))
  }

  /** A run all of whose activations start unthreatened is coherent throughout. */
  lemma {:induction false} SafeStartsCoherent(s: Runtime, steps: seq<Step>)
    requires LifeInv(s.life) && BindingUnthreatened(s.life) && SafeStarts(s, steps)
    ensures UnracedRun(s, steps) && CoherentRun(s, steps)
    ensures LifeInv(Run(s, steps).life) && BindingUnthreatened(Run(s, steps).life)
  {
    if steps != [] {
      var before, step := steps[..|steps| - 1], steps[|steps| - 1];
      SafeStartsCoherent(s, before);
      var t := Run(s, before);
      if Enabled(t.life, step, Busy(t.books, step)) {
        SafeStartKeeps(t.life, step, Busy(t.books, step));
      }
    }
    CoherentIffUnraced(s, steps);
  }

  // ---- What the books keep --------------------------------------------------

  ghost predicate SlotOk(a: Account, i: nat, n: nat)
    requires i < |a.live| && i < |a.workloads|
  {
    a.live[i] == n && (a.workloads[i].Some? ==> a.workloads[i].value.inUse == n && Bounded(a.workloads[i].value))
  }

  /** In flight is what was admitted and not dropped, plus the children queued; each slot
      counts its own admissions, and so does its budget; the application's budget counts them all. */
  ghost predicate AccountOk(a: Account, ts: seq<Ticket>, cs: seq<RevisionId>, id: RevisionId)
  {
    && a.inFlight == OfRevision(ts, id) + OfChild(cs, id)
    && a.app.inUse == OfRevision(ts, id) && Bounded(a.app)
    && |a.live| == |a.workloads|
    && (forall i: nat | i < |a.live| :: SlotOk(a, i, OfSlot(ts, id, i)))
  }

  ghost predicate BooksOk(b: Books)
  {
    && b.worlds.inUse == |b.tickets| && Bounded(b.worlds)
    && (forall t | t in b.tickets :: HasSlot(b, t.revision, t.index))
    && (forall id | id in b.accounts :: AccountOk(b.accounts[id], b.tickets, b.children, id))
    && (forall c | c in b.children :: c in b.accounts)
  }

  lemma {:induction false} TicketRemoved(ts: seq<Ticket>, k: nat, id: RevisionId, i: nat)
    requires k < |ts|
    ensures var rest := ts[..k] + ts[k + 1..];
      && OfRevision(rest, id) == OfRevision(ts, id) - (if ts[k].revision == id then 1 else 0)
      && OfSlot(rest, id, i) == OfSlot(ts, id, i) - if ts[k] == Ticket(id, i) then 1 else 0
  {
    var n := |ts| - 1;
    if k < n {
      TicketRemoved(ts[..n], k, id, i);
      var rest, tail := ts[..k] + ts[k + 1..], ts[..n][..k] + ts[..n][k + 1..];
      assert rest == tail + [ts[n]];
      assert rest[..|rest| - 1] == tail;
    } else {
      assert ts[..k] + ts[k + 1..] == ts[..n];
    }
  }

  lemma {:induction false} ChildRemoved(cs: seq<RevisionId>, k: nat, id: RevisionId)
    requires k < |cs|
    ensures OfChild(cs[..k] + cs[k + 1..], id) == OfChild(cs, id) - if cs[k] == id then 1 else 0
  {
    var n := |cs| - 1;
    if k < n {
      ChildRemoved(cs[..n], k, id);
      var rest, tail := cs[..k] + cs[k + 1..], cs[..n][..k] + cs[..n][k + 1..];
      assert rest == tail + [cs[n]];
      ChildAdded(tail, cs[n], id);
    } else {
      assert cs[..k] + cs[k + 1..] == cs[..n];
    }
  }

  lemma ChildAdded(cs: seq<RevisionId>, c: RevisionId, id: RevisionId)
    ensures OfChild(cs + [c], id) == OfChild(cs, id) + if c == id then 1 else 0
  {
    assert (cs + [c])[..|cs|] == cs;
  }

  lemma {:induction false} SlotWithin(ts: seq<Ticket>, id: RevisionId, i: nat)
    ensures OfSlot(ts, id, i) <= OfRevision(ts, id) <= |ts|
  {
    if ts != [] {
      SlotWithin(ts[..|ts| - 1], id, i);
    }
  }

  lemma {:induction false} TicketCounts(ts: seq<Ticket>, k: nat)
    requires k < |ts|
    ensures OfSlot(ts, ts[k].revision, ts[k].index) >= 1
  {
    if k < |ts| - 1 {
      TicketCounts(ts[..|ts| - 1], k);
    }
  }

  lemma TicketAdded(ts: seq<Ticket>, t: Ticket, id: RevisionId, i: nat)
    ensures OfRevision(ts + [t], id) == OfRevision(ts, id) + if t.revision == id then 1 else 0
    ensures OfSlot(ts + [t], id, i) == OfSlot(ts, id, i) + if t == Ticket(id, i) then 1 else 0
  {
    assert (ts + [t])[..|ts|] == ts;
  }

  /** Another revision's account stays as it was, and so do its counts. */
  lemma AdmitOther(b: Books, id: RevisionId, i: nat, x: RevisionId)
    requires BooksOk(b) && HasSlot(b, id, i) && x in b.accounts && x != id
    ensures var b' := BooksAdmit(b, id, i); AccountOk(b'.accounts[x], b'.tickets, b'.children, x)
  {
    var b', a := BooksAdmit(b, id, i), b.accounts[x];
    assert AccountOk(a, b.tickets, b.children, x) && b'.accounts[x] == a;
    TicketAdded(b.tickets, Ticket(id, i), x, 0);
    forall j: nat | j < |a.live| ensures SlotOk(a, j, OfSlot(b'.tickets, x, j)) {
      assert SlotOk(a, j, OfSlot(b.tickets, x, j));
      TicketAdded(b.tickets, Ticket(id, i), x, j);
    }
  }

  lemma AdmitSlot(b: Books, id: RevisionId, i: nat, j: nat)
    requires HasSlot(b, id, i) && |b.accounts[id].live| == |b.accounts[id].workloads| && j < |b.accounts[id].live|
    requires AllBounded(PoolsFor(b, id, i)) && SlotOk(b.accounts[id], j, OfSlot(b.tickets, id, j))
    ensures var b' := BooksAdmit(b, id, i); SlotOk(b'.accounts[id], j, OfSlot(b'.tickets, id, j))
  {
    AdmitIsAtomic(PoolsFor(b, id, i));
    TicketAdded(b.tickets, Ticket(id, i), id, j);
  }

  lemma AdmitOwn(b: Books, id: RevisionId, i: nat)
    requires BooksOk(b) && HasSlot(b, id, i)
    ensures var b' := BooksAdmit(b, id, i); AccountOk(b'.accounts[id], b'.tickets, b'.children, id)
  {
    var b', a := BooksAdmit(b, id, i), b.accounts[id];
    assert AccountOk(a, b.tickets, b.children, id);
    assert SlotOk(a, i, OfSlot(b.tickets, id, i));
    AdmitIsAtomic(PoolsFor(b, id, i));
    TicketAdded(b.tickets, Ticket(id, i), id, i);
    forall j: nat | j < |a.live| ensures SlotOk(b'.accounts[id], j, OfSlot(b'.tickets, id, j)) {
      assert SlotOk(a, j, OfSlot(b.tickets, id, j));
      AdmitSlot(b, id, i, j);
    }
  }

  lemma AdmitKeeps(b: Books, id: RevisionId, i: nat)
    requires BooksOk(b) && HasSlot(b, id, i)
    ensures BooksOk(BooksAdmit(b, id, i)) && BooksAdmit(b, id, i).accounts.Keys == b.accounts.Keys
  {
    var b' := BooksAdmit(b, id, i);
    AdmitWorlds(b, id, i);
    forall x | x in b'.accounts ensures AccountOk(b'.accounts[x], b'.tickets, b'.children, x) {
      if x == id {
        AdmitOwn(b, id, i);
      } else {
        AdmitOther(b, id, i, x);
      }
    }
  }

  lemma AdmitWorlds(b: Books, id: RevisionId, i: nat)
    requires BooksOk(b) && HasSlot(b, id, i)
    ensures var b' := BooksAdmit(b, id, i);
            && b'.worlds.inUse == |b'.tickets| && Bounded(b'.worlds) && b'.accounts.Keys == b.accounts.Keys
            && b'.children == b.children
            && forall t | t in b'.tickets :: HasSlot(b', t.revision, t.index)
  {
    assert AccountOk(b.accounts[id], b.tickets, b.children, id);
    assert SlotOk(b.accounts[id], i, OfSlot(b.tickets, id, i));
    AdmitIsAtomic(PoolsFor(b, id, i));
    var b' := BooksAdmit(b, id, i);
    forall t | t in b'.tickets ensures HasSlot(b', t.revision, t.index) {
      assert t in b.tickets || t == Ticket(id, i);
    }
  }

  lemma DropAccount(b: Books, k: nat, x: RevisionId)
    requires BooksOk(b) && k < |b.tickets| && b.tickets[k] in b.tickets && x in b.accounts
    ensures var b' := BooksDrop(b, k); AccountOk(b'.accounts[x], b'.tickets, b'.children, x)
  {
    var b', t := BooksDrop(b, k), b.tickets[k];
    var a, a' := b.accounts[x], b'.accounts[x];
    TicketRemoved(b.tickets, k, x, 0);
    TicketCounts(b.tickets, k);
    SlotWithin(b.tickets, t.revision, t.index);
    forall j: nat | j < |a'.live| ensures SlotOk(a', j, OfSlot(b'.tickets, x, j)) {
      assert SlotOk(a, j, OfSlot(b.tickets, x, j));
      TicketRemoved(b.tickets, k, x, j);
    }
  }

  lemma DropKeeps(b: Books, k: nat)
    requires BooksOk(b) && k < |b.tickets| && b.tickets[k] in b.tickets
    ensures BooksOk(BooksDrop(b, k)) && BooksDrop(b, k).accounts.Keys == b.accounts.Keys
  {
    var b' := BooksDrop(b, k);
    forall x | x in b'.accounts ensures AccountOk(b'.accounts[x], b'.tickets, b'.children, x) {
      DropAccount(b, k, x);
    }
  }

  lemma ChildrenKeep(b: Books, id: RevisionId, d: int, children: seq<RevisionId>)
    requires BooksOk(b) && id in b.accounts
    requires forall x: RevisionId :: OfChild(children, x) == OfChild(b.children, x) + if x == id then d else 0
    requires forall c | c in children :: c in b.accounts
    ensures BooksOk(WithChildren(b, id, d, children))
  {
    var b' := WithChildren(b, id, d, children);
    forall x | x in b'.accounts ensures AccountOk(b'.accounts[x], b'.tickets, b'.children, x) {
      var a, a' := b.accounts[x], b'.accounts[x];
      forall j: nat | j < |a'.live| ensures SlotOk(a', j, OfSlot(b'.tickets, x, j)) {
        assert SlotOk(a, j, OfSlot(b.tickets, x, j));
      }
    }
  }

  /** Only revisions that were installed are ever spoken of, raced or not. */
  ghost predicate Named(l: Life)
  {
    && (forall id | id in l.states :: id < l.next)
    && l.drains <= l.states.Keys
    && (l.active.Some? ==> l.active.value in l.states)
    && (l.activation.Some? ==>
          && l.activation.value.id in l.states
          && (l.activation.value.Swapped? && l.activation.value.previous.Some? ==>
                l.activation.value.previous.value in l.states))
  }

  /** An admission past its check is for a workload there is. */
  ghost predicate CheckedOk(b: Books)
  {
    forall t | t in b.checked :: HasSlot(b, t.revision, t.index)
  }

  ghost predicate RuntimeOk(s: Runtime)
  {
    Named(s.life) && BooksOk(s.books) && CheckedOk(s.books) && s.books.accounts.Keys == s.life.states.Keys
  }

  function NewRevision(l: Life, step: Step): set<RevisionId>
  {
    if step.Install? && l.activation.None? && |l.held| < l.maxRevisions then {l.next} else {}
  }

  lemma StateKeys(l: Life, step: Step, busy: bool)
    requires Named(l) && Enabled(l, step, busy)
    ensures Lived(l, step, busy).states.Keys == l.states.Keys + NewRevision(l, step)
  {
  }

  lemma NamedActivation(l: Life, step: Step)
    requires Named(l) && Enabled(l, step, false) && (step.ActivateBegin? || step.ActivateSwap? || step.ActivateFinish?)
    ensures Named(Lived(l, step, false))
  {
    StateKeys(l, step, false);
  }

  lemma NamedKeeps(l: Life, step: Step, busy: bool)
    requires Named(l) && Enabled(l, step, busy)
    ensures Named(Lived(l, step, busy))
  {
    if step.ActivateBegin? || step.ActivateSwap? || step.ActivateFinish? {
      NamedActivation(l, step);
    } else {
      StateKeys(l, step, busy);
      assert step.DrainBegin? ==> Lived(l, step, busy).drains <= l.drains + {step.id};
    }
  }

  lemma InstallBooks(b: Books, id: RevisionId, limits: seq<Option<nat>>, appConcurrency: nat)
    requires BooksOk(b) && id !in b.accounts
    ensures BooksOk(b.(accounts := b.accounts[id := Fresh(limits, appConcurrency)]))
  {
    var b' := b.(accounts := b.accounts[id := Fresh(limits, appConcurrency)]);
    NoTickets(b, b.tickets, id);
    NoChildren(b, b.children, id);
    forall x | x in b'.accounts ensures AccountOk(b'.accounts[x], b.tickets, b.children, x) {
      if x == id {
        forall j: nat | j < |limits| ensures SlotOk(b'.accounts[id], j, OfSlot(b.tickets, id, j)) {
          SlotWithin(b.tickets, id, j);
        }
      }
    }
  }

  lemma {:induction false} NoTickets(b: Books, ts: seq<Ticket>, id: RevisionId)
    requires id !in b.accounts && forall t | t in ts :: t.revision in b.accounts
    ensures OfRevision(ts, id) == 0
  {
    if ts != [] {
      assert ts[|ts| - 1] in ts;
      NoTickets(b, ts[..|ts| - 1], id);
    }
  }

  lemma {:induction false} NoChildren(b: Books, cs: seq<RevisionId>, id: RevisionId)
    requires id !in b.accounts && forall c | c in cs :: c in b.accounts
    ensures OfChild(cs, id) == 0
  {
    if cs != [] {
      assert cs[|cs| - 1] in cs;
      NoChildren(b, cs[..|cs| - 1], id);
    }
  }

  lemma RetainKeeps(b: Books, id: RevisionId)
    requires BooksOk(b) && id in b.accounts
    ensures BooksOk(WithChildren(b, id, 1, b.children + [id]))
  {
    assert (b.children + [id])[..|b.children|] == b.children;
    ChildrenKeep(b, id, 1, b.children + [id]);
  }

  lemma ReleaseKeeps(b: Books, k: nat)
    requires BooksOk(b) && k < |b.children| && b.children[k] in b.accounts
    ensures BooksOk(WithChildren(b, b.children[k], -1, b.children[..k] + b.children[k + 1..]))
  {
    forall x: RevisionId
      ensures OfChild(b.children[..k] + b.children[k + 1..], x) == OfChild(b.children, x) + if x == b.children[k] then -1 else 0
    {
      ChildRemoved(b.children, k, x);
    }
    ChildrenKeep(b, b.children[k], -1, b.children[..k] + b.children[k + 1..]);
  }

  /** Books in order, of the same revisions and these. */
  ghost predicate BooksFor(b: Books, ids: set<RevisionId>)
  {
    BooksOk(b) && b.accounts.Keys == ids
  }

  lemma InstallBooked(s: Runtime, limits: seq<Option<nat>>)
    requires RuntimeOk(s)
    ensures BooksFor(Booked(s, Install(limits)), s.books.accounts.Keys + NewRevision(s.life, Install(limits)))
  {
    if |s.life.held| < s.life.maxRevisions && s.life.activation.None? {
      InstallBooks(s.books, s.life.next, limits, s.appConcurrency);
    }
  }

  lemma TakeBooked(s: Runtime, k: nat)
    requires BooksOk(s.books)
    ensures BooksFor(Booked(s, Take(k)), s.books.accounts.Keys)
  {
    var b := s.books;
    if k < |b.checked| && HasSlot(b, b.checked[k].revision, b.checked[k].index) {
      AdmitKeeps(b, b.checked[k].revision, b.checked[k].index);
      SameBooks(BooksAdmit(b, b.checked[k].revision, b.checked[k].index), BooksTake(b, k));
    }
  }

  /** What is checked does not count. */
  lemma SameBooks(b: Books, b': Books)
    requires BooksOk(b) && b' == b.(checked := b'.checked)
    ensures BooksOk(b')
  {
  }

  lemma CheckBooked(s: Runtime, id: RevisionId, i: nat, mode: Mode)
    requires BooksOk(s.books)
    ensures BooksFor(Booked(s, Check(id, i, mode)), s.books.accounts.Keys)
  {
    SameBooks(s.books, Booked(s, Check(id, i, mode)));
  }

  lemma DropBooked(s: Runtime, k: nat)
    requires BooksOk(s.books)
    ensures BooksFor(Booked(s, Drop(k)), s.books.accounts.Keys)
  {
    if k < |s.books.tickets| {
      DropKeeps(s.books, k);
    }
  }

  lemma RetainBooked(s: Runtime, id: RevisionId)
    requires BooksOk(s.books)
    ensures BooksFor(Booked(s, RetainChild(id)), s.books.accounts.Keys)
  {
    if id in s.books.accounts {
      RetainKeeps(s.books, id);
    }
  }

  lemma ReleaseBooked(s: Runtime, k: nat)
    requires BooksOk(s.books)
    ensures BooksFor(Booked(s, ReleaseChild(k)), s.books.accounts.Keys)
  {
    if k < |s.books.children| && s.books.children[k] in s.books.accounts {
      ReleaseKeeps(s.books, k);
    }
  }

  lemma BookedKeeps(s: Runtime, step: Step)
    requires RuntimeOk(s)
    ensures BooksFor(Booked(s, step), s.books.accounts.Keys + NewRevision(s.life, step))
  {
    match step
    case Install(limits) => InstallBooked(s, limits);
    case Check(id, i, mode) => CheckBooked(s, id, i, mode);
    case Take(k) => TakeBooked(s, k);
    case Drop(k) => DropBooked(s, k);
    case RetainChild(id) => RetainBooked(s, id);
    case ReleaseChild(k) => ReleaseBooked(s, k);
    case _ =>
  }

  /** Slots are only added, and budgets keep their size. */
  ghost predicate SlotsStay(b: Books, b': Books)
  {
    && b'.worlds.max == b.worlds.max
    && forall id, i: nat | HasSlot(b, id, i) :: HasSlot(b', id, i) && SizesStay(b.accounts[id], b'.accounts[id], i)
  }

  predicate SizesStay(a: Account, a': Account, i: nat)
    requires i < |a.workloads| && i < |a'.workloads|
  {
    && a'.app.max == a.app.max && a'.workloads[i].Some? == a.workloads[i].Some?
    && (a.workloads[i].Some? ==> a'.workloads[i].value.max == a.workloads[i].value.max)
  }

  lemma AdmitSlots(b: Books, id: RevisionId, i: nat)
    requires HasSlot(b, id, i)
    ensures SlotsStay(b, BooksAdmit(b, id, i))
  {
  }

  lemma DropSlots(b: Books, k: nat)
    requires k < |b.tickets| && HasSlot(b, b.tickets[k].revision, b.tickets[k].index)
    ensures SlotsStay(b, BooksDrop(b, k))
  {
  }

  lemma InstallSlots(b: Books, id: RevisionId, a: Account)
    requires id !in b.accounts
    ensures SlotsStay(b, b.(accounts := b.accounts[id := a]))
  {
  }

  lemma ChildSlots(b: Books, id: RevisionId, d: int, children: seq<RevisionId>)
    requires id in b.accounts
    ensures SlotsStay(b, WithChildren(b, id, d, children))
  {
  }

  lemma TakeSlots(s: Runtime, k: nat)
    ensures SlotsStay(s.books, Booked(s, Take(k)))
  {
    var b := s.books;
    if k < |b.checked| && HasSlot(b, b.checked[k].revision, b.checked[k].index) {
      AdmitSlots(b, b.checked[k].revision, b.checked[k].index);
    }
  }

  lemma WorkSlots(s: Runtime, step: Step)
    requires step.Drop? || step.RetainChild? || step.ReleaseChild?
    ensures SlotsStay(s.books, Booked(s, step))
  {
    var b := s.books;
    match step
    case RetainChild(id) =>
      if id in b.accounts {
        ChildSlots(b, id, 1, b.children + [id]);
      }
    case ReleaseChild(k) =>
      if k < |b.children| && b.children[k] in b.accounts {
        ChildSlots(b, b.children[k], -1, b.children[..k] + b.children[k + 1..]);
      }
    case Drop(k) =>
      if k < |b.tickets| && HasSlot(b, b.tickets[k].revision, b.tickets[k].index) {
        DropSlots(b, k);
      }
  }

  lemma BookedSlots(s: Runtime, step: Step)
    requires RuntimeOk(s)
    ensures SlotsStay(s.books, Booked(s, step))
  {
    match step
    case Install(limits) => InstallSlots(s.books, s.life.next, Fresh(limits, s.appConcurrency));
    case Take(k) => TakeSlots(s, k);
    case Drop(_) => WorkSlots(s, step);
    case RetainChild(_) => WorkSlots(s, step);
    case ReleaseChild(_) => WorkSlots(s, step);
    case _ =>
  }

  lemma CheckedKeeps(s: Runtime, step: Step)
    requires RuntimeOk(s)
    ensures CheckedOk(Booked(s, step))
  {
    BookedSlots(s, step);
    var b' := Booked(s, step);
    forall t | t in b'.checked ensures HasSlot(b', t.revision, t.index) {
      if t !in s.books.checked {
        assert step.Check? && t == Ticket(step.id, step.index);
      }
    }
  }

  lemma StepKeeps(s: Runtime, step: Step)
    requires RuntimeOk(s)
    ensures RuntimeOk(Apply(s, step))
  {
    BookedKeeps(s, step);
    CheckedKeeps(s, step);
    if Enabled(s.life, step, Busy(s.books, step)) {
      StateKeys(s.life, step, Busy(s.books, step));
      NamedKeeps(s.life, step, Busy(s.books, step));
    }
  }

  /** Admission accounting holds in every reachable state, raced or not. */
  lemma {:induction false} AccountingHolds(s: Runtime, steps: seq<Step>)
    requires RuntimeOk(s)
    ensures RuntimeOk(Run(s, steps))
  {
    if steps != [] {
      AccountingHolds(s, steps[..|steps| - 1]);
      StepKeeps(Run(s, steps[..|steps| - 1]), steps[|steps| - 1]);
    }
  }

  lemma InitialOk(maxRevisions: nat, maxWorlds: nat, appConcurrency: nat)
    ensures var s := Initial(maxRevisions, maxWorlds, appConcurrency);
      RuntimeOk(s) && LifeInv(s.life) && BindingUnthreatened(s.life)
  {
    assert forall id: RevisionId :: !IsActive(Initial(maxRevisions, maxWorlds, appConcurrency).life, id);
  }

  // ---- Retired means settled ------------------------------------------------

  ghost predicate Settled(s: Runtime, id: RevisionId)
  {
    && id in s.life.states && s.life.states[id] == Retired
    && id in s.books.accounts && s.books.accounts[id].inFlight == 0
  }

  lemma ActivationDoesNotRetire(l: Life, step: Step, id: RevisionId)
    requires step.ActivateSwap? || step.ActivateFinish?
    requires Enabled(l, step, false) && id in l.states && l.states[id] != Retired
    ensures var l' := Lived(l, step, false); id in l'.states && l'.states[id] != Retired
  {
  }

  lemma ControlDoesNotRetire(l: Life, step: Step, id: RevisionId)
    requires step.Install? || step.DrainBegin?
    requires Enabled(l, step, false) && id in l.states && l.states[id] != Retired
    ensures var l' := Lived(l, step, false); id in l'.states && l'.states[id] != Retired
  {
  }

  lemma OthersDoNotRetire(l: Life, step: Step, busy: bool, id: RevisionId)
    requires Enabled(l, step, busy) && !step.Settle? && !step.DrainFinish? && !step.ShutdownTake?
    requires id in l.states && l.states[id] != Retired
    ensures var l' := Lived(l, step, busy); id in l'.states && l'.states[id] != Retired
  {
    if step.ActivateSwap? || step.ActivateFinish? {
      ActivationDoesNotRetire(l, step, id);
    } else if step.Install? || step.DrainBegin? {
      ControlDoesNotRetire(l, step, id);
    } else {
      assert Lived(l, step, busy).states == l.states;
    }
  }

  lemma RetiresBy(l: Life, step: Step, busy: bool, id: RevisionId)
    requires Enabled(l, step, busy) && id in l.states && l.states[id] != Retired && step != ShutdownTake
    requires var l' := Lived(l, step, busy); id in l'.states && l'.states[id] == Retired
    ensures (step == Settle(id) || step == DrainFinish(id)) && !busy
  {
    if !step.Settle? && !step.DrainFinish? {
      OthersDoNotRetire(l, step, busy, id);
    }
  }

  /** Drain and settlement retire a revision only when nothing of it is in flight. */
  lemma RetiresOnlySettled(s: Runtime, step: Step, id: RevisionId)
    requires RuntimeOk(s) && id in s.life.states && s.life.states[id] != Retired && step != ShutdownTake
    requires id in Apply(s, step).life.states && Apply(s, step).life.states[id] == Retired
    ensures (step == Settle(id) || step == DrainFinish(id)) && Settled(Apply(s, step), id)
  {
    RetiresBy(s.life, step, Busy(s.books, step), id);
  }

  /** Some admission could fit: no budget of its slot has size zero. */
  predicate Roomy(b: Books, t: Ticket)
    requires HasSlot(b, t.revision, t.index)
  {
    var ps := PoolsFor(b, t.revision, t.index);
    ps.worlds.max > 0 && ps.app.max > 0 && (ps.workload.Some? ==> ps.workload.value.max > 0)
  }

  /** Every admission on the revision that is past its check is bound to be refused. */
  ghost predicate NoneCanLand(b: Books, id: RevisionId)
  {
    forall t | t in b.checked && t.revision == id :: HasSlot(b, id, t.index) && !Roomy(b, t)
  }

  lemma TakeLeavesOthers(s: Runtime, k: nat, id: RevisionId)
    requires RuntimeOk(s) && Settled(s, id) && NoneCanLand(s.books, id)
    ensures Settled(Apply(s, Take(k)), id)
  {
    var b := s.books;
    if k < |b.checked| {
      var t := b.checked[k];
      assert t in b.checked;
      if t.revision == id {
        assert AccountOk(b.accounts[id], b.tickets, b.children, id);
        assert SlotOk(b.accounts[id], t.index, OfSlot(b.tickets, id, t.index));
        AdmitIsAtomic(PoolsFor(b, id, t.index));
      }
    }
  }

  lemma DropLeavesSettled(s: Runtime, k: nat, id: RevisionId)
    requires RuntimeOk(s) && Settled(s, id)
    ensures Settled(Apply(s, Drop(k)), id)
  {
    if k < |s.books.tickets| {
      TicketCounts(s.books.tickets, k);
      SlotWithin(s.books.tickets, s.books.tickets[k].revision, s.books.tickets[k].index);
    }
  }

  lemma ChildLeavesSettled(s: Runtime, k: nat, id: RevisionId)
    requires RuntimeOk(s) && Settled(s, id)
    ensures Settled(Apply(s, ReleaseChild(k)), id)
  {
    if k < |s.books.children| {
      ChildRemoved(s.books.children, k, s.books.children[k]);
    }
  }

  lemma SettledStep(s: Runtime, step: Step, id: RevisionId)
    requires LifeInv(s.life) && RuntimeOk(s) && Unraced(s.life, step) && Settled(s, id) && NoneCanLand(s.books, id)
    ensures Settled(Apply(s, step), id)
  {
    RetiredForGood(s, step, id);
    match step
    case Install(_) => assert id != s.life.next;
    case Take(k) => TakeLeavesOthers(s, k, id);
    case Drop(k) => DropLeavesSettled(s, k, id);
    case ReleaseChild(k) => ChildLeavesSettled(s, k, id);
    case _ =>
  }

  lemma NoneLandsStep(s: Runtime, step: Step, id: RevisionId)
    requires LifeInv(s.life) && RuntimeOk(s) && Unraced(s.life, step) && Settled(s, id) && NoneCanLand(s.books, id)
    ensures NoneCanLand(Booked(s, step), id)
  {
    RetiredForGood(s, step, id);
    BookedSlots(s, step);
    var b, b' := s.books, Booked(s, step);
    forall t | t in b'.checked && t.revision == id ensures HasSlot(b', id, t.index) && !Roomy(b', t) {
      assert t in b.checked by {
        if step.Check? && step.id == id {
          assert b' == Booked(s, Check(id, step.index, step.mode)) == b;
        }
      }
      assert SizesStay(b.accounts[id], b'.accounts[id], t.index);
    }
  }

  /** Once retired by drain or settlement, with no admission past its check that could fit, a
      revision stays retired with nothing in flight on every unraced continuation. */
  lemma {:induction false} SettledForGood(s: Runtime, steps: seq<Step>, id: RevisionId)
    requires LifeInv(s.life) && RuntimeOk(s) && Settled(s, id) && NoneCanLand(s.books, id) && UnracedRun(s, steps)
    ensures Settled(Run(s, steps), id) && NoneCanLand(Run(s, steps).books, id)
  {
    if steps != [] {
      var before := steps[..|steps| - 1];
      SettledForGood(s, before, id);
      CoherentIffUnraced(s, before);
      AccountingHolds(s, before);
      SettledStep(Run(s, before), steps[|steps| - 1], id);
      NoneLandsStep(Run(s, before), steps[|steps| - 1], id);
    }
  }

  // ---- The threat is real ---------------------------------------------------

  lemma {:induction false} RunConcat(s: Runtime, x: seq<Step>, y: seq<Step>)
    ensures Run(s, x + y) == Run(Run(s, x), y)
  {
    if y == [] {
      assert x + y == x;
    } else {
      RunConcat(s, x, y[..|y| - 1]);
      assert (x + y)[..|x + y| - 1] == x + y[..|y| - 1];
    }
  }

  lemma RunForward(s: Runtime, step: Step, rest: seq<Step>)
    ensures Run(s, [step] + rest) == Run(Apply(s, step), rest)
  {
    RunConcat(s, [step], rest);
    assert [step][..0] == [];
  }

  /** An ending of work, where there is some. */
  predicate Ends(b: Books, step: Step)
  {
    if b.tickets != [] then step == Drop(0) else b.children != [] && step == ReleaseChild(0)
  }

  lemma OneEnds(s: Runtime, step: Step)
    requires RuntimeOk(s) && Ends(s.books, step)
    ensures var t := Apply(s, step);
      && t.life == s.life && t.books.checked == s.books.checked
      && |t.books.tickets| + |t.books.children| == |s.books.tickets| + |s.books.children| - 1
  {
    var b := s.books;
    assert b.tickets != [] ==> b.tickets[0] in b.tickets;
    assert b.children != [] ==> b.children[0] in b.children;
  }

  /** All work can end, and its ending leaves the lifecycle and the checked admissions alone. */
  lemma {:induction false} AllWorkEnds(s: Runtime) returns (steps: seq<Step>)
    requires RuntimeOk(s)
    ensures forall step | step in steps :: step.Drop? || step.ReleaseChild?
    ensures var t := Run(s, steps);
      && RuntimeOk(t) && t.life == s.life && t.books.tickets == [] && t.books.children == []
      && t.books.checked == s.books.checked
    decreases |s.books.tickets| + |s.books.children|
  {
    var b := s.books;
    if b.tickets == [] && b.children == [] {
      steps := [];
    } else {
      var step := if b.tickets != [] then Drop(0) else ReleaseChild(0);
      OneEnds(s, step);
      StepKeeps(s, step);
      var rest := AllWorkEnds(Apply(s, step));
      steps := [step] + rest;
      RunForward(s, step, rest);
    }
  }

  /** Binding a draining revision whose background retirement is still to come can end
      with an active pointer to a revision the runtime no longer holds. */
  lemma ThreatIsReal(s: Runtime, id: RevisionId) returns (steps: seq<Step>)
    requires RuntimeOk(s) && s.life.activation == Some(Binding(id))
    requires id in s.life.states && s.life.states[id] == Draining && id in s.life.settlers
    ensures forall step | step in steps :: !step.ActivateBegin?
    ensures var l := Run(s, steps).life; l.active == Some(id) && id !in l.held && !Coherent(l)
  {
    var ends := AllWorkEnds(s);
    var t := Run(s, ends);
    assert AccountOk(t.books.accounts[id], t.books.tickets, t.books.children, id);
    steps := ends + ([Settle(id)] + ([ActivateSwap] + []));
    RunConcat(s, ends, [Settle(id)] + ([ActivateSwap] + []));
    SettleThenSwap(t, id);
  }

  lemma SettleThenSwap(s: Runtime, id: RevisionId)
    requires s.life.activation == Some(Binding(id)) && !Busy(s.books, Settle(id))
    requires id in s.life.states && s.life.states[id] == Draining && id in s.life.settlers
    ensures var l := Run(s, [Settle(id)] + ([ActivateSwap] + [])).life;
      l.active == Some(id) && id !in l.held && !Coherent(l)
  {
    var u := Apply(s, Settle(id));
    RunForward(s, Settle(id), [ActivateSwap] + []);
    RunForward(u, ActivateSwap, []);
    assert !IsActive(Apply(u, ActivateSwap).life, id);
  }

  ghost predicate NoBegin(steps: seq<Step>)
  {
    forall step | step in steps :: !step.ActivateBegin?
  }

  lemma {:induction false} NoBeginIsSafe(s: Runtime, steps: seq<Step>)
    requires NoBegin(steps)
    ensures SafeStarts(s, steps)
  {
    if steps != [] {
      assert steps[|steps| - 1] in steps;
      NoBeginIsSafe(s, steps[..|steps| - 1]);
    }
  }

  /** Exactly when an activation under way is safe: every continuation without a further
      activation stays coherent if and only if the revision being bound is unthreatened. */
  lemma ActivationSafety(s: Runtime, id: RevisionId)
    requires RuntimeOk(s) && LifeInv(s.life) && s.life.activation == Some(Binding(id)) && id in s.life.held
    ensures Unthreatened(s.life, id) <==> forall steps | NoBegin(steps) :: Coherent(Run(s, steps).life)
  {
    if Unthreatened(s.life, id) {
      forall steps | NoBegin(steps) ensures Coherent(Run(s, steps).life) {
        NoBeginIsSafe(s, steps);
        SafeStartsCoherent(s, steps);
      }
    } else {
      var steps := ThreatIsReal(s, id);
      assert NoBegin(steps);
    }
  }

  // ---- When a retirement is overtaken ----------------------------------------

  lemma {:induction false} RunSlots(s: Runtime, steps: seq<Step>)
    requires RuntimeOk(s)
    ensures SlotsStay(s.books, Run(s, steps).books)
  {
    if steps != [] {
      var before := steps[..|steps| - 1];
      RunSlots(s, before);
      AccountingHolds(s, before);
      BookedSlots(Run(s, before), steps[|steps| - 1]);
      SlotsStayOn(s.books, Run(s, before).books, Run(s, steps).books);
    }
  }

  lemma SlotsStayOn(a: Books, b: Books, c: Books)
    requires SlotsStay(a, b) && SlotsStay(b, c)
    ensures SlotsStay(a, c)
  {
    forall id, i: nat | HasSlot(a, id, i) ensures HasSlot(c, id, i) && SizesStay(a.accounts[id], c.accounts[id], i) {
      assert HasSlot(b, id, i) && SizesStay(a.accounts[id], b.accounts[id], i);
    }
  }

  /** Work that only ends overtakes no activation. */
  lemma {:induction false} EndsUnraced(s: Runtime, steps: seq<Step>)
    requires forall step | step in steps :: !step.ActivateSwap?
    ensures UnracedRun(s, steps)
  {
    if steps != [] {
      assert steps[|steps| - 1] in steps;
      EndsUnraced(s, steps[..|steps| - 1]);
    }
  }

  /** With nothing outstanding an admission past its check is counted, if its budgets have a size. */
  lemma TakeLands(s: Runtime, k: nat)
    requires RuntimeOk(s) && s.books.tickets == [] && s.books.children == [] && k < |s.books.checked|
    requires HasSlot(s.books, s.books.checked[k].revision, s.books.checked[k].index) && Roomy(s.books, s.books.checked[k])
    ensures Apply(s, Take(k)).books.accounts[s.books.checked[k].revision].inFlight == 1
  {
    var b, t := s.books, s.books.checked[k];
    assert AccountOk(b.accounts[t.revision], b.tickets, b.children, t.revision);
    assert SlotOk(b.accounts[t.revision], t.index, OfSlot(b.tickets, t.revision, t.index));
    AdmitIsAtomic(PoolsFor(b, t.revision, t.index));
  }

  /** An admission past its check before the retirement can still be counted after it. */
  lemma LateAdmissionLands(s: Runtime, id: RevisionId) returns (steps: seq<Step>)
    requires RuntimeOk(s) && id in s.life.states && !NoneCanLand(s.books, id)
    ensures UnracedRun(s, steps) && !Settled(Run(s, steps), id)
  {
    var t :| t in s.books.checked && t.revision == id && HasSlot(s.books, id, t.index) && Roomy(s.books, t);
    var ends := AllWorkEnds(s);
    var u := Run(s, ends);
    RunSlots(s, ends);
    assert SizesStay(s.books.accounts[id], u.books.accounts[id], t.index);
    var k :| 0 <= k < |u.books.checked| && u.books.checked[k] == t;
    TakeLands(u, k);
    steps := ends + [Take(k)];
    assert steps[..|steps| - 1] == ends;
    EndsUnraced(s, steps);
  }

  /** Exactly when a retired revision stays without work on every unraced continuation: if and only
      if no admission that was past its check when it retired could fit its budgets. */
  lemma SettledForGoodIff(s: Runtime, id: RevisionId)
    requires LifeInv(s.life) && RuntimeOk(s) && Settled(s, id)
    ensures (forall steps | UnracedRun(s, steps) :: Settled(Run(s, steps), id)) <==> NoneCanLand(s.books, id)
  {
    if NoneCanLand(s.books, id) {
      forall steps | UnracedRun(s, steps) ensures Settled(Run(s, steps), id) {
        SettledForGood(s, steps, id);
      }
    } else {
      var steps := LateAdmissionLands(s, id);
      assert UnracedRun(s, steps);
    }
  }

  lemma RunThree(s: Runtime, a: Step, b: Step, c: Step)
    ensures Run(s, [a] + ([b] + ([c] + []))) == Apply(Apply(Apply(s, a), b), c)
  {
    RunForward(s, a, [b] + ([c] + []));
    RunForward(Apply(s, a), b, [c] + []);
    RunForward(Apply(Apply(s, a), b), c, []);
  }

  /** An admission passes its check, and its revision is drained before it is counted. */
  function CheckedThenDrained(id: RevisionId, i: nat): seq<Step>
  {
    [Check(id, i, Ordinary)] + ([DrainBegin(id)] + ([DrainFinish(id)] + []))
  }

  /** Any active revision that is idle can come to that: it retires with such an admission to come. */
  lemma DrainCanBeOvertaken(s: Runtime, id: RevisionId, i: nat)
    requires s.life.activation.None? && id !in s.life.drains && IsActive(s.life, id)
    requires HasSlot(s.books, id, i) && s.books.accounts[id].inFlight == 0 && Roomy(s.books, Ticket(id, i))
    ensures var t := Run(s, CheckedThenDrained(id, i)); Settled(t, id) && !NoneCanLand(t.books, id)
  {
    var s1 := Apply(s, Check(id, i, Ordinary));
    var s2 := Apply(s1, DrainBegin(id));
    var t := Apply(s2, DrainFinish(id));
    RunThree(s, Check(id, i, Ordinary), DrainBegin(id), DrainFinish(id));
    assert s1.books.checked == s.books.checked + [Ticket(id, i)] && t.books == s1.books;
    assert Ticket(id, i) in t.books.checked && Roomy(t.books, Ticket(id, i));
  }

  function TwoInstalled(): seq<Step>
  {
    [Install([])] + ([Install([])] + [])
  }

  function Activated(id: RevisionId): seq<Step>
  {
    [ActivateBegin(id)] + ([ActivateSwap] + ([ActivateFinish] + []))
  }

  function Overtaken(id: RevisionId): seq<Step>
  {
    [ActivateBegin(id)] + ([Settle(id)] + ([ActivateSwap] + []))
  }

  lemma InstallsTwo(s: Runtime)
    requires s.life == Life(8, 1, map[], {}, None, None, {}, multiset{})
    ensures Run(s, TwoInstalled()).life == Life(8, 3, map[1 := Installed, 2 := Installed], {1, 2}, None, None, {}, multiset{})
  {
    var s1 := Apply(s, Install([]));
    var s2 := Apply(s1, Install([]));
    RunForward(s, Install([]), [Install([])] + []);
    RunForward(s1, Install([]), []);
    assert s1.life.held == {1} && |s1.life.held| == 1;
    assert s2.life.states == map[1 := Installed, 2 := Installed];
  }

  lemma ActivatesAll(s: Runtime, id: RevisionId)
    requires s.life.activation.None? && id !in s.life.drains
    requires id in s.life.held && id in s.life.states && s.life.states[id] != Active
    ensures Run(s, Activated(id)).life == Lived(Lived(Lived(s.life, ActivateBegin(id), false), ActivateSwap, false), ActivateFinish, false)
  {
    RunThree(s, ActivateBegin(id), ActivateSwap, ActivateFinish);
  }

  lemma Overtakes(s: Runtime, id: RevisionId)
    requires s.life.activation.None? && id !in s.life.drains && !Busy(s.books, Settle(id))
    requires id in s.life.held && id in s.life.states && s.life.states[id] == Draining && id in s.life.settlers
    ensures var l := Run(s, Overtaken(id)).life; l.active == Some(id) && id !in l.held && !Coherent(l)
  {
    RunForward(s, ActivateBegin(id), [Settle(id)] + ([ActivateSwap] + []));
    SettleThenSwap(Apply(s, ActivateBegin(id)), id);
  }

  function Replaced(): seq<Step>
  {
    TwoInstalled() + Activated(1) + Activated(2)
  }

  lemma ActivatesFirst(s: Runtime)
    requires s.life == Life(8, 3, map[1 := Installed, 2 := Installed], {1, 2}, None, None, {}, multiset{})
    ensures Run(s, Activated(1)).life
         == Life(8, 3, map[1 := Active, 2 := Installed], {1, 2}, Some(1), None, {}, multiset{})
  {
    ActivatesAll(s, 1);
    assert s.life.states[1 := Active] == map[1 := Active, 2 := Installed];
  }

  lemma ActivatesSecond(s: Runtime)
    requires s.life == Life(8, 3, map[1 := Active, 2 := Installed], {1, 2}, Some(1), None, {}, multiset{})
    ensures Run(s, Activated(2)).life
         == Life(8, 3, map[1 := Draining, 2 := Active], {1, 2}, Some(2), None, {}, multiset{1})
  {
    ActivatesAll(s, 2);
    assert s.life.states[2 := Active][1 := Draining] == map[1 := Draining, 2 := Active];
  }

  lemma ReplacesFirst(s: Runtime)
    requires s.life == Life(8, 1, map[], {}, None, None, {}, multiset{})
    ensures Run(s, Replaced()).life
         == Life(8, 3, map[1 := Draining, 2 := Active], {1, 2}, Some(2), None, {}, multiset{1})
  {
    InstallsTwo(s);
    ActivatesFirst(Run(s, TwoInstalled()));
    RunConcat(s, TwoInstalled(), Activated(1));
    ActivatesSecond(Run(s, TwoInstalled() + Activated(1)));
    RunConcat(s, TwoInstalled() + Activated(1), Activated(2));
  }

  /** A run that loses its active revision: install two, activate the first, replace it by
      the second, and roll back while the first, with nothing in flight, is being retired. */
  lemma RollbackCanLoseItsRevision(maxWorlds: nat, appConcurrency: nat)
    ensures var l := Run(Initial(8, maxWorlds, appConcurrency), Replaced() + Overtaken(1)).life;
      l.active == Some(1) && 1 !in l.held && !Coherent(l)
  {
    var s := Initial(8, maxWorlds, appConcurrency);
    ReplacesFirst(s);
    NothingInFlight(s, Replaced());
    RunConcat(s, Replaced(), Overtaken(1));
    Overtakes(Run(s, Replaced()), 1);
  }

  /** Control operations admit no work. */
  lemma {:induction false} NothingInFlight(s: Runtime, steps: seq<Step>)
    requires forall id | id in s.books.accounts :: s.books.accounts[id].inFlight == 0
    requires forall step | step in steps :: step.Install? || step.ActivateBegin? || step.ActivateSwap? || step.ActivateFinish?
    ensures forall id | id in Run(s, steps).books.accounts :: Run(s, steps).books.accounts[id].inFlight == 0
  {
    if steps != [] {
      assert steps[|steps| - 1] in steps;
      NothingInFlight(s, steps[..|steps| - 1]);
    }
  }

  // ---- Sums -----------------------------------------------------------------

  function Sum(s: seq<int>): int
  {
    if s == [] then 0 else Sum(s[..|s| - 1]) + s[|s| - 1]
  }

  /** How many tickets of `id` are for a slot below `n`. */
  function Below(ts: seq<Ticket>, id: RevisionId, n: nat): nat
  {
    if n == 0 then 0 else Below(ts, id, n - 1) + OfSlot(ts, id, n - 1)
  }

  lemma {:induction false} BelowAppend(ts: seq<Ticket>, id: RevisionId, n: nat)
    requires ts != []
    ensures var t := ts[|ts| - 1];
      Below(ts, id, n) == Below(ts[..|ts| - 1], id, n) + if t.revision == id && t.index < n then 1 else 0
  {
    if n > 0 {
      BelowAppend(ts, id, n - 1);
    }
  }

  lemma {:induction false} BelowEmpty(id: RevisionId, n: nat)
    ensures Below([], id, n) == 0
  {
    if n > 0 {
      BelowEmpty(id, n - 1);
    }
  }

  lemma {:induction false} BelowAll(ts: seq<Ticket>, id: RevisionId, n: nat)
    requires forall t | t in ts && t.revision == id :: t.index < n
    ensures Below(ts, id, n) == OfRevision(ts, id)
  {
    if ts == [] {
      BelowEmpty(id, n);
    } else {
      assert ts[|ts| - 1] in ts;
      BelowAll(ts[..|ts| - 1], id, n);
      BelowAppend(ts, id, n);
    }
  }

  lemma {:induction false} SumIsBelow(a: Account, ts: seq<Ticket>, id: RevisionId, n: nat)
    requires n <= |a.live| && |a.live| == |a.workloads|
    requires forall i: nat | i < |a.live| :: SlotOk(a, i, OfSlot(ts, id, i))
    ensures Sum(a.live[..n]) == Below(ts, id, n)
  {
    if n > 0 {
      SumIsBelow(a, ts, id, n - 1);
      assert SlotOk(a, n - 1, OfSlot(ts, id, n - 1));
      assert a.live[..n][..n - 1] == a.live[..n - 1];
    }
  }

  /** On every run the per-workload gauges of a revision add up to what its application
      budget has in use, and to all that is in flight but the queued children. */
  lemma SlotsAddUp(s: Runtime, steps: seq<Step>, id: RevisionId)
    requires RuntimeOk(s) && id in Run(s, steps).books.accounts
    ensures var b := Run(s, steps).books; var a := b.accounts[id];
      Sum(a.live) == a.app.inUse == a.inFlight - OfChild(b.children, id) && a.app.inUse <= a.app.max
  {
    AccountingHolds(s, steps);
    var b := Run(s, steps).books;
    var a := b.accounts[id];
    SumIsBelow(a, b.tickets, id, |a.live|);
    assert a.live[..|a.live|] == a.live;
    forall t | t in b.tickets && t.revision == id ensures t.index < |a.live| {
      assert HasSlot(b, t.revision, t.index);
    }
    BelowAll(b.tickets, id, |a.live|);
  }

  // ---- From the start ---------------------------------------------------------

  /** On every run from an empty runtime: the accounting holds, the run is coherent exactly when no
      activation is overtaken, and it is so when activations start on unthreatened revisions. */
  lemma FromTheStart(maxRevisions: nat, maxWorlds: nat, appConcurrency: nat, steps: seq<Step>)
    ensures var s := Initial(maxRevisions, maxWorlds, appConcurrency); var t := Run(s, steps);
      && RuntimeOk(t)
      && (CoherentRun(s, steps) <==> UnracedRun(s, steps))
      && (UnracedRun(s, steps) ==> LifeInv(t.life))
      && (SafeStarts(s, steps) ==> CoherentRun(s, steps))
      && forall id | id in t.books.accounts ::
           Sum(t.books.accounts[id].live) == t.books.accounts[id].app.inUse <= t.books.accounts[id].app.max
  {
    var s := Initial(maxRevisions, maxWorlds, appConcurrency);
    InitialOk(maxRevisions, maxWorlds, appConcurrency);
    AccountingHolds(s, steps);
    CoherentIffUnraced(s, steps);
    if SafeStarts(s, steps) {
      SafeStartsCoherent(s, steps);
    }
    forall id | id in Run(s, steps).books.accounts
      ensures var a := Run(s, steps).books.accounts[id]; Sum(a.live) == a.app.inUse <= a.app.max
    {
      SlotsAddUp(s, steps, id);
    }
  }

  // ---- Which checks pass --------------------------------------------------------

  /** The revision has been the active one at some point of the run. */
  ghost predicate EverActive(s: Runtime, steps: seq<Step>, id: RevisionId)
  {
    || Run(s, steps).life.active == Some(id)
    || (steps != [] && EverActive(s, steps[..|steps| - 1], id))
  }

  /** The active revision, or the one an activation has just replaced and not yet sent draining. */
  predicate Current(l: Life, id: RevisionId)
  {
    || l.active == Some(id)
    || (l.activation.Some? && l.activation.value.Swapped? && l.activation.value.previous == Some(id))
  }

  /** A state cell says `Active` exactly for the current revision. */
  lemma ActiveMeans(l: Life, id: RevisionId)
    requires LifeInv(l) && id in l.states
    ensures l.states[id] == Active <==> Current(l, id)
  {
    if l.states[id] == Active {
      assert IsActive(l, id);
    }
  }

  /** What a step may do to the cell of one revision: only a swap makes it active, only an active one starts
      draining, and none is ever merely installed again. */
  predicate CellOk(l: Life, l': Life, id: RevisionId)
  {
    && (id in l.states ==> id in l'.states)
    && (id in l.states && l.states[id] != Installed ==> l'.states[id] != Installed)
    && (id in l'.states && l'.states[id] == Active ==> (id in l.states && l.states[id] == Active) || l'.active == Some(id))
    && (id in l'.states && l'.states[id] == Draining ==>
          id in l.states && (l.states[id] == Active || l.states[id] == Draining))
  }

  lemma InstallCell(l: Life, step: Step, id: RevisionId)
    requires Enabled(l, step, false) && (step.Install? || step.InstallInvalid?) && l.next !in l.states
    ensures CellOk(l, Lived(l, step, false), id)
  {
  }

  lemma SwapCell(l: Life, id: RevisionId)
    requires Enabled(l, ActivateSwap, false)
    ensures CellOk(l, Lived(l, ActivateSwap, false), id)
  {
  }

  lemma FinishCell(l: Life, id: RevisionId)
    requires Tidy(l) && Enabled(l, ActivateFinish, false)
    ensures CellOk(l, Lived(l, ActivateFinish, false), id)
  {
    assert l.activation.value.previous == Some(id) ==> IsActive(l, id);
  }

  lemma SettleCell(l: Life, step: Step, busy: bool, id: RevisionId)
    requires Enabled(l, step, busy) && (step.Settle? || step.SettleGivesUp?)
    ensures CellOk(l, Lived(l, step, busy), id)
  {
  }

  lemma DrainCell(l: Life, step: Step, busy: bool, id: RevisionId)
    requires Enabled(l, step, busy) && (step.DrainBegin? || step.DrainFinish? || step.DrainTimeout?)
    ensures CellOk(l, Lived(l, step, busy), id)
  {
  }

  lemma EndCell(l: Life, step: Step, id: RevisionId)
    requires Enabled(l, step, false) && (step.Remove? || step.ShutdownTake? || step.ActivateBegin? || step.BindFailed?)
    ensures CellOk(l, Lived(l, step, false), id)
  {
  }

  lemma StepCell(l: Life, step: Step, busy: bool, id: RevisionId)
    requires Tidy(l) && Enabled(l, step, busy)
    ensures CellOk(l, Lived(l, step, busy), id)
  {
    match step
    case Install(_) => InstallCell(l, step, id);
    case InstallInvalid => InstallCell(l, step, id);
    case ActivateSwap => SwapCell(l, id);
    case ActivateFinish => FinishCell(l, id);
    case Settle(_) => SettleCell(l, step, busy, id);
    case SettleGivesUp(_) => SettleCell(l, step, busy, id);
    case DrainBegin(_) => DrainCell(l, step, busy, id);
    case DrainFinish(_) => DrainCell(l, step, busy, id);
    case DrainTimeout(_) => DrainCell(l, step, busy, id);
    case _ => EndCell(l, step, id);
  }

  /** What a state cell says of the past. */
  ghost predicate StatesTell(s: Runtime, steps: seq<Step>, id: RevisionId)
  {
    var l := Run(s, steps).life;
    && (EverActive(s, steps, id) ==> id in l.states && l.states[id] != Installed)
    && (id in l.states && (l.states[id] == Active || l.states[id] == Draining) ==> EverActive(s, steps, id))
  }

  lemma StatesTellMore(s: Runtime, steps: seq<Step>, step: Step, id: RevisionId)
    requires StatesTell(s, steps, id) && LifeInv(Run(s, steps).life) && LifeInv(Run(s, steps + [step]).life)
    ensures StatesTell(s, steps + [step], id)
  {
    var all := steps + [step];
    assert all[..|all| - 1] == steps;
    var l, l' := Run(s, steps).life, Run(s, all).life;
    var busy := Busy(Run(s, steps).books, step);
    assert l' == if Enabled(l, step, busy) then Lived(l, step, busy) else l;
    if Enabled(l, step, busy) {
      StepCell(l, step, busy, id);
    }
    assert l'.active == Some(id) ==> IsActive(l', id);
  }

  lemma {:induction false} RunTells(s: Runtime, steps: seq<Step>, id: RevisionId)
    requires LifeInv(s.life) && s.life.states == map[] && UnracedRun(s, steps)
    ensures StatesTell(s, steps, id) && LifeInv(Run(s, steps).life)
  {
    CoherentIffUnraced(s, steps);
    if steps != [] {
      var before, step := steps[..|steps| - 1], steps[|steps| - 1];
      RunTells(s, before, id);
      assert steps == before + [step];
      StatesTellMore(s, before, step, id);
    }
  }

  /** The books after a check that passes, or does not. */
  function CheckedIf(b: Books, id: RevisionId, i: nat, passes: bool): Books
  {
    if passes then b.(checked := b.checked + [Ticket(id, i)]) else b
  }

  /** On every unraced run from the start: an ordinary check passes exactly on the current revision; one for
      work in flight exactly on a revision that has been active and is still held; one for a verification
      exactly on a revision that is current or has never been active, and is not retired. */
  lemma ChecksExact(maxRevisions: nat, maxWorlds: nat, appConcurrency: nat, steps: seq<Step>, id: RevisionId, i: nat)
    requires var s0 := Initial(maxRevisions, maxWorlds, appConcurrency);
      UnracedRun(s0, steps) && HasSlot(Run(s0, steps).books, id, i)
    ensures var s0 := Initial(maxRevisions, maxWorlds, appConcurrency); var s := Run(s0, steps); var b := s.books;
      && Booked(s, Check(id, i, Ordinary)) == CheckedIf(b, id, i, Current(s.life, id))
      && Booked(s, Check(id, i, InFlight)) == CheckedIf(b, id, i, EverActive(s0, steps, id) && id in s.life.held)
      && id in s.life.states
      && Booked(s, Check(id, i, Verification))
         == CheckedIf(b, id, i, s.life.states[id] != Retired && (Current(s.life, id) || !EverActive(s0, steps, id)))
  {
    var s0 := Initial(maxRevisions, maxWorlds, appConcurrency);
    var s := Run(s0, steps);
    assert id in s.life.states by {
      InitialOk(maxRevisions, maxWorlds, appConcurrency);
      AccountingHolds(s0, steps);
    }
    assert LifeInv(s0.life) by { InitialOk(maxRevisions, maxWorlds, appConcurrency); }
    StateMeans(s0, steps, id);
    CheckActs(s, id, i, Ordinary);
    CheckActs(s, id, i, InFlight);
    CheckActs(s, id, i, Verification);
  }

  lemma CheckActs(s: Runtime, id: RevisionId, i: nat, mode: Mode)
    requires HasSlot(s.books, id, i) && id in s.life.states
    ensures Booked(s, Check(id, i, mode)) == CheckedIf(s.books, id, i, Admits(s.life.states[id], mode))
  {
  }

  /** What a state cell means on an unraced run from an empty runtime. */
  lemma StateMeans(s: Runtime, steps: seq<Step>, id: RevisionId)
    requires LifeInv(s.life) && s.life.states == map[] && UnracedRun(s, steps) && id in Run(s, steps).life.states
    ensures var l := Run(s, steps).life; var state := l.states[id];
      && (state == Active <==> Current(l, id))
      && (state == Active || state == Draining <==> EverActive(s, steps, id) && id in l.held)
      && (state == Installed <==> !EverActive(s, steps, id) && state != Retired)
  {
    RunTells(s, steps, id);
    ActiveMeans(Run(s, steps).life, id);
    HeldMeans(Run(s, steps).life, id);
  }

  lemma HeldMeans(l: Life, id: RevisionId)
    requires Tidy(l) && id in l.states
    ensures if id in l.held then l.states[id] != Retired else l.states[id] == Retired || l.states[id] == Installed
  {
  }

  /** On every unraced run from the start, with no activation under way: what each control operation does, by
      what the runtime holds and what has been active. */
  lemma ControlExact(maxRevisions: nat, maxWorlds: nat, appConcurrency: nat, steps: seq<Step>, id: RevisionId)
    requires var s0 := Initial(maxRevisions, maxWorlds, appConcurrency);
      UnracedRun(s0, steps) && Run(s0, steps).life.activation.None?
    ensures var s0 := Initial(maxRevisions, maxWorlds, appConcurrency); var l := Run(s0, steps).life;
      && InstallActs(l) && DrainActs(l, id) && ActivateActs(l, id)
      && RemoveActs(l, id, EverActive(s0, steps, id))
  {
    var s0 := Initial(maxRevisions, maxWorlds, appConcurrency);
    assert LifeInv(s0.life) by { InitialOk(maxRevisions, maxWorlds, appConcurrency); }
    assert LifeInv(Run(s0, steps).life) by { CoherentIffUnraced(s0, steps); }
    InstallActsOn(Run(s0, steps).life);
    DrainActsOn(Run(s0, steps).life, id);
    ActivateActsOn(Run(s0, steps).life, id);
    if id in Run(s0, steps).life.held {
      StateMeans(s0, steps, id);
    }
    RemoveActsOn(Run(s0, steps).life, id, EverActive(s0, steps, id));
  }

  /** An activation begins on a held revision that is not the active one. */
  ghost predicate ActivateActs(l: Life, id: RevisionId)
    requires l.activation.None?
  {
    id !in l.drains ==>
      Lived(l, ActivateBegin(id), false)
      == if id in l.held && l.active != Some(id) then l.(activation := Some(Binding(id))) else l
  }

  /** A held revision is removed if it has never been active. */
  ghost predicate RemoveActs(l: Life, id: RevisionId, everActive: bool)
    requires l.activation.None?
  {
    Lived(l, Remove(id), false) == if id in l.held && !everActive then l.(held := l.held - {id}) else l
  }

  lemma ActivateActsOn(l: Life, id: RevisionId)
    requires LifeInv(l) && l.activation.None?
    ensures ActivateActs(l, id)
  {
    if id in l.held {
      ActiveMeans(l, id);
    }
  }

  lemma RemoveActsOn(l: Life, id: RevisionId, everActive: bool)
    requires LifeInv(l) && l.activation.None?
    requires id in l.held ==> id in l.states && (l.states[id] == Installed <==> !everActive && l.states[id] != Retired)
    ensures RemoveActs(l, id, everActive)
  {
    if id in l.held {
      HeldMeans(l, id);
    }
  }

  /** Below the maximum an install adds one held revision under a new id, and at the maximum none. */
  ghost predicate InstallActs(l: Life)
    requires l.activation.None?
  {
    var l' := Lived(l, Install([]), false);
    if |l.held| < l.maxRevisions
    then l'.held == l.held + {l.next} && l.next !in l.states && !Current(l', l.next) && l'.active == l.active
    else l' == l
  }

  /** A drain of a held revision leaves it waiting to settle and no longer the active one. */
  ghost predicate DrainActs(l: Life, id: RevisionId)
    requires l.activation.None?
  {
    id !in l.drains ==>
      var l' := Lived(l, DrainBegin(id), false);
      if id in l.held
      then l'.drains == l.drains + {id} && l'.held == l.held && l'.active == if l.active == Some(id) then None else l.active
      else l' == l
  }

  lemma InstallActsOn(l: Life)
    requires LifeInv(l) && l.activation.None?
    ensures InstallActs(l)
  {
    assert l.active != Some(l.next);
  }

  lemma DrainActsOn(l: Life, id: RevisionId)
    requires LifeInv(l) && l.activation.None?
    ensures DrainActs(l, id)
  {
  }

  /** A shutdown with nothing active retires all that is held. */
  lemma ShutdownActs(l: Life)
    requires Tidy(l) && Enabled(l, ShutdownTake, false)
    ensures var l' := Lived(l, ShutdownTake, false);
      l'.held == {} && forall id | id in l.held :: id in l'.states && l'.states[id] == Retired
  {
  }

  // ---- What undoes what -------------------------------------------------------------

  /** An activation that cannot bind leaves the runtime as it was before it began. */
  lemma BindFailedUndoes(l: Life, id: RevisionId)
    requires l.activation.None? && id !in l.drains && id in l.held && id in l.states && l.states[id] != Active
    ensures var l' := Lived(l, ActivateBegin(id), false);
      Enabled(l', BindFailed, false) && Lived(l', BindFailed, false) == l
  {
  }

  /** A drain that times out leaves its revision held and draining, and can be begun again. */
  lemma DrainTimeoutLeaves(l: Life, id: RevisionId)
    requires l.activation.None? && id !in l.drains && id in l.held && id in l.states
    ensures var l' := Lived(l, DrainBegin(id), false); var l'' := Lived(l', DrainTimeout(id), false);
      && l'' == l'.(drains := l.drains) && id in l''.held && Enabled(l'', DrainBegin(id), false)
      && l''.active != Some(id) && (l.states[id] == Active ==> l''.states[id] == Draining)
  {
    assert l.drains + {id} - {id} == l.drains;
  }

  /** An install that is refused still uses up an id, so that no two installs share one. */
  lemma InvalidUsesId(l: Life)
    requires l.activation.None? && |l.held| < l.maxRevisions
    ensures var l' := Lived(l, InstallInvalid, false); l' == l.(next := l'.next) && l'.next > l.next
  {
  }

  /** A retirement that gives up is one fewer to come, and its revision stays as it is. */
  lemma GivesUpLeaves(l: Life, id: RevisionId)
    requires Enabled(l, SettleGivesUp(id), true)
    ensures var l' := Lived(l, SettleGivesUp(id), true);
      l' == l.(settlers := l'.settlers) && l'.settlers + multiset{id} == l.settlers
  {
  }

  /** A child of running work is counted in flight, and its release takes that back. */
  lemma ReleaseUndoesRetain(s: Runtime, id: RevisionId)
    requires id in s.books.accounts && OfRevision(s.books.tickets, id) > 0
    ensures var s' := Apply(s, RetainChild(id));
      && s'.books.accounts[id].inFlight == s.books.accounts[id].inFlight + 1
      && Apply(s', ReleaseChild(|s.books.children|)).books == s.books
  {
    var b, b' := s.books, Apply(s, RetainChild(id)).books;
    var k := |b.children|;
    assert b'.children == b.children + [id] && b'.children[..k] + b'.children[k + 1..] == b.children;
    var a := b.accounts[id];
    assert b'.accounts == b.accounts[id := a.(inFlight := a.inFlight + 1)];
    assert b'.accounts[id := a] == b.accounts;
  }

  /** The end of an admission gives back what it took: every budget's use and every count. */
  lemma DropUndoesTake(b: Books, id: RevisionId, i: nat)
    requires HasSlot(b, id, i) && Refusal(PoolsFor(b, id, i)).None?
    ensures var b' := BooksAdmit(b, id, i);
      && b'.tickets == b.tickets + [Ticket(id, i)] && b'.accounts[id].inFlight == b.accounts[id].inFlight + 1
      && BooksDrop(b', |b.tickets|) == b
  {
    var b', k := BooksAdmit(b, id, i), |b.tickets|;
    var b'' := BooksDrop(b', k);
    assert b'.tickets[..k] + b'.tickets[k + 1..] == b.tickets;
    var a, a'' := b.accounts[id], b''.accounts[id];
    assert a''.live == a.live && a''.workloads == a.workloads;
    assert b''.accounts == b.accounts[id := a] == b.accounts;
  }
}
