/** Hierarchical admission budgets (`crates/usai-runtime/src/admission.rs`, and the
    part of `Runtime::admit` that consults them). */
module Admission {
  import opened Wrappers

  /** A budget by value: how much it allows, how much is taken, how often it refused. */
  datatype Pool = Pool(max: nat, inUse: int, rejected: nat)

  datatype Level = RuntimeLevel | AppLevel | WorkloadLevel

  datatype Pools = Pools(worlds: Pool, app: Pool, workload: Option<Pool>)

  predicate Bounded(p: Pool)
  {
    0 <= p.inUse <= p.max
  }

  predicate AllBounded(ps: Pools)
  {
    Bounded(ps.worlds) && Bounded(ps.app) && (ps.workload.Some? ==> Bounded(ps.workload.value))
  }

  predicate Full(p: Pool)
  {
    p.inUse >= p.max
  }

  function Taken(p: Pool): Pool
  {
    p.(inUse := p.inUse + 1)
  }

  function Refused(p: Pool): Pool
  {
    p.(rejected := p.rejected + 1)
  }

  function Returned(p: Pool): Pool
  {
    p.(inUse := p.inUse - 1)
  }

  /** The outermost full budget, if any, refuses. */
  function Refusal(ps: Pools): Option<Level>
  {
    if Full(ps.worlds) then Some(RuntimeLevel)
    else if Full(ps.app) then Some(AppLevel)
    else if ps.workload.Some? && Full(ps.workload.value) then Some(WorkloadLevel)
    else None
  }

  /** All or nothing: a permit from every budget, or one refusal counted and nothing held. */
  function Admitted(ps: Pools): Pools
  {
    match Refusal(ps)
    case Some(RuntimeLevel) => ps.(worlds := Refused(ps.worlds))
    case Some(AppLevel) => ps.(app := Refused(ps.app))
    case Some(WorkloadLevel) => ps.(workload := Some(Refused(ps.workload.value)))
    case None =>
      Pools(Taken(ps.worlds), Taken(ps.app),
            if ps.workload.Some? then Some(Taken(ps.workload.value)) else None)
  }

  function Rejections(ps: Pools): nat
  {
    ps.worlds.rejected + ps.app.rejected + if ps.workload.Some? then ps.workload.value.rejected else 0
  }

  function InUse(ps: Pools): (int, int, int)
  {
    (ps.worlds.inUse, ps.app.inUse, if ps.workload.Some? then ps.workload.value.inUse else 0)
  }

  class Budget {
    const max: nat
    /** The semaphore's free permits. */
    var available: nat
    var rejected: nat

    ghost predicate Valid()
      reads this
    {
      available <= max
    }

    ghost function View(): Pool
      requires Valid()
      reads this
    {
      Pool(max, max - available, rejected)
    }

    constructor (max: nat)
      ensures Valid() && View() == Pool(max, 0, 0)
    {
      this.max, available, rejected := max, max, 0;
    }

    method TryAcquire() returns (ok: bool)
      requires Valid()
      modifies this
      ensures Valid() && ok == !Full(old(View()))
      ensures View() == if ok then Taken(old(View())) else Refused(old(View()))
    {
      if available > 0 {
        available, ok := available - 1, true;
      } else {
        rejected, ok := rejected + 1, false;
      }
    }

    /** Dropping a permit. */
    method Return()
      requires Valid() && View().inUse > 0
      modifies this
      ensures Valid() && View() == Returned(old(View()))
    {
      available := available + 1;
    }
  }

  ghost predicate Distinct(worlds: Budget, app: Budget, workload: Budget?)
  {
    worlds != app && worlds != workload && app != workload
  }

  ghost function ViewAll(worlds: Budget, app: Budget, workload: Budget?): Pools
    requires worlds.Valid() && app.Valid() && (workload != null ==> workload.Valid())
    reads worlds, app, workload
  {
    Pools(worlds.View(), app.View(), if workload == null then None else Some(workload.View()))
  }

  /** Budgets are consulted runtime, application, workload; a permit already taken goes
      back, by being dropped, when a later budget refuses. */
  method Admit(worlds: Budget, app: Budget, workload: Budget?) returns (refusal: Option<Level>)
    requires worlds.Valid() && app.Valid() && (workload != null ==> workload.Valid())
    requires Distinct(worlds, app, workload)
    modifies worlds, app, workload
    ensures worlds.Valid() && app.Valid() && (workload != null ==> workload.Valid())
    ensures refusal == Refusal(old(ViewAll(worlds, app, workload)))
    ensures ViewAll(worlds, app, workload) == Admitted(old(ViewAll(worlds, app, workload)))
  {
    var ok := worlds.TryAcquire();
    if !ok {
      return Some(RuntimeLevel);
    }
    ok := app.TryAcquire();
    if !ok {
      worlds.Return();
      return Some(AppLevel);
    }
    if workload != null {
      ok := workload.TryAcquire();
      if !ok {
        app.Return();
        worlds.Return();
        return Some(WorkloadLevel);
      }
    }
    return None;
  }

  /** A refused admission leaves every budget's use as it was and bumps exactly one
      `rejected` counter; a granted one adds one to each use and refuses nowhere. No
      budget is ever overdrawn, and admission is refused only when one is used up. */
  lemma AdmitIsAtomic(ps: Pools)
    requires AllBounded(ps)
    ensures AllBounded(Admitted(ps))
    ensures Refusal(ps).Some? ==> InUse(Admitted(ps)) == InUse(ps) && Rejections(Admitted(ps)) == Rejections(ps) + 1
    ensures Refusal(ps).None? ==>
      && Rejections(Admitted(ps)) == Rejections(ps)
      && Admitted(ps).worlds.inUse == ps.worlds.inUse + 1
      && Admitted(ps).app.inUse == ps.app.inUse + 1
      && (ps.workload.Some? ==> Admitted(ps).workload.value.inUse == ps.workload.value.inUse + 1)
    ensures Refusal(ps).Some? <==>
      || ps.worlds.inUse == ps.worlds.max
      || ps.app.inUse == ps.app.max
      || (ps.workload.Some? && ps.workload.value.inUse == ps.workload.value.max)
  {
    match Refusal(ps)
    case Some(RuntimeLevel) =>
    case Some(AppLevel) =>
    case Some(WorkloadLevel) =>
    case None =>
  }

  /** The level that refuses is the first that is used up, in the order runtime, application, workload, and it
      is the one whose `rejected` counter goes up. */
  lemma FirstFullRefuses(ps: Pools)
    requires AllBounded(ps)
    ensures Refusal(ps) == Some(RuntimeLevel) <==> ps.worlds.inUse == ps.worlds.max
    ensures Refusal(ps) == Some(AppLevel) <==> ps.worlds.inUse < ps.worlds.max && ps.app.inUse == ps.app.max
    ensures Refusal(ps) == Some(WorkloadLevel) <==>
      && ps.worlds.inUse < ps.worlds.max && ps.app.inUse < ps.app.max
      && ps.workload.Some? && ps.workload.value.inUse == ps.workload.value.max
    ensures var r, ps' := Refusal(ps), Admitted(ps);
      && ps'.worlds.rejected == ps.worlds.rejected + (if r == Some(RuntimeLevel) then 1 else 0)
      && ps'.app.rejected == ps.app.rejected + (if r == Some(AppLevel) then 1 else 0)
      && ps'.workload.Some? == ps.workload.Some?
      && (ps.workload.Some? ==>
            ps'.workload.value.rejected == ps.workload.value.rejected + if r == Some(WorkloadLevel) then 1 else 0)
  {
    match Refusal(ps)
    case Some(RuntimeLevel) =>
    case Some(AppLevel) =>
    case Some(WorkloadLevel) =>
    case None =>
  }
}
