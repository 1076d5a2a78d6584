/** What the build writes and the host accepts: `flatten` (`packages/usai/src/declarations.ts`), `describe`
    (`packages/usai/src/manifest.ts`) and `ApplicationDefinition::new` (`crates/usai-runtime/src/definition.rs`). */
module Manifest {
  import opened Wrappers

  /** `config` stands for the kind, configuration and environment, compared as one text. */
  datatype Resource = Resource(name: string, config: string)

  datatype Auth = Auth(name: string, entry: string)

  datatype Workload = Workload(
    kind: string, verb: string, path: string, name: string,
    resources: seq<Resource>, auth: Option<Auth>, maxBody: Option<nat>)

  /** `identity` is the object: one module may be listed twice. */
  datatype Module = Module(identity: nat, name: string, workloads: seq<Workload>, resources: seq<Resource>)

  datatype App = App(modules: seq<Module>, workloads: seq<Workload>, resources: seq<Resource>)

  datatype Refusal = TwoModules(name: string) | TwoResources(name: string) | TwoWorkloads(id: string) | TwoAuths(name: string)

  function WorkloadId(w: Workload): string
  {
    if w.kind == "http" || w.kind == "stream" then w.kind + ":" + w.verb + " " + w.path else w.kind + ":" + w.name
  }

  // ---- Flattening ---------------------------------------------------------------

  function Named(rs: seq<Resource>, name: string): (r: Option<Resource>)
    ensures r.Some? ==> r.value in rs && r.value.name == name
    ensures r.None? ==> forall x :: x in rs ==> x.name != name
  {
    if rs == [] then None else if rs[0].name == name then Some(rs[0]) else Named(rs[1..], name)
  }

  /** One name is one resource; a conflicting redeclaration is refused. */
  function AddAll(rs: seq<Resource>, more: seq<Resource>): Result<seq<Resource>, Refusal>
    decreases |more|
  {
    if more == [] then Ok(rs)
    else match Named(rs, more[0].name)
      case None => AddAll(rs + [more[0]], more[1..])
      case Some(r) => if r == more[0] then AddAll(rs, more[1..]) else Err(TwoResources(r.name))
  }

  function Called(ms: seq<Module>, name: string): (r: Option<Module>)
    ensures r.Some? ==> r.value in ms && r.value.name == name
  {
    if ms == [] then None else if ms[0].name == name then Some(ms[0]) else Called(ms[1..], name)
  }

  /** The same module again is one module; another of its name is refused. */
  function ListAll(listed: seq<Module>, ms: seq<Module>): Result<seq<Module>, Refusal>
    decreases |ms|
  {
    if ms == [] then Ok(listed)
    else match Called(listed, ms[0].name)
      case None => ListAll(listed + [ms[0]], ms[1..])
      case Some(m) => if m.identity == ms[0].identity then ListAll(listed, ms[1..]) else Err(TwoModules(m.name))
  }

  function ModuleWorkloads(ms: seq<Module>): seq<Workload>
  {
    if ms == [] then [] else ms[0].workloads + ModuleWorkloads(ms[1..])
  }

  function ModuleResources(ms: seq<Module>): seq<Resource>
  {
    if ms == [] then [] else ms[0].resources + ModuleResources(ms[1..])
  }

  function WorkloadResources(ws: seq<Workload>): seq<Resource>
  {
    if ws == [] then [] else ws[0].resources + WorkloadResources(ws[1..])
  }

  function SecondId(ws: seq<Workload>, seen: set<string>): Option<string>
    decreases |ws|
  {
    if ws == [] then None
    else if WorkloadId(ws[0]) in seen then Some(WorkloadId(ws[0]))
    else SecondId(ws[1..], seen + {WorkloadId(ws[0])})
  }

  datatype Flat = Flat(workloads: seq<Workload>, resources: seq<Resource>)

  /** Modules first, in order, then the application's own, then what workloads refer to. */
  function Flattened(app: App): Result<Flat, Refusal>
  {
    match ListAll([], app.modules)
    case Err(e) => Err(e)
    case Ok(listed) =>
      var ws := ModuleWorkloads(listed) + app.workloads;
      match AddAll([], ModuleResources(listed) + app.resources + WorkloadResources(ws))
      case Err(e) => Err(e)
      case Ok(rs) =>
        match SecondId(ws, {})
        case Some(id) => Err(TwoWorkloads(id))
        case None => Ok(Flat(ws, rs))
  }

  method TakeResources(rs: seq<Resource>, more: seq<Resource>) returns (r: Result<seq<Resource>, Refusal>)
    ensures r == AddAll(rs, more)
  {
    var out := rs;
    for i := 0 to |more|
      invariant AddAll(out, more[i..]) == AddAll(rs, more)
    {
      assert more[i..][1..] == more[i + 1..];
      var existing := Named(out, more[i].name);
      if existing.None? {
        out := out + [more[i]];
      } else if existing.value != more[i] {
        return Err(TwoResources(existing.value.name));
      }
    }
    return Ok(out);
  }

  method TakeModules(ms: seq<Module>) returns (r: Result<seq<Module>, Refusal>)
    ensures r == ListAll([], ms)
  {
    var listed := [];
    for i := 0 to |ms|
      invariant ListAll(listed, ms[i..]) == ListAll([], ms)
    {
      assert ms[i..][1..] == ms[i + 1..];
      var already := Called(listed, ms[i].name);
      if already.None? {
        listed := listed + [ms[i]];
      } else if already.value.identity != ms[i].identity {
        return Err(TwoModules(already.value.name));
      }
    }
    return Ok(listed);
  }

  method Flatten(app: App) returns (r: Result<Flat, Refusal>)
    ensures r == Flattened(app)
  {
    var modules := TakeModules(app.modules);
    if modules.Err? {
      return Err(modules.error);
    }
    var listed := modules.value;
    var ws := ModuleWorkloads(listed) + app.workloads;
    var resources := TakeResources([], ModuleResources(listed) + app.resources + WorkloadResources(ws));
    if resources.Err? {
      return Err(resources.error);
    }
    var seen: set<string> := {};
    for i := 0 to |ws|
      invariant SecondId(ws[i..], seen) == SecondId(ws, {})
    {
      assert ws[i..][1..] == ws[i + 1..];
      if WorkloadId(ws[i]) in seen {
        return Err(TwoWorkloads(WorkloadId(ws[i])));
      }
      seen := seen + {WorkloadId(ws[i])};
    }
    return Ok(Flat(ws, resources.value));
  }

  // ---- Describing -----------------------------------------------------------------

  datatype Spec = Spec(id: string, name: string, http: bool, resources: seq<string>, auth: Option<string>, bounded: bool)

  datatype Description = Description(workloads: seq<Spec>, resources: seq<string>, auth: seq<string>)

  function Names(rs: seq<Resource>): (names: seq<string>)
    ensures |names| == |rs| && forall i :: 0 <= i < |rs| ==> names[i] == rs[i].name
  {
    if rs == [] then [] else [rs[0].name] + Names(rs[1..])
  }

  function AuthNames(auths: seq<Auth>): (names: seq<string>)
    ensures |names| == |auths| && forall i :: 0 <= i < |auths| ==> names[i] == auths[i].name
  {
    if auths == [] then [] else [auths[0].name] + AuthNames(auths[1..])
  }

  function SpecOf(w: Workload): Spec
  {
    Spec(WorkloadId(w), w.name, w.kind == "http", Names(w.resources),
         match w.auth case Some(a) => Some(a.name) case None => None, w.maxBody.Some?)
  }

  function Specs(ws: seq<Workload>): (specs: seq<Spec>)
    ensures |specs| == |ws| && forall i :: 0 <= i < |ws| ==> specs[i] == SpecOf(ws[i])
  {
    if ws == [] then [] else [SpecOf(ws[0])] + Specs(ws[1..])
  }

  function AuthCalled(auths: seq<Auth>, name: string): (r: Option<Auth>)
    ensures r.Some? ==> r.value in auths && r.value.name == name
  {
    if auths == [] then None else if auths[0].name == name then Some(auths[0]) else AuthCalled(auths[1..], name)
  }

  /** One scheme a name, as the workloads declare them. */
  function AuthsOf(ws: seq<Workload>, auths: seq<Auth>): Result<seq<Auth>, Refusal>
    decreases |ws|
  {
    if ws == [] then Ok(auths)
    else match ws[0].auth
      case None => AuthsOf(ws[1..], auths)
      case Some(a) =>
        match AuthCalled(auths, a.name)
        case None => AuthsOf(ws[1..], auths + [a])
        case Some(b) => if a == b then AuthsOf(ws[1..], auths) else Err(TwoAuths(a.name))
  }

  function Described(app: App): Result<Description, Refusal>
  {
    match Flattened(app)
    case Err(e) => Err(e)
    case Ok(flat) =>
      match AuthsOf(flat.workloads, [])
      case Err(e) => Err(e)
      case Ok(auths) => Ok(Description(Specs(flat.workloads), Names(flat.resources), AuthNames(auths)))
  }

  /** The pass over the workloads: their schemes are gathered and each is described. */
  method TakeWorkloads(ws: seq<Workload>) returns (r: Result<seq<Auth>, Refusal>, specs: seq<Spec>)
    ensures r == AuthsOf(ws, []) && (r.Ok? ==> specs == Specs(ws))
  {
    var auths := [];
    specs := [];
    for i := 0 to |ws|
      invariant AuthsOf(ws[i..], auths) == AuthsOf(ws, [])
      invariant |specs| == i && forall k :: 0 <= k < i ==> specs[k] == SpecOf(ws[k])
    {
      assert ws[i..][1..] == ws[i + 1..];
      if ws[i].auth.Some? {
        var a := ws[i].auth.value;
        var existing := AuthCalled(auths, a.name);
        if existing.Some? && existing.value != a {
          return Err(TwoAuths(a.name)), specs;
        }
        if existing.None? {
          auths := auths + [a];
        }
      }
      specs := specs + [SpecOf(ws[i])];
    }
    r := Ok(auths);
  }

  method Describe(app: App) returns (r: Result<Description, Refusal>)
    ensures r == Described(app)
  {
    var flattened := Flatten(app);
    if flattened.Err? {
      return Err(flattened.error);
    }
    var auths, specs := TakeWorkloads(flattened.value.workloads);
    if auths.Err? {
      return Err(auths.error);
    }
    return Ok(Description(specs, Names(flattened.value.resources), AuthNames(auths.value)));
  }

  // ---- The host ---------------------------------------------------------------------

  datatype Problem =
    | EmptyName(id: string) | DuplicateWorkload(id: string) | BodyBoundWithoutABody(id: string)
    | UnknownAuth(id: string, auth: string) | UnknownResource(id: string, resource: string)
    | DuplicateResource(name: string)

  function FirstUnknown(names: seq<string>, known: seq<string>): (r: Option<string>)
    ensures r.None? <==> forall n :: n in names ==> n in known
  {
    if names == [] then None
    else
      assert forall n :: n in names ==> n == names[0] || n in names[1..];
      if names[0] !in known then Some(names[0]) else FirstUnknown(names[1..], known)
  }

  /** What is wrong with a workload, in the order the host looks. */
  function ProblemOf(w: Spec, index: map<string, nat>, d: Description): Option<Problem>
  {
    if w.name == "" then Some(EmptyName(w.id))
    else if w.id in index then Some(DuplicateWorkload(w.id))
    else if w.bounded && !w.http then Some(BodyBoundWithoutABody(w.id))
    else if w.auth.Some? && w.auth.value !in d.auth then Some(UnknownAuth(w.id, w.auth.value))
    else match FirstUnknown(w.resources, d.resources)
      case Some(n) => Some(UnknownResource(w.id, n))
      case None => None
  }

  function Indexed(d: Description, i: nat, index: map<string, nat>): Result<map<string, nat>, Problem>
    requires i <= |d.workloads|
    decreases |d.workloads| - i
  {
    if i == |d.workloads| then Ok(index)
    else match ProblemOf(d.workloads[i], index, d)
      case Some(p) => Err(p)
      case None => Indexed(d, i + 1, index[d.workloads[i].id := i])
  }

  function SecondName(names: seq<string>, seen: set<string>): Option<string>
    decreases |names|
  {
    if names == [] then None else if names[0] in seen then Some(names[0]) else SecondName(names[1..], seen + {names[0]})
  }

  /** `ApplicationDefinition::new`, from its index on. */
  function Installed(d: Description): Result<map<string, nat>, Problem>
  {
    match Indexed(d, 0, map[])
    case Err(p) => Err(p)
    case Ok(index) =>
      match SecondName(d.resources, {})
      case Some(n) => Err(DuplicateResource(n))
      case None => Ok(index)
  }

  method Install(d: Description) returns (r: Result<map<string, nat>, Problem>)
    ensures r == Installed(d)
  {
    var index: map<string, nat> := map[];
    for i := 0 to |d.workloads|
      invariant Indexed(d, i, index) == Indexed(d, 0, map[])
    {
      var problem := ProblemOf(d.workloads[i], index, d);
      if problem.Some? {
        return Err(problem.value);
      }
      index := index[d.workloads[i].id := i];
    }
    var seen: set<string> := {};
    for i := 0 to |d.resources|
      invariant SecondName(d.resources[i..], seen) == SecondName(d.resources, {})
    {
      assert d.resources[i..][1..] == d.resources[i + 1..];
      if d.resources[i] in seen {
        return Err(DuplicateResource(d.resources[i]));
      }
      seen := seen + {d.resources[i]};
    }
    return Ok(index);
  }

  // ---- They agree ----------------------------------------------------------------------

  predicate UniqueNames(rs: seq<Resource>)
  {
    forall i, j :: 0 <= i < j < |rs| ==> rs[i].name != rs[j].name
  }

  lemma {:induction false} AddAllAdds(rs: seq<Resource>, more: seq<Resource>)
    requires UniqueNames(rs) && AddAll(rs, more).Ok?
    ensures var out := AddAll(rs, more).value;
            && UniqueNames(out) && (forall r :: r in rs ==> r in out) && (forall r :: r in more ==> r in out)
    decreases |more|
  {
    if more != [] {
      var next := if Named(rs, more[0].name).None? then rs + [more[0]] else rs;
      assert UniqueNames(next) by {
        assert forall i :: 0 <= i < |rs| ==> rs[i] in rs;
      }
      AddAllAdds(next, more[1..]);
      assert more[0] in next;
      assert forall r :: r in more ==> r == more[0] || r in more[1..];
    }
  }

  lemma {:induction false} WorkloadResourcesHave(ws: seq<Workload>, w: Workload, r: Resource)
    requires w in ws && r in w.resources
    ensures r in WorkloadResources(ws)
    decreases |ws|
  {
    if ws[0] != w {
      assert w in ws[1..];
      WorkloadResourcesHave(ws[1..], w, r);
    }
  }

  lemma {:induction false} IdsUnique(ws: seq<Workload>, seen: set<string>)
    requires SecondId(ws, seen) == None
    ensures forall i :: 0 <= i < |ws| ==> WorkloadId(ws[i]) !in seen
    ensures forall i, j :: 0 <= i < j < |ws| ==> WorkloadId(ws[i]) != WorkloadId(ws[j])
    decreases |ws|
  {
    if ws != [] {
      var rest := ws[1..];
      IdsUnique(rest, seen + {WorkloadId(ws[0])});
      assert forall i :: 0 < i < |ws| ==> ws[i] == rest[i - 1];
    }
  }

  lemma {:induction false} AuthsHave(ws: seq<Workload>, auths: seq<Auth>)
    requires AuthsOf(ws, auths).Ok?
    ensures var out := AuthsOf(ws, auths).value;
            && (forall a :: a in auths ==> a in out)
            && (forall w :: w in ws && w.auth.Some? ==> w.auth.value in out)
    decreases |ws|
  {
    if ws != [] {
      var next :=
        if ws[0].auth.Some? && AuthCalled(auths, ws[0].auth.value.name).None? then auths + [ws[0].auth.value] else auths;
      AuthsHave(ws[1..], next);
      assert forall w :: w in ws ==> w == ws[0] || w in ws[1..];
      assert ws[0].auth.Some? ==> ws[0].auth.value in next;
    }
  }

  lemma {:induction false} NoSecondName(names: seq<string>, seen: set<string>)
    requires forall i, j :: 0 <= i < j < |names| ==> names[i] != names[j]
    requires forall n :: n in names ==> n !in seen
    ensures SecondName(names, seen) == None
    decreases |names|
  {
    if names != [] {
      assert names[0] in names;
      assert forall n :: n in names[1..] ==> n in names && n != names[0];
      NoSecondName(names[1..], seen + {names[0]});
    }
  }

  /** Nothing the build could have caught is wrong with a workload. */
  predicate RefersWell(w: Spec, d: Description)
  {
    && (w.auth.Some? ==> w.auth.value in d.auth)
    && (forall n :: n in w.resources ==> n in d.resources)
  }

  predicate Acceptable(w: Spec)
  {
    w.name != "" && (w.bounded ==> w.http)
  }

  predicate UniqueIds(specs: seq<Spec>)
  {
    forall i, j :: 0 <= i < j < |specs| ==> specs[i].id != specs[j].id
  }

  /** The index so far: each id at its own place. */
  predicate IndexOk(index: map<string, nat>, specs: seq<Spec>, n: nat)
    requires n <= |specs|
  {
    && (forall i :: 0 <= i < n ==> specs[i].id in index && index[specs[i].id] == i)
    && (forall id :: id in index ==> index[id] < n && specs[index[id]].id == id)
  }

  lemma {:induction false} IndexedIff(d: Description, i: nat, index: map<string, nat>)
    requires i <= |d.workloads| && IndexOk(index, d.workloads, i) && UniqueIds(d.workloads)
    requires forall k :: 0 <= k < |d.workloads| ==> RefersWell(d.workloads[k], d)
    ensures var r := Indexed(d, i, index);
            && (r.Ok? <==> forall k :: i <= k < |d.workloads| ==> Acceptable(d.workloads[k]))
            && (r.Ok? ==> IndexOk(r.value, d.workloads, |d.workloads|))
            && (r.Err? ==> r.error.EmptyName? || r.error.BodyBoundWithoutABody?)
    decreases |d.workloads| - i
  {
    if i < |d.workloads| {
      var w := d.workloads[i];
      assert RefersWell(w, d);
      assert w.id !in index;
      if Acceptable(w) {
        IndexedIff(d, i + 1, index[w.id := i]);
      }
    }
  }

  lemma DescribedRefersWell(app: App)
    requires Described(app).Ok?
    ensures var d := Described(app).value;
            && UniqueIds(d.workloads)
            && (forall k :: 0 <= k < |d.workloads| ==> RefersWell(d.workloads[k], d))
            && SecondName(d.resources, {}) == None
  {
    var flat, d := Flattened(app).value, Described(app).value;
    var ws, rs := flat.workloads, flat.resources;
    var listed := ListAll([], app.modules).value;
    IdsUnique(ws, {});
    var declared := ModuleResources(listed) + app.resources + WorkloadResources(ws);
    AddAllAdds([], declared);
    NoSecondName(Names(rs), {});
    var auths := AuthsOf(ws, []).value;
    AuthsHave(ws, []);
    forall k | 0 <= k < |ws| ensures RefersWell(SpecOf(ws[k]), d) {
      assert ws[k] in ws;
      forall n | n in Names(ws[k].resources) ensures n in Names(rs) {
        var i :| 0 <= i < |ws[k].resources| && n == ws[k].resources[i].name;
        WorkloadResourcesHave(ws, ws[k], ws[k].resources[i]);
        assert ws[k].resources[i] in declared && ws[k].resources[i] in rs;
        var j :| 0 <= j < |rs| && rs[j] == ws[k].resources[i];
        assert Names(rs)[j] == n;
      }
      if ws[k].auth.Some? {
        var j :| 0 <= j < |auths| && auths[j] == ws[k].auth.value;
        assert AuthNames(auths)[j] == ws[k].auth.value.name;
      }
    }
  }

  /** What the build describes the host accepts exactly when every workload has a name and bounds a body
      only where it takes one; and then the host's index gives each id the ordinal of its flattening. */
  lemma BuildAndHostAgree(app: App)
    requires Described(app).Ok?
    ensures var flat, r := Flattened(app).value, Installed(Described(app).value);
            && (r.Ok? <==> forall k :: 0 <= k < |flat.workloads| ==>
                  flat.workloads[k].name != "" && (flat.workloads[k].maxBody.Some? ==> flat.workloads[k].kind == "http"))
            && (r.Err? ==> r.error.EmptyName? || r.error.BodyBoundWithoutABody?)
            && (r.Ok? ==>
                  && (forall k :: 0 <= k < |flat.workloads| ==>
                        WorkloadId(flat.workloads[k]) in r.value && r.value[WorkloadId(flat.workloads[k])] == k)
                  && (forall id :: id in r.value ==>
                        r.value[id] < |flat.workloads| && WorkloadId(flat.workloads[r.value[id]]) == id))
  {
    var d, flat := Described(app).value, Flattened(app).value;
    DescribedRefersWell(app);
    IndexedIff(d, 0, map[]);
    assert forall k :: 0 <= k < |flat.workloads| ==> d.workloads[k] == SpecOf(flat.workloads[k]);
  }

  // ---- The host, on any description ------------------------------------------------------

  /** A workload of the description has this problem. */
  ghost predicate HasProblem(d: Description, p: Problem)
  {
    match p
    case EmptyName(id) => exists k :: 0 <= k < |d.workloads| && d.workloads[k].id == id && d.workloads[k].name == ""
    case DuplicateWorkload(id) =>
      exists i, k :: 0 <= i < k < |d.workloads| && d.workloads[i].id == d.workloads[k].id == id
    case BodyBoundWithoutABody(id) =>
      exists k :: 0 <= k < |d.workloads| && d.workloads[k].id == id && d.workloads[k].bounded && !d.workloads[k].http
    case UnknownAuth(id, auth) =>
      exists k :: 0 <= k < |d.workloads| && d.workloads[k].id == id && d.workloads[k].auth == Some(auth) && auth !in d.auth
    case UnknownResource(id, r) =>
      exists k :: 0 <= k < |d.workloads| && d.workloads[k].id == id && r in d.workloads[k].resources && r !in d.resources
    case DuplicateResource(n) => exists i, k :: 0 <= i < k < |d.resources| && d.resources[i] == d.resources[k] == n
  }

  lemma {:induction false} UnknownIs(names: seq<string>, known: seq<string>)
    ensures FirstUnknown(names, known).Some? ==>
      FirstUnknown(names, known).value in names && FirstUnknown(names, known).value !in known
  {
    if names != [] && names[0] in known {
      UnknownIs(names[1..], known);
    }
  }

  /** The host finds a problem with a workload exactly when there is one, and names one there is. */
  lemma ProblemIff(d: Description, i: nat, index: map<string, nat>)
    requires i < |d.workloads| && forall id :: id in index <==> exists k :: 0 <= k < i && d.workloads[k].id == id
    ensures var r, w := ProblemOf(d.workloads[i], index, d), d.workloads[i];
      && (r.None? <==> Acceptable(w) && RefersWell(w, d) && forall k :: 0 <= k < i ==> d.workloads[k].id != w.id)
      && (r.Some? ==> HasProblem(d, r.value))
  {
    UnknownIs(d.workloads[i].resources, d.resources);
  }

  predicate Fresh(specs: seq<Spec>, i: nat)
    requires i < |specs|
  {
    forall k :: 0 <= k < i ==> specs[k].id != specs[i].id
  }

  lemma {:induction false} IndexesIff(d: Description, i: nat, index: map<string, nat>)
    requires i <= |d.workloads| && forall id :: id in index <==> exists k :: 0 <= k < i && d.workloads[k].id == id
    ensures var r := Indexed(d, i, index);
      && (r.Ok? <==> forall k :: i <= k < |d.workloads| ==>
            Acceptable(d.workloads[k]) && RefersWell(d.workloads[k], d) && Fresh(d.workloads, k))
      && (r.Err? ==> HasProblem(d, r.error))
    decreases |d.workloads| - i
  {
    if i < |d.workloads| {
      ProblemIff(d, i, index);
      assert ProblemOf(d.workloads[i], index, d).None? <==>
        Acceptable(d.workloads[i]) && RefersWell(d.workloads[i], d) && Fresh(d.workloads, i);
      IndexesIff(d, i + 1, index[d.workloads[i].id := i]);
    }
  }

  lemma {:induction false} SecondNameIff(names: seq<string>, i: nat, seen: set<string>)
    requires i <= |names| && forall n :: n in seen <==> exists k :: 0 <= k < i && names[k] == n
    ensures var r := SecondName(names[i..], seen);
      && (r.None? <==> forall a, b :: 0 <= a < b < |names| && i <= b ==> names[a] != names[b])
      && (r.Some? ==> exists a, b :: 0 <= a < b < |names| && names[a] == names[b] == r.value)
    decreases |names| - i
  {
    if i < |names| {
      assert names[i..][0] == names[i] && names[i..][1..] == names[i + 1..];
      if names[i] !in seen {
        SecondNameIff(names, i + 1, seen + {names[i]});
      }
    }
  }

  /** On any description, from wherever it comes: the host accepts it if and only if every workload has a name,
      an id of its own, a body bound only where it takes a body, and refers only to schemes and resources the
      description has, and no resource is named twice. Otherwise it names a problem there is. */
  lemma InstallsIff(d: Description)
    ensures var r := Installed(d);
      && (r.Ok? <==>
            && (forall k :: 0 <= k < |d.workloads| ==> Acceptable(d.workloads[k]) && RefersWell(d.workloads[k], d))
            && UniqueIds(d.workloads)
            && (forall a, b :: 0 <= a < b < |d.resources| ==> d.resources[a] != d.resources[b]))
      && (r.Err? ==> HasProblem(d, r.error))
  {
    IndexesIff(d, 0, map[]);
    assert d.resources[0..] == d.resources;
    SecondNameIff(d.resources, 0, {});
    UniqueIff(d.workloads);
  }

  lemma UniqueIff(specs: seq<Spec>)
    ensures UniqueIds(specs) <==> forall k :: 0 <= k < |specs| ==> Fresh(specs, k)
  {
    if forall k :: 0 <= k < |specs| ==> Fresh(specs, k) {
      forall i, j | 0 <= i < j < |specs| ensures specs[i].id != specs[j].id {
        assert Fresh(specs, j);
      }
    }
  }
}
