/** Where everything an application declares ends up: the workloads of each module and their ordinals, the
    resources, the schemes, and exactly when the build refuses (`packages/usai/src/declarations.ts`,
    `packages/usai/src/manifest.ts`).

    Nothing here mentions how `Manifest` goes about it: a module counts where it is first listed, its
    workloads start after those of the modules that count before it, and the application's come last. */
module Flattening {
  import opened Wrappers
  import opened Manifest

  // ---- What is declared -------------------------------------------------------

  /** A module counts at the first place its name is listed. */
  predicate Counts(ms: seq<Module>, j: nat)
    requires j < |ms|
  {
    forall i :: 0 <= i < j ==> ms[i].name != ms[j].name
  }

  /** How many workloads the modules listed before place `j` have, each module counted once. */
  function Offset(ms: seq<Module>, j: nat): nat
    requires j <= |ms|
  {
    if j == 0 then 0 else Offset(ms, j - 1) + if Counts(ms, j - 1) then |ms[j - 1].workloads| else 0
  }

  /** A module's workloads stand together, in their order, from its offset on. */
  predicate BlockAt(ws: seq<Workload>, ms: seq<Module>, j: nat)
    requires j < |ms|
  {
    && Offset(ms, j) + |ms[j].workloads| <= |ws|
    && forall n :: 0 <= n < |ms[j].workloads| ==> ws[Offset(ms, j) + n] == ms[j].workloads[n]
  }

  /** The workloads of every module, and then the application's. */
  predicate Placed(app: App, ws: seq<Workload>)
  {
    var start := Offset(app.modules, |app.modules|);
    && |ws| == start + |app.workloads|
    && (forall j: nat :: j < |app.modules| && Counts(app.modules, j) ==> BlockAt(ws, app.modules, j))
    && (forall n :: 0 <= n < |app.workloads| ==> ws[start + n] == app.workloads[n])
  }

  /** One name is one module. */
  predicate ModulesAgree(ms: seq<Module>)
  {
    forall i, j :: 0 <= i < j < |ms| && ms[i].name == ms[j].name && Counts(ms, i) ==> ms[i].identity == ms[j].identity
  }

  predicate DistinctIds(ws: seq<Workload>)
  {
    forall i, j :: 0 <= i < j < |ws| ==> WorkloadId(ws[i]) != WorkloadId(ws[j])
  }

  predicate DeclaresAt(ms: seq<Module>, j: nat, r: Resource)
  {
    j < |ms| && Counts(ms, j) && r in ms[j].resources
  }

  /** Declared by a module that counts, by the application, or by a workload that refers to it. */
  ghost predicate Declares(app: App, ws: seq<Workload>, r: Resource)
  {
    || (exists j: nat :: DeclaresAt(app.modules, j, r))
    || r in app.resources
    || exists w :: w in ws && r in w.resources
  }

  ghost predicate ResourcesAgree(app: App, ws: seq<Workload>)
  {
    forall r, r' :: Declares(app, ws, r) && Declares(app, ws, r') && r.name == r'.name ==> r == r'
  }

  // ---- The modules -------------------------------------------------------------

  function Counting(ms: seq<Module>, i: nat): seq<Module>
    requires i <= |ms|
  {
    if i == 0 then [] else Counting(ms, i - 1) + if Counts(ms, i - 1) then [ms[i - 1]] else []
  }

  lemma CountingNext(ms: seq<Module>, i: nat)
    requires i < |ms|
    ensures Counts(ms, i) ==> Counting(ms, i + 1) == Counting(ms, i) + [ms[i]]
    ensures !Counts(ms, i) ==> Counting(ms, i + 1) == Counting(ms, i)
  {
  }

  predicate CountsAs(ms: seq<Module>, j: nat, m: Module)
  {
    j < |ms| && Counts(ms, j) && ms[j] == m
  }

  lemma {:induction false} CountingHas(ms: seq<Module>, i: nat, m: Module)
    requires i <= |ms|
    ensures m in Counting(ms, i) <==> exists j: nat :: j < i && CountsAs(ms, j, m)
  {
    if i > 0 {
      CountingHas(ms, i - 1, m);
      assert m in Counting(ms, i) <==> m in Counting(ms, i - 1) || CountsAs(ms, i - 1, m);
    }
  }

  lemma {:induction false} CalledNone(ms: seq<Module>, name: string)
    ensures Called(ms, name).None? ==> forall m :: m in ms ==> m.name != name
  {
    if ms != [] && ms[0].name != name {
      CalledNone(ms[1..], name);
      assert forall m :: m in ms ==> m == ms[0] || m in ms[1..];
    }
  }

  lemma {:induction false} FirstOf(ms: seq<Module>, i: nat) returns (j: nat)
    requires i < |ms|
    ensures j <= i && Counts(ms, j) && ms[j].name == ms[i].name
  {
    j := i;
    if !Counts(ms, i) {
      var k :| 0 <= k < i && ms[k].name == ms[i].name;
      j := FirstOf(ms, k);
    }
  }

  /** What listing finds of an earlier module of that name: the one that counts, if there is one. */
  lemma CalledIs(ms: seq<Module>, i: nat)
    requires i < |ms|
    ensures var r := Called(Counting(ms, i), ms[i].name);
      && (r.None? <==> Counts(ms, i))
      && (r.Some? ==> r.value.name == ms[i].name && exists j: nat :: j < i && CountsAs(ms, j, r.value))
  {
    var r := Called(Counting(ms, i), ms[i].name);
    if r.Some? {
      CountingHas(ms, i, r.value);
    } else {
      CalledNone(Counting(ms, i), ms[i].name);
      if !Counts(ms, i) {
        var j := FirstOf(ms, i);
        assert CountsAs(ms, j, ms[j]);
        CountingHas(ms, i, ms[j]);
      }
    }
  }

  /** From place `i` on, nothing clashes with what counts before it. */
  predicate AgreeFrom(ms: seq<Module>, i: nat)
  {
    forall a, b :: 0 <= a < b < |ms| && i <= b && ms[a].name == ms[b].name && Counts(ms, a) ==>
      ms[a].identity == ms[b].identity
  }

  lemma OneCounts(ms: seq<Module>, a: nat, b: nat)
    requires a < |ms| && b < |ms| && Counts(ms, a) && Counts(ms, b) && ms[a].name == ms[b].name
    ensures a == b
  {
  }

  lemma {:induction false} ListIs(ms: seq<Module>, i: nat)
    requires i <= |ms|
    ensures var r := ListAll(Counting(ms, i), ms[i..]);
      && (r.Ok? <==> AgreeFrom(ms, i))
      && (r.Ok? ==> r.value == Counting(ms, |ms|))
      && (r.Err? ==> r.error.TwoModules?)
    decreases |ms| - i
  {
    if i < |ms| {
      assert ms[i..][0] == ms[i] && ms[i..][1..] == ms[i + 1..];
      CalledIs(ms, i);
      ListIs(ms, i + 1);
      ListNext(ms, i);
      CountingNext(ms, i);
      var r := Called(Counting(ms, i), ms[i].name);
      if r.Some? {
        assert AgreesAt(ms, i) <==> r.value.identity == ms[i].identity by { TheOne(ms, i, r.value); }
      }
    }
  }

  predicate AgreesAt(ms: seq<Module>, i: nat)
    requires i < |ms|
  {
    forall a: nat :: a < i && Counts(ms, a) && ms[a].name == ms[i].name ==> ms[a].identity == ms[i].identity
  }

  lemma TheOne(ms: seq<Module>, i: nat, m: Module)
    requires i < |ms| && m.name == ms[i].name && exists j: nat :: j < i && CountsAs(ms, j, m)
    ensures AgreesAt(ms, i) <==> m.identity == ms[i].identity
  {
    var j: nat :| j < i && CountsAs(ms, j, m);
    forall a: nat | a < i && Counts(ms, a) && ms[a].name == ms[i].name ensures a == j {
      OneCounts(ms, a, j);
    }
  }

  lemma ListNext(ms: seq<Module>, i: nat)
    requires i < |ms|
    ensures AgreeFrom(ms, i) <==> AgreeFrom(ms, i + 1) && AgreesAt(ms, i)
    ensures Counts(ms, i) ==> AgreesAt(ms, i)
  {
  }

  // ---- The workloads --------------------------------------------------------------

  lemma {:induction false} WorkloadsAppend(a: seq<Module>, m: Module)
    ensures ModuleWorkloads(a + [m]) == ModuleWorkloads(a) + m.workloads
    ensures ModuleResources(a + [m]) == ModuleResources(a) + m.resources
    decreases |a|
  {
    if a == [] {
      assert a + [m] == [m] && [m][1..] == [];
    } else {
      WorkloadsAppend(a[1..], m);
      assert (a + [m])[1..] == a[1..] + [m];
    }
  }

  /** The modules that count before place `i` fill the workloads up to its offset. */
  ghost predicate Filled(ws: seq<Workload>, ms: seq<Module>, i: nat)
    requires i <= |ms|
  {
    |ws| == Offset(ms, i) && forall j: nat :: j < i && Counts(ms, j) ==> BlockAt(ws, ms, j)
  }

  lemma FillsMore(ws: seq<Workload>, ms: seq<Module>, i: nat)
    requires i < |ms| && Filled(ws, ms, i)
    ensures Filled(if Counts(ms, i) then ws + ms[i].workloads else ws, ms, i + 1)
  {
    if Counts(ms, i) {
      var ws' := ws + ms[i].workloads;
      assert BlockAt(ws', ms, i);
      forall j: nat | j < i && Counts(ms, j) ensures BlockAt(ws', ms, j) {
        Extends(ws, ms[i].workloads, ms, j);
      }
    }
  }

  lemma {:induction false} BlocksPlaced(ms: seq<Module>, i: nat)
    requires i <= |ms|
    ensures Filled(ModuleWorkloads(Counting(ms, i)), ms, i)
  {
    if i > 0 {
      BlocksPlaced(ms, i - 1);
      FillsMore(ModuleWorkloads(Counting(ms, i - 1)), ms, i - 1);
      CountingNext(ms, i - 1);
      WorkloadsAppend(Counting(ms, i - 1), ms[i - 1]);
    }
  }

  lemma Extends(ws: seq<Workload>, more: seq<Workload>, ms: seq<Module>, j: nat)
    requires j < |ms| && BlockAt(ws, ms, j)
    ensures BlockAt(ws + more, ms, j)
  {
  }

  /** The flattened workloads are in their places. */
  lemma FlatPlaced(app: App)
    ensures Placed(app, ModuleWorkloads(Counting(app.modules, |app.modules|)) + app.workloads)
  {
    var ms := app.modules;
    var ws := ModuleWorkloads(Counting(ms, |ms|));
    BlocksPlaced(ms, |ms|);
    forall j: nat | j < |ms| && Counts(ms, j) ensures BlockAt(ws + app.workloads, ms, j) {
      Extends(ws, app.workloads, ms, j);
    }
  }

  /** A place below an offset is in the block of a module that counts. */
  lemma {:induction false} InABlock(ms: seq<Module>, i: nat, p: nat) returns (j: nat, n: nat)
    requires i <= |ms| && p < Offset(ms, i)
    ensures j < i && Counts(ms, j) && n < |ms[j].workloads| && p == Offset(ms, j) + n
  {
    if p < Offset(ms, i - 1) {
      j, n := InABlock(ms, i - 1, p);
    } else {
      j, n := i - 1, p - Offset(ms, i - 1);
    }
  }

  /** There is one way to place them. */
  lemma PlacedUnique(app: App, ws: seq<Workload>, ws': seq<Workload>)
    requires Placed(app, ws) && Placed(app, ws')
    ensures ws == ws'
  {
    forall p: nat | p < |ws| ensures ws[p] == ws'[p] {
      SamePlace(app, ws, ws', p);
    }
  }

  lemma SamePlace(app: App, ws: seq<Workload>, ws': seq<Workload>, p: nat)
    requires Placed(app, ws) && Placed(app, ws') && p < |ws|
    ensures ws[p] == ws'[p]
  {
    var start := Offset(app.modules, |app.modules|);
    if p < start {
      var j, n := InABlock(app.modules, |app.modules|, p);
      assert BlockAt(ws, app.modules, j) && BlockAt(ws', app.modules, j);
      assert ws[Offset(app.modules, j) + n] == app.modules[j].workloads[n];
      assert ws'[Offset(app.modules, j) + n] == app.modules[j].workloads[n];
    } else {
      var n := p - start;
      assert ws[start + n] == app.workloads[n] && ws'[start + n] == app.workloads[n];
    }
  }

  // ---- The resources ---------------------------------------------------------------

  lemma {:induction false} ModuleResourcesHas(ms: seq<Module>, i: nat, r: Resource)
    requires i <= |ms|
    ensures r in ModuleResources(Counting(ms, i)) <==> exists j: nat :: j < i && DeclaresAt(ms, j, r)
  {
    if i > 0 {
      ModuleResourcesHas(ms, i - 1, r);
      CountingNext(ms, i - 1);
      WorkloadsAppend(Counting(ms, i - 1), ms[i - 1]);
      assert r in ModuleResources(Counting(ms, i)) <==>
        r in ModuleResources(Counting(ms, i - 1)) || DeclaresAt(ms, i - 1, r);
    }
  }

  lemma {:induction false} WorkloadResourcesOnly(ws: seq<Workload>, r: Resource)
    ensures r in WorkloadResources(ws) <==> exists w :: w in ws && r in w.resources
    decreases |ws|
  {
    if ws != [] {
      WorkloadResourcesOnly(ws[1..], r);
      assert forall w :: w in ws <==> w == ws[0] || w in ws[1..];
    }
  }

  function DeclaredList(app: App, ws: seq<Workload>): seq<Resource>
  {
    ModuleResources(Counting(app.modules, |app.modules|)) + app.resources + WorkloadResources(ws)
  }

  lemma DeclaredIs(app: App, ws: seq<Workload>, r: Resource)
    ensures r in DeclaredList(app, ws) <==> Declares(app, ws, r)
  {
    ModuleResourcesHas(app.modules, |app.modules|, r);
    WorkloadResourcesOnly(ws, r);
  }

  ghost predicate NamesAgree(rs: seq<Resource>)
  {
    forall r, r' :: r in rs && r' in rs && r.name == r'.name ==> r == r'
  }

  lemma {:induction false} AddAllIff(rs: seq<Resource>, more: seq<Resource>)
    requires UniqueNames(rs)
    ensures AddAll(rs, more).Ok? <==> NamesAgree(rs + more)
    ensures AddAll(rs, more).Ok? ==> forall r :: r in AddAll(rs, more).value <==> r in rs + more
    ensures AddAll(rs, more).Err? ==> AddAll(rs, more).error.TwoResources?
    decreases |more|
  {
    if more == [] {
      assert rs + more == rs;
      UniqueAgree(rs);
    } else {
      var existing := Named(rs, more[0].name);
      if existing.None? {
        assert UniqueNames(rs + [more[0]]) by { assert forall i :: 0 <= i < |rs| ==> rs[i] in rs; }
        AddAllIff(rs + [more[0]], more[1..]);
        assert (rs + [more[0]]) + more[1..] == rs + more;
      } else if existing.value == more[0] {
        AddAllIff(rs, more[1..]);
        SameElements(rs, more);
      } else {
        assert existing.value in rs + more && more[0] in rs + more;
      }
    }
  }

  lemma UniqueAgree(rs: seq<Resource>)
    requires UniqueNames(rs)
    ensures NamesAgree(rs)
  {
  }

  lemma SameElements(rs: seq<Resource>, more: seq<Resource>)
    requires more != [] && more[0] in rs
    ensures forall r :: r in rs + more <==> r in rs + more[1..]
  {
    assert forall r :: r in more <==> r == more[0] || r in more[1..];
  }

  lemma {:induction false} SecondIdIff(ws: seq<Workload>, seen: set<string>)
    ensures SecondId(ws, seen).None? <==>
      DistinctIds(ws) && forall i :: 0 <= i < |ws| ==> WorkloadId(ws[i]) !in seen
    decreases |ws|
  {
    if ws != [] {
      var rest := ws[1..];
      SecondIdIff(rest, seen + {WorkloadId(ws[0])});
      assert forall i :: 0 < i < |ws| ==> ws[i] == rest[i - 1];
      assert forall i :: 0 <= i < |rest| ==> rest[i] == ws[i + 1];
    }
  }

  // ---- Flattening --------------------------------------------------------------------

  /** An application flattens if and only if one name is one module and one resource and no two workloads have
      one id. Then the workloads are in their places and every declared resource is there, under its own name
      once, and no other. Otherwise the first of these that fails is named. */
  lemma FlattensIff(app: App, ws: seq<Workload>)
    requires Placed(app, ws)
    ensures var r := Flattened(app);
      && (r.Ok? <==> ModulesAgree(app.modules) && ResourcesAgree(app, ws) && DistinctIds(ws))
      && (r.Ok? ==> r.value.workloads == ws && UniqueNames(r.value.resources)
                    && forall x :: x in r.value.resources <==> Declares(app, ws, x))
      && (r.Err? ==> if !ModulesAgree(app.modules) then r.error.TwoModules?
                     else if !ResourcesAgree(app, ws) then r.error.TwoResources? else r.error.TwoWorkloads?)
  {
    var ms := app.modules;
    ListIs(ms, 0);
    assert ms[0..] == ms && (AgreeFrom(ms, 0) <==> ModulesAgree(ms));
    FlatPlaced(app);
    PlacedUnique(app, ws, ModuleWorkloads(Counting(ms, |ms|)) + app.workloads);
    var declared := DeclaredList(app, ws);
    assert [] + declared == declared;
    AddAllIff([], declared);
    forall x ensures x in declared <==> Declares(app, ws, x) { DeclaredIs(app, ws, x); }
    SecondIdIff(ws, {});
    if AddAll([], declared).Ok? {
      AddAllAdds([], declared);
    }
  }

  /** A workload is in the result if and only if the application or a module that counts declares it. */
  lemma FlattenedHas(app: App, w: Workload)
    requires Flattened(app).Ok?
    ensures w in Flattened(app).value.workloads <==>
      w in app.workloads || exists j: nat :: WorkloadOf(app.modules, j, w)
  {
    FlatPlaced(app);
    var ws := ModuleWorkloads(Counting(app.modules, |app.modules|)) + app.workloads;
    FlattensIff(app, ws);
    PlacedHas(app, ws, w);
  }

  predicate WorkloadOf(ms: seq<Module>, j: nat, w: Workload)
  {
    j < |ms| && Counts(ms, j) && w in ms[j].workloads
  }

  lemma PlacedHas(app: App, ws: seq<Workload>, w: Workload)
    requires Placed(app, ws)
    ensures w in ws <==> w in app.workloads || exists j: nat :: WorkloadOf(app.modules, j, w)
  {
    var ms := app.modules;
    var start := Offset(ms, |ms|);
    if w in ws {
      var p: nat :| p < |ws| && ws[p] == w;
      if p < start {
        var j, n := InABlock(ms, |ms|, p);
        assert BlockAt(ws, ms, j);
        assert ws[Offset(ms, j) + n] == ms[j].workloads[n];
        assert WorkloadOf(ms, j, w);
      } else {
        var n := p - start;
        assert ws[start + n] == app.workloads[n];
      }
    }
    if j: nat :| WorkloadOf(ms, j, w) {
      var n :| 0 <= n < |ms[j].workloads| && ms[j].workloads[n] == w;
      assert BlockAt(ws, ms, j);
      assert ws[Offset(ms, j) + n] == w;
    }
    if w in app.workloads {
      var n :| 0 <= n < |app.workloads| && app.workloads[n] == w;
      assert ws[start + n] == w;
    }
  }

  // ---- Ids --------------------------------------------------------------------------------

  predicate Routed(w: Workload)
  {
    w.kind == "http" || w.kind == "stream"
  }

  /** `:` is in no kind and a blank in no method. */
  predicate IdOk(w: Workload)
  {
    ':' !in w.kind && ' ' !in w.verb
  }

  lemma {:induction false} SplitsOnce(a: string, b: string, a': string, b': string, c: char)
    requires c !in a && c !in a' && a + [c] + b == a' + [c] + b'
    ensures a == a' && b == b'
    decreases |a|
  {
    var s, s' := a + [c] + b, a' + [c] + b';
    if a == [] || a' == [] {
      assert s[0] == s'[0];
      assert a == a' == [];
      assert s[1..] == b && s'[1..] == b';
    } else {
      assert s[0] == a[0] && s'[0] == a'[0];
      assert s[1..] == a[1..] + [c] + b && s'[1..] == a'[1..] + [c] + b';
      SplitsOnce(a[1..], b, a'[1..], b', c);
      assert a == [a[0]] + a[1..] && a' == [a'[0]] + a'[1..];
    }
  }

  function AfterKind(w: Workload): string
  {
    if Routed(w) then w.verb + [' '] + w.path else w.name
  }

  lemma IdIs(w: Workload)
    ensures WorkloadId(w) == w.kind + [':'] + AfterKind(w)
  {
    assert [' '] == " " && [':'] == ":";
    if Routed(w) {
      assert w.kind + ":" + w.verb + " " + w.path == w.kind + ":" + (w.verb + " " + w.path);
    }
  }

  /** Two workloads have one id exactly when they are of one kind and have the same route, if they are routed,
      or else the same name. */
  lemma SameIdIff(w: Workload, w': Workload)
    requires IdOk(w) && IdOk(w')
    ensures WorkloadId(w) == WorkloadId(w') <==>
      w.kind == w'.kind && if Routed(w) then w.verb == w'.verb && w.path == w'.path else w.name == w'.name
  {
    IdIs(w);
    IdIs(w');
    if WorkloadId(w) == WorkloadId(w') {
      SplitsOnce(w.kind, AfterKind(w), w'.kind, AfterKind(w'), ':');
      if Routed(w) {
        SplitsOnce(w.verb, w.path, w'.verb, w'.path, ' ');
      }
    }
  }

  // ---- Schemes ------------------------------------------------------------------------------

  ghost predicate SchemesAgree(ws: seq<Workload>, auths: seq<Auth>)
  {
    forall a, b :: SchemeOf(ws, auths, a) && SchemeOf(ws, auths, b) && a.name == b.name ==> a == b
  }

  ghost predicate SchemeOf(ws: seq<Workload>, auths: seq<Auth>, a: Auth)
  {
    a in auths || exists w :: w in ws && w.auth == Some(a)
  }

  predicate UniqueAuths(auths: seq<Auth>)
  {
    forall i, j :: 0 <= i < j < |auths| ==> auths[i].name != auths[j].name
  }

  lemma {:induction false} AuthCalledNone(auths: seq<Auth>, name: string)
    ensures AuthCalled(auths, name).None? ==> forall a :: a in auths ==> a.name != name
  {
    if auths != [] && auths[0].name != name {
      AuthCalledNone(auths[1..], name);
      assert forall a :: a in auths ==> a == auths[0] || a in auths[1..];
    }
  }

  lemma SchemesNext(ws: seq<Workload>, auths: seq<Auth>, auths': seq<Auth>, a: Auth)
    requires ws != []
    requires auths' == auths || (ws[0].auth.Some? && auths' == auths + [ws[0].auth.value])
    requires ws[0].auth.Some? ==> ws[0].auth.value in auths'
    ensures SchemeOf(ws, auths, a) <==> SchemeOf(ws[1..], auths', a)
  {
    assert forall w :: w in ws <==> w == ws[0] || w in ws[1..];
  }

  /** The schemes are gathered if and only if one name is one scheme; and then they are those declared, once each. */
  lemma {:induction false} SchemesIff(ws: seq<Workload>, auths: seq<Auth>)
    requires UniqueAuths(auths)
    ensures var r := AuthsOf(ws, auths);
      && (r.Ok? <==> SchemesAgree(ws, auths)) && (r.Err? ==> r.error.TwoAuths?)
      && (r.Ok? ==> UniqueAuths(r.value) && forall a :: a in r.value <==> SchemeOf(ws, auths, a))
    decreases |ws|
  {
    if ws != [] {
      var known := if ws[0].auth.Some? then AuthCalled(auths, ws[0].auth.value.name) else None;
      if known.Some? && known.value != ws[0].auth.value {
        assert SchemeOf(ws, auths, known.value) && SchemeOf(ws, auths, ws[0].auth.value);
      } else {
        var next := if ws[0].auth.Some? && known.None? then auths + [ws[0].auth.value] else auths;
        assert UniqueAuths(next) by {
          if ws[0].auth.Some? { AuthCalledNone(auths, ws[0].auth.value.name); }
          assert forall i :: 0 <= i < |auths| ==> auths[i] in auths;
        }
        SchemesIff(ws[1..], next);
        forall a ensures SchemeOf(ws, auths, a) <==> SchemeOf(ws[1..], next, a) { SchemesNext(ws, auths, next, a); }
      }
    }
  }

  // ---- The description and the host ----------------------------------------------------------

  /** A description says of a workload what it declares. */
  ghost predicate Says(spec: Spec, w: Workload)
  {
    && spec.id == WorkloadId(w) && spec.name == w.name && (spec.http <==> w.kind == "http")
    && (spec.bounded <==> w.maxBody.Some?)
    && |spec.resources| == |w.resources| && (forall i :: 0 <= i < |w.resources| ==> spec.resources[i] == w.resources[i].name)
    && (spec.auth.Some? <==> w.auth.Some?) && (w.auth.Some? ==> spec.auth == Some(w.auth.value.name))
  }

  /** An application is described if and only if it flattens and its schemes agree; the description then
      says what each workload declares, at its place, and names each resource and scheme once. */
  lemma DescribesIff(app: App, ws: seq<Workload>)
    requires Placed(app, ws)
    ensures var r := Described(app);
      && (r.Ok? <==> ModulesAgree(app.modules) && ResourcesAgree(app, ws) && DistinctIds(ws) && SchemesAgree(ws, []))
      && (r.Ok? ==>
            && |r.value.workloads| == |ws| && (forall p :: 0 <= p < |ws| ==> Says(r.value.workloads[p], ws[p]))
            && (forall n :: n in r.value.resources <==> ResourceNamed(app, ws, n))
            && (forall n :: n in r.value.auth <==> SchemeNamed(ws, n)))
  {
    FlattensIff(app, ws);
    SchemesIff(ws, []);
    if Described(app).Ok? {
      var d := Described(app).value;
      assert forall p :: 0 <= p < |ws| ==> Says(d.workloads[p], ws[p]) by { SpecsSay(ws); }
      ResourcesNamed(app, ws, Flattened(app).value.resources);
      SchemesNamed(ws, AuthsOf(ws, []).value);
    }
  }

  lemma SpecsSay(ws: seq<Workload>)
    ensures forall p :: 0 <= p < |ws| ==> Says(Specs(ws)[p], ws[p])
  {
  }

  lemma ResourcesNamed(app: App, ws: seq<Workload>, rs: seq<Resource>)
    requires forall x :: x in rs <==> Declares(app, ws, x)
    ensures forall n :: n in Names(rs) <==> ResourceNamed(app, ws, n)
  {
    NamesHave(rs);
  }

  lemma SchemesNamed(ws: seq<Workload>, auths: seq<Auth>)
    requires forall a :: a in auths <==> SchemeOf(ws, [], a)
    ensures forall n :: n in AuthNames(auths) <==> SchemeNamed(ws, n)
  {
    AuthNamesHave(auths);
  }

  ghost predicate ResourceNamed(app: App, ws: seq<Workload>, n: string)
  {
    exists x :: Declares(app, ws, x) && x.name == n
  }

  ghost predicate SchemeNamed(ws: seq<Workload>, n: string)
  {
    exists a :: SchemeOf(ws, [], a) && a.name == n
  }

  lemma NamesHave(rs: seq<Resource>)
    ensures forall n :: n in Names(rs) <==> exists x :: x in rs && x.name == n
  {
    forall n | n in Names(rs) ensures exists x :: x in rs && x.name == n {
      var i :| 0 <= i < |rs| && Names(rs)[i] == n;
      assert rs[i] in rs;
    }
    forall x | x in rs ensures x.name in Names(rs) {
      var i :| 0 <= i < |rs| && rs[i] == x;
      assert Names(rs)[i] == x.name;
    }
  }

  lemma AuthNamesHave(auths: seq<Auth>)
    ensures forall n :: n in AuthNames(auths) <==> exists x :: x in auths && x.name == n
  {
    forall n | n in AuthNames(auths) ensures exists x :: x in auths && x.name == n {
      var i :| 0 <= i < |auths| && AuthNames(auths)[i] == n;
      assert auths[i] in auths;
    }
    forall x | x in auths ensures x.name in AuthNames(auths) {
      var i :| 0 <= i < |auths| && auths[i] == x;
      assert AuthNames(auths)[i] == x.name;
    }
  }

  /** The ordinals of the host are the places of the declarations: a module's workloads follow those of the
      modules listed before it, and the application's follow all of them. */
  lemma OrdinalsAreDeclared(app: App)
    requires Described(app).Ok? && Installed(Described(app).value).Ok?
    ensures var index := Installed(Described(app).value).value;
      && (forall j: nat, n: nat :: j < |app.modules| && Counts(app.modules, j) && n < |app.modules[j].workloads| ==>
            OrdinalIs(index, app.modules[j].workloads[n], Offset(app.modules, j) + n))
      && (forall n: nat :: n < |app.workloads| ==>
            OrdinalIs(index, app.workloads[n], Offset(app.modules, |app.modules|) + n))
      && |index| == Offset(app.modules, |app.modules|) + |app.workloads|
  {
    var ws := ModuleWorkloads(Counting(app.modules, |app.modules|)) + app.workloads;
    FlatPlaced(app);
    OrdinalsAt(app, ws);
    OrdinalsPlaced(app, ws, Installed(Described(app).value).value);
  }

  /** The index gives each workload its place, and nothing else. */
  ghost predicate IndexOf(index: map<string, nat>, ws: seq<Workload>)
  {
    && (forall p :: 0 <= p < |ws| ==> OrdinalIs(index, ws[p], p))
    && (forall id :: id in index ==> index[id] < |ws| && WorkloadId(ws[index[id]]) == id)
  }

  lemma OrdinalsAt(app: App, ws: seq<Workload>)
    requires Placed(app, ws) && Described(app).Ok? && Installed(Described(app).value).Ok?
    ensures IndexOf(Installed(Described(app).value).value, ws)
  {
    assert Flattened(app).Ok? && Flattened(app).value.workloads == ws by { FlattensIff(app, ws); }
    BuildAndHostAgree(app);
  }

  lemma OrdinalsPlaced(app: App, ws: seq<Workload>, index: map<string, nat>)
    requires Placed(app, ws) && IndexOf(index, ws)
    ensures forall j: nat, n: nat :: j < |app.modules| && Counts(app.modules, j) && n < |app.modules[j].workloads| ==>
      OrdinalIs(index, app.modules[j].workloads[n], Offset(app.modules, j) + n)
    ensures forall n: nat :: n < |app.workloads| ==>
      OrdinalIs(index, app.workloads[n], Offset(app.modules, |app.modules|) + n)
    ensures |index| == |ws|
  {
    var ms := app.modules;
    forall j: nat, n: nat | j < |ms| && Counts(ms, j) && n < |ms[j].workloads|
      ensures OrdinalIs(index, ms[j].workloads[n], Offset(ms, j) + n)
    {
      assert BlockAt(ws, ms, j);
      assert ws[Offset(ms, j) + n] == ms[j].workloads[n];
    }
    forall n: nat | n < |app.workloads| ensures OrdinalIs(index, app.workloads[n], Offset(ms, |ms|) + n) {
      assert ws[Offset(ms, |ms|) + n] == app.workloads[n];
    }
    IndexSize(index, ws);
  }

  predicate OrdinalIs(index: map<string, nat>, w: Workload, p: nat)
  {
    WorkloadId(w) in index && index[WorkloadId(w)] == p
  }

  lemma IndexSize(index: map<string, nat>, ws: seq<Workload>)
    requires IndexOf(index, ws)
    ensures |index| == |ws|
  {
    var ids := seq(|ws|, p requires 0 <= p < |ws| => WorkloadId(ws[p]));
    forall p, q | 0 <= p < q < |ids| ensures ids[p] != ids[q] {
      assert OrdinalIs(index, ws[p], p) && OrdinalIs(index, ws[q], q);
    }
    forall id ensures id in index.Keys <==> id in ids {
      if id in index {
        assert ids[index[id]] == id;
      }
    }
    SizeOf(index.Keys, ids);
  }

  lemma {:induction false} SizeOf(keys: set<string>, ids: seq<string>)
    requires forall id :: id in keys <==> id in ids
    requires forall p, q :: 0 <= p < q < |ids| ==> ids[p] != ids[q]
    ensures |keys| == |ids|
    decreases |ids|
  {
    if ids == [] {
      assert keys == {};
    } else {
      var n := |ids| - 1;
      SizeOf(keys - {ids[n]}, ids[..n]);
    }
  }
}
