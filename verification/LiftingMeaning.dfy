/** Lifting named schemas keeps what every reference unfolds to (`crates/usai-runtime/src/openapi.rs`). */
module LiftingMeaning {
  import opened Json
  import opened Lifting

  type Bodies = map<string, Json>

  // ---- Unfolding ------------------------------------------------------------

  /** The value with every reference into `bodies` replaced by what it names, to `depth`. */
  function Unfold(v: Json, prefix: string, bodies: Bodies, depth: nat): Json
    decreases depth, v
  {
    match v
    case Arr(items) => Arr(UnfoldItems(items, prefix, bodies, depth))
    case Obj(f) => Obj(UnfoldFields(f, prefix, bodies, depth))
    case _ => v
  }

  function UnfoldItems(i: Items, prefix: string, bodies: Bodies, depth: nat): Items
    decreases depth, i
  {
    match i
    case NoItems => NoItems
    case Item(head, tail) => Item(Unfold(head, prefix, bodies, depth), UnfoldItems(tail, prefix, bodies, depth))
  }

  function UnfoldFields(f: Fields, prefix: string, bodies: Bodies, depth: nat): Fields
    decreases depth, f
  {
    match f
    case NoFields => NoFields
    case Field(k, v, rest) =>
      var v' :=
        if k != REF || !v.Str? then Unfold(v, prefix, bodies, depth)
        else if !Under(v.s, prefix) || NameIn(v.s, prefix) !in bodies then v
        else if depth == 0 then Null
        else Unfold(bodies[NameIn(v.s, prefix)], prefix, bodies, depth - 1);
      Field(k, v', UnfoldFields(rest, prefix, bodies, depth))
  }

  function BodiesOf(defs: Fields): Bodies
  {
    match defs
    case NoFields => map[]
    case Field(name, body, rest) => map[name := body] + BodiesOf(rest)
  }

  /** What a document says: every emitted schema unfolded under its own `$defs`. */
  function Meaning(v: Json, depth: nat): Json
    decreases v
  {
    match v
    case Arr(items) => Arr(MeaningItems(items, depth))
    case Obj(f) =>
      if Has(f, DEFS) && Get(f, DEFS).Obj?
      then Obj(UnfoldFields(Wrapper(f), LOCAL, BodiesOf(Get(f, DEFS).fields), depth))
      else Obj(MeaningFields(f, depth))
    case _ => v
  }

  function MeaningItems(i: Items, depth: nat): Items
    decreases i
  {
    match i
    case NoItems => NoItems
    case Item(head, tail) => Item(Meaning(head, depth), MeaningItems(tail, depth))
  }

  function MeaningFields(f: Fields, depth: nat): Fields
    decreases f
  {
    match f
    case NoFields => NoFields
    case Field(k, v, rest) =>
      if k == OUTPUT_SIDE then MeaningFields(rest, depth) else Field(k, Meaning(v, depth), MeaningFields(rest, depth))
  }

  /** An emitted schema without its `$defs` and marker. */
  function Wrapper(f: Fields): Fields
  {
    Without(Without(f, DEFS), OUTPUT_SIDE)
  }

  // ---- What is asked of a document ------------------------------------------

  /** A local reference to an id of the side is to one of `own`; others go nowhere. */
  predicate Within(rs: set<string>, own: set<string>, side: set<string>)
  {
    forall r :: r in rs && Under(r, LOCAL) && NameIn(r, LOCAL) in side ==> NameIn(r, LOCAL) in own
  }

  /** No reference names one of these components already. */
  predicate Apart(rs: set<string>, components: set<string>)
  {
    forall r :: r in rs && Under(r, GLOBAL) ==> NameIn(r, GLOBAL) !in components
  }

  /** Every `$ref` holds a string. */
  predicate Plain(v: Json)
  {
    match v
    case Arr(items) => PlainItems(items)
    case Obj(f) => PlainFields(f)
    case _ => true
  }

  predicate PlainItems(i: Items)
  {
    i.Item? ==> Plain(i.head) && PlainItems(i.tail)
  }

  predicate PlainFields(f: Fields)
  {
    f.Field? ==> (if f.key == REF then f.value.Str? else Plain(f.value)) && PlainFields(f.rest)
  }

  /** Each id of `defs` has the one body its side gives it. */
  predicate DefsIn(defs: Fields, bodies: Bodies)
  {
    defs.Field? ==> defs.key in bodies && bodies[defs.key] == defs.value && DefsIn(defs.rest, bodies)
  }

  /** Fields with no `$defs` of their own that refer to no other schema's ids. */
  predicate Settled(f: Fields, own: set<string>, side: set<string>)
  {
    CleanFields(f) && PlainFields(f) && Within(VisibleFields(f), own, side)
  }

  predicate ChildrenClean(f: Fields)
  {
    f.Field? ==> Clean(f.value) && ChildrenClean(f.rest)
  }

  /** An emitted schema refers to no other schema's `$defs`, and each of its own is the one body its
      side gives that id. */
  predicate SchemaOk(f: Fields, bodies: Bodies)
    requires Has(f, DEFS)
  {
    && Get(f, DEFS).Obj?
    && var defs := Get(f, DEFS).fields;
    && DefsIn(defs, bodies) && ChildrenClean(f)
    && Settled(defs, KeysOf(defs), bodies.Keys) && Settled(Wrapper(f), KeysOf(defs), bodies.Keys)
  }

  /** `$defs` occur only at the top of an emitted schema, which is in order; a marker is `true`. */
  predicate DocOk(v: Json, inputs: Bodies, outputs: Bodies)
  {
    match v
    case Arr(items) => DocItemsOk(items, inputs, outputs)
    case Obj(f) =>
      && (Has(f, OUTPUT_SIDE) ==> Marked(f))
      && if Has(f, DEFS) then SchemaOk(f, if Marked(f) then outputs else inputs) else DocFieldsOk(f, inputs, outputs)
    case _ => true
  }

  predicate DocItemsOk(i: Items, inputs: Bodies, outputs: Bodies)
  {
    i.Item? ==> DocOk(i.head, inputs, outputs) && DocItemsOk(i.tail, inputs, outputs)
  }

  predicate DocFieldsOk(f: Fields, inputs: Bodies, outputs: Bodies)
  {
    f.Field? ==>
      && (if f.key == OUTPUT_SIDE then f.value == Bool(true) else DocOk(f.value, inputs, outputs))
      && DocFieldsOk(f.rest, inputs, outputs)
  }

  /** The ids of the schemas emitted on one side. */
  function Ids(v: Json, output: bool): set<string>
  {
    match v
    case Arr(items) => IdsItems(items, output)
    case Obj(f) =>
      if Has(f, DEFS) then if Marked(f) == output && Get(f, DEFS).Obj? then KeysOf(Get(f, DEFS).fields) else {}
      else IdsFields(f, output)
    case _ => {}
  }

  function IdsItems(i: Items, output: bool): set<string>
  {
    match i
    case NoItems => {}
    case Item(head, tail) => Ids(head, output) + IdsItems(tail, output)
  }

  function IdsFields(f: Fields, output: bool): set<string>
  {
    match f
    case NoFields => {}
    case Field(k, v, rest) => (if k == OUTPUT_SIDE then {} else Ids(v, output)) + IdsFields(rest, output)
  }

  // ---- Repointing under one naming ------------------------------------------

  predicate Agree(rs: set<string>, a: Names, b: Names)
  {
    forall r :: r in rs && Under(r, LOCAL) ==>
      && (NameIn(r, LOCAL) in a <==> NameIn(r, LOCAL) in b)
      && (NameIn(r, LOCAL) in a ==> a[NameIn(r, LOCAL)] == b[NameIn(r, LOCAL)])
  }

  lemma RepointAgrees(v: Json, a: Names, b: Names)
    requires Agree(Visible(v), a, b)
    ensures Repoint(v, a) == Repoint(v, b)
  {
    match v
    case Arr(items) => RepointAgreesItems(items, a, b);
    case Obj(f) => RepointAgreesFields(f, a, b);
    case _ =>
  }

  lemma RepointAgreesItems(i: Items, a: Names, b: Names)
    requires Agree(VisibleItems(i), a, b)
    ensures RepointItems(i, a) == RepointItems(i, b)
  {
    if i.Item? {
      RepointAgrees(i.head, a, b);
      RepointAgreesItems(i.tail, a, b);
    }
  }

  lemma RepointAgreesFields(f: Fields, a: Names, b: Names)
    requires Agree(VisibleFields(f), a, b)
    ensures RepointFields(f, a) == RepointFields(f, b)
  {
    if f.Field? {
      if f.key != REF {
        RepointAgrees(f.value, a, b);
      }
      RepointAgreesFields(f.rest, a, b);
    }
  }

  lemma RepointClean(v: Json, names: Names)
    requires Clean(v)
    ensures Clean(Repoint(v, names))
  {
    match v
    case Arr(items) => RepointCleanItems(items, names);
    case Obj(f) => RepointCleanFields(f, names);
    case _ =>
  }

  lemma RepointCleanItems(i: Items, names: Names)
    requires CleanItems(i)
    ensures CleanItems(RepointItems(i, names))
  {
    if i.Item? {
      RepointClean(i.head, names);
      RepointCleanItems(i.tail, names);
    }
  }

  lemma RepointCleanFields(f: Fields, names: Names)
    requires CleanFields(f)
    ensures CleanFields(RepointFields(f, names))
  {
    if f.Field? {
      RepointClean(f.value, names);
      RepointCleanFields(f.rest, names);
    }
  }

  lemma RepointWithout(f: Fields, names: Names, key: string)
    ensures Without(RepointFields(f, names), key) == RepointFields(Without(f, key), names)
  {
  }

  // ---- Unfolding a repointed value ------------------------------------------

  predicate BodyOk(v: Json, components: set<string>)
  {
    Plain(v) && Apart(Visible(v), components)
  }

  /** One side's bodies refer to no component. */
  predicate CatalogOk(bodies: Bodies, components: set<string>)
  {
    forall x :: x in bodies ==> BodyOk(bodies[x], components)
  }

  /** An id's component unfolds to what its body unfolds to on its side. */
  predicate MeansAt(x: string, bodies: Bodies, names: Names, into: Bodies, depth: nat)
  {
    && x in bodies && x in names && names[x] in into
    && Unfold(into[names[x]], GLOBAL, into, depth) == Unfold(bodies[x], LOCAL, bodies, depth)
  }

  /** So for every id, up to a depth. */
  ghost predicate Means(bodies: Bodies, names: Names, into: Bodies, depth: nat)
  {
    && names.Keys == bodies.Keys && (forall x :: x in bodies ==> names[x] in into)
    && forall x, k: nat :: x in bodies && k < depth ==> MeansAt(x, bodies, names, into, k)
  }

  lemma UnfoldRef(r: string, bodies: Bodies, names: Names, into: Bodies, depth: nat, rest: Fields, rest': Fields)
    requires Means(bodies, names, into, depth) && (Under(r, GLOBAL) ==> NameIn(r, GLOBAL) !in into)
    ensures UnfoldFields(Field(REF, Str(Retarget(r, names)), rest'), GLOBAL, into, depth).value
         == UnfoldFields(Field(REF, Str(r), rest), LOCAL, bodies, depth).value
  {
    assert LOCAL[2] != GLOBAL[2];
    if Under(r, LOCAL) && NameIn(r, LOCAL) in bodies {
      var x := NameIn(r, LOCAL);
      assert NameIn(GLOBAL + names[x], GLOBAL) == names[x];
      if depth > 0 {
        assert MeansAt(x, bodies, names, into, depth - 1);
      }
    }
  }

  lemma {:induction false} UnfoldRepoint(v: Json, bodies: Bodies, names: Names, into: Bodies, depth: nat)
    requires Means(bodies, names, into, depth) && BodyOk(v, into.Keys)
    ensures Unfold(Repoint(v, names), GLOBAL, into, depth) == Unfold(v, LOCAL, bodies, depth)
    decreases v
  {
    match v
    case Arr(items) => UnfoldRepointItems(items, bodies, names, into, depth);
    case Obj(f) => UnfoldRepointFields(f, bodies, names, into, depth);
    case _ =>
  }

  lemma {:induction false} UnfoldRepointItems(i: Items, bodies: Bodies, names: Names, into: Bodies, depth: nat)
    requires Means(bodies, names, into, depth) && PlainItems(i) && Apart(VisibleItems(i), into.Keys)
    ensures UnfoldItems(RepointItems(i, names), GLOBAL, into, depth) == UnfoldItems(i, LOCAL, bodies, depth)
    decreases i
  {
    if i.Item? {
      UnfoldRepoint(i.head, bodies, names, into, depth);
      UnfoldRepointItems(i.tail, bodies, names, into, depth);
    }
  }

  lemma {:induction false} UnfoldRepointFields(f: Fields, bodies: Bodies, names: Names, into: Bodies, depth: nat)
    requires Means(bodies, names, into, depth) && PlainFields(f) && Apart(VisibleFields(f), into.Keys)
    ensures UnfoldFields(RepointFields(f, names), GLOBAL, into, depth) == UnfoldFields(f, LOCAL, bodies, depth)
    decreases f
  {
    if f.Field? {
      UnfoldRepointFields(f.rest, bodies, names, into, depth);
      if f.key == REF {
        assert f.value.s in VisibleFields(f);
        UnfoldRef(f.value.s, bodies, names, into, depth, f.rest, RepointFields(f.rest, names));
      } else {
        UnfoldRepoint(f.value, bodies, names, into, depth);
      }
    }
  }

  /** Every body but those in `shared` is a component, repointed, under the name given to its id. */
  predicate LiftedBut(bodies: Bodies, names: Names, into: Bodies, shared: set<string>)
  {
    && names.Keys == bodies.Keys && (forall x :: x in bodies ==> names[x] in into)
    && forall x :: x in bodies && x !in shared ==> into[names[x]] == Repoint(bodies[x], names)
  }

  /** Components unfold as their bodies do, if those that are not this side's own do. */
  lemma {:induction false} LiftedMeans(bodies: Bodies, names: Names, into: Bodies, shared: set<string>, depth: nat)
    requires LiftedBut(bodies, names, into, shared) && CatalogOk(bodies, into.Keys)
    requires forall x, k: nat :: x in shared && x in bodies && k < depth ==> MeansAt(x, bodies, names, into, k)
    ensures Means(bodies, names, into, depth)
    decreases depth
  {
    if depth > 0 {
      LiftedMeans(bodies, names, into, shared, depth - 1);
      forall x | x in bodies && x !in shared ensures MeansAt(x, bodies, names, into, depth - 1) {
        assert BodyOk(bodies[x], into.Keys);
        UnfoldRepoint(bodies[x], bodies, names, into, depth - 1);
      }
    }
  }

  // ---- A schema's own `$defs` and its side's bodies --------------------------

  /** `own` is part of `bodies`, and refers to nothing else of it. */
  predicate ClosedPart(own: Bodies, bodies: Bodies)
  {
    forall x :: x in own ==>
      x in bodies && bodies[x] == own[x] && Plain(own[x]) && Within(Visible(own[x]), own.Keys, bodies.Keys)
  }

  lemma {:induction false} BodiesOfPart(defs: Fields, bodies: Bodies, ids: set<string>)
    requires DefsIn(defs, bodies) && PlainFields(defs) && Within(VisibleFields(defs), ids, bodies.Keys)
    ensures BodiesOf(defs).Keys == KeysOf(defs)
    ensures forall x :: x in BodiesOf(defs) ==>
      x in bodies && bodies[x] == BodiesOf(defs)[x] && Plain(bodies[x]) && Within(Visible(bodies[x]), ids, bodies.Keys)
  {
    if defs.Field? {
      BodiesOfPart(defs.rest, bodies, ids);
    }
  }

  lemma {:induction false} UnfoldPart(v: Json, own: Bodies, bodies: Bodies, depth: nat)
    requires ClosedPart(own, bodies) && Plain(v) && Within(Visible(v), own.Keys, bodies.Keys)
    ensures Unfold(v, LOCAL, own, depth) == Unfold(v, LOCAL, bodies, depth)
    decreases depth, v
  {
    match v
    case Arr(items) => UnfoldPartItems(items, own, bodies, depth);
    case Obj(f) => UnfoldPartFields(f, own, bodies, depth);
    case _ =>
  }

  lemma {:induction false} UnfoldPartItems(i: Items, own: Bodies, bodies: Bodies, depth: nat)
    requires ClosedPart(own, bodies) && PlainItems(i) && Within(VisibleItems(i), own.Keys, bodies.Keys)
    ensures UnfoldItems(i, LOCAL, own, depth) == UnfoldItems(i, LOCAL, bodies, depth)
    decreases depth, i
  {
    if i.Item? {
      UnfoldPart(i.head, own, bodies, depth);
      UnfoldPartItems(i.tail, own, bodies, depth);
    }
  }

  lemma {:induction false} UnfoldPartFields(f: Fields, own: Bodies, bodies: Bodies, depth: nat)
    requires ClosedPart(own, bodies) && PlainFields(f) && Within(VisibleFields(f), own.Keys, bodies.Keys)
    ensures UnfoldFields(f, LOCAL, own, depth) == UnfoldFields(f, LOCAL, bodies, depth)
    decreases depth, f
  {
    if f.Field? {
      UnfoldPartFields(f.rest, own, bodies, depth);
      if f.key != REF {
        UnfoldPart(f.value, own, bodies, depth);
      } else if Under(f.value.s, LOCAL) && NameIn(f.value.s, LOCAL) in bodies && depth > 0 {
        assert f.value.s in VisibleFields(f);
        UnfoldPart(own[NameIn(f.value.s, LOCAL)], own, bodies, depth - 1);
      }
    }
  }

  /** A schema under its own `$defs` is its rewritten wrapper under the components. */
  lemma SchemaUnfolds(f: Fields, bodies: Bodies, names: Names, into: Bodies, depth: nat)
    requires Has(f, DEFS) && SchemaOk(f, bodies)
    requires Means(bodies, names, into, depth) && Apart(VisibleFields(Wrapper(f)), into.Keys)
    ensures UnfoldFields(RepointFields(Wrapper(f), names), GLOBAL, into, depth)
         == UnfoldFields(Wrapper(f), LOCAL, BodiesOf(Get(f, DEFS).fields), depth)
  {
    var defs := Get(f, DEFS).fields;
    BodiesOfPart(defs, bodies, KeysOf(defs));
    UnfoldPartFields(Wrapper(f), BodiesOf(defs), bodies, depth);
    UnfoldRepointFields(Wrapper(f), bodies, names, into, depth);
  }

  // ---- One pass under one naming ---------------------------------------------

  /** A pass over one side: what was there before it, that side's bodies, and where each id goes. */
  datatype Pass = Pass(base: Acc, bodies: Bodies, names: Names, output: bool)

  predicate NameOk(x: string, p: Pass)
    requires x in p.bodies && x in p.names && p.base.local.Keys == p.base.into.Keys
  {
    if x in p.base.local && p.base.local[x] != p.bodies[x]
    then p.output && p.names[x] == x + "Output" && p.names[x] !in p.base.local
    else p.names[x] == x
  }

  predicate PassOk(p: Pass)
  {
    && p.base.local.Keys == p.base.into.Keys && p.names.Keys == p.bodies.Keys
    && (forall x, y :: x in p.bodies && y in p.bodies && x != y ==> p.names[x] != p.names[y] && p.names[y] != x)
    && (forall x :: x in p.bodies ==> NameOk(x, p))
  }

  /** An id's component: its body, repointed, unless one was there before for an equal body. */
  predicate Placed(x: string, acc: Acc, p: Pass)
  {
    && x in p.bodies && x in p.names && p.names[x] in acc.local && p.names[x] in acc.into
    && acc.local[p.names[x]] == p.bodies[x]
    && (p.names[x] in p.base.into || acc.into[p.names[x]] == Repoint(p.bodies[x], p.names))
  }

  predicate Kept(c: string, acc: Acc, base: Acc)
  {
    && c in base.local && c in base.into && c in acc.local && c in acc.into
    && acc.local[c] == base.local[c] && acc.into[c] == base.into[c]
  }

  predicate From(c: string, done: set<string>, names: Names)
  {
    exists x :: x in done && x in names && names[x] == c
  }

  /** Part of a pass: what was there before, and the ids in `done`, and nothing else. */
  predicate Progress(acc: Acc, p: Pass, done: set<string>)
  {
    && acc.local.Keys == acc.into.Keys
    && (forall c :: c in p.base.local ==> Kept(c, acc, p.base))
    && (forall x :: x in done ==> Placed(x, acc, p))
    && (forall c :: c in acc.local && c !in p.base.local ==> From(c, done, p.names))
  }

  lemma ComponentIs(x: string, acc: Acc, p: Pass, done: set<string>)
    requires PassOk(p) && Progress(acc, p, done) && x in p.bodies
    ensures ComponentFor(x, p.bodies[x], acc.local, p.output) == p.names[x]
  {
    assert NameOk(x, p);
    if x in p.base.local {
      assert Kept(x, acc, p.base);
    } else if x in acc.local {
      assert From(x, done, p.names);
      var y :| y in done && y in p.names && p.names[y] == x;
      assert Placed(y, acc, p);
    }
  }

  lemma {:induction false} NamesOfAre(defs: Fields, acc: Acc, p: Pass, done: set<string>)
    requires PassOk(p) && Progress(acc, p, done) && DefsIn(defs, p.bodies)
    ensures var own := NamesOf(defs, acc.local, p.output);
            own.Keys == KeysOf(defs) && KeysOf(defs) <= p.bodies.Keys && forall x :: x in own ==> own[x] == p.names[x]
    decreases defs
  {
    if defs.Field? {
      ComponentIs(defs.key, acc, p, done);
      NamesOfAre(defs.rest, acc, p, done);
    }
  }

  lemma MovedOneProgress(defs: Fields, own: Names, acc: Acc, p: Pass, done: set<string>)
    requires PassOk(p) && Progress(acc, p, done)
    requires defs.Field? && DefsIn(defs, p.bodies) && defs.key in own && own[defs.key] == p.names[defs.key]
    requires Repoint(defs.value, own) == Repoint(defs.value, p.names)
    ensures Progress(MovedOne(defs, own, acc), p, done + {defs.key})
  {
    var x, acc' := defs.key, MovedOne(defs, own, acc);
    assert NameOk(x, p);
    assert Placed(x, acc', p) by {
      if p.names[x] in p.base.local {
        assert Kept(x, acc, p.base);
      } else if p.names[x] in acc.local {
        var y :| y in done && y in p.names && p.names[y] == p.names[x];
        assert Placed(y, acc, p);
      }
    }
    forall c | c in p.base.local ensures Kept(c, acc', p.base) { assert Kept(c, acc, p.base); }
    forall y | y in done ensures Placed(y, acc', p) { assert Placed(y, acc, p); }
    forall c | c in acc'.local && c !in p.base.local ensures From(c, done + {x}, p.names) {
      if c in acc.local {
        assert From(c, done, p.names);
        var y :| y in done && y in p.names && p.names[y] == c;
        assert y in done + {x};
      }
    }
  }

  lemma {:induction false} MovedProgress(defs: Fields, own: Names, acc: Acc, p: Pass, done: set<string>)
    requires PassOk(p) && Progress(acc, p, done)
    requires DefsIn(defs, p.bodies) && PlainFields(defs) && Within(VisibleFields(defs), own.Keys, p.bodies.Keys)
    requires KeysOf(defs) <= own.Keys <= p.bodies.Keys && forall x :: x in own ==> own[x] == p.names[x]
    ensures Progress(Moved(defs, own, acc), p, done + KeysOf(defs))
    decreases defs
  {
    if defs.Field? {
      assert Agree(Visible(defs.value), own, p.names);
      RepointAgrees(defs.value, own, p.names);
      MovedOneProgress(defs, own, acc, p, done);
      MovedProgress(defs.rest, own, MovedOne(defs, own, acc), p, done + {defs.key});
      assert done + KeysOf(defs) == done + {defs.key} + KeysOf(defs.rest);
    } else {
      assert done + KeysOf(defs) == done;
    }
  }

  /** An emitted schema of this side gives up its `$defs` and is repointed under the one naming. */
  lemma SchemaLifts(f: Fields, acc: Acc, p: Pass, done: set<string>)
    requires PassOk(p) && Progress(acc, p, done)
    requires Has(f, DEFS) && SchemaOk(f, p.bodies) && Marked(f) == p.output && (p.output || !Has(f, OUTPUT_SIDE))
    ensures AtObject(f, acc, p.output).0 == RepointFields(Wrapper(f), p.names)
    ensures Progress(AtObject(f, acc, p.output).1, p, done + KeysOf(Get(f, DEFS).fields))
  {
    var defs := Get(f, DEFS).fields;
    var own := NamesOf(defs, acc.local, p.output);
    var start := acc.(renamed := RenamedBy(defs, acc.local, p.output, acc.renamed));
    NamesOfAre(defs, acc, p, done);
    assert Progress(start, p, done) by { SameMapsProgress(acc, start, p, done); }
    MovedProgress(defs, own, start, p, done);
    RepointWithout(Without(f, DEFS), own, OUTPUT_SIDE);
    if !p.output {
      WithoutHas(f, DEFS, OUTPUT_SIDE);
      WithoutAbsent(Without(f, DEFS), OUTPUT_SIDE);
    }
    assert Agree(VisibleFields(Wrapper(f)), own, p.names);
    RepointAgreesFields(Wrapper(f), own, p.names);
  }

  lemma SameMapsProgress(acc: Acc, acc': Acc, p: Pass, done: set<string>)
    requires Progress(acc, p, done) && acc'.local == acc.local && acc'.into == acc.into
    ensures Progress(acc', p, done)
  {
    forall c | c in p.base.local ensures Kept(c, acc', p.base) { assert Kept(c, acc, p.base); }
    forall y | y in done ensures Placed(y, acc', p) { assert Placed(y, acc, p); }
  }

  // ---- What a pass makes of a document ---------------------------------------

  /** The document after one pass, told without accumulators. */
  function Rewritten(v: Json, output: bool, names: Names): Json
  {
    match v
    case Arr(items) => Arr(RewrittenItems(items, output, names))
    case Obj(f) =>
      if !Has(f, DEFS) then Obj(RewrittenFields(f, output, names))
      else if Marked(f) == output then Obj(RepointFields(Wrapper(f), names))
      else v
    case _ => v
  }

  function RewrittenItems(i: Items, output: bool, names: Names): Items
  {
    match i
    case NoItems => NoItems
    case Item(head, tail) => Item(Rewritten(head, output, names), RewrittenItems(tail, output, names))
  }

  function RewrittenFields(f: Fields, output: bool, names: Names): Fields
  {
    match f
    case NoFields => NoFields
    case Field(k, v, rest) =>
      var rest' := RewrittenFields(rest, output, names);
      if k != OUTPUT_SIDE then Field(k, Rewritten(v, output, names), rest') else if output then rest' else Field(k, v, rest')
  }

  lemma {:induction false} ChildrenCleanFixed(f: Fields, acc: Acc, output: bool)
    requires ChildrenClean(f)
    ensures LiftFields(f, acc, output) == (f, acc)
    decreases f
  {
    if f.Field? {
      CleanFixed(f.value, acc, output);
      ChildrenCleanFixed(f.rest, acc, output);
    }
  }

  lemma {:induction false} PassRewrites(v: Json, acc: Acc, p: Pass, inputs: Bodies, outputs: Bodies, done: set<string>)
    requires PassOk(p) && Progress(acc, p, done) && p.bodies == (if p.output then outputs else inputs)
    requires DocOk(v, inputs, outputs) && (p.output ==> DefsMarked(v))
    ensures Lift(v, acc, p.output).0 == Rewritten(v, p.output, p.names)
    ensures Progress(Lift(v, acc, p.output).1, p, done + Ids(v, p.output))
    decreases v
  {
    match v
    case Arr(items) => PassRewritesItems(items, acc, p, inputs, outputs, done);
    case Obj(f) =>
      if !Has(f, DEFS) {
        PassRewritesFields(f, acc, p, inputs, outputs, done);
      } else if Marked(f) == p.output {
        SchemaLifts(f, acc, p, done);
        RepointCleanFields(Wrapper(f), p.names);
        CleanFieldsFixed(RepointFields(Wrapper(f), p.names), AtObject(f, acc, p.output).1, p.output);
      } else {
        ChildrenCleanFixed(f, acc, p.output);
        assert done + Ids(v, p.output) == done;
      }
    case _ => assert done + Ids(v, p.output) == done;
  }

  lemma {:induction false} PassRewritesItems(i: Items, acc: Acc, p: Pass, inputs: Bodies, outputs: Bodies, done: set<string>)
    requires PassOk(p) && Progress(acc, p, done) && p.bodies == (if p.output then outputs else inputs)
    requires DocItemsOk(i, inputs, outputs) && (p.output ==> DefsMarkedItems(i))
    ensures LiftItems(i, acc, p.output).0 == RewrittenItems(i, p.output, p.names)
    ensures Progress(LiftItems(i, acc, p.output).1, p, done + IdsItems(i, p.output))
    decreases i
  {
    if i.Item? {
      PassRewrites(i.head, acc, p, inputs, outputs, done);
      var done1 := done + Ids(i.head, p.output);
      PassRewritesItems(i.tail, Lift(i.head, acc, p.output).1, p, inputs, outputs, done1);
      assert done + IdsItems(i, p.output) == done1 + IdsItems(i.tail, p.output);
    } else {
      assert done + IdsItems(i, p.output) == done;
    }
  }

  /** The fields a pass visits: the output side drops markers first. */
  function Visited(f: Fields, output: bool): Fields
  {
    if output then Without(f, OUTPUT_SIDE) else f
  }

  lemma {:induction false} PassRewritesFields(f: Fields, acc: Acc, p: Pass, inputs: Bodies, outputs: Bodies, done: set<string>)
    requires PassOk(p) && Progress(acc, p, done) && p.bodies == (if p.output then outputs else inputs)
    requires DocFieldsOk(f, inputs, outputs) && (p.output ==> DefsMarkedFields(f))
    ensures LiftFields(Visited(f, p.output), acc, p.output).0 == RewrittenFields(f, p.output, p.names)
    ensures Progress(LiftFields(Visited(f, p.output), acc, p.output).1, p, done + IdsFields(f, p.output))
    decreases f
  {
    if f.NoFields? {
      assert done + IdsFields(f, p.output) == done;
    } else if f.key == OUTPUT_SIDE {
      PassRewritesFields(f.rest, acc, p, inputs, outputs, done);
      assert IdsFields(f, p.output) == IdsFields(f.rest, p.output);
    } else {
      PassRewrites(f.value, acc, p, inputs, outputs, done);
      var done1 := done + Ids(f.value, p.output);
      PassRewritesFields(f.rest, Lift(f.value, acc, p.output).1, p, inputs, outputs, done1);
      assert done + IdsFields(f, p.output) == done1 + IdsFields(f.rest, p.output);
    }
  }

  // ---- The two passes ---------------------------------------------------------

  lemma CleanIsOk(v: Json, inputs: Bodies, outputs: Bodies, names: Names)
    requires Clean(v)
    ensures DocOk(v, inputs, outputs) && Ids(v, true) == {} && Rewritten(v, true, names) == v
  {
    match v
    case Arr(items) => CleanItemsAreOk(items, inputs, outputs, names);
    case Obj(f) => CleanHas(f); CleanFieldsAreOk(f, inputs, outputs, names);
    case _ =>
  }

  lemma CleanItemsAreOk(i: Items, inputs: Bodies, outputs: Bodies, names: Names)
    requires CleanItems(i)
    ensures DocItemsOk(i, inputs, outputs) && IdsItems(i, true) == {} && RewrittenItems(i, true, names) == i
  {
    if i.Item? {
      CleanIsOk(i.head, inputs, outputs, names);
      CleanItemsAreOk(i.tail, inputs, outputs, names);
    }
  }

  lemma CleanFieldsAreOk(f: Fields, inputs: Bodies, outputs: Bodies, names: Names)
    requires CleanFields(f)
    ensures DocFieldsOk(f, inputs, outputs) && IdsFields(f, true) == {} && RewrittenFields(f, true, names) == f
  {
    if f.Field? {
      CleanIsOk(f.value, inputs, outputs, names);
      CleanFieldsAreOk(f.rest, inputs, outputs, names);
    }
  }

  lemma RewrittenHas(f: Fields, names: Names)
    ensures var f' := RewrittenFields(f, false, names);
            Has(f', DEFS) == Has(f, DEFS) && Has(f', OUTPUT_SIDE) == Has(f, OUTPUT_SIDE) && Marked(f') == Marked(f)
  {
  }

  /** The input pass leaves the output side as it was. */
  lemma {:induction false} InputPassKeepsOutputs(v: Json, inputs: Bodies, outputs: Bodies, names: Names)
    requires DocOk(v, inputs, outputs)
    ensures var v' := Rewritten(v, false, names); DocOk(v', inputs, outputs) && Ids(v', true) == Ids(v, true)
  {
    match v
    case Arr(items) => InputPassKeepsOutputsItems(items, inputs, outputs, names);
    case Obj(f) =>
      if !Has(f, DEFS) {
        RewrittenHas(f, names);
        InputPassKeepsOutputsFields(f, inputs, outputs, names);
      } else if !Marked(f) {
        RepointCleanFields(Wrapper(f), names);
        CleanIsOk(Obj(RepointFields(Wrapper(f), names)), inputs, outputs, names);
      }
    case _ =>
  }

  lemma {:induction false} InputPassKeepsOutputsItems(i: Items, inputs: Bodies, outputs: Bodies, names: Names)
    requires DocItemsOk(i, inputs, outputs)
    ensures var i' := RewrittenItems(i, false, names); DocItemsOk(i', inputs, outputs) && IdsItems(i', true) == IdsItems(i, true)
  {
    if i.Item? {
      InputPassKeepsOutputs(i.head, inputs, outputs, names);
      InputPassKeepsOutputsItems(i.tail, inputs, outputs, names);
    }
  }

  lemma {:induction false} InputPassKeepsOutputsFields(f: Fields, inputs: Bodies, outputs: Bodies, names: Names)
    requires DocFieldsOk(f, inputs, outputs)
    ensures var f' := RewrittenFields(f, false, names); DocFieldsOk(f', inputs, outputs) && IdsFields(f', true) == IdsFields(f, true)
  {
    if f.Field? {
      if f.key != OUTPUT_SIDE {
        InputPassKeepsOutputs(f.value, inputs, outputs, names);
      }
      InputPassKeepsOutputsFields(f.rest, inputs, outputs, names);
    }
  }

  /** Both sides and where their ids went. */
  datatype Sides = Sides(inputs: Bodies, outputs: Bodies, inNames: Names, outNames: Names, into: Bodies)

  /** Both sides' components unfold as their bodies do, up to a depth. */
  ghost predicate SidesMean(s: Sides, depth: nat)
  {
    Means(s.inputs, s.inNames, s.into, depth) && Means(s.outputs, s.outNames, s.into, depth)
  }

  function Twice(v: Json, s: Sides): Json
  {
    Rewritten(Rewritten(v, false, s.inNames), true, s.outNames)
  }

  lemma VisibleWithout(f: Fields, key: string)
    ensures VisibleFields(Without(f, key)) <= VisibleFields(f)
  {
  }

  lemma {:induction false} RewrittenMeans(v: Json, s: Sides, depth: nat)
    requires SidesMean(s, depth) && DocOk(v, s.inputs, s.outputs) && Apart(Refs(v), s.into.Keys)
    ensures Unfold(Twice(v, s), GLOBAL, s.into, depth) == Meaning(v, depth)
    decreases v
  {
    match v
    case Arr(items) => RewrittenMeansItems(items, s, depth);
    case Obj(f) =>
      if !Has(f, DEFS) {
        RewrittenHas(f, s.inNames);
        RewrittenMeansFields(f, s, depth);
      } else {
        VisibleWithout(f, DEFS);
        VisibleWithout(Without(f, DEFS), OUTPUT_SIDE);
        if Marked(f) {
          SchemaUnfolds(f, s.outputs, s.outNames, s.into, depth);
        } else {
          SchemaUnfolds(f, s.inputs, s.inNames, s.into, depth);
          RepointCleanFields(Wrapper(f), s.inNames);
          CleanIsOk(Obj(RepointFields(Wrapper(f), s.inNames)), s.inputs, s.outputs, s.outNames);
        }
      }
    case _ =>
  }

  lemma {:induction false} RewrittenMeansItems(i: Items, s: Sides, depth: nat)
    requires SidesMean(s, depth) && DocItemsOk(i, s.inputs, s.outputs) && Apart(VisibleItems(i) + HiddenItems(i), s.into.Keys)
    ensures UnfoldItems(RewrittenItems(RewrittenItems(i, false, s.inNames), true, s.outNames), GLOBAL, s.into, depth)
         == MeaningItems(i, depth)
    decreases i
  {
    if i.Item? {
      RewrittenMeans(i.head, s, depth);
      RewrittenMeansItems(i.tail, s, depth);
    }
  }

  lemma {:induction false} RewrittenMeansFields(f: Fields, s: Sides, depth: nat)
    requires SidesMean(s, depth) && DocFieldsOk(f, s.inputs, s.outputs) && Apart(RefsFields(f), s.into.Keys)
    ensures UnfoldFields(RewrittenFields(RewrittenFields(f, false, s.inNames), true, s.outNames), GLOBAL, s.into, depth)
         == MeaningFields(f, depth)
    decreases f
  {
    if f.Field? {
      RewrittenMeansFields(f.rest, s, depth);
      if f.key != OUTPUT_SIDE {
        RewrittenMeans(f.value, s, depth);
        if f.key == REF && f.value.Str? {
          assert f.value.s in RefsFields(f);
        }
      }
    }
  }

  // ---- The theorem ------------------------------------------------------------

  function InNames(inputs: Bodies): Names
  {
    map x | x in inputs :: x
  }

  function OutNames(inputs: Bodies, outputs: Bodies): Names
  {
    map x | x in outputs :: if x in inputs && inputs[x] != outputs[x] then x + "Output" else x
  }

  predicate Same(x: string, inputs: Bodies, outputs: Bodies)
  {
    x in inputs && x in outputs && inputs[x] == outputs[x]
  }

  /** Suffixed names are fresh. */
  predicate FreshSuffixes(inputs: Bodies, outputs: Bodies)
  {
    forall x :: x in inputs && x in outputs && inputs[x] != outputs[x] ==>
      x + "Output" !in inputs && x + "Output" !in outputs
  }

  /** The components a document with these sides ends up with. */
  function Components(inputs: Bodies, outputs: Bodies): set<string>
  {
    inputs.Keys + OutNames(inputs, outputs).Values
  }

  lemma InputPlaced(inputs: Bodies, base: Acc, x: string)
    requires Progress(base, Pass(Empty(), inputs, InNames(inputs), false), inputs.Keys) && x in inputs
    ensures x in base.local && base.local[x] == inputs[x]
  {
    assert Placed(x, base, Pass(Empty(), inputs, InNames(inputs), false));
  }

  lemma InputFrom(inputs: Bodies, base: Acc, c: string)
    requires Progress(base, Pass(Empty(), inputs, InNames(inputs), false), inputs.Keys) && c in base.local
    ensures c in inputs
  {
    assert From(c, inputs.Keys, InNames(inputs));
  }

  /** What the input pass leaves as seen is the input side. */
  lemma InputBase(inputs: Bodies, base: Acc)
    requires Progress(base, Pass(Empty(), inputs, InNames(inputs), false), inputs.Keys)
    ensures base.local == inputs && base.into.Keys == inputs.Keys
  {
    forall x | x in inputs ensures x in base.local && base.local[x] == inputs[x] { InputPlaced(inputs, base, x); }
    forall c | c in base.local ensures c in inputs { InputFrom(inputs, base, c); }
  }

  lemma OutNamesApart(inputs: Bodies, outputs: Bodies, x: string, y: string)
    requires FreshSuffixes(inputs, outputs) && x in outputs && y in outputs && x != y
    ensures OutNames(inputs, outputs)[x] != OutNames(inputs, outputs)[y] && OutNames(inputs, outputs)[y] != x
  {
    assert (x + "Output")[..|x|] == x && (y + "Output")[..|y|] == y;
  }

  lemma OutputPassOk(inputs: Bodies, outputs: Bodies, base: Acc)
    requires FreshSuffixes(inputs, outputs) && base.local == inputs && base.into.Keys == inputs.Keys
    ensures PassOk(Pass(base, outputs, OutNames(inputs, outputs), true))
  {
    var p := Pass(base, outputs, OutNames(inputs, outputs), true);
    assert forall x :: x in outputs ==> NameOk(x, p);
    forall x, y | x in outputs && y in outputs && x != y ensures p.names[x] != p.names[y] && p.names[y] != x {
      OutNamesApart(inputs, outputs, x, y);
    }
  }

  /** What the input pass placed is still there after the output pass. */
  lemma InputsAreLifted(acc: Acc, inputs: Bodies, outputs: Bodies, base: Acc)
    requires Progress(base, Pass(Empty(), inputs, InNames(inputs), false), inputs.Keys)
    requires Progress(acc, Pass(base, outputs, OutNames(inputs, outputs), true), outputs.Keys)
    ensures LiftedBut(inputs, InNames(inputs), acc.into, {})
  {
    forall x | x in inputs
      ensures x in acc.into && acc.into[x] == Repoint(inputs[x], InNames(inputs))
    {
      InputStays(acc, inputs, base, Pass(base, outputs, OutNames(inputs, outputs), true), outputs.Keys, x);
    }
  }

  lemma InputStays(acc: Acc, inputs: Bodies, base: Acc, p: Pass, done: set<string>, x: string)
    requires Progress(base, Pass(Empty(), inputs, InNames(inputs), false), inputs.Keys)
    requires p.base == base && Progress(acc, p, done) && x in inputs
    ensures x in acc.into && acc.into[x] == Repoint(inputs[x], InNames(inputs))
  {
    assert Placed(x, base, Pass(Empty(), inputs, InNames(inputs), false));
    assert Kept(x, acc, base);
  }

  /** The ids whose two bodies are equal. */
  function Shared(inputs: Bodies, outputs: Bodies): set<string>
  {
    set x | x in outputs && Same(x, inputs, outputs)
  }

  lemma OutputPlaced(acc: Acc, inputs: Bodies, base: Acc, p: Pass, x: string)
    requires p.base == base && base.into.Keys == inputs.Keys && FreshSuffixes(inputs, p.bodies)
    requires p.names == OutNames(inputs, p.bodies) && x in p.bodies && Placed(x, acc, p)
    ensures !Same(x, inputs, p.bodies) ==> acc.into[p.names[x]] == Repoint(p.bodies[x], p.names)
  {
  }

  lemma OutputsAreLifted(acc: Acc, inputs: Bodies, outputs: Bodies, base: Acc)
    requires base.into.Keys == inputs.Keys && FreshSuffixes(inputs, outputs)
    requires Progress(acc, Pass(base, outputs, OutNames(inputs, outputs), true), outputs.Keys)
    ensures LiftedBut(outputs, OutNames(inputs, outputs), acc.into, Shared(inputs, outputs))
  {
    var p := Pass(base, outputs, OutNames(inputs, outputs), true);
    forall x | x in outputs
      ensures p.names[x] in acc.into
      ensures x !in Shared(inputs, outputs) ==> acc.into[p.names[x]] == Repoint(outputs[x], p.names)
    {
      assert Placed(x, acc, p);
      OutputPlaced(acc, inputs, base, p, x);
    }
  }

  lemma ComponentsAre(acc: Acc, inputs: Bodies, outputs: Bodies, base: Acc)
    requires base.local.Keys == inputs.Keys
    requires Progress(acc, Pass(base, outputs, OutNames(inputs, outputs), true), outputs.Keys)
    ensures acc.into.Keys == Components(inputs, outputs)
  {
    var p := Pass(base, outputs, OutNames(inputs, outputs), true);
    forall c | c in acc.into && c !in inputs ensures c in p.names.Values {
      assert From(c, outputs.Keys, p.names);
    }
    forall c | c in inputs ensures c in acc.into {
      assert Kept(c, acc, base);
    }
    forall c | c in p.names.Values ensures c in acc.into {
      var x :| x in p.names && p.names[x] == c;
      assert Placed(x, acc, p);
    }
  }

  /** What is asked of a document and its two sides; nothing of what shared ids refer to. */
  predicate DocumentOk(roots: Items, inputs: Bodies, outputs: Bodies)
  {
    var components := Components(inputs, outputs);
    && DocItemsOk(roots, inputs, outputs) && FreshSuffixes(inputs, outputs)
    && inputs.Keys == IdsItems(roots, false) && outputs.Keys == IdsItems(roots, true)
    && CatalogOk(inputs, components) && CatalogOk(outputs, components)
    && Apart(VisibleItems(roots) + HiddenItems(roots), components)
  }

  /** An id with two equal bodies unfolds alike on both sides. */
  ghost predicate SharedAgree(inputs: Bodies, outputs: Bodies)
  {
    forall x, depth: nat :: Same(x, inputs, outputs) ==> AgreesAt(x, inputs, outputs, depth)
  }

  predicate AgreesAt(x: string, inputs: Bodies, outputs: Bodies, depth: nat)
    requires x in inputs && x in outputs
  {
    Unfold(inputs[x], LOCAL, inputs, depth) == Unfold(outputs[x], LOCAL, outputs, depth)
  }

  /** Both passes: the document rewritten twice, and where both sides' bodies are. */
  lemma BothPassesRewrite(roots: Items, inputs: Bodies, outputs: Bodies)
    requires DocItemsOk(roots, inputs, outputs) && FreshSuffixes(inputs, outputs)
    requires inputs.Keys == IdsItems(roots, false) && outputs.Keys == IdsItems(roots, true)
    ensures var (roots', acc) := BothPasses(roots, Empty());
            && roots' == RewrittenItems(RewrittenItems(roots, false, InNames(inputs)), true, OutNames(inputs, outputs))
            && LiftedBut(inputs, InNames(inputs), acc.into, {})
            && LiftedBut(outputs, OutNames(inputs, outputs), acc.into, Shared(inputs, outputs))
            && acc.into.Keys == Components(inputs, outputs)
  {
    var first := Pass(Empty(), inputs, InNames(inputs), false);
    var (roots1, base) := LiftItems(roots, Empty(), false);
    assert roots1 == RewrittenItems(roots, false, first.names) && Progress(base, first, inputs.Keys) by {
      PassRewritesItems(roots, Empty(), first, inputs, outputs, {});
      assert {} + IdsItems(roots, false) == inputs.Keys;
    }
    InputBase(inputs, base);
    OutputPassOk(inputs, outputs, base);
    OutputPassRewrites(roots, roots1, inputs, outputs, base);
    var acc := LiftItems(roots1, base, true).1;
    InputsAreLifted(acc, inputs, outputs, base);
    OutputsAreLifted(acc, inputs, outputs, base);
    ComponentsAre(acc, inputs, outputs, base);
  }

  /** The input side's components always mean what its bodies mean. */
  lemma InputsMean(roots: Items, inputs: Bodies, outputs: Bodies, depth: nat)
    requires DocumentOk(roots, inputs, outputs)
    ensures Means(inputs, InNames(inputs), BothPasses(roots, Empty()).1.into, depth)
  {
    BothPassesRewrite(roots, inputs, outputs);
    LiftedMeans(inputs, InNames(inputs), BothPasses(roots, Empty()).1.into, {}, depth);
  }

  /** A shared id's component means what the input side means by it. */
  lemma SharedMeans(roots: Items, inputs: Bodies, outputs: Bodies, x: string, depth: nat)
    requires DocumentOk(roots, inputs, outputs) && Same(x, inputs, outputs)
    ensures MeansAt(x, outputs, OutNames(inputs, outputs), BothPasses(roots, Empty()).1.into, depth)
       <==> AgreesAt(x, inputs, outputs, depth)
  {
    InputsMean(roots, inputs, outputs, depth + 1);
    assert MeansAt(x, inputs, InNames(inputs), BothPasses(roots, Empty()).1.into, depth);
  }

  lemma OutputsMean(roots: Items, inputs: Bodies, outputs: Bodies, depth: nat)
    requires DocumentOk(roots, inputs, outputs) && SharedAgree(inputs, outputs)
    ensures Means(outputs, OutNames(inputs, outputs), BothPasses(roots, Empty()).1.into, depth)
  {
    var into, shared := BothPasses(roots, Empty()).1.into, Shared(inputs, outputs);
    BothPassesRewrite(roots, inputs, outputs);
    forall x, k: nat | x in shared && x in outputs && k < depth
      ensures MeansAt(x, outputs, OutNames(inputs, outputs), into, k)
    {
      SharedMeans(roots, inputs, outputs, x, k);
    }
    LiftedMeans(outputs, OutNames(inputs, outputs), into, shared, depth);
  }

  /** Every output id's component unfolds as its body does on its side, at every depth. */
  ghost predicate OutputFormsKept(inputs: Bodies, outputs: Bodies, into: Bodies)
  {
    forall x, depth: nat :: x in outputs ==> MeansAt(x, outputs, OutNames(inputs, outputs), into, depth)
  }

  /** Exactly when a response's ids keep their meaning: if and only if every id with two equal bodies
      unfolds alike on both sides. */
  lemma OutputFormsKeptIff(roots: Items, inputs: Bodies, outputs: Bodies)
    requires DocumentOk(roots, inputs, outputs)
    ensures OutputFormsKept(inputs, outputs, BothPasses(roots, Empty()).1.into) <==> SharedAgree(inputs, outputs)
  {
    var into := BothPasses(roots, Empty()).1.into;
    if SharedAgree(inputs, outputs) {
      forall x, depth: nat | x in outputs ensures MeansAt(x, outputs, OutNames(inputs, outputs), into, depth) {
        OutputsMean(roots, inputs, outputs, depth + 1);
      }
    }
    if OutputFormsKept(inputs, outputs, into) {
      forall x, depth: nat | Same(x, inputs, outputs) ensures AgreesAt(x, inputs, outputs, depth) {
        SharedMeans(roots, inputs, outputs, x, depth);
        assert MeansAt(x, outputs, OutNames(inputs, outputs), into, depth);
      }
    }
  }

  /** An id with two equal bodies refers only to such ids. */
  predicate SharedClosed(inputs: Bodies, outputs: Bodies)
  {
    forall x :: x in Shared(inputs, outputs) ==>
      Within(Visible(inputs[x]), Shared(inputs, outputs), inputs.Keys + outputs.Keys)
  }

  /** What a reader can see in the text suffices. */
  lemma SharedClosedAgree(inputs: Bodies, outputs: Bodies)
    requires SharedClosed(inputs, outputs) && forall x :: x in inputs ==> Plain(inputs[x])
    ensures SharedAgree(inputs, outputs)
  {
    var own := map x | x in Shared(inputs, outputs) :: inputs[x];
    assert ClosedPart(own, inputs) && ClosedPart(own, outputs);
    forall x, depth: nat | Same(x, inputs, outputs) ensures AgreesAt(x, inputs, outputs, depth) {
      assert x in own && own[x] == inputs[x] == outputs[x];
      UnfoldPart(own[x], own, inputs, depth);
      UnfoldPart(own[x], own, outputs, depth);
    }
  }

  /** Lifting changes where the bodies are and not what any reference unfolds to, at every depth. */
  lemma MeaningPreserved(roots: Items, inputs: Bodies, outputs: Bodies, depth: nat)
    requires DocumentOk(roots, inputs, outputs) && SharedAgree(inputs, outputs)
    ensures var (roots', acc) := BothPasses(roots, Empty());
            && acc.into.Keys == Components(inputs, outputs)
            && UnfoldItems(roots', GLOBAL, acc.into, depth) == MeaningItems(roots, depth)
  {
    BothPassesRewrite(roots, inputs, outputs);
    var into := BothPasses(roots, Empty()).1.into;
    InputsMean(roots, inputs, outputs, depth);
    OutputsMean(roots, inputs, outputs, depth);
    RewrittenMeansItems(roots, Sides(inputs, outputs, InNames(inputs), OutNames(inputs, outputs), into), depth);
  }

  lemma OutputPassRewrites(roots: Items, roots1: Items, inputs: Bodies, outputs: Bodies, base: Acc)
    requires DocItemsOk(roots, inputs, outputs) && outputs.Keys == IdsItems(roots, true)
    requires (roots1, base) == LiftItems(roots, Empty(), false) && roots1 == RewrittenItems(roots, false, InNames(inputs))
    requires PassOk(Pass(base, outputs, OutNames(inputs, outputs), true))
    ensures var (roots2, acc) := LiftItems(roots1, base, true);
            && roots2 == RewrittenItems(roots1, true, OutNames(inputs, outputs))
            && Progress(acc, Pass(base, outputs, OutNames(inputs, outputs), true), outputs.Keys)
  {
    var p := Pass(base, outputs, OutNames(inputs, outputs), true);
    InputPassKeepsOutputsItems(roots, inputs, outputs, InNames(inputs));
    InputPassLeavesMarkedItems(roots, Empty());
    assert Progress(base, p, {}) by { NothingDone(base, p); }
    PassRewritesItems(roots1, base, p, inputs, outputs, {});
    assert {} + IdsItems(roots1, true) == outputs.Keys;
  }

  lemma NothingDone(base: Acc, p: Pass)
    requires p.base == base && base.local.Keys == base.into.Keys
    ensures Progress(base, p, {})
  {
  }

  // ---- Equal bodies over different inner ones ---------------------------------

  function RefTo(r: string): Fields
  {
    Field(REF, Str(r), NoFields)
  }

  /** A schema that is `X`, where `X` is `Y` and `Y` is `inner`. */
  function Chain(inner: Json): Fields
  {
    Field(DEFS, Obj(Defs(inner)), RefTo(LOCAL + "X"))
  }

  function Defs(inner: Json): Fields
  {
    Field("X", Obj(RefTo(LOCAL + "Y")), Field("Y", inner, NoFields))
  }

  function AfterInput(a: Json): Acc
  {
    Acc(map["X" := Obj(RefTo(GLOBAL + "Y")), "Y" := a], map["X" := Obj(RefTo(LOCAL + "Y")), "Y" := a], [])
  }

  lemma RepointTo(x: string, names: Names)
    requires x in names
    ensures RepointFields(RefTo(LOCAL + x), names) == RefTo(GLOBAL + names[x])
  {
    assert NameIn(LOCAL + x, LOCAL) == x;
  }

  lemma ChainWrapper(inner: Json)
    ensures Without(Chain(inner), DEFS) == RefTo(LOCAL + "X")
    ensures Wrapper(Field(OUTPUT_SIDE, Bool(true), Chain(inner))) == RefTo(LOCAL + "X")
  {
    var f := Field(OUTPUT_SIDE, Bool(true), RefTo(LOCAL + "X"));
    WithoutAbsent(RefTo(LOCAL + "X"), DEFS);
    WithoutAbsent(RefTo(LOCAL + "X"), OUTPUT_SIDE);
    assert Without(Chain(inner), DEFS) == RefTo(LOCAL + "X");
    assert Without(Field(OUTPUT_SIDE, Bool(true), Chain(inner)), DEFS) == f;
  }

  /** A body that refers to nothing. */
  predicate RefFree(v: Json)
  {
    Plain(v) && Visible(v) == {}
  }

  lemma RefFreeFixed(v: Json, names: Names, prefix: string, bodies: Bodies, depth: nat)
    requires RefFree(v)
    ensures Repoint(v, names) == v && Unfold(v, prefix, bodies, depth) == v
    decreases v
  {
    match v
    case Arr(items) => RefFreeItemsFixed(items, names, prefix, bodies, depth);
    case Obj(f) => RefFreeFieldsFixed(f, names, prefix, bodies, depth);
    case _ =>
  }

  lemma RefFreeItemsFixed(i: Items, names: Names, prefix: string, bodies: Bodies, depth: nat)
    requires PlainItems(i) && VisibleItems(i) == {}
    ensures RepointItems(i, names) == i && UnfoldItems(i, prefix, bodies, depth) == i
    decreases i
  {
    if i.Item? {
      assert Visible(i.head) <= VisibleItems(i) && VisibleItems(i.tail) <= VisibleItems(i);
      RefFreeFixed(i.head, names, prefix, bodies, depth);
      RefFreeItemsFixed(i.tail, names, prefix, bodies, depth);
    }
  }

  lemma RefFreeFieldsFixed(f: Fields, names: Names, prefix: string, bodies: Bodies, depth: nat)
    requires PlainFields(f) && VisibleFields(f) == {}
    ensures RepointFields(f, names) == f && UnfoldFields(f, prefix, bodies, depth) == f
    decreases f
  {
    if f.Field? {
      assert Visible(f.value) <= VisibleFields(f) && VisibleFields(f.rest) <= VisibleFields(f);
      RefFreeFixed(f.value, names, prefix, bodies, depth);
      RefFreeFieldsFixed(f.rest, names, prefix, bodies, depth);
    }
  }

  lemma InputChainLifts(a: Json)
    requires RefFree(a)
    ensures LiftOne(Chain(a), Empty(), false) == (RefTo(GLOBAL + "X"), AfterInput(a))
  {
    var names := map["X" := "X", "Y" := "Y"];
    var last := Field("Y", a, NoFields);
    assert NamesOf(last, map[], false) == map["Y" := "Y"];
    assert NamesOf(Defs(a), map[], false) == names;
    RepointTo("X", names);
    RepointTo("Y", names);
    RefFreeFixed(a, names, "", map[], 0);
    var acc := MovedOne(Defs(a), names, Empty());
    assert MovedOne(last, names, acc) == AfterInput(a);
    assert Moved(last, names, acc) == AfterInput(a);
    ChainWrapper(a);
    assert RenamedBy(last, map[], false, []) == [];
    assert RenamedBy(Defs(a), map[], false, []) == [];
  }

  lemma OutputChainLifts(a: Json, b: Json)
    requires a != b && RefFree(b)
    ensures var f := Field(OUTPUT_SIDE, Bool(true), Chain(b));
            && AtObject(f, AfterInput(a), true).0 == RefTo(GLOBAL + "X")
            && AtObject(f, AfterInput(a), true).1.into == AfterInput(a).into["YOutput" := b]
  {
    var f, acc := Field(OUTPUT_SIDE, Bool(true), Chain(b)), AfterInput(a);
    assert Marked(f) && Has(Chain(b), DEFS) && Get(Chain(b), DEFS) == Obj(Defs(b)) == Get(f, DEFS);
    var names := map["X" := "X", "Y" := "YOutput"];
    var last := Field("Y", b, NoFields);
    assert "Y" + "Output" == "YOutput";
    assert NamesOf(last, acc.local, true) == map["Y" := "YOutput"];
    assert NamesOf(Defs(b), acc.local, true) == names;
    RepointTo("X", names);
    RefFreeFixed(b, names, "", map[], 0);
    var start := acc.(renamed := RenamedBy(Defs(b), acc.local, true, acc.renamed));
    assert MovedOne(Defs(b), names, start) == start;
    assert MovedOne(last, names, start).into == acc.into["YOutput" := b];
    assert Moved(Defs(b), names, start) == Moved(last, names, start) == MovedOne(last, names, start);
    ChainWrapper(b);
    RepointWithout(Without(f, DEFS), names, OUTPUT_SIDE);
  }

  lemma ChainMeans(b: Json)
    requires RefFree(b)
    ensures Meaning(Obj(Field(OUTPUT_SIDE, Bool(true), Chain(b))), 2)
         == Obj(Field(REF, Obj(Field(REF, b, NoFields)), NoFields))
  {
    var f := Field(OUTPUT_SIDE, Bool(true), Chain(b));
    ChainWrapper(b);
    assert Has(Chain(b), DEFS) && Get(Chain(b), DEFS) == Obj(Defs(b)) == Get(f, DEFS);
    var own := map["X" := Obj(RefTo(LOCAL + "Y")), "Y" := b];
    assert BodiesOf(Field("Y", b, NoFields)) == map["Y" := b];
    assert BodiesOf(Defs(b)) == own;
    RefFreeFixed(b, map[], LOCAL, own, 0);
    UnfoldsTo("Y", LOCAL, own, 1);
    UnfoldsTo("X", LOCAL, own, 2);
  }

  lemma LiftOfObject(f: Fields, acc: Acc, output: bool)
    requires CleanFields(AtObject(f, acc, output).0)
    ensures Lift(Obj(f), acc, output) == (Obj(AtObject(f, acc, output).0), AtObject(f, acc, output).1)
  {
    var (f1, acc1) := AtObject(f, acc, output);
    CleanFieldsFixed(f1, acc1, output);
  }

  /** A schema that is itself `X`, over `inner`, after either pass. */
  function Over(inner: Json): Json
  {
    Obj(Field(REF, Obj(Field(REF, inner, NoFields)), NoFields))
  }

  lemma InputChainPass(a: Json)
    requires RefFree(a)
    ensures Lift(Obj(Chain(a)), Empty(), false) == (Obj(RefTo(GLOBAL + "X")), AfterInput(a))
  {
    InputChainLifts(a);
    assert AtObject(Chain(a), Empty(), false) == (RefTo(GLOBAL + "X"), AfterInput(a)) by {
      assert !Has(RefTo(LOCAL + "X"), OUTPUT_SIDE);
      assert Has(Chain(a), DEFS) && !Has(Chain(a), OUTPUT_SIDE);
    }
    LiftOfObject(Chain(a), Empty(), false);
  }

  /** The input pass leaves a response's schema alone. */
  lemma OutputChainWaits(b: Json, acc: Acc)
    requires Clean(b)
    ensures var output := Obj(Field(OUTPUT_SIDE, Bool(true), Chain(b))); Lift(output, acc, false) == (output, acc)
  {
    var f := Field(OUTPUT_SIDE, Bool(true), Chain(b));
    assert CleanFields(Field("Y", b, NoFields)) && CleanFields(Defs(b));
    assert ChildrenClean(RefTo(LOCAL + "X")) && ChildrenClean(Chain(b));
    ChildrenCleanFixed(f, acc, false);
  }

  lemma OutputChainPass(a: Json, b: Json)
    requires a != b && RefFree(b)
    ensures var (lifted, acc) := Lift(Obj(Field(OUTPUT_SIDE, Bool(true), Chain(b))), AfterInput(a), true);
            lifted == Obj(RefTo(GLOBAL + "X")) && acc.into == AfterInput(a).into["YOutput" := b]
  {
    OutputChainLifts(a, b);
    LiftOfObject(Field(OUTPUT_SIDE, Bool(true), Chain(b)), AfterInput(a), true);
  }

  lemma TwoItems(x: Json, y: Json, acc: Acc, output: bool)
    ensures var (x', acc1) := Lift(x, acc, output); var (y', acc2) := Lift(y, acc1, output);
            LiftItems(Item(x, Item(y, NoItems)), acc, output) == (Item(x', Item(y', NoItems)), acc2)
  {
    var acc1 := Lift(x, acc, output).1;
    assert LiftItems(Item(y, NoItems), acc1, output) == (Item(Lift(y, acc1, output).0, NoItems), Lift(y, acc1, output).1);
  }

  lemma ChainsLift(a: Json, b: Json)
    requires a != b && RefFree(a) && RefFree(b) && Clean(b)
    ensures var input, output := Obj(Chain(a)), Obj(Field(OUTPUT_SIDE, Bool(true), Chain(b)));
            var (roots', acc) := BothPasses(Item(input, Item(output, NoItems)), Empty());
            var lifted := Obj(RefTo(GLOBAL + "X"));
            roots' == Item(lifted, Item(lifted, NoItems)) && acc.into == AfterInput(a).into["YOutput" := b]
  {
    var input, output := Obj(Chain(a)), Obj(Field(OUTPUT_SIDE, Bool(true), Chain(b)));
    var lifted := Obj(RefTo(GLOBAL + "X"));
    InputChainPass(a);
    OutputChainWaits(b, AfterInput(a));
    TwoItems(input, output, Empty(), false);
    CleanFixed(lifted, AfterInput(a), true);
    OutputChainPass(a, b);
    TwoItems(lifted, output, AfterInput(a), true);
  }

  lemma LiftedChainMeans(a: Json, b: Json)
    requires RefFree(a)
    ensures Unfold(Obj(RefTo(GLOBAL + "X")), GLOBAL, AfterInput(a).into["YOutput" := b], 2) == Over(a)
  {
    var into := AfterInput(a).into["YOutput" := b];
    RefFreeFixed(a, map[], GLOBAL, into, 0);
    UnfoldsTo("Y", GLOBAL, into, 1);
    UnfoldsTo("X", GLOBAL, into, 2);
  }

  /** Where an id's bodies agree over inner ones that do not, the response's form is lost: what meant
      `X` over `b` comes to mean `X` over `a`. */
  lemma SharedIdLosesOutputForm(a: Json, b: Json)
    requires a != b && RefFree(a) && RefFree(b) && Clean(b)
    ensures var input, output := Obj(Chain(a)), Obj(Field(OUTPUT_SIDE, Bool(true), Chain(b)));
            var (roots', acc) := BothPasses(Item(input, Item(output, NoItems)), Empty());
            && Meaning(output, 2) == Over(b)
            && roots'.Item? && roots'.tail.Item? && Unfold(roots'.tail.head, GLOBAL, acc.into, 2) == Over(a)
  {
    ChainMeans(b);
    ChainsLift(a, b);
    LiftedChainMeans(a, b);
  }

  lemma UnfoldsTo(x: string, prefix: string, bodies: Bodies, depth: nat)
    requires x in bodies && depth > 0
    ensures UnfoldFields(RefTo(prefix + x), prefix, bodies, depth)
         == Field(REF, Unfold(bodies[x], prefix, bodies, depth - 1), NoFields)
  {
    assert NameIn(prefix + x, prefix) == x;
  }
}
