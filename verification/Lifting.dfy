/** Moving named schemas into `components.schemas` (`crates/usai-runtime/src/openapi.rs`). */
module Lifting {
  import opened Json
  import opened Text
  import opened Wrappers

  const DEFS := "$defs"
  const REF := "$ref"
  const OUTPUT_SIDE := "x-usai-output-side"
  const LOCAL := "#/$defs/"
  const GLOBAL := "#/components/schemas/"

  /** `into`: the components so far. `local`: the same, as they were before repointing. */
  datatype Acc = Acc(into: map<string, Json>, local: map<string, Json>, renamed: seq<string>)

  type Names = map<string, string>

  function Empty(): Acc
  {
    Acc(map[], map[], [])
  }

  // ---- Repointing -----------------------------------------------------------

  predicate Under(r: string, prefix: string)
  {
    prefix <= r
  }

  function NameIn(r: string, prefix: string): string
    requires Under(r, prefix)
  {
    r[|prefix|..]
  }

  /** What a reference becomes: only one that names one of `names` changes. */
  function Retarget(r: string, names: Names): string
  {
    if Under(r, LOCAL) && NameIn(r, LOCAL) in names then GLOBAL + names[NameIn(r, LOCAL)] else r
  }

  /** `repoint`: what a `$ref` holds is never looked into, string or not. */
  function Repoint(v: Json, names: Names): (r: Json)
    ensures Size(r) == Size(v)
  {
    match v
    case Arr(items) => Arr(RepointItems(items, names))
    case Obj(fields) => Obj(RepointFields(fields, names))
    case _ => v
  }

  function RepointItems(i: Items, names: Names): (r: Items)
    ensures SizeItems(r) == SizeItems(i)
  {
    match i
    case NoItems => NoItems
    case Item(head, tail) => Item(Repoint(head, names), RepointItems(tail, names))
  }

  function RepointFields(f: Fields, names: Names): (r: Fields)
    ensures SizeFields(r) == SizeFields(f)
  {
    match f
    case NoFields => NoFields
    case Field(k, v, rest) =>
      var v' := if k != REF then Repoint(v, names) else if v.Str? then Str(Retarget(v.s, names)) else v;
      Field(k, v', RepointFields(rest, names))
  }

  // ---- Naming ---------------------------------------------------------------

  /** The first of `name2`, `name3`, … that is not taken. */
  function FirstFree(name: string, taken: set<string>, n: nat): (r: nat)
    ensures n <= r && name + Decimal(r) !in taken
    ensures forall m: nat :: n <= m < r ==> name + Decimal(m) in taken
    decreases |taken|
  {
    var candidate := name + Decimal(n);
    if candidate !in taken then n else
      var r := FirstFree(name, taken - {candidate}, n + 1);
      assert candidate[|name|..] == Decimal(n) && (name + Decimal(r))[|name|..] == Decimal(r);
      r
  }

  /** The component an id of one emitted schema goes to. */
  function ComponentFor(name: string, body: Json, local: map<string, Json>, output: bool): string
  {
    if name !in local || local[name] == body then name
    else if output then name + "Output"
    else name + Decimal(FirstFree(name, local.Keys, 2))
  }

  function NamesOf(defs: Fields, local: map<string, Json>, output: bool): Names
  {
    match defs
    case NoFields => map[]
    case Field(name, body, rest) => map[name := ComponentFor(name, body, local, output)] + NamesOf(rest, local, output)
  }

  /** The suffixed names, each once, in the order they were first given. */
  function RenamedBy(defs: Fields, local: map<string, Json>, output: bool, renamed: seq<string>): seq<string>
  {
    match defs
    case NoFields => renamed
    case Field(name, body, rest) =>
      var component := ComponentFor(name, body, local, output);
      RenamedBy(rest, local, output,
                if component == name || component in renamed then renamed else renamed + [component])
  }

  function PutIfAbsent(m: map<string, Json>, key: string, v: Json): map<string, Json>
  {
    if key in m then m else m[key := v]
  }

  /** The first of `defs` put into both maps, under the component it was given. */
  function MovedOne(defs: Fields, names: Names, acc: Acc): Acc
    requires defs.Field?
  {
    var component := if defs.key in names then names[defs.key] else defs.key;
    acc.(local := PutIfAbsent(acc.local, component, defs.value),
         into := PutIfAbsent(acc.into, component, Repoint(defs.value, names)))
  }

  function Moved(defs: Fields, names: Names, acc: Acc): Acc
    decreases defs
  {
    if defs.NoFields? then acc else Moved(defs.rest, names, MovedOne(defs, names, acc))
  }

  // ---- Lifting --------------------------------------------------------------

  predicate Marked(f: Fields)
  {
    Has(f, OUTPUT_SIDE) && Get(f, OUTPUT_SIDE) == Bool(true)
  }

  /** `lift_one`: a `$defs` that is not an object goes without a trace. */
  function LiftOne(f: Fields, acc: Acc, output: bool): (Fields, Acc)
    requires Has(f, DEFS)
  {
    match Get(f, DEFS)
    case Obj(defs) =>
      var names := NamesOf(defs, acc.local, output);
      (RepointFields(Without(f, DEFS), names),
       Moved(defs, names, acc.(renamed := RenamedBy(defs, acc.local, output, acc.renamed))))
    case _ => (Without(f, DEFS), acc)
  }

  /** What happens to an object itself, before its children are visited. */
  function AtObject(f: Fields, acc: Acc, output: bool): (Fields, Acc)
  {
    var (f1, acc1) := if Marked(f) == output && Has(f, DEFS) then LiftOne(f, acc, output) else (f, acc);
    (if output then Without(f1, OUTPUT_SIDE) else f1, acc1)
  }

  lemma SizeAtObject(f: Fields, acc: Acc, output: bool)
    ensures SizeFields(AtObject(f, acc, output).0) <= SizeFields(f)
  {
    SizeWithout(f, DEFS);
    var f1 := (if Marked(f) == output && Has(f, DEFS) then LiftOne(f, acc, output) else (f, acc)).0;
    SizeWithout(f1, OUTPUT_SIDE);
  }

  /** `lift_named_schemas`: the object first, then what is left of its children. */
  function Lift(v: Json, acc: Acc, output: bool): (Json, Acc)
    decreases Size(v), 1
  {
    match v
    case Arr(items) =>
      var (items', acc') := LiftItems(items, acc, output);
      (Arr(items'), acc')
    case Obj(f) =>
      var (f1, acc1) := AtObject(f, acc, output);
      SizeAtObject(f, acc, output);
      var (f2, acc2) := LiftFields(f1, acc1, output);
      (Obj(f2), acc2)
    case _ => (v, acc)
  }

  function LiftItems(i: Items, acc: Acc, output: bool): (Items, Acc)
    decreases SizeItems(i), 2
  {
    match i
    case NoItems => (NoItems, acc)
    case Item(head, tail) =>
      var (head', acc1) := Lift(head, acc, output);
      var (tail', acc2) := LiftItems(tail, acc1, output);
      (Item(head', tail'), acc2)
  }

  function LiftFields(f: Fields, acc: Acc, output: bool): (Fields, Acc)
    decreases SizeFields(f), 2
  {
    match f
    case NoFields => (NoFields, acc)
    case Field(k, v, rest) =>
      var (v', acc1) := Lift(v, acc, output);
      var (rest', acc2) := LiftFields(rest, acc1, output);
      (Field(k, v', rest'), acc2)
  }

  /** The generator's two passes over the paths and the workloads, inputs first. */
  function BothPasses(roots: Items, acc: Acc): (Items, Acc)
  {
    var (roots1, acc1) := LiftItems(roots, acc, false);
    LiftItems(roots1, acc1, true)
  }

  // ---- References -----------------------------------------------------------

  /** The references `repoint` looks at. */
  function Visible(v: Json): set<string>
  {
    match v
    case Arr(items) => VisibleItems(items)
    case Obj(fields) => VisibleFields(fields)
    case _ => {}
  }

  function VisibleItems(i: Items): set<string>
  {
    match i
    case NoItems => {}
    case Item(head, tail) => Visible(head) + VisibleItems(tail)
  }

  function VisibleFields(f: Fields): set<string>
  {
    match f
    case NoFields => {}
    case Field(k, v, rest) =>
      (if k != REF then Visible(v) else if v.Str? then {v.s} else {}) + VisibleFields(rest)
  }

  /** The references below a `$ref` that holds something else than a string: a property
      that happens to have that name. */
  function Hidden(v: Json): set<string>
  {
    match v
    case Arr(items) => HiddenItems(items)
    case Obj(fields) => HiddenFields(fields)
    case _ => {}
  }

  function HiddenItems(i: Items): set<string>
  {
    match i
    case NoItems => {}
    case Item(head, tail) => Hidden(head) + HiddenItems(tail)
  }

  function HiddenFields(f: Fields): set<string>
  {
    match f
    case NoFields => {}
    case Field(k, v, rest) => (if k != REF then Hidden(v) else Visible(v) + Hidden(v)) + HiddenFields(rest)
  }

  function Refs(v: Json): set<string>
  {
    Visible(v) + Hidden(v)
  }

  function RefsFields(f: Fields): set<string>
  {
    VisibleFields(f) + HiddenFields(f)
  }

  lemma RepointRefs(v: Json, names: Names)
    ensures Visible(Repoint(v, names)) == set r | r in Visible(v) :: Retarget(r, names)
    ensures Hidden(Repoint(v, names)) == Hidden(v)
  {
    match v
    case Arr(items) => RepointRefsItems(items, names);
    case Obj(fields) => RepointRefsFields(fields, names);
    case _ =>
  }

  lemma RepointRefsItems(i: Items, names: Names)
    ensures VisibleItems(RepointItems(i, names)) == set r | r in VisibleItems(i) :: Retarget(r, names)
    ensures HiddenItems(RepointItems(i, names)) == HiddenItems(i)
  {
    if i.Item? {
      RepointRefs(i.head, names);
      RepointRefsItems(i.tail, names);
    }
  }

  lemma RepointRefsFields(f: Fields, names: Names)
    ensures VisibleFields(RepointFields(f, names)) == set r | r in VisibleFields(f) :: Retarget(r, names)
    ensures HiddenFields(RepointFields(f, names)) == HiddenFields(f)
  {
    if f.Field? {
      RepointRefs(f.value, names);
      RepointRefsFields(f.rest, names);
    }
  }

  lemma RetargetLeaves(r: string, names: Names, x: string)
    requires x in names
    ensures Retarget(r, names) != LOCAL + x
  {
    assert LOCAL[2] != GLOBAL[2];
    assert NameIn(LOCAL + x, LOCAL) == x;
  }

  /** Repointing leaves no reference to a lifted id exactly when none is out of its sight. */
  lemma NoneSurvivesIff(v: Json, names: Names)
    ensures (forall x :: x in names ==> LOCAL + x !in Refs(Repoint(v, names)))
       <==> (forall x :: x in names ==> LOCAL + x !in Hidden(v))
  {
    RepointRefs(v, names);
    forall x | x in names
      ensures LOCAL + x !in Visible(Repoint(v, names))
    {
      forall r | r in Visible(v) { RetargetLeaves(r, names, x); }
    }
  }

  /** A property named `$ref` keeps the local reference of its own schema: it dangles. */
  lemma PropertyNamedRefDangles(names: Names, x: string)
    requires x in names
    ensures var inner := Obj(Field(REF, Str(LOCAL + x), NoFields));
            var v := Obj(Field("properties", Obj(Field(REF, inner, NoFields)), NoFields));
            LOCAL + x in Refs(Repoint(v, names))
  {
    var inner := Obj(Field(REF, Str(LOCAL + x), NoFields));
    var properties := Obj(Field(REF, inner, NoFields));
    var v := Obj(Field("properties", properties, NoFields));
    assert "properties" != REF;
    assert LOCAL + x in VisibleFields(inner.fields);
    assert LOCAL + x in HiddenFields(properties.fields);
    assert LOCAL + x in HiddenFields(v.fields);
    RepointRefs(v, names);
  }

  // ---- Every reference written names a component ----------------------------

  predicate NamesKey(r: string, keys: set<string>)
  {
    Under(r, GLOBAL) && NameIn(r, GLOBAL) in keys
  }

  predicate AllNameKeys(rs: set<string>, keys: set<string>)
  {
    forall r :: r in rs ==> NamesKey(r, keys)
  }

  function KeysOf(f: Fields): set<string>
  {
    match f
    case NoFields => {}
    case Field(k, _, rest) => {k} + KeysOf(rest)
  }

  /** The references that repointing writes over these. */
  function WrittenOver(rs: set<string>, names: Names): set<string>
  {
    set r | r in rs && Retarget(r, names) != r :: Retarget(r, names)
  }

  function BodiesVisible(defs: Fields): set<string>
  {
    match defs
    case NoFields => {}
    case Field(_, body, rest) => Visible(body) + BodiesVisible(rest)
  }

  /** The references that lifting an object writes, in it and in the bodies it gives up. */
  function WrittenAt(f: Fields, acc: Acc, output: bool): set<string>
  {
    if Marked(f) == output && Has(f, DEFS) && Get(f, DEFS).Obj? then
      var defs := Get(f, DEFS).fields;
      WrittenOver(VisibleFields(Without(f, DEFS)) + BodiesVisible(defs), NamesOf(defs, acc.local, output))
    else {}
  }

  /** The references that a pass writes. */
  function Written(v: Json, acc: Acc, output: bool): set<string>
    decreases Size(v), 1
  {
    match v
    case Arr(items) => WrittenItems(items, acc, output)
    case Obj(f) =>
      var (f1, acc1) := AtObject(f, acc, output);
      SizeAtObject(f, acc, output);
      WrittenAt(f, acc, output) + WrittenFields(f1, acc1, output)
    case _ => {}
  }

  function WrittenItems(i: Items, acc: Acc, output: bool): set<string>
    decreases SizeItems(i), 2
  {
    match i
    case NoItems => {}
    case Item(head, tail) => Written(head, acc, output) + WrittenItems(tail, Lift(head, acc, output).1, output)
  }

  function WrittenFields(f: Fields, acc: Acc, output: bool): set<string>
    decreases SizeFields(f), 2
  {
    match f
    case NoFields => {}
    case Field(_, v, rest) => Written(v, acc, output) + WrittenFields(rest, Lift(v, acc, output).1, output)
  }

  /** Every reference of a component is among `all`. */
  predicate BodiesIn(into: map<string, Json>, all: set<string>)
  {
    forall c :: c in into ==> Refs(into[c]) <= all
  }

  lemma RefsParts(f: Fields, key: string)
    ensures RefsFields(Without(f, key)) <= RefsFields(f)
    ensures Has(f, key) && key != REF ==> Refs(Get(f, key)) <= RefsFields(f)
  {
  }

  lemma NamesOfKeys(defs: Fields, local: map<string, Json>, output: bool)
    ensures NamesOf(defs, local, output).Keys == KeysOf(defs)
  {
  }

  lemma RepointWrites(v: Json, names: Names, all: set<string>)
    requires Refs(v) <= all
    ensures Refs(Repoint(v, names)) <= all + WrittenOver(Visible(v), names)
  {
    RepointRefs(v, names);
  }

  lemma WrittenNames(rs: set<string>, names: Names, keys: set<string>)
    requires names.Values <= keys
    ensures AllNameKeys(WrittenOver(rs, names), keys)
  {
    forall r | r in rs && Retarget(r, names) != r ensures NamesKey(Retarget(r, names), keys) {
      var c := names[NameIn(r, LOCAL)];
      assert NameIn(GLOBAL + c, GLOBAL) == c && c in names.Values;
    }
  }

  lemma WrittenMore(rs: set<string>, more: set<string>, names: Names)
    requires rs <= more
    ensures WrittenOver(rs, names) <= WrittenOver(more, names)
  {
  }

  /** Moving adds exactly the names' components, to both maps. */
  lemma {:induction false} MovedKeys(defs: Fields, names: Names, acc: Acc)
    requires KeysOf(defs) <= names.Keys && acc.local.Keys == acc.into.Keys
    ensures var acc' := Moved(defs, names, acc);
            && acc'.local.Keys == acc'.into.Keys
            && acc'.into.Keys == acc.into.Keys + set x | x in KeysOf(defs) :: names[x]
    decreases defs
  {
    if defs.Field? {
      MovedKeys(defs.rest, names, MovedOne(defs, names, acc));
    }
  }

  lemma {:induction false} MovedIn(defs: Fields, names: Names, acc: Acc, all: set<string>)
    requires BodiesIn(acc.into, all) && RefsFields(defs) + WrittenOver(BodiesVisible(defs), names) <= all
    ensures BodiesIn(Moved(defs, names, acc).into, all)
    decreases defs
  {
    if defs.Field? {
      assert Refs(defs.value) <= RefsFields(defs) && RefsFields(defs.rest) <= RefsFields(defs);
      WrittenMore(Visible(defs.value), BodiesVisible(defs), names);
      WrittenMore(BodiesVisible(defs.rest), BodiesVisible(defs), names);
      RepointWrites(defs.value, names, all);
      MovedIn(defs.rest, names, MovedOne(defs, names, acc), all);
    }
  }

  /** The bodies a lift moves, and the names it gives. */
  lemma MovedClosed(defs: Fields, rs: set<string>, acc: Acc, output: bool, all: set<string>)
    requires acc.local.Keys == acc.into.Keys && RefsFields(defs) <= all && BodiesIn(acc.into, all)
    ensures var names := NamesOf(defs, acc.local, output);
            var acc' := Moved(defs, names, acc.(renamed := RenamedBy(defs, acc.local, output, acc.renamed)));
            var written := WrittenOver(rs + BodiesVisible(defs), names);
            && acc'.local.Keys == acc'.into.Keys && acc.into.Keys <= acc'.into.Keys
            && BodiesIn(acc'.into, all + written) && AllNameKeys(written, acc'.into.Keys)
  {
    var names := NamesOf(defs, acc.local, output);
    var start := acc.(renamed := RenamedBy(defs, acc.local, output, acc.renamed));
    NamesOfKeys(defs, acc.local, output);
    MovedKeys(defs, names, start);
    WrittenNames(rs + BodiesVisible(defs), names, Moved(defs, names, start).into.Keys);
    WrittenMore(BodiesVisible(defs), rs + BodiesVisible(defs), names);
    MovedIn(defs, names, start, all + WrittenOver(rs + BodiesVisible(defs), names));
  }

  /** What one lift leaves: references that were there or that it wrote, and those name components. */
  lemma LiftOneClosed(f: Fields, acc: Acc, output: bool, all: set<string>)
    requires Has(f, DEFS) && Marked(f) == output && acc.local.Keys == acc.into.Keys
    requires RefsFields(f) <= all && BodiesIn(acc.into, all)
    ensures var (f', acc') := LiftOne(f, acc, output); var written := WrittenAt(f, acc, output);
            && acc'.local.Keys == acc'.into.Keys && acc.into.Keys <= acc'.into.Keys
            && RefsFields(f') <= all + written && BodiesIn(acc'.into, all + written)
            && AllNameKeys(written, acc'.into.Keys)
  {
    RefsParts(f, DEFS);
    if Get(f, DEFS).Obj? {
      var defs, wrapper := Get(f, DEFS).fields, Without(f, DEFS);
      var names := NamesOf(defs, acc.local, output);
      assert RefsFields(defs) <= all by { assert Refs(Get(f, DEFS)) == RefsFields(defs); }
      MovedClosed(defs, VisibleFields(wrapper), acc, output, all);
      WrittenMore(VisibleFields(wrapper), VisibleFields(wrapper) + BodiesVisible(defs), names);
      RepointWrites(Obj(wrapper), names, all);
    }
  }

  lemma AtObjectClosed(f: Fields, acc: Acc, output: bool, all: set<string>)
    requires acc.local.Keys == acc.into.Keys && RefsFields(f) <= all && BodiesIn(acc.into, all)
    ensures var (f', acc') := AtObject(f, acc, output); var written := WrittenAt(f, acc, output);
            && acc'.local.Keys == acc'.into.Keys && acc.into.Keys <= acc'.into.Keys
            && RefsFields(f') <= all + written && BodiesIn(acc'.into, all + written)
            && AllNameKeys(written, acc'.into.Keys)
  {
    if Marked(f) == output && Has(f, DEFS) {
      LiftOneClosed(f, acc, output, all);
      RefsParts(LiftOne(f, acc, output).0, OUTPUT_SIDE);
    } else {
      RefsParts(f, OUTPUT_SIDE);
    }
  }

  lemma {:induction false} LiftClosed(v: Json, acc: Acc, output: bool, all: set<string>)
    requires acc.local.Keys == acc.into.Keys && Refs(v) <= all && BodiesIn(acc.into, all)
    ensures var (v', acc') := Lift(v, acc, output); var written := Written(v, acc, output);
            && acc'.local.Keys == acc'.into.Keys && acc.into.Keys <= acc'.into.Keys
            && Refs(v') <= all + written && BodiesIn(acc'.into, all + written)
            && AllNameKeys(written, acc'.into.Keys)
    decreases Size(v), 1
  {
    match v
    case Arr(items) => LiftItemsClosed(items, acc, output, all);
    case Obj(f) =>
      AtObjectClosed(f, acc, output, all);
      SizeAtObject(f, acc, output);
      var (f1, acc1) := AtObject(f, acc, output);
      LiftFieldsClosed(f1, acc1, output, all + WrittenAt(f, acc, output));
    case _ =>
  }

  lemma {:induction false} LiftItemsClosed(i: Items, acc: Acc, output: bool, all: set<string>)
    requires acc.local.Keys == acc.into.Keys && VisibleItems(i) + HiddenItems(i) <= all && BodiesIn(acc.into, all)
    ensures var (i', acc') := LiftItems(i, acc, output); var written := WrittenItems(i, acc, output);
            && acc'.local.Keys == acc'.into.Keys && acc.into.Keys <= acc'.into.Keys
            && VisibleItems(i') + HiddenItems(i') <= all + written && BodiesIn(acc'.into, all + written)
            && AllNameKeys(written, acc'.into.Keys)
    decreases SizeItems(i), 2
  {
    if i.Item? {
      LiftClosed(i.head, acc, output, all);
      LiftItemsClosed(i.tail, Lift(i.head, acc, output).1, output, all + Written(i.head, acc, output));
    }
  }

  lemma {:induction false} LiftFieldsClosed(f: Fields, acc: Acc, output: bool, all: set<string>)
    requires acc.local.Keys == acc.into.Keys && RefsFields(f) <= all && BodiesIn(acc.into, all)
    ensures var (f', acc') := LiftFields(f, acc, output); var written := WrittenFields(f, acc, output);
            && acc'.local.Keys == acc'.into.Keys && acc.into.Keys <= acc'.into.Keys
            && RefsFields(f') <= all + written && BodiesIn(acc'.into, all + written)
            && AllNameKeys(written, acc'.into.Keys)
    decreases SizeFields(f), 2
  {
    if f.Field? {
      assert Refs(f.value) <= RefsFields(f) && RefsFields(f.rest) <= RefsFields(f);
      LiftClosed(f.value, acc, output, all);
      LiftFieldsClosed(f.rest, Lift(f.value, acc, output).1, output, all + Written(f.value, acc, output));
    }
  }

  /** The references that both passes write. */
  function WrittenByBoth(roots: Items, acc: Acc): set<string>
  {
    var (roots1, acc1) := LiftItems(roots, acc, false);
    WrittenItems(roots, acc, false) + WrittenItems(roots1, acc1, true)
  }

  /** On every document: each reference of the rewritten document and of its components was there before
      or was written, each written one names a component, and both accumulators have the same keys. */
  lemma EveryReferenceIsNamed(roots: Items)
    ensures var (roots', acc) := BothPasses(roots, Empty());
            var known, written := VisibleItems(roots) + HiddenItems(roots), WrittenByBoth(roots, Empty());
            && acc.local.Keys == acc.into.Keys
            && AllNameKeys(written, acc.into.Keys)
            && VisibleItems(roots') + HiddenItems(roots') <= known + written
            && (forall c :: c in acc.into ==> Refs(acc.into[c]) <= known + written)
  {
    var known := VisibleItems(roots) + HiddenItems(roots);
    var (roots1, acc1) := LiftItems(roots, Empty(), false);
    LiftItemsClosed(roots, Empty(), false, known);
    LiftItemsClosed(roots1, acc1, true, known + WrittenItems(roots, Empty(), false));
  }

  // ---- No reference to a lifted id survives ---------------------------------

  /** No reference to one of these ids. */
  predicate FreeOf(rs: set<string>, ids: set<string>)
  {
    forall x :: x in ids ==> LOCAL + x !in rs
  }

  /** So in every body, repointed. */
  predicate MovedFreeOf(defs: Fields, names: Names)
  {
    defs.Field? ==> FreeOf(Refs(Repoint(defs.value, names)), names.Keys) && MovedFreeOf(defs.rest, names)
  }

  predicate BodiesHiddenFreeOf(defs: Fields, ids: set<string>)
  {
    defs.Field? ==> FreeOf(Hidden(defs.value), ids) && BodiesHiddenFreeOf(defs.rest, ids)
  }

  lemma {:induction false} MovedFreeIff(defs: Fields, names: Names)
    ensures MovedFreeOf(defs, names) <==> BodiesHiddenFreeOf(defs, names.Keys)
  {
    if defs.Field? {
      NoneSurvivesIff(defs.value, names);
      MovedFreeIff(defs.rest, names);
    }
  }

  /** A lift leaves no reference to an id it lifted, in the wrapper or in a body it moves, exactly when
      none of them has one below a `$ref` that holds no string. */
  lemma LiftOneFreeIff(f: Fields, acc: Acc, output: bool)
    requires Has(f, DEFS) && Get(f, DEFS).Obj?
    ensures var defs := Get(f, DEFS).fields; var names := NamesOf(defs, acc.local, output);
            FreeOf(RefsFields(LiftOne(f, acc, output).0), KeysOf(defs)) && MovedFreeOf(defs, names) <==>
            FreeOf(HiddenFields(Without(f, DEFS)), KeysOf(defs)) && BodiesHiddenFreeOf(defs, KeysOf(defs))
  {
    var defs := Get(f, DEFS).fields;
    var names := NamesOf(defs, acc.local, output);
    NamesOfKeys(defs, acc.local, output);
    NoneSurvivesIff(Obj(Without(f, DEFS)), names);
    MovedFreeIff(defs, names);
  }

  /** And the components it adds are those bodies, repointed. */
  lemma {:induction false} MovedAdds(defs: Fields, names: Names, acc: Acc, c: string)
    requires KeysOf(defs) <= names.Keys && MovedFreeOf(defs, names)
    requires c in Moved(defs, names, acc).into && c !in acc.into
    ensures FreeOf(Refs(Moved(defs, names, acc).into[c]), names.Keys)
    decreases defs
  {
    if defs.Field? {
      var acc1 := MovedOne(defs, names, acc);
      if c in acc1.into {
        MovedKeeps(defs.rest, names, acc1, c);
      } else {
        MovedAdds(defs.rest, names, acc1, c);
      }
    }
  }

  lemma {:induction false} MovedKeeps(defs: Fields, names: Names, acc: Acc, c: string)
    requires c in acc.into
    ensures c in Moved(defs, names, acc).into && Moved(defs, names, acc).into[c] == acc.into[c]
    decreases defs
  {
    if defs.Field? {
      MovedKeeps(defs.rest, names, MovedOne(defs, names, acc), c);
    }
  }

  // ---- A second run changes nothing -----------------------------------------

  /** Every object that has `$defs` is marked as a response's. */
  predicate DefsMarked(v: Json)
  {
    match v
    case Arr(items) => DefsMarkedItems(items)
    case Obj(f) => (Has(f, DEFS) ==> Marked(f)) && DefsMarkedFields(f)
    case _ => true
  }

  predicate DefsMarkedItems(i: Items)
  {
    i.Item? ==> DefsMarked(i.head) && DefsMarkedItems(i.tail)
  }

  predicate DefsMarkedFields(f: Fields)
  {
    f.Field? ==> DefsMarked(f.value) && DefsMarkedFields(f.rest)
  }

  /** Neither `$defs` nor the marker anywhere. */
  predicate Clean(v: Json)
  {
    match v
    case Arr(items) => CleanItems(items)
    case Obj(f) => CleanFields(f)
    case _ => true
  }

  predicate CleanItems(i: Items)
  {
    i.Item? ==> Clean(i.head) && CleanItems(i.tail)
  }

  predicate CleanFields(f: Fields)
  {
    f.Field? ==> f.key != DEFS && f.key != OUTPUT_SIDE && Clean(f.value) && CleanFields(f.rest)
  }

  lemma {:induction false} CleanFixed(v: Json, acc: Acc, output: bool)
    requires Clean(v)
    ensures Lift(v, acc, output) == (v, acc)
    decreases v
  {
    match v
    case Arr(items) => CleanItemsFixed(items, acc, output);
    case Obj(f) =>
      CleanHas(f);
      WithoutAbsent(f, OUTPUT_SIDE);
      CleanFieldsFixed(f, acc, output);
    case _ =>
  }

  lemma {:induction false} CleanItemsFixed(i: Items, acc: Acc, output: bool)
    requires CleanItems(i)
    ensures LiftItems(i, acc, output) == (i, acc)
    decreases i
  {
    if i.Item? {
      CleanFixed(i.head, acc, output);
      CleanItemsFixed(i.tail, acc, output);
    }
  }

  lemma {:induction false} CleanFieldsFixed(f: Fields, acc: Acc, output: bool)
    requires CleanFields(f)
    ensures LiftFields(f, acc, output) == (f, acc)
    decreases f
  {
    if f.Field? {
      CleanFixed(f.value, acc, output);
      CleanFieldsFixed(f.rest, acc, output);
    }
  }

  lemma CleanHas(f: Fields)
    requires CleanFields(f)
    ensures !Has(f, DEFS) && !Has(f, OUTPUT_SIDE)
  {
  }

  /** Repointing touches neither keys nor markers. */
  lemma RepointHas(f: Fields, names: Names, key: string)
    ensures Has(RepointFields(f, names), key) == Has(f, key)
    ensures Marked(RepointFields(f, names)) == Marked(f)
  {
    if Has(f, OUTPUT_SIDE) {
      RepointGet(f, names);
    }
  }

  lemma RepointGet(f: Fields, names: Names)
    requires Has(f, OUTPUT_SIDE)
    ensures Has(RepointFields(f, names), OUTPUT_SIDE)
    ensures Get(RepointFields(f, names), OUTPUT_SIDE) == Repoint(Get(f, OUTPUT_SIDE), names)
  {
  }

  lemma LiftHas(f: Fields, acc: Acc, output: bool, key: string)
    ensures Has(LiftFields(f, acc, output).0, key) == Has(f, key)
    ensures Marked(LiftFields(f, acc, output).0) == Marked(f)
    decreases f
  {
    if f.Field? {
      LiftHas(f.rest, Lift(f.value, acc, output).1, output, key);
    }
  }

  lemma RepointDefsMarked(v: Json, names: Names)
    requires DefsMarked(v)
    ensures DefsMarked(Repoint(v, names))
  {
    match v
    case Arr(items) => RepointDefsMarkedItems(items, names);
    case Obj(f) => RepointHas(f, names, DEFS); RepointDefsMarkedFields(f, names);
    case _ =>
  }

  lemma RepointDefsMarkedItems(i: Items, names: Names)
    requires DefsMarkedItems(i)
    ensures DefsMarkedItems(RepointItems(i, names))
  {
    if i.Item? {
      RepointDefsMarked(i.head, names);
      RepointDefsMarkedItems(i.tail, names);
    }
  }

  lemma RepointDefsMarkedFields(f: Fields, names: Names)
    requires DefsMarkedFields(f)
    ensures DefsMarkedFields(RepointFields(f, names))
  {
    if f.Field? {
      RepointDefsMarked(f.value, names);
      RepointDefsMarkedFields(f.rest, names);
    }
  }

  lemma WithoutDefsMarked(f: Fields, key: string)
    requires DefsMarkedFields(f)
    ensures DefsMarkedFields(Without(f, key))
  {
  }

  /** After the input pass only marked objects have `$defs`. */
  lemma {:induction false} InputPassLeavesMarked(v: Json, acc: Acc)
    ensures DefsMarked(Lift(v, acc, false).0)
    decreases Size(v), 1
  {
    match v
    case Arr(items) => InputPassLeavesMarkedItems(items, acc);
    case Obj(f) =>
      var (f1, acc1) := AtObject(f, acc, false);
      SizeAtObject(f, acc, false);
      InputPassLeavesMarkedFields(f1, acc1);
      LiftHas(f1, acc1, false, DEFS);
      LiftOneHas(f, acc, false);
    case _ =>
  }

  lemma {:induction false} InputPassLeavesMarkedItems(i: Items, acc: Acc)
    ensures DefsMarkedItems(LiftItems(i, acc, false).0)
    decreases SizeItems(i), 2
  {
    if i.Item? {
      InputPassLeavesMarked(i.head, acc);
      InputPassLeavesMarkedItems(i.tail, Lift(i.head, acc, false).1);
    }
  }

  lemma {:induction false} InputPassLeavesMarkedFields(f: Fields, acc: Acc)
    ensures DefsMarkedFields(LiftFields(f, acc, false).0)
    decreases SizeFields(f), 2
  {
    if f.Field? {
      InputPassLeavesMarked(f.value, acc);
      InputPassLeavesMarkedFields(f.rest, Lift(f.value, acc, false).1);
    }
  }

  lemma LiftOneHas(f: Fields, acc: Acc, output: bool)
    ensures Has(f, DEFS) ==> !Has(LiftOne(f, acc, output).0, DEFS)
  {
    WithoutHas(f, DEFS, DEFS);
    if Has(f, DEFS) && Get(f, DEFS).Obj? {
      RepointHas(Without(f, DEFS), NamesOf(Get(f, DEFS).fields, acc.local, output), DEFS);
    }
  }

  lemma AtObjectCleans(f: Fields, acc: Acc)
    requires DefsMarked(Obj(f))
    ensures var f1 := AtObject(f, acc, true).0;
            DefsMarkedFields(f1) && !Has(f1, DEFS) && !Has(f1, OUTPUT_SIDE)
  {
    var f0 := if Has(f, DEFS) then LiftOne(f, acc, true).0 else f;
    LiftOneHas(f, acc, true);
    WithoutHas(f0, OUTPUT_SIDE, DEFS);
    WithoutHas(f0, OUTPUT_SIDE, OUTPUT_SIDE);
    WithoutDefsMarked(f, DEFS);
    if Has(f, DEFS) && Get(f, DEFS).Obj? {
      RepointDefsMarkedFields(Without(f, DEFS), NamesOf(Get(f, DEFS).fields, acc.local, true));
    }
    WithoutDefsMarked(f0, OUTPUT_SIDE);
  }

  /** After the output pass neither is left. */
  lemma {:induction false} OutputPassCleans(v: Json, acc: Acc)
    requires DefsMarked(v)
    ensures Clean(Lift(v, acc, true).0)
    decreases Size(v), 1
  {
    match v
    case Arr(items) => OutputPassCleansItems(items, acc);
    case Obj(f) =>
      var (f1, acc1) := AtObject(f, acc, true);
      SizeAtObject(f, acc, true);
      AtObjectCleans(f, acc);
      OutputPassCleansFields(f1, acc1);
    case _ =>
  }

  lemma {:induction false} OutputPassCleansItems(i: Items, acc: Acc)
    requires DefsMarkedItems(i)
    ensures CleanItems(LiftItems(i, acc, true).0)
    decreases SizeItems(i), 2
  {
    if i.Item? {
      OutputPassCleans(i.head, acc);
      OutputPassCleansItems(i.tail, Lift(i.head, acc, true).1);
    }
  }

  lemma {:induction false} OutputPassCleansFields(f: Fields, acc: Acc)
    requires DefsMarkedFields(f) && !Has(f, DEFS) && !Has(f, OUTPUT_SIDE)
    ensures CleanFields(LiftFields(f, acc, true).0)
    decreases SizeFields(f), 2
  {
    if f.Field? {
      OutputPassCleans(f.value, acc);
      OutputPassCleansFields(f.rest, Lift(f.value, acc, true).1);
    }
  }

  /** On every document: after both passes neither `$defs` nor a marker is left, and
      running both again changes neither the document nor the components. */
  lemma SecondRunChangesNothing(roots: Items, acc: Acc, later: Acc)
    ensures var once := BothPasses(roots, acc).0;
            CleanItems(once) && BothPasses(once, later) == (once, later)
  {
    var (roots1, acc1) := LiftItems(roots, acc, false);
    InputPassLeavesMarkedItems(roots, acc);
    OutputPassCleansItems(roots1, acc1);
    var once := BothPasses(roots, acc).0;
    CleanItemsFixed(once, later, false);
    CleanItemsFixed(once, later, true);
  }

  // ---- The generator's own form: accumulators updated in place ---------------

  lemma PutThenMerge(names: Names, key: string, value: string, later: Names)
    ensures names[key := value] + later == names + (map[key := value] + later)
  {
  }

  class Lifter {
    var into: map<string, Json>
    var local: map<string, Json>
    var renamed: seq<string>

    constructor ()
      ensures State() == Empty()
    {
      into, local, renamed := map[], map[], [];
    }

    function State(): Acc
      reads this
    {
      Acc(into, local, renamed)
    }

    /** The name an id goes to; a suffixed one is noted, once. */
    method Name(name: string, body: Json, output: bool) returns (component: string)
      modifies `renamed
      ensures component == ComponentFor(name, body, local, output)
      ensures renamed == (if component == name || component in old(renamed) then old(renamed)
                          else old(renamed) + [component])
    {
      if name !in local || local[name] == body {
        return name;
      }
      if output {
        component := name + "Output";
      } else {
        var n := 2;
        ghost var free := FirstFree(name, local.Keys, 2);
        while name + Decimal(n) in local
          invariant 2 <= n <= free
          decreases free - n
        {
          n := n + 1;
        }
        component := name + Decimal(n);
      }
      if component !in renamed {
        renamed := renamed + [component];
      }
    }

    method NameAll(defs: Fields, output: bool) returns (names: Names)
      modifies `renamed
      ensures names == NamesOf(defs, local, output)
      ensures renamed == RenamedBy(defs, local, output, old(renamed))
    {
      names := map[];
      var rest := defs;
      while rest.Field?
        invariant names + NamesOf(rest, local, output) == NamesOf(defs, local, output)
        invariant RenamedBy(rest, local, output, renamed) == RenamedBy(defs, local, output, old(renamed))
        decreases rest
      {
        var component := Name(rest.key, rest.value, output);
        PutThenMerge(names, rest.key, component, NamesOf(rest.rest, local, output));
        names := names[rest.key := component];
        rest := rest.rest;
      }
    }

    method Move(defs: Fields, names: Names)
      modifies `into, `local
      ensures State() == Moved(defs, names, old(State()))
    {
      var rest := defs;
      while rest.Field?
        invariant Moved(rest, names, State()) == Moved(defs, names, old(State()))
        decreases rest
      {
        var component := if rest.key in names then names[rest.key] else rest.key;
        if component !in local {
          local := local[component := rest.value];
        }
        if component !in into {
          into := into[component := Repoint(rest.value, names)];
        }
        rest := rest.rest;
      }
    }

    method One(f: Fields, output: bool) returns (f': Fields)
      requires Has(f, DEFS)
      modifies this
      ensures (f', State()) == LiftOne(f, old(State()), output)
    {
      match Get(f, DEFS) {
        case Obj(defs) =>
          var names := NameAll(defs, output);
          Move(defs, names);
          f' := RepointFields(Without(f, DEFS), names);
        case _ => f' := Without(f, DEFS);
      }
    }

    method Named(v: Json, output: bool) returns (v': Json)
      modifies this
      ensures (v', State()) == Lift(v, old(State()), output)
      decreases Size(v), 1
    {
      match v {
        case Arr(items) =>
          var items' := EachItem(items, output);
          v' := Arr(items');
        case Obj(f) =>
          SizeAtObject(f, State(), output);
          var f1 := f;
          if Marked(f) == output && Has(f, DEFS) {
            f1 := One(f, output);
          }
          if output {
            f1 := Without(f1, OUTPUT_SIDE);
          }
          var f2 := EachField(f1, output);
          v' := Obj(f2);
        case _ => v' := v;
      }
    }

    method EachItem(i: Items, output: bool) returns (i': Items)
      modifies this
      ensures (i', State()) == LiftItems(i, old(State()), output)
      decreases SizeItems(i), 2
    {
      match i {
        case NoItems => i' := i;
        case Item(head, tail) =>
          var head' := Named(head, output);
          var tail' := EachItem(tail, output);
          i' := Item(head', tail');
      }
    }

    method EachField(f: Fields, output: bool) returns (f': Fields)
      modifies this
      ensures (f', State()) == LiftFields(f, old(State()), output)
      decreases SizeFields(f), 2
    {
      match f {
        case NoFields => f' := f;
        case Field(k, v, rest) =>
          var v' := Named(v, output);
          var rest' := EachField(rest, output);
          f' := Field(k, v', rest');
      }
    }

    /** The generator's loop: each side in turn, over the paths and then the workloads. */
    method Both(paths: Json, workloads: Json) returns (paths': Json, workloads': Json)
      modifies this
      ensures (Item(paths', Item(workloads', NoItems)), State())
           == BothPasses(Item(paths, Item(workloads, NoItems)), old(State()))
    {
      paths', workloads' := paths, workloads;
      var sides := [false, true];
      ghost var roots, acc := Item(paths, Item(workloads, NoItems)), State();
      for i := 0 to 2
        invariant i == 0 ==> (Item(paths', Item(workloads', NoItems)), State()) == (roots, acc)
        invariant i == 1 ==> (Item(paths', Item(workloads', NoItems)), State()) == LiftItems(roots, acc, false)
        invariant i == 2 ==> (Item(paths', Item(workloads', NoItems)), State()) == BothPasses(roots, acc)
      {
        ghost var before, state := Item(paths', Item(workloads', NoItems)), State();
        ghost var tail := Item(workloads', NoItems);
        paths' := Named(paths', sides[i]);
        ghost var mid := State();
        workloads' := Named(workloads', sides[i]);
        assert LiftItems(NoItems, State(), sides[i]) == (NoItems, State());
        assert LiftItems(tail, mid, sides[i]) == (Item(workloads', NoItems), State());
        assert LiftItems(before, state, sides[i]) == (Item(paths', Item(workloads', NoItems)), State());
      }
    }
  }

  // ---- Which body a component gets ---------------------------------------------------

  /** An object has each key once. */
  predicate KeysOnce(f: Fields)
  {
    f.Field? ==> !Has(f.rest, f.key) && KeysOnce(f.rest)
  }

  function GoesTo(names: Names, key: string): string
  {
    if key in names then names[key] else key
  }

  /** The body of the first of `defs` that goes to this component. */
  function FirstBody(defs: Fields, names: Names, component: string): Option<Json>
  {
    match defs
    case NoFields => None
    case Field(key, body, rest) => if GoesTo(names, key) == component then Some(body) else FirstBody(rest, names, component)
  }

  /** A component keeps the body it has, and gets otherwise the first that goes to it. */
  lemma {:induction false} MovedBody(defs: Fields, names: Names, acc: Acc, c: string)
    ensures var r, first := Moved(defs, names, acc), FirstBody(defs, names, c);
      && (c in r.local <==> c in acc.local || first.Some?) && (c in r.into <==> c in acc.into || first.Some?)
      && (c in r.local ==> r.local[c] == if c in acc.local then acc.local[c] else first.value)
      && (c in r.into ==> r.into[c] == if c in acc.into then acc.into[c] else Repoint(first.value, names))
    decreases defs
  {
    if defs.Field? {
      MovedBody(defs.rest, names, MovedOne(defs, names, acc), c);
    }
  }

  lemma {:induction false} NameOfKey(defs: Fields, local: map<string, Json>, output: bool, x: string)
    requires KeysOnce(defs) && Has(defs, x)
    ensures x in NamesOf(defs, local, output) && NamesOf(defs, local, output)[x] == ComponentFor(x, Get(defs, x), local, output)
    decreases defs
  {
    if defs.key == x {
      NamesOfKeys(defs.rest, local, output);
      HasKey(defs.rest, x);
    } else {
      NameOfKey(defs.rest, local, output, x);
    }
  }

  lemma {:induction false} HasKey(f: Fields, x: string)
    ensures Has(f, x) <==> x in KeysOf(f)
    decreases f
  {
    if f.Field? {
      HasKey(f.rest, x);
    }
  }

  lemma {:induction false} FirstBodySome(defs: Fields, names: Names, x: string)
    requires Has(defs, x)
    ensures FirstBody(defs, names, GoesTo(names, x)).Some?
    decreases defs
  {
    if defs.key != x {
      FirstBodySome(defs.rest, names, x);
    }
  }

  /** No other of `defs` goes where this one goes. */
  predicate Alone(defs: Fields, names: Names, x: string)
  {
    forall y :: y in KeysOf(defs) && y != x ==> GoesTo(names, y) != GoesTo(names, x)
  }

  lemma {:induction false} AloneIsFirst(defs: Fields, names: Names, x: string)
    requires KeysOnce(defs) && Has(defs, x) && Alone(defs, names, x)
    ensures FirstBody(defs, names, GoesTo(names, x)) == Some(Get(defs, x))
    decreases defs
  {
    if defs.key != x {
      AloneIsFirst(defs.rest, names, x);
    }
  }

  /** On either side, exactly when a lift leaves an id's body at the component the id goes to: it was there
      already, or the component is new and this body is that of the first id which goes there. */
  lemma BodyKeptIff(f: Fields, acc: Acc, output: bool, x: string)
    requires Has(f, DEFS) && Get(f, DEFS).Obj? && KeysOnce(Get(f, DEFS).fields) && Has(Get(f, DEFS).fields, x)
    ensures var defs := Get(f, DEFS).fields; var names := NamesOf(defs, acc.local, output);
      var c, body, acc' := GoesTo(names, x), Get(defs, x), LiftOne(f, acc, output).1;
      && c == ComponentFor(x, body, acc.local, output) && c in acc'.local
      && (acc'.local[c] == body <==>
            if c in acc.local then acc.local[c] == body else FirstBody(defs, names, c) == Some(body))
  {
    var defs := Get(f, DEFS).fields;
    var names := NamesOf(defs, acc.local, output);
    NameOfKey(defs, acc.local, output, x);
    FirstBodySome(defs, names, x);
    MovedBody(defs, names, acc.(renamed := RenamedBy(defs, acc.local, output, acc.renamed)), GoesTo(names, x));
  }

  /** A second input shape under one id goes to a numbered component that was free; the first shape stays as it
      is; and if no other id of its schema goes there too, the second becomes that component, repointed. */
  lemma SecondShapeKept(f: Fields, acc: Acc, x: string)
    requires Has(f, DEFS) && Get(f, DEFS).Obj? && KeysOnce(Get(f, DEFS).fields) && Has(Get(f, DEFS).fields, x)
    requires acc.local.Keys == acc.into.Keys && x in acc.local && acc.local[x] != Get(Get(f, DEFS).fields, x)
    ensures var defs := Get(f, DEFS).fields; var names := NamesOf(defs, acc.local, false);
      var c, body, acc' := GoesTo(names, x), Get(defs, x), LiftOne(f, acc, false).1;
      && c !in acc.local && (exists n: nat :: n >= 2 && c == x + Decimal(n))
      && x in acc'.local && acc'.local[x] == acc.local[x]
      && x in acc.into && x in acc'.into && acc'.into[x] == acc.into[x]
      && (Alone(defs, names, x) ==>
            c in acc'.local && acc'.local[c] == body && c in acc'.into && acc'.into[c] == Repoint(body, names))
  {
    var defs := Get(f, DEFS).fields;
    var names := NamesOf(defs, acc.local, false);
    var start := acc.(renamed := RenamedBy(defs, acc.local, false, acc.renamed));
    NameOfKey(defs, acc.local, false, x);
    MovedBody(defs, names, start, x);
    MovedBody(defs, names, start, GoesTo(names, x));
    if Alone(defs, names, x) {
      AloneIsFirst(defs, names, x);
    }
  }

  /** Where an id of the schema has the numbered name itself, its own body is lost: it goes where the second
      shape went. */
  lemma NumberedNameCollides(x: string, first: Json, second: Json, third: Json)
    requires first != second && second != third
    ensures var defs := Field(x, second, Field(x + "2", third, NoFields));
      var acc := Acc(map[x := first], map[x := first], []);
      var names := NamesOf(defs, acc.local, false);
      && GoesTo(names, x) == GoesTo(names, x + "2") == x + "2"
      && x + "2" in Moved(defs, names, acc).local && Moved(defs, names, acc).local[x + "2"] == second != third
  {
    var local := map[x := first];
    var rest := Field(x + "2", third, NoFields);
    assert Decimal(2) == "2" && |x + "2"| != |x|;
    assert FirstFree(x, local.Keys, 2) == 2;
    assert NamesOf(rest, local, false) == map[x + "2" := x + "2"];
    var defs := Field(x, second, rest);
    var names := NamesOf(defs, local, false);
    assert x !in NamesOf(rest, local, false) && names[x] == x + "2";
    MovedBody(defs, names, Acc(local, local, []), x + "2");
  }

  // ---- Which names are noted -----------------------------------------------------------

  predicate Once(names: seq<string>)
  {
    forall i, j :: 0 <= i < j < |names| ==> names[i] != names[j]
  }

  /** Some id goes to this component under another name than its own. */
  predicate SuffixedTo(defs: Fields, local: map<string, Json>, output: bool, c: string)
  {
    match defs
    case NoFields => false
    case Field(name, body, rest) =>
      (c != name && ComponentFor(name, body, local, output) == c) || SuffixedTo(rest, local, output, c)
  }

  /** A lift adds to the noted names exactly the components given under another name, each once. */
  lemma {:induction false} RenamedExactly(defs: Fields, local: map<string, Json>, output: bool, renamed: seq<string>)
    requires Once(renamed)
    ensures var r := RenamedBy(defs, local, output, renamed);
      renamed <= r && Once(r) && forall c :: c in r <==> c in renamed || SuffixedTo(defs, local, output, c)
    decreases defs
  {
    if defs.Field? {
      var component := ComponentFor(defs.key, defs.value, local, output);
      var next := if component == defs.key || component in renamed then renamed else renamed + [component];
      RenamedExactly(defs.rest, local, output, next);
    }
  }
}
