/** JSON values as the OpenAPI generator handles them: objects keep their iteration order. */
module Json {

  datatype Json =
    | Null
    | Bool(b: bool)
    | Num(n: int)
    | Str(s: string)
    | Arr(items: Items)
    | Obj(fields: Fields)

  datatype Items = NoItems | Item(head: Json, tail: Items)

  datatype Fields = NoFields | Field(key: string, value: Json, rest: Fields)

  predicate Has(f: Fields, key: string)
  {
    f.Field? && (f.key == key || Has(f.rest, key))
  }

  function Get(f: Fields, key: string): Json
    requires Has(f, key)
  {
    if f.key == key then f.value else Get(f.rest, key)
  }

  function Without(f: Fields, key: string): Fields
  {
    match f
    case NoFields => NoFields
    case Field(k, v, rest) => if k == key then Without(rest, key) else Field(k, v, Without(rest, key))
  }

  /** How many nodes a value has. */
  function Size(v: Json): nat
  {
    match v
    case Arr(items) => 1 + SizeItems(items)
    case Obj(fields) => 1 + SizeFields(fields)
    case _ => 1
  }

  function SizeItems(i: Items): nat
  {
    match i
    case NoItems => 0
    case Item(head, tail) => Size(head) + SizeItems(tail)
  }

  function SizeFields(f: Fields): nat
  {
    match f
    case NoFields => 0
    case Field(_, v, rest) => Size(v) + SizeFields(rest)
  }

  lemma SizeWithout(f: Fields, key: string)
    ensures SizeFields(Without(f, key)) <= SizeFields(f)
  {
  }

  lemma WithoutHas(f: Fields, key: string, other: string)
    ensures Has(Without(f, key), other) <==> Has(f, other) && other != key
    ensures Has(f, other) && other != key ==> Get(Without(f, key), other) == Get(f, other)
  {
  }

  lemma WithoutAbsent(f: Fields, key: string)
    requires !Has(f, key)
    ensures Without(f, key) == f
  {
  }
}
