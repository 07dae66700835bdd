/**
 * JSON values as `JSON.parse` and `json.loads` produce them. Parsing itself is not modelled:
 * operations that parse take the parser as a function `string -> Option<Json>`, `None`
 * standing for a thrown `SyntaxError` / `JSONDecodeError`.
 */
module Json {
  import opened Wrappers
  import Text

  /** Numbers are kept as integers; fractional numbers play no role in the model. */
  datatype Json =
    | JNull
    | JBool(b: bool)
    | JNum(n: int)
    | JStr(s: string)
    | JArr(items: seq<Json>)
    | JObj(fields: map<string, Json>)

  type Parser = string -> Option<Json>

  /** JavaScript truthiness of a possibly missing (`undefined`) value. */
  predicate Truthy(v: Option<Json>)
  {
    match v
    case None => false
    case Some(JNull) => false
    case Some(JBool(b)) => b
    case Some(JNum(n)) => n != 0
    case Some(JStr(s)) => s != ""
    case Some(_) => true
  }

  /** `a || b` on possibly missing values. */
  function Or(a: Option<Json>, b: Option<Json>): (r: Option<Json>)
    ensures Truthy(a) ==> r == a
    ensures !Truthy(a) ==> r == b
  {
    if Truthy(a) then a else b
  }

  /** `obj?.key`: the member of an object, missing for every other value. */
  function Get(v: Option<Json>, key: string): (r: Option<Json>)
    ensures r.Some? ==> v.Some? && v.value.JObj? && key in v.value.fields
  {
    match v
    case Some(JObj(m)) => if key in m then Some(m[key]) else None
    case _ => None
  }

  /** A member read as text: a non-empty string, else `default`, as in `obj.key || 'default'`. */
  function TextOr(v: Option<Json>, default: string): (r: string)
    ensures v.Some? && v.value.JStr? && v.value.s != "" ==> r == v.value.s
    ensures !Truthy(v) ==> r == default
  {
    match v
    case Some(JStr(s)) => if s != "" then s else default
    case _ => default
  }

  /** A non-empty string member, `None` for a missing, empty or non-string one. */
  function NonEmptyText(v: Option<Json>): (r: Option<string>)
    ensures r.Some? <==> v.Some? && v.value.JStr? && v.value.s != ""
    ensures r.Some? ==> r.value == v.value.s
  {
    match v
    case Some(JStr(s)) => if s != "" then Some(s) else None
    case _ => None
  }

  /** `x if isinstance(x, list) else [x]`. */
  function AsList(v: Json): (r: seq<Json>)
    ensures v.JArr? ==> r == v.items
    ensures !v.JArr? ==> r == [v]
  {
    if v.JArr? then v.items else [v]
  }

  /**
   * The shape rule shared by the storyboard route and the service: a list is kept, an object
   * holding "storyboard" is replaced by that member, anything else is wrapped in a list.
   */
  function StoryboardShape(v: Json): (r: Json)
    ensures v.JArr? ==> r == v
    ensures v.JObj? && "storyboard" in v.fields ==> r == v.fields["storyboard"]
    ensures !v.JArr? && !(v.JObj? && "storyboard" in v.fields) ==> r == JArr([v])
  {
    match v
    case JArr(_) => v
    case JObj(m) => if "storyboard" in m then m["storyboard"] else JArr([v])
    case _ => JArr([v])
  }

  /** The result is a list unless the input was an object whose "storyboard" member is not. */
  lemma StoryboardShapeIsList(v: Json)
    ensures StoryboardShape(v).JArr? <==>
      !(v.JObj? && "storyboard" in v.fields && !v.fields["storyboard"].JArr?)
  {
  }

  /** Python `len(x)` is defined for strings, lists and objects; for anything else it raises. */
  predicate HasLength(v: Json)
  {
    v.JStr? || v.JArr? || v.JObj?
  }

  /** Python `len(x)` where it is defined. */
  function PyLen(v: Json): (n: nat)
    requires HasLength(v)
    ensures v.JArr? ==> n == |v.items|
  {
    match v
    case JStr(s) => |s|
    case JArr(items) => |items|
    case JObj(m) => |m|
  }

  /** `str(v)` as an f-string renders it; lists and objects use the `repr` parameter. */
  function PyStr(v: Json, repr: Json -> string): string
  {
    match v
    case JStr(s) => s
    case JNum(n) => Text.IntToString(n)
    case JBool(b) => if b then "True" else "False"
    case JNull => "None"
    case _ => repr(v)
  }

  /** Python truthiness of a parsed value: `None`, `False`, `0` and empty strings, lists and
    * dicts are false. */
  predicate PyTruthy(v: Json)
  {
    match v
    case JNull => false
    case JBool(b) => b
    case JNum(n) => n != 0
    case JStr(s) => s != ""
    case JArr(items) => items != []
    case JObj(m) => m != map[]
  }

  /** Python `a or b`. */
  function PyOr(a: Json, b: Json): (r: Json)
    ensures PyTruthy(a) ==> r == a
    ensures !PyTruthy(a) ==> r == b
  {
    if PyTruthy(a) then a else b
  }

  /** `d.get(key, default)` on a dict. */
  function FieldOr(d: map<string, Json>, key: string, default: Json): (r: Json)
    ensures key !in d ==> r == default
    ensures key in d ==> r == d[key]
  {
    if key in d then d[key] else default
  }

  /** A list of objects as one JSON value. */
  function ObjectList(objs: seq<map<string, Json>>): Json
  {
    JArr(seq(|objs|, i requires 0 <= i < |objs| => JObj(objs[i])))
  }

  /** The members of a list of objects; `None` for any other value. */
  function Objects(v: Json): (r: Option<seq<map<string, Json>>>)
    ensures r.Some? <==> v.JArr? && forall i :: 0 <= i < |v.items| ==> v.items[i].JObj?
    ensures r.Some? ==> |r.value| == |v.items|
    ensures r.Some? ==> forall i :: 0 <= i < |v.items| ==> v.items[i] == JObj(r.value[i])
  {
    match v
    case JArr(items) =>
      if forall i :: 0 <= i < |items| ==> items[i].JObj? then
        Some(seq(|items|, i requires 0 <= i < |items| => items[i].fields))
      else None
    case _ => None
  }

  /** Reading a list of objects back gives its members. */
  lemma ObjectsOfObjectList(objs: seq<map<string, Json>>)
    ensures Objects(ObjectList(objs)) == Some(objs)
  {
    var r := Objects(ObjectList(objs));
    assert r.Some?;
    forall i | 0 <= i < |objs|
      ensures r.value[i] == objs[i]
    {
      assert ObjectList(objs).items[i] == JObj(objs[i]);
    }
    assert r.value == objs;
  }

  /** A one-object list reads back as that object. */
  lemma ObjectsOfOne(m: map<string, Json>)
    ensures Objects(JArr([JObj(m)])) == Some([m])
  {
    assert ObjectList([m]).items[0] == JObj(m);
    assert ObjectList([m]) == JArr([JObj(m)]);
    ObjectsOfObjectList([m]);
  }
}
