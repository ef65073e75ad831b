/** The schema-driven codec of `pack/module/dataprocess/serialize/serialize.js`:
    objects become arrays of their fields' values, and back. None stands for a thrown error. */
module Codec {
  import opened Wrappers

  /** A JavaScript value; anything that is neither an object nor an array is an Atom. */
  datatype Value =
    | Undefined
    | Atom(text: string)
    | Obj(props: map<string, Value>)
    | Arr(items: seq<Value>)

  /** `type`, `type1` and `type2` of a field. Text values pass through as they are. */
  datatype Kind =
    | Text
    | TextMap
    | TextList
    | MapOf(name: string)
    | ListOf(name: string)
    | Struct(name: string)

  datatype Field = Field(value: string, kind: Kind)

  /** An entry of SerialProto: named fields, or a bare map (`map2`) or list (`vector2`), which stands alone. */
  datatype Proto =
    | Record(fields: seq<Field>)
    | Map2(type2: Option<string>)
    | Vector2(type2: Option<string>)

  type Protos = map<string, Proto>

  function Prop(v: Value, key: string): Value {
    if v.Obj? && key in v.props then v.props[key] else Undefined
  }

  function Item(v: Value, i: nat): Value {
    if v.Arr? && i < |v.items| then v.items[i] else Undefined
  }

  function All(results: seq<Option<Value>>): Option<seq<Value>> {
    if forall i :: 0 <= i < |results| ==> results[i].Some? then
      Some(seq(|results|, i requires 0 <= i < |results| => results[i].value))
    else None
  }

  function AllProps(results: map<string, Option<Value>>): Option<map<string, Value>> {
    if forall k :: k in results ==> results[k].Some? then Some(map k | k in results :: results[k].value)
    else None
  }

  // ---------- serialize ----------

  function Serialize(protos: Protos, name: string, v: Value): Option<Value>
    decreases !v.Undefined?, v, 2
  {
    if name !in protos then None
    else match protos[name]
      case Record(fields) =>
        var items := All(seq(|fields|, i requires 0 <= i < |fields| => SerializeField(protos, fields[i], v)));
        if items.Some? then Some(Arr(items.value)) else None
      case Map2(None) => Some(v)
      case Map2(Some(t)) => SerializeMap(protos, t, v)
      case Vector2(None) => Some(v)
      case Vector2(Some(t)) => SerializeList(protos, t, v)
  }

  function SerializeField(protos: Protos, field: Field, v: Value): Option<Value>
    decreases !v.Undefined?, v, 1
  {
    if !v.Obj? then None
    else match field.kind
      case Text => if field.value in v.props then Some(v.props[field.value]) else None
      case TextMap => Some(Prop(v, field.value))
      case TextList => Some(Prop(v, field.value))
      case MapOf(t) => SerializeMap(protos, t, Prop(v, field.value))
      case ListOf(t) =>
        if field.value in v.props then SerializeList(protos, t, v.props[field.value]) else Some(Arr([]))
      case Struct(t) => Serialize(protos, t, Prop(v, field.value))
  }

  /** `for k in undefined` has no iterations. */
  function SerializeMap(protos: Protos, t: string, v: Value): Option<Value>
    decreases !v.Undefined?, v, 0
  {
    match v
    case Undefined => Some(Obj(map[]))
    case Obj(props) =>
      var results := AllProps(map k | k in props :: Serialize(protos, t, props[k]));
      if results.Some? then Some(Obj(results.value)) else None
    case _ => None
  }

  function SerializeList(protos: Protos, t: string, v: Value): Option<Value>
    decreases !v.Undefined?, v, 0
  {
    match v
    case Arr(items) =>
      var results := All(seq(|items|, i requires 0 <= i < |items| => Serialize(protos, t, items[i])));
      if results.Some? then Some(Arr(results.value)) else None
    case _ => None
  }

  // ---------- unserialize ----------

  function Unserialize(protos: Protos, name: string, w: Value): Option<Value>
    decreases !w.Undefined?, w, 2
  {
    if name !in protos then None
    else match protos[name]
      case Record(fields) => UnserializeFields(protos, fields, w)
      case Map2(None) => Some(w)
      case Map2(Some(t)) => UnserializeMap(protos, t, w)
      case Vector2(None) => Some(w)
      case Vector2(Some(t)) =>
        // the loop runs to `object[i].length`, the length of the first element
        if !w.Arr? || w.items == [] || w.items[0].Undefined? || w.items[0].Atom? then None
        else
          var n := if w.items[0].Arr? then |w.items[0].items| else 0;
          var results := All(seq(n, i requires 0 <= i < n => Unserialize(protos, t, Item(w, i))));
          if results.Some? then Some(Arr(results.value)) else None
  }

  function UnserializeFields(protos: Protos, fields: seq<Field>, w: Value): Option<Value>
    decreases !w.Undefined?, w, 1, |fields|
  {
    if fields == [] then Some(Obj(map[]))
    else if !w.Arr? then None
    else
      var n := |fields| - 1;
      var front := UnserializeFields(protos, fields[..n], w);
      var last := UnserializeField(protos, fields[n].kind, Item(w, n), w);
      if front.Some? && front.value.Obj? && last.Some? then Some(Obj(front.value.props[fields[n].value := last.value]))
      else None
  }

  function UnserializeField(protos: Protos, kind: Kind, item: Value, ghost w: Value): Option<Value>
    requires w.Arr? && (item.Undefined? || item in w.items)
    decreases !w.Undefined?, w, 0
  {
    match kind
    case Text => Some(item)
    case TextMap => Some(item)
    case TextList => Some(item)
    case MapOf(t) => UnserializeMap(protos, t, item)
    case ListOf(t) => UnserializeList(protos, t, item)
    case Struct(t) => Unserialize(protos, t, item)
  }

  function UnserializeMap(protos: Protos, t: string, w: Value): Option<Value>
    decreases !w.Undefined?, w, 0
  {
    match w
    case Undefined => Some(Obj(map[]))
    case Obj(props) =>
      var results := AllProps(map k | k in props :: Unserialize(protos, t, props[k]));
      if results.Some? then Some(Obj(results.value)) else None
    case _ => None
  }

  function UnserializeList(protos: Protos, t: string, w: Value): Option<Value>
    decreases !w.Undefined?, w, 0
  {
    match w
    case Arr(items) =>
      var results := All(seq(|items|, i requires 0 <= i < |items| => Unserialize(protos, t, items[i])));
      if results.Some? then Some(Arr(results.value)) else None
    case _ => None
  }
}
