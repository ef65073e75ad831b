/** The codec as the code runs it: loops that push to arrays and fill objects. */
module CodecLoops {
  import opened Wrappers
  import opened Codec
  import opened CodecRoundTrip
  import opened CodecExact

  method SerializeObject(protos: Protos, name: string, input: Value) returns (r: Option<Value>)
    ensures r == Serialize(protos, name, input)
    decreases !input.Undefined?, input, 2
  {
    if name !in protos {
      return None;
    }
    match protos[name]
    case Record(data) =>
      var serialObject: seq<Value> := [];
      SerializesRecord(protos, name, input);
      for i := 0 to |data|
        invariant |serialObject| == i
        invariant forall j :: 0 <= j < i ==> SerializeField(protos, data[j], input) == Some(serialObject[j])
      {
        var item := SerializeOne(protos, data[i], input);
        if item.None? {
          return None;
        }
        serialObject := serialObject + [item.value];
      }
      SerializeRecordParts(protos, name, input, serialObject);
      return Some(Arr(serialObject));
    case Map2(None) => return Some(input);
    case Map2(Some(t)) => r := SerializeProps(protos, t, input);
    case Vector2(None) => return Some(input);
    case Vector2(Some(t)) => r := SerializeItems(protos, t, input);
  }

  method SerializeOne(protos: Protos, field: Field, input: Value) returns (r: Option<Value>)
    ensures r == SerializeField(protos, field, input)
    decreases !input.Undefined?, input, 1
  {
    if !input.Obj? {
      return None;
    }
    match field.kind
    case Text =>
      if field.value !in input.props {
        return None;  // checkKey
      }
      return Some(input.props[field.value]);
    case TextMap => return Some(Prop(input, field.value));
    case TextList => return Some(Prop(input, field.value));
    case MapOf(t) => r := SerializeProps(protos, t, Prop(input, field.value));
    case ListOf(t) =>
      if field.value !in input.props {
        return Some(Arr([]));
      }
      r := SerializeItems(protos, t, input.props[field.value]);
    case Struct(t) => r := SerializeObject(protos, t, Prop(input, field.value));
  }

  /** The `for (k in ...)` loop, in any order of the keys. */
  method SerializeProps(protos: Protos, t: string, input: Value) returns (r: Option<Value>)
    ensures r == SerializeMap(protos, t, input)
    decreases !input.Undefined?, input, 0
  {
    if input.Undefined? {
      return Some(Obj(map[]));
    }
    if !input.Obj? {
      return None;
    }
    var props := input.props;
    var serialObject: map<string, Value> := map[];
    var todo := props.Keys;
    while todo != {}
      invariant todo <= props.Keys && serialObject.Keys == props.Keys - todo
      invariant forall k :: k in serialObject ==> Serialize(protos, t, props[k]) == Some(serialObject[k])
      decreases |todo|
    {
      var k :| k in todo;
      var item := SerializeObject(protos, t, props[k]);
      if item.None? {
        MissingProp(map j | j in props :: Serialize(protos, t, props[j]), k);
        return None;
      }
      serialObject := serialObject[k := item.value];
      todo := todo - {k};
    }
    SerializeMapParts(protos, t, props, serialObject);
    return Some(Obj(serialObject));
  }

  lemma MissingProp(results: map<string, Option<Value>>, k: string)
    requires k in results && results[k].None?
    ensures AllProps(results).None?
  {
  }

  lemma MissingItem(results: seq<Option<Value>>, i: nat)
    requires i < |results| && results[i].None?
    ensures All(results).None?
  {
  }

  method SerializeItems(protos: Protos, t: string, input: Value) returns (r: Option<Value>)
    ensures r == SerializeList(protos, t, input)
    decreases !input.Undefined?, input, 0
  {
    if !input.Arr? {
      return None;
    }
    var items := input.items;
    var serialObject: seq<Value> := [];
    for k := 0 to |items|
      invariant |serialObject| == k
      invariant forall j :: 0 <= j < k ==> Serialize(protos, t, items[j]) == Some(serialObject[j])
    {
      var item := SerializeObject(protos, t, items[k]);
      if item.None? {
        MissingItem(seq(|items|, i requires 0 <= i < |items| => Serialize(protos, t, items[i])), k);
        return None;
      }
      serialObject := serialObject + [item.value];
    }
    SerializeListParts(protos, t, items, serialObject);
    return Some(Arr(serialObject));
  }

  // ---------- unserialize ----------

  method UnserializeObject(protos: Protos, name: string, input: Value) returns (r: Option<Value>)
    ensures r == Unserialize(protos, name, input)
    decreases !input.Undefined?, input, 2
  {
    if name !in protos {
      return None;
    }
    match protos[name]
    case Record(data) =>
      var unserialObject: map<string, Value> := map[];
      assert data[..|data|] == data;
      for i := 0 to |data|
        invariant UnserializeFields(protos, data[..i], input) == Some(Obj(unserialObject))
      {
        assert data[..i + 1][..i] == data[..i];
        if !input.Arr? {
          StuckFields(protos, data, input, i + 1);
          return None;
        }
        var item := UnserializeOne(protos, data[i].kind, Item(input, i), input);
        if item.None? {
          StuckFields(protos, data, input, i + 1);
          return None;
        }
        unserialObject := unserialObject[data[i].value := item.value];
      }
      return Some(Obj(unserialObject));
    case Map2(None) => return Some(input);
    case Map2(Some(t)) => r := UnserializeProps(protos, t, input);
    case Vector2(None) => return Some(input);
    case Vector2(Some(t)) =>
      if !input.Arr? || input.items == [] || input.items[0].Undefined? || input.items[0].Atom? {
        return None;
      }
      var n := if input.items[0].Arr? then |input.items[0].items| else 0;
      var unserialObject: seq<Value> := [];
      for k := 0 to n
        invariant |unserialObject| == k
        invariant forall j :: 0 <= j < k ==> Unserialize(protos, t, Item(input, j)) == Some(unserialObject[j])
      {
        var item := UnserializeObject(protos, t, Item(input, k));
        if item.None? {
          MissingItem(seq(n, i requires 0 <= i < n => Unserialize(protos, t, Item(input, i))), k);
          return None;
        }
        unserialObject := unserialObject + [item.value];
      }
      AllParts(seq(n, i requires 0 <= i < n => Unserialize(protos, t, Item(input, i))), unserialObject);
      return Some(Arr(unserialObject));
  }

  /** A field that fails makes all of them fail. */
  lemma {:induction false} StuckFields(protos: Protos, data: seq<Field>, input: Value, n: nat)
    requires 0 < n <= |data| && UnserializeFields(protos, data[..n], input).None?
    ensures UnserializeFields(protos, data, input).None?
    decreases |data| - n
  {
    if n == |data| {
      assert data[..n] == data;
    } else {
      assert data[..n + 1][..n] == data[..n];
      StuckFields(protos, data, input, n + 1);
    }
  }

  method UnserializeOne(protos: Protos, kind: Kind, item: Value, ghost input: Value) returns (r: Option<Value>)
    requires input.Arr? && (item.Undefined? || item in input.items)
    ensures r == UnserializeField(protos, kind, item, input)
    decreases !input.Undefined?, input, 0
  {
    match kind
    case Text => return Some(item);
    case TextMap => return Some(item);
    case TextList => return Some(item);
    case MapOf(t) => r := UnserializeProps(protos, t, item);
    case ListOf(t) => r := UnserializeItems(protos, t, item);
    case Struct(t) => r := UnserializeObject(protos, t, item);
  }

  method UnserializeProps(protos: Protos, t: string, input: Value) returns (r: Option<Value>)
    ensures r == UnserializeMap(protos, t, input)
    decreases !input.Undefined?, input, 0
  {
    if input.Undefined? {
      return Some(Obj(map[]));
    }
    if !input.Obj? {
      return None;
    }
    var props := input.props;
    var unserialObject: map<string, Value> := map[];
    var todo := props.Keys;
    while todo != {}
      invariant todo <= props.Keys && unserialObject.Keys == props.Keys - todo
      invariant forall k :: k in unserialObject ==> Unserialize(protos, t, props[k]) == Some(unserialObject[k])
      decreases |todo|
    {
      var k :| k in todo;
      var item := UnserializeObject(protos, t, props[k]);
      if item.None? {
        MissingProp(map j | j in props :: Unserialize(protos, t, props[j]), k);
        return None;
      }
      unserialObject := unserialObject[k := item.value];
      todo := todo - {k};
    }
    UnserializeMapParts(protos, t, props, unserialObject);
    return Some(Obj(unserialObject));
  }

  method UnserializeItems(protos: Protos, t: string, input: Value) returns (r: Option<Value>)
    ensures r == UnserializeList(protos, t, input)
    decreases !input.Undefined?, input, 0
  {
    if !input.Arr? {
      return None;
    }
    var items := input.items;
    var unserialObject: seq<Value> := [];
    for k := 0 to |items|
      invariant |unserialObject| == k
      invariant forall j :: 0 <= j < k ==> Unserialize(protos, t, items[j]) == Some(unserialObject[j])
    {
      var item := UnserializeObject(protos, t, items[k]);
      if item.None? {
        MissingItem(seq(|items|, i requires 0 <= i < |items| => Unserialize(protos, t, items[i])), k);
        return None;
      }
      unserialObject := unserialObject + [item.value];
    }
    UnserializeListParts(protos, t, items, unserialObject);
    return Some(Arr(unserialObject));
  }
}
