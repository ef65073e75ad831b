/** What comes back from the codec: the declared part of the object, with missing maps and lists filled in. */
module CodecRoundTrip {
  import opened Wrappers
  import opened Codec

  // ---------- the value that comes back ----------

  function Normal(protos: Protos, name: string, v: Value): Value
    decreases !v.Undefined?, v, 2
  {
    if name !in protos then v
    else match protos[name]
      case Record(fields) => Obj(NormalFields(protos, fields, v))
      case Map2(Some(t)) => NormalMap(protos, t, v)
      case Vector2(Some(t)) => NormalList(protos, t, v)
      case _ => v
  }

  function NormalFields(protos: Protos, fields: seq<Field>, v: Value): map<string, Value>
    decreases !v.Undefined?, v, 1, |fields|
  {
    if fields == [] || !v.Obj? then map[]
    else
      var n := |fields| - 1;
      NormalFields(protos, fields[..n], v)[fields[n].value := NormalField(protos, fields[n], v)]
  }

  function NormalField(protos: Protos, field: Field, v: Value): Value
    requires v.Obj?
    decreases !v.Undefined?, v, 0
  {
    var p := Prop(v, field.value);
    match field.kind
    case MapOf(t) => NormalMap(protos, t, p)
    case ListOf(t) => if field.value in v.props then NormalList(protos, t, p) else Arr([])
    case Struct(t) => Normal(protos, t, p)
    case _ => p
  }

  function NormalMap(protos: Protos, t: string, v: Value): Value
    decreases !v.Undefined?, v, 0
  {
    match v
    case Undefined => Obj(map[])
    case Obj(props) => Obj(map k | k in props :: Normal(protos, t, props[k]))
    case _ => v
  }

  function NormalList(protos: Protos, t: string, v: Value): Value
    decreases !v.Undefined?, v, 0
  {
    match v
    case Arr(items) => Arr(seq(|items|, i requires 0 <= i < |items| => Normal(protos, t, items[i])))
    case _ => v
  }

  /** No bare list of structures: the case that `unserialize` gets wrong. */
  predicate NoStructLists(protos: Protos) {
    forall name :: name in protos ==> !(protos[name].Vector2? && protos[name].type2.Some?)
  }

  // ---------- maps and lists, part by part ----------

  lemma AllPropsParts(results: map<string, Option<Value>>, r: map<string, Value>)
    ensures AllProps(results) == Some(r)
            <==> r.Keys == results.Keys && forall k :: k in results ==> results[k] == Some(r[k])
  {
    if r.Keys == results.Keys && forall k :: k in results ==> results[k] == Some(r[k]) {
      assert r == map k | k in results :: results[k].value;
    }
  }

  lemma AllParts(results: seq<Option<Value>>, r: seq<Value>)
    ensures All(results) == Some(r)
            <==> |r| == |results| && forall i :: 0 <= i < |results| ==> results[i] == Some(r[i])
  {
    if |r| == |results| && forall i :: 0 <= i < |results| ==> results[i] == Some(r[i]) {
      assert r == seq(|results|, i requires 0 <= i < |results| => results[i].value);
    }
  }

  lemma SerializeMapParts(protos: Protos, t: string, props: map<string, Value>, r: map<string, Value>)
    ensures SerializeMap(protos, t, Obj(props)) == Some(Obj(r))
            <==> r.Keys == props.Keys && forall k :: k in props ==> Serialize(protos, t, props[k]) == Some(r[k])
  {
    AllPropsParts(map k | k in props :: Serialize(protos, t, props[k]), r);
  }

  lemma UnserializeMapParts(protos: Protos, t: string, props: map<string, Value>, r: map<string, Value>)
    ensures UnserializeMap(protos, t, Obj(props)) == Some(Obj(r))
            <==> r.Keys == props.Keys && forall k :: k in props ==> Unserialize(protos, t, props[k]) == Some(r[k])
  {
    AllPropsParts(map k | k in props :: Unserialize(protos, t, props[k]), r);
  }

  lemma SerializeListParts(protos: Protos, t: string, items: seq<Value>, r: seq<Value>)
    ensures SerializeList(protos, t, Arr(items)) == Some(Arr(r))
            <==> |r| == |items| && forall i :: 0 <= i < |items| ==> Serialize(protos, t, items[i]) == Some(r[i])
  {
    AllParts(seq(|items|, i requires 0 <= i < |items| => Serialize(protos, t, items[i])), r);
  }

  lemma UnserializeListParts(protos: Protos, t: string, items: seq<Value>, r: seq<Value>)
    ensures UnserializeList(protos, t, Arr(items)) == Some(Arr(r))
            <==> |r| == |items| && forall i :: 0 <= i < |items| ==> Unserialize(protos, t, items[i]) == Some(r[i])
  {
    AllParts(seq(|items|, i requires 0 <= i < |items| => Unserialize(protos, t, items[i])), r);
  }

  lemma SerializeRecordParts(protos: Protos, name: string, v: Value, r: seq<Value>)
    requires name in protos && protos[name].Record?
    ensures var fields := protos[name].fields;
            Serialize(protos, name, v) == Some(Arr(r))
            <==> |r| == |fields| && forall i :: 0 <= i < |fields| ==> SerializeField(protos, fields[i], v) == Some(r[i])
  {
    var fields := protos[name].fields;
    AllParts(seq(|fields|, i requires 0 <= i < |fields| => SerializeField(protos, fields[i], v)), r);
  }

  // ---------- the round trip ----------

  /** Whatever `serialize` accepts comes back as its normal form. */
  lemma {:induction false} RoundTrip(protos: Protos, name: string, v: Value, w: Value)
    requires NoStructLists(protos) && Serialize(protos, name, v) == Some(w)
    ensures Unserialize(protos, name, w) == Some(Normal(protos, name, v))
    decreases !v.Undefined?, v, 2
  {
    match protos[name]
    case Record(fields) =>
      SerializeRecordParts(protos, name, v, w.items);
      RoundTripFields(protos, fields, v, w, |fields|);
      assert fields[..|fields|] == fields;
    case Map2(Some(t)) => RoundTripMap(protos, t, v, w);
    case _ =>
  }

  lemma {:induction false} RoundTripFields(protos: Protos, fields: seq<Field>, v: Value, w: Value, n: nat)
    requires NoStructLists(protos) && n <= |fields|
    requires w.Arr? && |w.items| == |fields|
    requires forall i :: 0 <= i < |fields| ==> SerializeField(protos, fields[i], v) == Some(w.items[i])
    ensures UnserializeFields(protos, fields[..n], w) == Some(Obj(NormalFields(protos, fields[..n], v)))
    decreases !v.Undefined?, v, 1, n
  {
    if n > 0 {
      assert fields[..n][..n - 1] == fields[..n - 1];
      RoundTripFields(protos, fields, v, w, n - 1);
      assert SerializeField(protos, fields[n - 1], v) == Some(w.items[n - 1]);
      RoundTripField(protos, fields[n - 1], v, w, w.items[n - 1]);
    }
  }

  lemma {:induction false} RoundTripField(protos: Protos, field: Field, v: Value, w: Value, item: Value)
    requires NoStructLists(protos) && SerializeField(protos, field, v) == Some(item) && w.Arr? && item in w.items
    ensures v.Obj? && UnserializeField(protos, field.kind, item, w) == Some(NormalField(protos, field, v))
    decreases !v.Undefined?, v, 0
  {
    match field.kind
    case MapOf(t) => RoundTripMap(protos, t, Prop(v, field.value), item);
    case ListOf(t) =>
      if field.value in v.props {
        RoundTripList(protos, t, v.props[field.value], item);
      } else {
        UnserializeListParts(protos, t, [], []);
      }
    case Struct(t) => RoundTrip(protos, t, Prop(v, field.value), item);
    case _ =>
  }

  lemma {:induction false} RoundTripMap(protos: Protos, t: string, v: Value, w: Value)
    requires NoStructLists(protos) && SerializeMap(protos, t, v) == Some(w)
    ensures UnserializeMap(protos, t, w) == Some(NormalMap(protos, t, v))
    decreases !v.Undefined?, v, 0
  {
    if v.Obj? {
      SerializeMapParts(protos, t, v.props, w.props);
      forall k | k in v.props ensures Unserialize(protos, t, w.props[k]) == Some(Normal(protos, t, v.props[k])) {
        RoundTrip(protos, t, v.props[k], w.props[k]);
      }
      UnserializeMapParts(protos, t, w.props, NormalMap(protos, t, v).props);
    } else {
      UnserializeMapParts(protos, t, map[], map[]);
    }
  }

  lemma {:induction false} RoundTripList(protos: Protos, t: string, v: Value, w: Value)
    requires NoStructLists(protos) && SerializeList(protos, t, v) == Some(w)
    ensures UnserializeList(protos, t, w) == Some(NormalList(protos, t, v))
    decreases !v.Undefined?, v, 0
  {
    SerializeListParts(protos, t, v.items, w.items);
    forall i | 0 <= i < |v.items| ensures Unserialize(protos, t, w.items[i]) == Some(Normal(protos, t, v.items[i])) {
      RoundTrip(protos, t, v.items[i], w.items[i]);
    }
    UnserializeListParts(protos, t, w.items, NormalList(protos, t, v).items);
  }
}
