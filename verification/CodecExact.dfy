/** Exactly which values the codec gives back unchanged, and what goes wrong with bare lists of structures. */
module CodecExact {
  import opened Wrappers
  import opened Codec
  import opened CodecRoundTrip

  function Names(fields: seq<Field>): set<string> {
    if fields == [] then {} else Names(fields[..|fields| - 1]) + {fields[|fields| - 1].value}
  }

  lemma {:induction false} NamesAre(fields: seq<Field>, n: nat, k: string)
    requires n <= |fields|
    ensures k in Names(fields[..n]) <==> exists i :: 0 <= i < n && fields[i].value == k
    decreases n
  {
    if n > 0 {
      assert fields[..n][..n - 1] == fields[..n - 1];
      NamesAre(fields, n - 1, k);
    }
  }

  /** No two fields of a record share a name. */
  predicate DistinctNames(protos: Protos) {
    forall name :: name in protos && protos[name].Record? ==>
      forall i, j :: 0 <= i < j < |protos[name].fields| ==> protos[name].fields[i].value != protos[name].fields[j].value
  }

  /** Just what the schema declares, at every level: no property missing, none besides. */
  predicate Declared(protos: Protos, name: string, v: Value)
    decreases v, 1
  {
    name in protos &&
    match protos[name]
    case Record(fields) =>
      && v.Obj? && v.props.Keys == Names(fields)
      && forall i :: 0 <= i < |fields| ==> DeclaredField(protos, fields[i], v)
    case Map2(Some(t)) => v.Obj? && forall k :: k in v.props ==> Declared(protos, t, v.props[k])
    case Vector2(Some(t)) => v.Arr? && forall i :: 0 <= i < |v.items| ==> Declared(protos, t, v.items[i])
    case _ => true
  }

  predicate DeclaredField(protos: Protos, field: Field, v: Value)
    decreases v, 0
  {
    v.Obj? && field.value in v.props &&
    var p := v.props[field.value];
    match field.kind
    case MapOf(t) => p.Obj? && forall k :: k in p.props ==> Declared(protos, t, p.props[k])
    case ListOf(t) => p.Arr? && forall i :: 0 <= i < |p.items| ==> Declared(protos, t, p.items[i])
    case Struct(t) => Declared(protos, t, p)
    case _ => true
  }

  ghost predicate Unchanged(protos: Protos, name: string, v: Value) {
    Serialize(protos, name, v).Some? && Normal(protos, name, v) == v
  }

  lemma {:induction false} NormalFieldsAt(protos: Protos, fields: seq<Field>, v: Value, n: nat)
    requires n <= |fields| && v.Obj?
    requires forall i, j :: 0 <= i < j < |fields| ==> fields[i].value != fields[j].value
    ensures NormalFields(protos, fields[..n], v).Keys == Names(fields[..n])
    ensures forall i :: 0 <= i < n ==>
              fields[i].value in Names(fields[..n])
              && NormalFields(protos, fields[..n], v)[fields[i].value] == NormalField(protos, fields[i], v)
    decreases n
  {
    if n > 0 {
      assert fields[..n][..n - 1] == fields[..n - 1];
      NormalFieldsAt(protos, fields, v, n - 1);
    }
  }

  lemma SerializesRecord(protos: Protos, name: string, v: Value)
    requires name in protos && protos[name].Record?
    ensures var fields := protos[name].fields;
            Serialize(protos, name, v).Some?
            <==> forall i :: 0 <= i < |fields| ==> SerializeField(protos, fields[i], v).Some?
  {
    var fields := protos[name].fields;
    var r := Serialize(protos, name, v);
    if r.Some? {
      SerializeRecordParts(protos, name, v, r.value.items);
    }
    if forall i :: 0 <= i < |fields| ==> SerializeField(protos, fields[i], v).Some? {
      SerializeRecordParts(protos, name, v,
        seq(|fields|, i requires 0 <= i < |fields| => SerializeField(protos, fields[i], v).value));
    }
  }

  lemma NormalRecord(protos: Protos, fields: seq<Field>, v: Value)
    requires v.Obj? && forall i, j :: 0 <= i < j < |fields| ==> fields[i].value != fields[j].value
    ensures NormalFields(protos, fields, v) == v.props <==>
              && v.props.Keys == Names(fields)
              && forall i :: 0 <= i < |fields| ==> NormalField(protos, fields[i], v) == Prop(v, fields[i].value)
  {
    NormalFieldsAt(protos, fields, v, |fields|);
    assert fields[..|fields|] == fields;
    var normal := NormalFields(protos, fields, v);
    if v.props.Keys == Names(fields)
       && forall i :: 0 <= i < |fields| ==> NormalField(protos, fields[i], v) == Prop(v, fields[i].value)
    {
      forall k | k in v.props ensures normal[k] == v.props[k] {
        NamesAre(fields, |fields|, k);
      }
      assert normal == v.props;
    }
  }

  /** The values that come back unchanged are exactly those that the schema declares. */
  lemma {:induction false} UnchangedIsDeclared(protos: Protos, name: string, v: Value)
    requires NoStructLists(protos) && DistinctNames(protos)
    ensures Unchanged(protos, name, v) <==> Declared(protos, name, v)
    decreases v, 1
  {
    if name in protos {
      match protos[name]
      case Record(fields) =>
        if v.Obj? {
          SerializesRecord(protos, name, v);
          NormalRecord(protos, fields, v);
          forall i | 0 <= i < |fields| && v.props.Keys == Names(fields)
            ensures SerializeField(protos, fields[i], v).Some?
                    && NormalField(protos, fields[i], v) == Prop(v, fields[i].value)
                    <==> DeclaredField(protos, fields[i], v)
          {
            NamesAre(fields, |fields|, fields[i].value);
            assert fields[..|fields|] == fields;
            UnchangedField(protos, fields[i], v);
          }
        }
      case Map2(Some(t)) => UnchangedMap(protos, t, v);
      case _ =>
    }
  }

  lemma {:induction false} UnchangedField(protos: Protos, field: Field, v: Value)
    requires NoStructLists(protos) && DistinctNames(protos) && v.Obj? && field.value in v.props
    ensures SerializeField(protos, field, v).Some? && NormalField(protos, field, v) == Prop(v, field.value)
            <==> DeclaredField(protos, field, v)
    decreases v, 0
  {
    var p := v.props[field.value];
    match field.kind
    case MapOf(t) => UnchangedMap(protos, t, p);
    case ListOf(t) => UnchangedList(protos, t, p);
    case Struct(t) => UnchangedIsDeclared(protos, t, p);
    case _ =>
  }

  lemma {:induction false} UnchangedMap(protos: Protos, t: string, v: Value)
    requires NoStructLists(protos) && DistinctNames(protos)
    ensures SerializeMap(protos, t, v).Some? && NormalMap(protos, t, v) == v
            <==> v.Obj? && forall k :: k in v.props ==> Declared(protos, t, v.props[k])
    decreases v, 0
  {
    if v.Obj? {
      forall k | k in v.props ensures Unchanged(protos, t, v.props[k]) <==> Declared(protos, t, v.props[k]) {
        UnchangedIsDeclared(protos, t, v.props[k]);
      }
      var r := SerializeMap(protos, t, v);
      if r.Some? {
        SerializeMapParts(protos, t, v.props, r.value.props);
      }
      if forall k :: k in v.props ==> Serialize(protos, t, v.props[k]).Some? {
        SerializeMapParts(protos, t, v.props, map k | k in v.props :: Serialize(protos, t, v.props[k]).value);
      }
      assert NormalMap(protos, t, v) == v <==> forall k :: k in v.props ==> Normal(protos, t, v.props[k]) == v.props[k];
    }
  }

  lemma {:induction false} UnchangedList(protos: Protos, t: string, v: Value)
    requires NoStructLists(protos) && DistinctNames(protos)
    ensures SerializeList(protos, t, v).Some? && NormalList(protos, t, v) == v
            <==> v.Arr? && forall i :: 0 <= i < |v.items| ==> Declared(protos, t, v.items[i])
    decreases v, 0
  {
    if v.Arr? {
      var items := v.items;
      forall i | 0 <= i < |items| ensures Unchanged(protos, t, items[i]) <==> Declared(protos, t, items[i]) {
        UnchangedIsDeclared(protos, t, items[i]);
      }
      var r := SerializeList(protos, t, v);
      if r.Some? {
        SerializeListParts(protos, t, items, r.value.items);
      }
      if forall i :: 0 <= i < |items| ==> Serialize(protos, t, items[i]).Some? {
        SerializeListParts(protos, t, items,
          seq(|items|, i requires 0 <= i < |items| => Serialize(protos, t, items[i]).value));
      }
      assert NormalList(protos, t, v) == v
             <==> forall i :: 0 <= i < |items| ==> Normal(protos, t, items[i]) == items[i];
    }
  }

  /** What goes out and comes back is the same value exactly when it is what the schema declares. */
  lemma RoundTripIsIdentity(protos: Protos, name: string, v: Value)
    requires NoStructLists(protos) && DistinctNames(protos)
    ensures Serialize(protos, name, v).Some? && Unserialize(protos, name, Serialize(protos, name, v).value) == Some(v)
            <==> Declared(protos, name, v)
  {
    UnchangedIsDeclared(protos, name, v);
    if Serialize(protos, name, v).Some? {
      RoundTrip(protos, name, v, Serialize(protos, name, v).value);
    }
  }

  /** A bare list of records: its loop runs to the length of the first element's array, which is the number of
      fields. So the list comes back exactly when it has as many elements as a record has fields. */
  lemma StructListRoundTrip(
    protos: Protos, name: string, t: string, items: seq<Value>, sent: seq<Value>, normal: seq<Value>)
    requires name in protos && protos[name] == Vector2(Some(t)) && t in protos && protos[t].Record?
    requires |items| == |sent| == |normal|
    requires forall i :: 0 <= i < |items| ==>
               Serialize(protos, t, items[i]) == Some(sent[i]) && Unserialize(protos, t, sent[i]) == Some(normal[i])
    ensures Serialize(protos, name, Arr(items)) == Some(Arr(sent))
    ensures Unserialize(protos, name, Arr(sent)) == Some(Arr(normal)) <==> |items| == |protos[t].fields| > 0
  {
    SerializeListParts(protos, t, items, sent);
    if items != [] {
      var n := |protos[t].fields|;
      assert Serialize(protos, t, items[0]) == Some(sent[0]);
      SerializeRecordParts(protos, t, items[0], sent[0].items);
      var results := seq(n, i requires 0 <= i < n => Unserialize(protos, t, Item(Arr(sent), i)));
      AllParts(results, normal);
      if n == |items| {
        forall i | 0 <= i < n ensures results[i] == Some(normal[i]) {
          assert Unserialize(protos, t, sent[i]) == Some(normal[i]);
        }
      }
    }
  }
}
