/** What the codec accepts and what it answers, said of the values on both sides. */
module CodecShapes {
  import opened Wrappers
  import opened Codec
  import opened CodecRoundTrip
  import opened CodecExact

  // ---------- serialize ----------

  /** A known schema; an object at every record, with every text field in it; maps that are missing or made of
      accepted values; lists that are missing or made of accepted elements. */
  ghost predicate Accepted(protos: Protos, name: string, v: Value)
    decreases !v.Undefined?, v, 2
  {
    name in protos
    && match protos[name]
       case Record(fields) => forall f :: f in fields ==> AcceptedField(protos, f, v)
       case Map2(Some(t)) => AcceptedMap(protos, t, v)
       case Vector2(Some(t)) => AcceptedList(protos, t, v)
       case _ => true
  }

  ghost predicate AcceptedField(protos: Protos, field: Field, v: Value)
    decreases !v.Undefined?, v, 1
  {
    v.Obj?
    && match field.kind
       case Text => field.value in v.props
       case MapOf(t) => field.value in v.props ==> AcceptedMap(protos, t, v.props[field.value])
       case ListOf(t) => field.value in v.props ==> AcceptedList(protos, t, v.props[field.value])
       case Struct(t) => Accepted(protos, t, Prop(v, field.value))
       case _ => true
  }

  ghost predicate AcceptedMap(protos: Protos, t: string, v: Value)
    decreases !v.Undefined?, v, 0
  {
    v.Undefined? || (v.Obj? && forall k :: k in v.props ==> Accepted(protos, t, v.props[k]))
  }

  ghost predicate AcceptedList(protos: Protos, t: string, v: Value)
    decreases !v.Undefined?, v, 0
  {
    v.Arr? && forall x :: x in v.items ==> Accepted(protos, t, x)
  }

  /** w is what stands for v: one item per field of a record, in the order of the schema. */
  ghost predicate Sent(protos: Protos, name: string, v: Value, w: Value)
    decreases !v.Undefined?, v, 2
  {
    name in protos
    && match protos[name]
       case Record(fields) =>
         w.Arr? && |w.items| == |fields|
         && forall i :: 0 <= i < |fields| ==> SentField(protos, fields[i], v, w.items[i])
       case Map2(Some(t)) => SentMap(protos, t, v, w)
       case Vector2(Some(t)) => SentList(protos, t, v, w)
       case _ => w == v
  }

  /** An object for every map of structures and an array for every list of them, empty when the field is missing;
      of the other fields what the object holds. */
  ghost predicate SentField(protos: Protos, field: Field, v: Value, w: Value)
    decreases !v.Undefined?, v, 1
  {
    match field.kind
    case MapOf(t) =>
      if v.Obj? && field.value in v.props then SentMap(protos, t, v.props[field.value], w) else w == Obj(map[])
    case ListOf(t) =>
      if v.Obj? && field.value in v.props then SentList(protos, t, v.props[field.value], w) else w == Arr([])
    case Struct(t) => v.Obj? && Sent(protos, t, Prop(v, field.value), w)
    case _ => w == Prop(v, field.value)
  }

  ghost predicate SentMap(protos: Protos, t: string, v: Value, w: Value)
    decreases !v.Undefined?, v, 0
  {
    w.Obj?
    && if v.Obj? then
         w.props.Keys == v.props.Keys && forall k :: k in v.props ==> Sent(protos, t, v.props[k], w.props[k])
       else w.props == map[]
  }

  ghost predicate SentList(protos: Protos, t: string, v: Value, w: Value)
    decreases !v.Undefined?, v, 0
  {
    w.Arr? && v.Arr? && |w.items| == |v.items|
    && forall i :: 0 <= i < |v.items| ==> Sent(protos, t, v.items[i], w.items[i])
  }

  /** Nothing is thrown exactly for accepted values. */
  lemma {:induction false} SerializeAccepts(protos: Protos, name: string, v: Value)
    ensures Serialize(protos, name, v).Some? <==> Accepted(protos, name, v)
    decreases !v.Undefined?, v, 2
  {
    if name in protos {
      match protos[name]
      case Record(fields) =>
        SerializesRecord(protos, name, v);
        forall f | f in fields ensures SerializeField(protos, f, v).Some? <==> AcceptedField(protos, f, v) {
          AcceptsField(protos, f, v);
        }
      case Map2(Some(t)) => AcceptsMap(protos, t, v);
      case Vector2(Some(t)) => AcceptsList(protos, t, v);
      case _ =>
    }
  }

  lemma {:induction false} AcceptsField(protos: Protos, field: Field, v: Value)
    ensures SerializeField(protos, field, v).Some? <==> AcceptedField(protos, field, v)
    decreases !v.Undefined?, v, 1
  {
    if v.Obj? {
      match field.kind
      case MapOf(t) => AcceptsMap(protos, t, Prop(v, field.value));
      case ListOf(t) =>
        if field.value in v.props {
          AcceptsList(protos, t, v.props[field.value]);
        }
      case Struct(t) => SerializeAccepts(protos, t, Prop(v, field.value));
      case _ =>
    }
  }

  lemma {:induction false} AcceptsMap(protos: Protos, t: string, v: Value)
    ensures SerializeMap(protos, t, v).Some? <==> AcceptedMap(protos, t, v)
    decreases !v.Undefined?, v, 0
  {
    if v.Obj? {
      forall k | k in v.props ensures Serialize(protos, t, v.props[k]).Some? <==> Accepted(protos, t, v.props[k]) {
        SerializeAccepts(protos, t, v.props[k]);
      }
      SerializeMapSome(protos, t, v.props);
    }
  }

  lemma {:induction false} AcceptsList(protos: Protos, t: string, v: Value)
    ensures SerializeList(protos, t, v).Some? <==> AcceptedList(protos, t, v)
    decreases !v.Undefined?, v, 0
  {
    if v.Arr? {
      forall x | x in v.items ensures Serialize(protos, t, x).Some? <==> Accepted(protos, t, x) {
        SerializeAccepts(protos, t, x);
      }
      SerializeListSome(protos, t, v.items);
    }
  }

  lemma SerializeMapSome(protos: Protos, t: string, props: map<string, Value>)
    ensures SerializeMap(protos, t, Obj(props)).Some?
            <==> forall k :: k in props ==> Serialize(protos, t, props[k]).Some?
  {
    var r := SerializeMap(protos, t, Obj(props));
    if r.Some? {
      SerializeMapParts(protos, t, props, r.value.props);
    }
    if forall k :: k in props ==> Serialize(protos, t, props[k]).Some? {
      SerializeMapParts(protos, t, props, map k | k in props :: Serialize(protos, t, props[k]).value);
    }
  }

  lemma SerializeListSome(protos: Protos, t: string, items: seq<Value>)
    ensures SerializeList(protos, t, Arr(items)).Some?
            <==> forall i :: 0 <= i < |items| ==> Serialize(protos, t, items[i]).Some?
  {
    var r := SerializeList(protos, t, Arr(items));
    if r.Some? {
      SerializeListParts(protos, t, items, r.value.items);
    }
    if forall i :: 0 <= i < |items| ==> Serialize(protos, t, items[i]).Some? {
      SerializeListParts(protos, t, items,
        seq(|items|, i requires 0 <= i < |items| => Serialize(protos, t, items[i]).value));
    }
  }

  /** What is sent for an accepted value, and for no other. */
  lemma {:induction false} SerializeSends(protos: Protos, name: string, v: Value, w: Value)
    ensures Serialize(protos, name, v) == Some(w) <==> Accepted(protos, name, v) && Sent(protos, name, v, w)
    decreases !v.Undefined?, v, 2
  {
    SerializeAccepts(protos, name, v);
    if Accepted(protos, name, v) {
      match protos[name]
      case Record(fields) =>
        if w.Arr? && |w.items| == |fields| {
          SerializeRecordParts(protos, name, v, w.items);
          forall i | 0 <= i < |fields|
            ensures SerializeField(protos, fields[i], v) == Some(w.items[i])
                    <==> SentField(protos, fields[i], v, w.items[i])
          {
            SendsField(protos, fields[i], v, w.items[i]);
          }
        } else {
          SerializesRecord(protos, name, v);
        }
      case Map2(Some(t)) => SendsMap(protos, t, v, w);
      case Vector2(Some(t)) => SendsList(protos, t, v, w);
      case _ =>
    }
  }

  lemma {:induction false} SendsField(protos: Protos, field: Field, v: Value, w: Value)
    requires AcceptedField(protos, field, v)
    ensures SerializeField(protos, field, v) == Some(w) <==> SentField(protos, field, v, w)
    decreases !v.Undefined?, v, 1
  {
    match field.kind
    case MapOf(t) => SendsMap(protos, t, Prop(v, field.value), w);
    case ListOf(t) =>
      if field.value in v.props {
        SendsList(protos, t, v.props[field.value], w);
      }
    case Struct(t) => SerializeSends(protos, t, Prop(v, field.value), w);
    case _ =>
  }

  lemma {:induction false} SendsMap(protos: Protos, t: string, v: Value, w: Value)
    requires AcceptedMap(protos, t, v)
    ensures SerializeMap(protos, t, v) == Some(w) <==> SentMap(protos, t, v, w)
    decreases !v.Undefined?, v, 0
  {
    if v.Obj? && w.Obj? {
      forall k | k in v.props && k in w.props
        ensures Serialize(protos, t, v.props[k]) == Some(w.props[k]) <==> Sent(protos, t, v.props[k], w.props[k])
      {
        SerializeSends(protos, t, v.props[k], w.props[k]);
      }
      SerializeMapParts(protos, t, v.props, w.props);
    }
  }

  lemma {:induction false} SendsList(protos: Protos, t: string, v: Value, w: Value)
    requires AcceptedList(protos, t, v)
    ensures SerializeList(protos, t, v) == Some(w) <==> SentList(protos, t, v, w)
    decreases !v.Undefined?, v, 0
  {
    if w.Arr? {
      forall i | 0 <= i < |v.items| && i < |w.items|
        ensures Serialize(protos, t, v.items[i]) == Some(w.items[i]) <==> Sent(protos, t, v.items[i], w.items[i])
      {
        assert v.items[i] in v.items;
        SerializeSends(protos, t, v.items[i], w.items[i]);
      }
      SerializeListParts(protos, t, v.items, w.items);
    }
  }

  // ---------- unserialize ----------

  /** A known schema; an array for every record with fields; maps that are missing or objects of readable values;
      arrays of readable values for lists. A bare list is read up to the length of its first element. */
  ghost predicate Readable(protos: Protos, name: string, w: Value)
    decreases !w.Undefined?, w, 2
  {
    name in protos
    && match protos[name]
       case Record(fields) =>
         fields == []
         || (w.Arr? && forall i :: 0 <= i < |fields| ==> ReadableField(protos, fields[i].kind, Item(w, i), w))
       case Map2(Some(t)) => ReadableMap(protos, t, w)
       case Vector2(Some(t)) =>
         w.Arr? && w.items != []
         && (w.items[0].Obj?
             || (w.items[0].Arr? && forall i :: 0 <= i < |w.items[0].items| ==> Readable(protos, t, Item(w, i))))
       case _ => true
  }

  ghost predicate ReadableField(protos: Protos, kind: Kind, item: Value, w: Value)
    requires w.Arr? && (item.Undefined? || item in w.items)
    decreases !w.Undefined?, w, 0
  {
    match kind
    case MapOf(t) => ReadableMap(protos, t, item)
    case ListOf(t) => item.Arr? && forall x :: x in item.items ==> Readable(protos, t, x)
    case Struct(t) => Readable(protos, t, item)
    case _ => true
  }

  ghost predicate ReadableMap(protos: Protos, t: string, w: Value)
    decreases !w.Undefined?, w, 0
  {
    w.Undefined? || (w.Obj? && forall k :: k in w.props ==> Readable(protos, t, w.props[k]))
  }

  /** No later field has the same name. */
  ghost predicate LastOfName(fields: seq<Field>, i: nat)
    requires i < |fields|
  {
    forall j :: i < j < |fields| ==> fields[j].value != fields[i].value
  }

  /** v is what w stands for: an object with the names of the schema, each with what stands at the place of the last
      field of that name. */
  ghost predicate Got(protos: Protos, name: string, w: Value, v: Value)
    decreases !w.Undefined?, w, 2
  {
    name in protos
    && match protos[name]
       case Record(fields) =>
         v.Obj? && v.props.Keys == Names(fields)
         && (fields == []
             || (w.Arr?
                 && forall i :: 0 <= i < |fields| && LastOfName(fields, i) && fields[i].value in v.props ==>
                      GotField(protos, fields[i].kind, Item(w, i), w, v.props[fields[i].value])))
       case Map2(Some(t)) => GotMap(protos, t, w, v)
       case Vector2(Some(t)) =>
         w.Arr? && w.items != [] && v.Arr?
         && if w.items[0].Arr? then
              |v.items| == |w.items[0].items|
              && forall i :: 0 <= i < |v.items| ==> Got(protos, t, Item(w, i), v.items[i])
            else v.items == []
       case _ => v == w
  }

  ghost predicate GotField(protos: Protos, kind: Kind, item: Value, w: Value, v: Value)
    requires w.Arr? && (item.Undefined? || item in w.items)
    decreases !w.Undefined?, w, 0
  {
    match kind
    case MapOf(t) => GotMap(protos, t, item, v)
    case ListOf(t) =>
      item.Arr? && v.Arr? && |v.items| == |item.items|
      && forall i :: 0 <= i < |v.items| ==> Got(protos, t, item.items[i], v.items[i])
    case Struct(t) => Got(protos, t, item, v)
    case _ => v == item
  }

  ghost predicate GotMap(protos: Protos, t: string, w: Value, v: Value)
    decreases !w.Undefined?, w, 0
  {
    v.Obj?
    && if w.Obj? then
         v.props.Keys == w.props.Keys && forall k :: k in w.props ==> Got(protos, t, w.props[k], v.props[k])
       else v.props == map[]
  }

  lemma UnserializeMapSome(protos: Protos, t: string, props: map<string, Value>)
    ensures UnserializeMap(protos, t, Obj(props)).Some?
            <==> forall k :: k in props ==> Unserialize(protos, t, props[k]).Some?
  {
    var r := UnserializeMap(protos, t, Obj(props));
    if r.Some? {
      UnserializeMapParts(protos, t, props, r.value.props);
    }
    if forall k :: k in props ==> Unserialize(protos, t, props[k]).Some? {
      UnserializeMapParts(protos, t, props, map k | k in props :: Unserialize(protos, t, props[k]).value);
    }
  }

  lemma UnserializeListSome(protos: Protos, t: string, items: seq<Value>)
    ensures UnserializeList(protos, t, Arr(items)).Some?
            <==> forall i :: 0 <= i < |items| ==> Unserialize(protos, t, items[i]).Some?
  {
    var r := UnserializeList(protos, t, Arr(items));
    if r.Some? {
      UnserializeListParts(protos, t, items, r.value.items);
    }
    if forall i :: 0 <= i < |items| ==> Unserialize(protos, t, items[i]).Some? {
      UnserializeListParts(protos, t, items,
        seq(|items|, i requires 0 <= i < |items| => Unserialize(protos, t, items[i]).value));
    }
  }

  lemma BareListParts(protos: Protos, name: string, w: Value, r: seq<Value>)
    requires name in protos && protos[name].Vector2? && protos[name].type2.Some?
    requires w.Arr? && w.items != [] && (w.items[0].Arr? || w.items[0].Obj?)
    ensures var t, n := protos[name].type2.value, if w.items[0].Arr? then |w.items[0].items| else 0;
            Unserialize(protos, name, w) == Some(Arr(r))
            <==> |r| == n && forall i :: 0 <= i < n ==> Unserialize(protos, t, Item(w, i)) == Some(r[i])
  {
    var t, n := protos[name].type2.value, if w.items[0].Arr? then |w.items[0].items| else 0;
    AllParts(seq(n, i requires 0 <= i < n => Unserialize(protos, t, Item(w, i))), r);
  }

  lemma {:induction false} UnserializeReads(protos: Protos, name: string, w: Value)
    ensures Unserialize(protos, name, w).Some? <==> Readable(protos, name, w)
    decreases !w.Undefined?, w, 2
  {
    if name in protos {
      match protos[name]
      case Record(fields) =>
        if w.Arr? {
          forall i | 0 <= i < |fields|
            ensures UnserializeField(protos, fields[i].kind, Item(w, i), w).Some?
                    <==> ReadableField(protos, fields[i].kind, Item(w, i), w)
          {
            ReadsField(protos, fields[i].kind, Item(w, i), w);
          }
          FieldsRead(protos, fields, w, |fields|);
          assert fields[..|fields|] == fields;
        }
      case Map2(Some(t)) => ReadsMap(protos, t, w);
      case Vector2(Some(t)) =>
        if w.Arr? && w.items != [] && w.items[0].Arr? {
          var n := |w.items[0].items|;
          forall i | 0 <= i < n ensures Unserialize(protos, t, Item(w, i)).Some? <==> Readable(protos, t, Item(w, i)) {
            UnserializeReads(protos, t, Item(w, i));
          }
          if forall i :: 0 <= i < n ==> Unserialize(protos, t, Item(w, i)).Some? {
            BareListParts(protos, name, w, seq(n, i requires 0 <= i < n => Unserialize(protos, t, Item(w, i)).value));
          }
          var r := Unserialize(protos, name, w);
          if r.Some? {
            BareListParts(protos, name, w, r.value.items);
          }
        }
      case _ =>
    }
  }

  lemma {:induction false} FieldsRead(protos: Protos, fields: seq<Field>, w: Value, n: nat)
    requires w.Arr? && n <= |fields|
    ensures var r := UnserializeFields(protos, fields[..n], w);
            (r.Some? ==> r.value.Obj?)
            && (r.Some? <==> forall i :: 0 <= i < n ==> UnserializeField(protos, fields[i].kind, Item(w, i), w).Some?)
  {
    if n > 0 {
      assert fields[..n][..n - 1] == fields[..n - 1];
      FieldsRead(protos, fields, w, n - 1);
    }
  }

  lemma {:induction false} ReadsField(protos: Protos, kind: Kind, item: Value, w: Value)
    requires w.Arr? && (item.Undefined? || item in w.items)
    ensures UnserializeField(protos, kind, item, w).Some? <==> ReadableField(protos, kind, item, w)
    decreases !w.Undefined?, w, 0
  {
    match kind
    case MapOf(t) => ReadsMap(protos, t, item);
    case ListOf(t) =>
      if item.Arr? {
        forall x | x in item.items ensures Unserialize(protos, t, x).Some? <==> Readable(protos, t, x) {
          UnserializeReads(protos, t, x);
        }
        UnserializeListSome(protos, t, item.items);
      }
    case Struct(t) => UnserializeReads(protos, t, item);
    case _ =>
  }

  lemma {:induction false} ReadsMap(protos: Protos, t: string, w: Value)
    ensures UnserializeMap(protos, t, w).Some? <==> ReadableMap(protos, t, w)
    decreases !w.Undefined?, w, 0
  {
    if w.Obj? {
      forall k | k in w.props ensures Unserialize(protos, t, w.props[k]).Some? <==> Readable(protos, t, w.props[k]) {
        UnserializeReads(protos, t, w.props[k]);
      }
      UnserializeMapSome(protos, t, w.props);
    }
  }

  lemma {:induction false} UnserializeGets(protos: Protos, name: string, w: Value, v: Value)
    ensures Unserialize(protos, name, w) == Some(v) <==> Readable(protos, name, w) && Got(protos, name, w, v)
    decreases !w.Undefined?, w, 2
  {
    UnserializeReads(protos, name, w);
    if Readable(protos, name, w) {
      match protos[name]
      case Record(fields) =>
        if v.Obj? && fields != [] {
          forall i | 0 <= i < |fields| && fields[i].value in v.props
            ensures UnserializeField(protos, fields[i].kind, Item(w, i), w) == Some(v.props[fields[i].value])
                    <==> GotField(protos, fields[i].kind, Item(w, i), w, v.props[fields[i].value])
          {
            GetsField(protos, fields[i].kind, Item(w, i), w, v.props[fields[i].value]);
          }
          FieldsGot(protos, fields, w, v.props);
        }
      case Map2(Some(t)) => GetsMap(protos, t, w, v);
      case Vector2(Some(t)) =>
        if v.Arr? {
          var n := if w.items[0].Arr? then |w.items[0].items| else 0;
          forall i | 0 <= i < n && i < |v.items|
            ensures Unserialize(protos, t, Item(w, i)) == Some(v.items[i]) <==> Got(protos, t, Item(w, i), v.items[i])
          {
            UnserializeGets(protos, t, Item(w, i), v.items[i]);
          }
          BareListParts(protos, name, w, v.items);
        }
      case _ =>
    }
  }

  /** The last field of a name decides. */
  lemma FieldsGot(protos: Protos, fields: seq<Field>, w: Value, props: map<string, Value>)
    requires w.Arr? && UnserializeFields(protos, fields, w).Some?
    ensures UnserializeFields(protos, fields, w) == Some(Obj(props))
            <==> props.Keys == Names(fields)
                 && forall i :: 0 <= i < |fields| && LastOfName(fields, i) && fields[i].value in props
                      ==> UnserializeField(protos, fields[i].kind, Item(w, i), w) == Some(props[fields[i].value])
  {
    assert fields[..|fields|] == fields;
    LastFieldStays(protos, fields, w, |fields|);
    var r := UnserializeFields(protos, fields, w).value.props;
    if props.Keys == Names(fields)
       && forall i :: 0 <= i < |fields| && LastOfName(fields, i) && fields[i].value in props
            ==> UnserializeField(protos, fields[i].kind, Item(w, i), w) == Some(props[fields[i].value])
    {
      forall k | k in props ensures r[k] == props[k] {
        var i := LastPlace(fields, k);
      }
      assert r == props;
    }
  }

  lemma {:induction false} LastFieldStays(protos: Protos, fields: seq<Field>, w: Value, n: nat)
    requires w.Arr? && n <= |fields| && UnserializeFields(protos, fields[..n], w).Some?
    ensures var r := UnserializeFields(protos, fields[..n], w).value;
            r.Obj? && r.props.Keys == Names(fields[..n])
            && forall i :: 0 <= i < n && (forall j :: i < j < n ==> fields[j].value != fields[i].value)
                 ==> fields[i].value in r.props
                     && UnserializeField(protos, fields[i].kind, Item(w, i), w) == Some(r.props[fields[i].value])
  {
    if n > 0 {
      assert fields[..n][..n - 1] == fields[..n - 1];
      LastFieldStays(protos, fields, w, n - 1);
    }
  }

  lemma {:induction false} LastPlace(fields: seq<Field>, k: string) returns (i: nat)
    requires k in Names(fields)
    ensures i < |fields| && fields[i].value == k && LastOfName(fields, i)
  {
    i := |fields| - 1;
    if fields[i].value != k {
      i := LastPlace(fields[..i], k);
    }
  }

  lemma {:induction false} GetsField(protos: Protos, kind: Kind, item: Value, w: Value, v: Value)
    requires w.Arr? && (item.Undefined? || item in w.items) && ReadableField(protos, kind, item, w)
    ensures UnserializeField(protos, kind, item, w) == Some(v) <==> GotField(protos, kind, item, w, v)
    decreases !w.Undefined?, w, 0
  {
    match kind
    case MapOf(t) => GetsMap(protos, t, item, v);
    case ListOf(t) =>
      if v.Arr? {
        forall i | 0 <= i < |item.items| && i < |v.items|
          ensures Unserialize(protos, t, item.items[i]) == Some(v.items[i])
                  <==> Got(protos, t, item.items[i], v.items[i])
        {
          assert item.items[i] in item.items;
          UnserializeGets(protos, t, item.items[i], v.items[i]);
        }
        UnserializeListParts(protos, t, item.items, v.items);
      }
    case Struct(t) => UnserializeGets(protos, t, item, v);
    case _ =>
  }

  lemma {:induction false} GetsMap(protos: Protos, t: string, w: Value, v: Value)
    requires ReadableMap(protos, t, w)
    ensures UnserializeMap(protos, t, w) == Some(v) <==> GotMap(protos, t, w, v)
    decreases !w.Undefined?, w, 0
  {
    if w.Obj? && v.Obj? {
      forall k | k in w.props && k in v.props
        ensures Unserialize(protos, t, w.props[k]) == Some(v.props[k]) <==> Got(protos, t, w.props[k], v.props[k])
      {
        UnserializeGets(protos, t, w.props[k], v.props[k]);
      }
      UnserializeMapParts(protos, t, w.props, v.props);
    }
  }
}
