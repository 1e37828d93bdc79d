/** An empty difference means agreement on what both sides say, and every path reported is real. */
module DriftProofs {
  import opened Options
  import opened Decimals
  import opened Drift
  import opened DriftPrint

  // ------------------------------------------------------------- keys

  lemma {:induction false} NumbersHold(i: nat, n: nat, key: string)
    ensures key in Numbers(i, n) <==> i <= Value(key) < i + n && Digits(Value(key)) == key
    decreases n
  {
    hide Digits, Value;
    if n > 0 {
      DigitsRead(i);
      NumbersHold(i + 1, n - 1, key);
    }
  }

  lemma {:induction false} ItemAtIff(items: seq<Json>, i: nat, key: string)
    ensures ItemAt(items, i, key).Some? <==> key in Numbers(i, |items|)
    decreases |items|
  {
    hide Digits;
    if items != [] { ItemAtIff(items[1..], i + 1, key); }
  }

  lemma {:induction false} ItemAtDigits(items: seq<Json>, i: nat, k: nat)
    requires k < |items|
    ensures ItemAt(items, i, Digits(i + k)) == Some(items[k])
    decreases |items|
  {
    hide Digits, Value;
    if k > 0 {
      DigitsRead(i);
      DigitsRead(i + k);
      ItemAtDigits(items[1..], i + 1, k - 1);
    }
  }

  lemma {:induction false} FieldAtIff(fields: seq<Field>, key: string)
    ensures FieldAt(fields, key).Some? <==> key in KeysOf(fields)
  {
    if fields != [] { FieldAtIff(fields[1..], key); }
  }

  lemma AtIff(v: Json, key: string)
    ensures At(v, key).Some? <==> key in Keys(v)
  {
    match v
    case Arr(items) => ItemAtIff(items, 0, key);
    case Obj(fields) => FieldAtIff(fields, key);
    case _ =>
  }

  lemma {:induction false} UnionHolds(keys: seq<string>, more: seq<string>, key: string)
    ensures key in Union(keys, more) <==> key in keys || key in more
    decreases |more|
  {
    if more != [] {
      UnionHolds(if more[0] in keys then keys else keys + [more[0]], more[1..], key);
    }
  }

  // ------------------------------------------------------------- no path, key by key

  /** Alike as far as keys can tell, a list having its positions as keys. */
  ghost predicate Alike(a: Json, b: Json)
    decreases Size(a) + Size(b)
  {
    && !Clash(Some(a), Some(b))
    && (forall key ::
          var va, vb := At(a, key), At(b, key);
          (va.Some? <==> vb.Some?) && (va.Some? && vb.Some? ==> Alike(va.value, vb.value)))
  }

  ghost predicate AlikeAt(a: Json, b: Json, key: string) {
    var va, vb := At(a, key), At(b, key);
    (va.Some? <==> vb.Some?) && (va.Some? && vb.Some? ==> Alike(va.value, vb.value))
  }

  lemma AlikeElim(a: Json, b: Json, key: string)
    requires Alike(a, b)
    ensures AlikeAt(a, b, key)
  {
    hide At;
    var va, vb := At(a, key), At(b, key);
  }

  lemma AlikeIntro(a: Json, b: Json)
    requires !Clash(Some(a), Some(b)) && forall key :: AlikeAt(a, b, key)
    ensures Alike(a, b)
  {
    hide At;
    forall key
      ensures var va, vb := At(a, key), At(b, key);
              (va.Some? <==> vb.Some?) && (va.Some? && vb.Some? ==> Alike(va.value, vb.value))
    {
      assert AlikeAt(a, b, key);
    }
  }

  lemma AlikeIffAt(a: Json, b: Json)
    ensures Alike(a, b) <==> !Clash(Some(a), Some(b)) && forall key :: AlikeAt(a, b, key)
  {
    if Alike(a, b) {
      forall key ensures AlikeAt(a, b, key) { AlikeElim(a, b, key); }
    }
    if !Clash(Some(a), Some(b)) && forall key :: AlikeAt(a, b, key) { AlikeIntro(a, b); }
    hide AlikeAt;
  }

  /** One key's part of `Same`, between objects. */
  ghost predicate SameField(a: Json, b: Json, key: string)
    requires a.Obj? && b.Obj?
  {
    var va, vb := FieldAt(a.fields, key), FieldAt(b.fields, key);
    (va.Some? <==> vb.Some?) && (va.Some? && vb.Some? ==> Same(va.value, vb.value))
  }

  lemma SameIffFields(a: Json, b: Json)
    requires a.Obj? && b.Obj?
    ensures Same(a, b) <==> forall key :: SameField(a, b, key)
  {
    hide FieldAt;
    if Same(a, b) {
      forall key ensures SameField(a, b, key) {
        var va, vb := FieldAt(a.fields, key), FieldAt(b.fields, key);
      }
    }
    if forall key :: SameField(a, b, key) {
      forall key
        ensures var va, vb := FieldAt(a.fields, key), FieldAt(b.fields, key);
                (va.Some? <==> vb.Some?) && (va.Some? && vb.Some? ==> Same(va.value, vb.value))
      {
        assert SameField(a, b, key);
      }
    }
  }

  lemma {:induction false} AlikeItself(v: Json)
    ensures Alike(v, v)
    decreases Size(v)
  {
    forall key ensures AlikeAt(v, v, key) {
      if At(v, key).Some? { AlikeItself(At(v, key).value); }
    }
    hide AlikeAt;
    AlikeIntro(v, v);
  }

  lemma {:induction false} NoPathIff(a: Json, b: Json, path: seq<string>)
    ensures Diff(Some(a), Some(b), path) == [] <==> Alike(a, b)
    decreases Size(a) + Size(b), 1, 0
  {
    if Clash(Some(a), Some(b)) {
    } else if !Structured(Some(a)) {
      AlikeItself(a);
    } else {
      hide AlikeAt, Size, At, Keys, Print, Union;
      var keys := Union(Keys(a), Keys(b));
      KeysAreThere(a, b);
      forall key | key !in keys ensures AlikeAt(a, b, key) {
        NothingThere(a, b, key);
      }
      NoPathInKeys(a, b, keys, path);
      AlikeIffAt(a, b);
      hide DiffKeys, Clash, Alike;
      DiffIs(Some(a), Some(b), path);
    }
  }

  lemma KeysAreThere(a: Json, b: Json)
    ensures forall key :: key in Union(Keys(a), Keys(b)) <==> At(a, key).Some? || At(b, key).Some?
  {
    hide At, Keys, Union;
    forall key ensures key in Union(Keys(a), Keys(b)) <==> At(a, key).Some? || At(b, key).Some? {
      UnionHolds(Keys(a), Keys(b), key);
      AtIff(a, key);
      AtIff(b, key);
    }
  }

  lemma NothingThere(a: Json, b: Json, key: string)
    requires At(a, key).None? && At(b, key).None?
    ensures AlikeAt(a, b, key)
  {
  }

  lemma {:induction false} NoPathInKeys(a: Json, b: Json, keys: seq<string>, path: seq<string>)
    requires a.Arr? || a.Obj?
    requires forall k | k in keys :: At(a, k).Some? || At(b, k).Some?
    ensures DiffKeys(a, b, keys, path) == [] <==> forall key | key in keys :: AlikeAt(a, b, key)
    decreases Size(a) + Size(b), 0, |keys|
  {
    if keys != [] {
      NoPathAt(a, b, keys[0], path + [keys[0]]);
      NoPathInKeys(a, b, keys[1..], path);
      hide AlikeAt, Size, At, Print, Diff;
      assert forall key :: key in keys <==> key == keys[0] || key in keys[1..];
    }
  }

  /** One key: skipped when both print the same, else compared. */
  lemma {:induction false} NoPathAt(a: Json, b: Json, key: string, path: seq<string>)
    requires At(a, key).Some? || At(b, key).Some?
    ensures var va, vb := At(a, key), At(b, key);
            (PrintOf(va) == PrintOf(vb) || Diff(va, vb, path) == []) <==> AlikeAt(a, b, key)
    decreases Size(a) + Size(b), 0, 0
  {
    hide Alike, At, Print;
    var va, vb := At(a, key), At(b, key);
    PrintsSameIff(va, vb);
    if va == vb {
      AlikeItself(va.value);
    } else if va.Some? && vb.Some? {
      NoPathIff(va.value, vb.value, path);
    } else {
      assert Clash(va, vb);
    }
  }

  // ------------------------------------------------------------- what that means

  lemma {:induction false} ItemAsField(items: seq<Json>, i: nat, key: string)
    ensures FieldAt(ItemFields(items, i), key) ==
      if ItemAt(items, i, key).Some? then Some(AsObject(ItemAt(items, i, key).value)) else None
    decreases |items|
  {
    hide Digits, AsObject;
    if items != [] { ItemAsField(items[1..], i + 1, key); }
  }

  lemma {:induction false} FieldAsField(fields: seq<Field>, key: string)
    ensures FieldAt(FieldFields(fields), key) ==
      if FieldAt(fields, key).Some? then Some(AsObject(FieldAt(fields, key).value)) else None
    decreases |fields|
  {
    hide AsObject;
    if fields != [] { FieldAsField(fields[1..], key); }
  }

  /** Reading a list as an object keeps what stands at each key. */
  lemma AsObjectAt(v: Json, key: string)
    requires v.Arr? || v.Obj?
    ensures AsObject(v).Obj?
    ensures FieldAt(AsObject(v).fields, key) == if At(v, key).Some? then Some(AsObject(At(v, key).value)) else None
  {
    if v.Arr? { ItemAsField(v.items, 0, key); } else { FieldAsField(v.fields, key); }
  }

  lemma {:induction false} AlikeIff(a: Json, b: Json)
    ensures Alike(a, b) <==> Same(AsObject(a), AsObject(b))
    decreases Size(a) + Size(b), 1
  {
    if Structured(Some(a)) && Structured(Some(b)) {
      AsObjectAt(a, "");
      AsObjectAt(b, "");
      forall key ensures AlikeAt(a, b, key) <==> SameField(AsObject(a), AsObject(b), key) {
        AlikeAtIff(a, b, key);
      }
      AlikeIffAt(a, b);
      SameIffFields(AsObject(a), AsObject(b));
      hide Alike, Same, AlikeAt, SameField, AsObject, At;
    } else {
      PlainIff(a, b);
    }
  }

  lemma PlainIff(a: Json, b: Json)
    requires !Structured(Some(a)) || !Structured(Some(b))
    ensures Alike(a, b) <==> a == b
    ensures Same(AsObject(a), AsObject(b)) <==> a == b
  {
    if a == b { AlikeItself(a); }
    assert Structured(Some(a)) ==> AsObject(a).Obj?;
    assert Structured(Some(b)) ==> AsObject(b).Obj?;
    hide Alike, AsObject;
  }

  lemma {:induction false} AlikeAtIff(a: Json, b: Json, key: string)
    requires Structured(Some(a)) && Structured(Some(b)) && AsObject(a).Obj? && AsObject(b).Obj?
    ensures AlikeAt(a, b, key) <==> SameField(AsObject(a), AsObject(b), key)
    decreases Size(a) + Size(b), 0
  {
    AsObjectAt(a, key);
    AsObjectAt(b, key);
    var va, vb := At(a, key), At(b, key);
    if va.Some? && vb.Some? {
      AlikeIff(va.value, vb.value);
    }
    hide Alike, Same, AsObject, At, Size;
  }

  /** No path is reported exactly when the values are equal up to the order of keys, every list read as an object. */
  lemma DiffEmptyIff(a: Json, b: Json, path: seq<string>)
    ensures Diff(Some(a), Some(b), path) == [] <==> Same(AsObject(a), AsObject(b))
  {
    hide Diff, Alike, Same, AsObject;
    NoPathIff(a, b, path);
    AlikeIff(a, b);
  }

  /** No list stands opposite an object, at any key both have. */
  ghost predicate Unmixed(a: Json, b: Json)
    decreases Size(a) + Size(b)
  {
    && !(a.Arr? && b.Obj?) && !(a.Obj? && b.Arr?)
    && (forall key :: At(a, key).Some? && At(b, key).Some? ==> Unmixed(At(a, key).value, At(b, key).value))
  }

  lemma UnmixedBelow(a: Json, b: Json, key: string)
    requires Unmixed(a, b) && At(a, key).Some? && At(b, key).Some?
    ensures Unmixed(At(a, key).value, At(b, key).value)
  {
    hide At;
  }

  lemma SameKeys(m: nat, n: nat)
    requires m < n
    ensures Digits(m) in Numbers(0, n) && Digits(m) !in Numbers(0, m)
  {
    hide Digits, Value;
    DigitsRead(m);
    NumbersHold(0, n, Digits(m));
    NumbersHold(0, m, Digits(m));
  }

  lemma UnequalLengths(a: Json, b: Json)
    requires a.Arr? && b.Arr? && |a.items| < |b.items|
    ensures !Alike(a, b) && !Alike(b, a)
  {
    hide Digits, Numbers;
    var key := Digits(|a.items|);
    SameKeys(|a.items|, |b.items|);
    AtIff(a, key);
    AtIff(b, key);
    assert !AlikeAt(a, b, key) && !AlikeAt(b, a, key);
    hide AlikeAt;
    AlikeIffAt(a, b);
    AlikeIffAt(b, a);
  }

  /** Where no list stands opposite an object, alike is the same. */
  lemma {:induction false} AlikeIsSame(a: Json, b: Json)
    requires Unmixed(a, b)
    ensures Alike(a, b) <==> Same(a, b)
    decreases Size(a) + Size(b), 2
  {
    hide Alike, Same;
    if a.Arr? && b.Arr? {
      if |a.items| == |b.items| {
        ListsAreSame(a, b);
      } else {
        if |a.items| < |b.items| { UnequalLengths(a, b); } else { UnequalLengths(b, a); }
        DifferentLengths(a, b);
      }
    } else if a.Obj? && b.Obj? {
      ObjectsAreSame(a, b);
    } else {
      NotBothStructured(a, b);
      PlainIff(a, b);
    }
  }

  lemma DifferentLengths(a: Json, b: Json)
    requires a.Arr? && b.Arr? && |a.items| != |b.items|
    ensures !Same(a, b)
  {
  }

  lemma NotBothStructured(a: Json, b: Json)
    requires Unmixed(a, b) && !(a.Arr? && b.Arr?) && !(a.Obj? && b.Obj?)
    ensures (!Structured(Some(a)) || !Structured(Some(b))) && (Same(a, b) <==> a == b)
  {
  }

  lemma {:induction false} ObjectsAreSame(a: Json, b: Json)
    requires Unmixed(a, b) && a.Obj? && b.Obj?
    ensures Alike(a, b) <==> Same(a, b)
    decreases Size(a) + Size(b), 1
  {
    hide Alike, Same, Size, Unmixed;
    AlikeIffAt(a, b);
    SameIffFields(a, b);
    forall key ensures AlikeAt(a, b, key) <==> SameField(a, b, key) {
      assert At(a, key) == FieldAt(a.fields, key) && At(b, key) == FieldAt(b.fields, key);
      if At(a, key).Some? && At(b, key).Some? {
        UnmixedBelow(a, b, key);
        AlikeIsSame(At(a, key).value, At(b, key).value);
      }
    }
    hide AlikeAt, SameField;
  }

  lemma {:induction false} ListsAreSame(a: Json, b: Json)
    requires Unmixed(a, b) && a.Arr? && b.Arr? && |a.items| == |b.items|
    ensures Alike(a, b) <==> Same(a, b)
    decreases Size(a) + Size(b), 1
  {
    hide Digits, Size, Same, Alike, Unmixed;
    forall i: nat | i < |a.items| ensures AlikeAt(a, b, Digits(i)) <==> Same(a.items[i], b.items[i]) {
      ItemAtDigits(a.items, 0, i);
      ItemAtDigits(b.items, 0, i);
      UnmixedBelow(a, b, Digits(i));
      assert ItemSmaller(a, b, i);
      AlikeIsSame(a.items[i], b.items[i]);
    }
    hide AlikeAt;
    ListsAlike(a, b);
    ListsSame(a, b);
    if ItemsAlike(a, b) {
      forall i: nat | i < |a.items| ensures Same(a.items[i], b.items[i]) {
        assert AlikeAt(a, b, Digits(i));
      }
    }
    if forall i: nat | i < |a.items| :: Same(a.items[i], b.items[i]) {
      forall i: nat | i < |a.items| ensures AlikeAt(a, b, Digits(i)) {
      }
    }
  }

  lemma ListsSame(a: Json, b: Json)
    requires a.Arr? && b.Arr? && |a.items| == |b.items|
    ensures Same(a, b) <==> forall i: nat | i < |a.items| :: Same(a.items[i], b.items[i])
  {
    hide ItemSmaller;
  }

  /** The keys are the positions of a list of `n` items. */
  ghost predicate KeysArePositions(v: Json, n: nat) {
    forall key :: At(v, key).Some? <==> key in Numbers(0, n)
  }

  ghost predicate ItemsAlike(a: Json, b: Json)
    requires a.Arr?
  {
    forall i: nat | i < |a.items| :: AlikeAt(a, b, Digits(i))
  }

  lemma ListKeys(a: Json)
    requires a.Arr?
    ensures KeysArePositions(a, |a.items|)
  {
    forall key ensures At(a, key).Some? <==> key in Numbers(0, |a.items|) {
      AtIff(a, key);
    }
    hide Digits, Numbers, At;
  }

  /** A list is alike when its items are, and the other side has no more keys. */
  lemma ListAlike(a: Json, b: Json)
    requires a.Arr? && Structured(Some(b))
    ensures Alike(a, b) <==> KeysArePositions(b, |a.items|) && ItemsAlike(a, b)
  {
    AlikeIffAt(a, b);
    ListKeys(a);
    hide Digits, Alike, Numbers, At;
    if Alike(a, b) {
      forall key ensures At(b, key).Some? <==> key in Numbers(0, |a.items|) {
        assert AlikeAt(a, b, key);
      }
    }
    if KeysArePositions(b, |a.items|) && ItemsAlike(a, b) {
      forall key ensures AlikeAt(a, b, key) {
        ListAlikeAt(a, b, key);
      }
      assert forall key :: AlikeAt(a, b, key);
    }
  }

  lemma ListAlikeAt(a: Json, b: Json, key: string)
    requires a.Arr? && KeysArePositions(b, |a.items|) && ItemsAlike(a, b)
    ensures AlikeAt(a, b, key)
  {
    ListKeys(a);
    hide Digits, Alike, Numbers, Value, At;
    NumbersHold(0, |a.items|, key);
    if key in Numbers(0, |a.items|) {
      assert AlikeAt(a, b, Digits(Value(key)));
    } else {
      NothingThere(a, b, key);
    }
  }

  /** Lists of one length are alike when their items are. */
  lemma ListsAlike(a: Json, b: Json)
    requires a.Arr? && b.Arr? && |a.items| == |b.items|
    ensures Alike(a, b) <==> ItemsAlike(a, b)
  {
    hide ItemsAlike, Alike, KeysArePositions;
    ListKeys(b);
    ListAlike(a, b);
  }

  lemma DiffEmptyWhereUnmixed(a: Json, b: Json, path: seq<string>)
    requires Unmixed(a, b)
    ensures Diff(Some(a), Some(b), path) == [] <==> Same(a, b)
  {
    hide Diff, Alike, Same, Unmixed;
    NoPathIff(a, b, path);
    AlikeIsSame(a, b);
  }

  /** A list against an object goes unseen exactly when the object's keys are its positions, and each item does. */
  lemma MixUnseenIff(items: seq<Json>, fields: seq<Field>, path: seq<string>)
    ensures Diff(Some(Arr(items)), Some(Obj(fields)), path) == [] <==>
      && KeysArePositions(Obj(fields), |items|)
      && (forall i: nat | i < |items| :: UnseenAt(items, fields, i, path))
  {
    var a, b := Arr(items), Obj(fields);
    NoPathIff(a, b, path);
    ListAlike(a, b);
    forall i: nat | i < |items| ensures UnseenAt(items, fields, i, path) <==> AlikeAt(a, b, Digits(i)) {
      ItemUnseen(items, fields, i, path);
    }
    hide Diff, Digits, Alike, AlikeAt, UnseenAt, KeysArePositions;
    if ItemsAlike(a, b) {
      forall i: nat | i < |items| ensures UnseenAt(items, fields, i, path) {
        assert AlikeAt(a, b, Digits(i));
      }
    }
  }

  predicate UnseenAt(items: seq<Json>, fields: seq<Field>, i: nat, path: seq<string>)
    requires i < |items|
  {
    FieldAt(fields, Digits(i)).Some? && Diff(Some(items[i]), Some(FieldAt(fields, Digits(i)).value), path) == []
  }

  lemma ItemUnseen(items: seq<Json>, fields: seq<Field>, i: nat, path: seq<string>)
    requires i < |items|
    ensures UnseenAt(items, fields, i, path) <==> AlikeAt(Arr(items), Obj(fields), Digits(i))
  {
    ItemAtDigits(items, 0, i);
    if FieldAt(fields, Digits(i)).Some? {
      NoPathIff(items[i], FieldAt(fields, Digits(i)).value, path);
    }
    hide Diff, Digits, Alike, FieldAt;
  }

  // ------------------------------------------------------------- projection

  lemma {:induction false} ProjectedField(stored: Json, desired: seq<Field>, key: string)
    ensures var vd := FieldAt(desired, key); var vs := At(stored, key);
            FieldAt(ProjectFields(stored, desired), key) ==
              if vd.Some? then Some(if vs.Some? then Project(vs.value, vd.value) else vd.value) else None
    decreases |desired|
  {
    hide Project, At;
    if desired != [] { ProjectedField(stored, desired[1..], key); }
  }

  lemma {:induction false} ProjectedItem(stored: seq<Json>, desired: seq<Json>, i: nat)
    requires |stored| == |desired| && i < |stored|
    ensures ProjectItems(stored, desired)[i] == Project(stored[i], desired[i])
    decreases |desired|
  {
    hide Project;
    if i > 0 { ProjectedItem(stored[1..], desired[1..], i - 1); }
  }

  predicate Shaped(stored: Json, desired: Json) {
    (stored.Obj? && desired.Obj?) || (stored.Arr? && desired.Arr? && |stored.items| == |desired.items|)
  }

  lemma AgreeLists(stored: Json, desired: Json)
    requires stored.Arr? && desired.Arr? && |stored.items| == |desired.items|
    ensures Agree(stored, desired) <==> forall i: nat | i < |stored.items| :: Agree(stored.items[i], desired.items[i])
  {
    hide ItemSmaller;
  }

  ghost predicate AgreeField(stored: Json, desired: Json, key: string)
    requires stored.Obj? && desired.Obj?
  {
    var vs, vd := FieldAt(stored.fields, key), FieldAt(desired.fields, key);
    vs.Some? && vd.Some? ==> Agree(vs.value, vd.value)
  }

  lemma AgreeObjects(stored: Json, desired: Json)
    requires stored.Obj? && desired.Obj?
    ensures Agree(stored, desired) <==> forall key :: AgreeField(stored, desired, key)
  {
    hide FieldAt;
    if Agree(stored, desired) {
      forall key ensures AgreeField(stored, desired, key) {
        var vs, vd := FieldAt(stored.fields, key), FieldAt(desired.fields, key);
      }
    }
    if forall key :: AgreeField(stored, desired, key) {
      forall key
        ensures var vs, vd := FieldAt(stored.fields, key), FieldAt(desired.fields, key);
                vs.Some? && vd.Some? ==> Agree(vs.value, vd.value)
      {
        assert AgreeField(stored, desired, key);
      }
    }
  }

  lemma {:induction false} ProjectionAlikeIff(stored: Json, desired: Json)
    ensures Alike(Project(stored, desired), desired) <==> Agree(stored, desired)
    decreases Size(stored) + Size(desired), 1
  {
    if stored.Obj? && desired.Obj? {
      ProjectedObjects(stored, desired);
    } else if Shaped(stored, desired) {
      ProjectedLists(stored, desired);
    } else {
      assert Project(stored, desired) == stored;
      hide Alike, Same, Project, AsObject;
      if stored.Arr? && desired.Arr? {
        if |stored.items| < |desired.items| {
          UnequalLengths(stored, desired);
        } else {
          UnequalLengths(desired, stored);
        }
      } else {
        AlikeIff(stored, desired);
      }
    }
  }

  lemma {:induction false} ProjectedObjects(stored: Json, desired: Json)
    requires stored.Obj? && desired.Obj?
    ensures Alike(Project(stored, desired), desired) <==> Agree(stored, desired)
    decreases Size(stored) + Size(desired), 0
  {
    var p := Project(stored, desired);
    hide Alike, Agree, Project, Size;
    assert p.Obj? by { ProjectKeepsKind(stored, desired); }
    AlikeIffAt(p, desired);
    AgreeObjects(stored, desired);
    forall key ensures AlikeAt(p, desired, key) <==> AgreeField(stored, desired, key) {
      FieldOfProjection(stored, desired, key);
      var vs, vd := FieldAt(stored.fields, key), FieldAt(desired.fields, key);
      assert At(stored, key) == vs && At(desired, key) == vd;
      if vd.Some? {
        if vs.Some? { ProjectionAlikeIff(vs.value, vd.value); } else { AlikeItself(vd.value); }
      }
    }
    hide AlikeAt, AgreeField;
  }

  lemma FieldOfProjection(stored: Json, desired: Json, key: string)
    requires stored.Obj? && desired.Obj?
    ensures var vd, vs := FieldAt(desired.fields, key), FieldAt(stored.fields, key);
            At(Project(stored, desired), key) ==
              if vd.Some? then Some(if vs.Some? then Project(vs.value, vd.value) else vd.value) else None
  {
    ProjectedField(stored, desired.fields, key);
  }

  lemma ItemsOfProjection(stored: Json, desired: Json, i: nat)
    requires stored.Arr? && desired.Arr? && i < |stored.items| == |desired.items|
    ensures AlikeAt(Arr(ProjectItems(stored.items, desired.items)), desired, Digits(i))
       <==> Alike(Project(stored.items[i], desired.items[i]), desired.items[i])
  {
    hide Alike, Project, Digits;
    ItemAtDigits(ProjectItems(stored.items, desired.items), 0, i);
    ItemAtDigits(desired.items, 0, i);
    ProjectedItem(stored.items, desired.items, i);
  }

  lemma {:induction false} ProjectedLists(stored: Json, desired: Json)
    requires stored.Arr? && desired.Arr? && |stored.items| == |desired.items|
    ensures Alike(Project(stored, desired), desired) <==> Agree(stored, desired)
    decreases Size(stored) + Size(desired), 0
  {
    var p := Project(stored, desired);
    assert p == Arr(ProjectItems(stored.items, desired.items));
    hide Alike, Agree, Project, ProjectItems, Size, Digits, AlikeAt;
    ListsAlike(p, desired);
    AgreeLists(stored, desired);
    forall i: nat | i < |stored.items|
      ensures AlikeAt(p, desired, Digits(i)) <==> Agree(stored.items[i], desired.items[i])
    {
      ItemsOfProjection(stored, desired, i);
      assert ItemSmaller(stored, desired, i);
      ProjectionAlikeIff(stored.items[i], desired.items[i]);
    }
    if ItemsAlike(p, desired) {
      forall i: nat | i < |stored.items| ensures Agree(stored.items[i], desired.items[i]) {
        assert AlikeAt(p, desired, Digits(i));
      }
    }
  }

  lemma ProjectKeepsKind(stored: Json, desired: Json)
    requires Shaped(stored, desired)
    ensures Project(stored, desired).Obj? == desired.Obj? && Project(stored, desired).Arr? == desired.Arr?
  {
  }

  /** No drift is reported exactly when the two agree on every key both have. */
  lemma NoDriftIff(stored: Json, desired: Json)
    ensures Diff(Some(Project(stored, desired)), Some(desired), []) == [] <==> Agree(stored, desired)
  {
    hide Diff, Alike, Agree, Project;
    NoPathIff(Project(stored, desired), desired, []);
    ProjectionAlikeIff(stored, desired);
  }

  /** An empty list against an empty object is a difference that is not seen. */
  lemma ListAgainstObjectUnseen()
    ensures Diff(Some(Project(Arr([]), Obj([]))), Some(Obj([])), []) == [] && !Same(Arr([]), Obj([]))
  {
  }

  // ------------------------------------------------------------- keys that are not managed

  /** The two say the same wherever the desired value says something, at every depth. */
  ghost predicate Managed(stored: Json, other: Json, desired: Json)
    decreases desired
  {
    if stored.Obj? && desired.Obj? then
      other.Obj? && forall i: nat | i < |desired.fields| :: ManagedAt(stored, other, desired.fields[i])
    else if stored.Arr? && desired.Arr? && |stored.items| == |desired.items| then
      && other.Arr? && |other.items| == |stored.items|
      && (forall i: nat | i < |desired.items| :: Managed(stored.items[i], other.items[i], desired.items[i]))
    else other == stored
  }

  ghost predicate ManagedAt(stored: Json, other: Json, f: Field)
    requires stored.Obj? && other.Obj?
    decreases f
  {
    var v, v' := At(stored, f.key), At(other, f.key);
    (v.Some? <==> v'.Some?) && (v.Some? && v'.Some? ==> Managed(v.value, v'.value, f.value))
  }

  /** Keys that are not managed never matter, at any depth, in any order and with any value. */
  lemma {:induction false} UnmanagedNeverMatters(stored: Json, other: Json, desired: Json)
    requires Managed(stored, other, desired)
    ensures Project(stored, desired) == Project(other, desired)
    decreases desired, 1
  {
    if stored.Obj? && desired.Obj? {
      UnmanagedFields(stored, other, desired, 0);
      assert desired.fields[0..] == desired.fields;
    } else if Shaped(stored, desired) {
      UnmanagedItems(stored.items, other.items, desired, 0);
      assert stored.items[0..] == stored.items && other.items[0..] == other.items
          && desired.items[0..] == desired.items;
    }
  }

  lemma {:induction false} UnmanagedFields(stored: Json, other: Json, desired: Json, n: nat)
    requires stored.Obj? && other.Obj? && desired.Obj? && Managed(stored, other, desired) && n <= |desired.fields|
    ensures ProjectFields(stored, desired.fields[n..]) == ProjectFields(other, desired.fields[n..])
    decreases desired, 0, |desired.fields| - n
  {
    if n < |desired.fields| {
      hide Project, At;
      var f := desired.fields[n];
      assert ManagedAt(stored, other, f);
      if At(stored, f.key).Some? {
        UnmanagedNeverMatters(At(stored, f.key).value, At(other, f.key).value, f.value);
      }
      UnmanagedFields(stored, other, desired, n + 1);
      assert desired.fields[n..][1..] == desired.fields[n + 1..];
    }
  }

  lemma {:induction false} UnmanagedItems(stored: seq<Json>, other: seq<Json>, desired: Json, n: nat)
    requires desired.Arr? && |stored| == |other| == |desired.items| && n <= |stored|
    requires Managed(Arr(stored), Arr(other), desired)
    ensures ProjectItems(stored[n..], desired.items[n..]) == ProjectItems(other[n..], desired.items[n..])
    decreases desired, 0, |stored| - n
  {
    if n < |stored| {
      hide Project;
      UnmanagedNeverMatters(stored[n], other[n], desired.items[n]);
      UnmanagedItems(stored, other, desired, n + 1);
      assert stored[n..][1..] == stored[n + 1..] && other[n..][1..] == other[n + 1..];
      assert desired.items[n..][1..] == desired.items[n + 1..];
    }
  }

  // ------------------------------------------------------------- idempotence

  /** Each field's own value is what its key means. */
  ghost predicate Plain(v: Json)
    decreases v
  {
    match v
    case Arr(items) => forall i | 0 <= i < |items| :: Plain(items[i])
    case Obj(fields) =>
      && (forall i | 0 <= i < |fields| :: Plain(fields[i].value))
      && (forall i, j | 0 <= i < j < |fields| :: fields[i].key != fields[j].key)
    case _ => true
  }

  lemma {:induction false} OntoItself(v: Json)
    requires Plain(v)
    ensures Project(v, v) == v
    decreases v, 1
  {
    if v.Arr? { ItemsOntoThemselves(v.items); }
    if v.Obj? { FieldsOntoThemselves(v, v.fields, 0); }
  }

  lemma {:induction false} ItemsOntoThemselves(items: seq<Json>)
    requires forall i | 0 <= i < |items| :: Plain(items[i])
    ensures ProjectItems(items, items) == items
    decreases items
  {
    if items != [] {
      OntoItself(items[0]);
      ItemsOntoThemselves(items[1..]);
    }
  }

  lemma {:induction false} FirstField(fields: seq<Field>, i: nat)
    requires i < |fields| && forall j, k | 0 <= j < k < |fields| :: fields[j].key != fields[k].key
    ensures FieldAt(fields, fields[i].key) == Some(fields[i].value)
    decreases |fields|
  {
    if i > 0 { FirstField(fields[1..], i - 1); }
  }

  lemma {:induction false} FieldsOntoThemselves(v: Json, fields: seq<Field>, n: nat)
    requires v.Obj? && Plain(v) && n <= |v.fields| && fields == v.fields[n..]
    ensures ProjectFields(v, fields) == fields
    decreases v, 0, |fields|
  {
    if fields != [] {
      FirstField(v.fields, n);
      OntoItself(v.fields[n].value);
      FieldsOntoThemselves(v, fields[1..], n + 1);
    }
  }

  lemma {:induction false} ProjectTwice(stored: Json, desired: Json)
    requires Plain(desired)
    ensures Project(Project(stored, desired), desired) == Project(stored, desired)
    decreases desired, 1
  {
    if Shaped(stored, desired) {
      if desired.Arr? {
        ItemsTwice(stored.items, desired.items);
      } else {
        FieldsTwice(stored, desired, desired.fields, 0);
      }
    }
  }

  lemma {:induction false} ItemsTwice(stored: seq<Json>, desired: seq<Json>)
    requires |stored| == |desired| && forall i | 0 <= i < |desired| :: Plain(desired[i])
    ensures ProjectItems(ProjectItems(stored, desired), desired) == ProjectItems(stored, desired)
    decreases desired
  {
    if desired != [] {
      ProjectTwice(stored[0], desired[0]);
      ItemsTwice(stored[1..], desired[1..]);
    }
  }

  lemma {:induction false} FieldsTwice(stored: Json, desired: Json, fields: seq<Field>, n: nat)
    requires stored.Obj? && desired.Obj? && Plain(desired) && n <= |desired.fields| && fields == desired.fields[n..]
    ensures ProjectFields(Project(stored, desired), fields) == ProjectFields(stored, fields)
    decreases desired, 0, |fields|
  {
    if fields != [] {
      var f := desired.fields[n];
      FirstField(desired.fields, n);
      FieldOfProjection(stored, desired, f.key);
      var v := At(stored, f.key);
      if v.Some? { ProjectTwice(v.value, f.value); } else { OntoItself(f.value); }
      FieldsTwice(stored, desired, fields[1..], n + 1);
    }
  }

  // ------------------------------------------------------------- every path is real

  function Follow(v: Option<Json>, path: seq<string>): Option<Json>
    decreases |path|
  {
    if path == [] then v
    else if v.None? then None
    else Follow(At(v.value, path[0]), path[1..])
  }

  /** A path from here at whose end the two differ. */
  ghost predicate Real(a: Option<Json>, b: Option<Json>, path: seq<string>, p: seq<string>) {
    path <= p && Clash(Follow(a, p[|path|..]), Follow(b, p[|path|..]))
  }

  lemma {:induction false} PathsAreReal(a: Option<Json>, b: Option<Json>, path: seq<string>)
    ensures forall p | p in Diff(a, b, path) :: Real(a, b, path, p)
    decreases SizeOf(a) + SizeOf(b), 1, 0
  {
    hide Size, Keys, At;
    if Clash(a, b) {
      assert path[|path|..] == [];
    } else if Structured(a) {
      KeyPathsAreReal(a.value, b.value, Union(Keys(a.value), Keys(b.value)), path);
    }
  }

  lemma {:induction false} KeyPathsAreReal(a: Json, b: Json, keys: seq<string>, path: seq<string>)
    requires a.Arr? || a.Obj?
    ensures forall p | p in DiffKeys(a, b, keys, path) :: Real(Some(a), Some(b), path, p)
    decreases Size(a) + Size(b), 0, |keys|
  {
    hide Size, Keys, At;
    if keys != [] {
      var va, vb := At(a, keys[0]), At(b, keys[0]);
      KeyPathsAreReal(a, b, keys[1..], path);
      if PrintOf(va) != PrintOf(vb) {
        PathsAreReal(va, vb, path + [keys[0]]);
        forall p | p in Diff(va, vb, path + [keys[0]]) ensures Real(Some(a), Some(b), path, p) {
          assert Real(va, vb, path + [keys[0]], p);
          assert p[|path|..][0] == keys[0] && p[|path|..][1..] == p[|path + [keys[0]]|..];
        }
      }
    }
  }

  // ------------------------------------------------------------- the shortcut

  /** The same comparison, with nothing skipped. */
  function FullDiff(a: Option<Json>, b: Option<Json>, path: seq<string>): seq<seq<string>>
    decreases SizeOf(a) + SizeOf(b), 1, 0
  {
    if Clash(a, b) then [path]
    else if !Structured(a) then []
    else FullDiffKeys(a.value, b.value, Union(Keys(a.value), Keys(b.value)), path)
  }

  function FullDiffKeys(a: Json, b: Json, keys: seq<string>, path: seq<string>): seq<seq<string>>
    requires a.Arr? || a.Obj?
    decreases Size(a) + Size(b), 0, |keys|
  {
    if keys == [] then []
    else FullDiff(At(a, keys[0]), At(b, keys[0]), path + [keys[0]]) + FullDiffKeys(a, b, keys[1..], path)
  }

  lemma {:induction false} ShortcutChangesNothing(a: Option<Json>, b: Option<Json>, path: seq<string>)
    ensures Diff(a, b, path) == FullDiff(a, b, path)
    decreases SizeOf(a) + SizeOf(b), 1, 0
  {
    hide Size, Keys, At;
    if !Clash(a, b) && Structured(a) {
      ShortcutInKeys(a.value, b.value, Union(Keys(a.value), Keys(b.value)), path);
    }
  }

  lemma {:induction false} ShortcutInKeys(a: Json, b: Json, keys: seq<string>, path: seq<string>)
    requires a.Arr? || a.Obj?
    ensures DiffKeys(a, b, keys, path) == FullDiffKeys(a, b, keys, path)
    decreases Size(a) + Size(b), 0, |keys|
  {
    hide Size, Keys, At;
    if keys != [] {
      var va, vb := At(a, keys[0]), At(b, keys[0]);
      var here := path + [keys[0]];
      ShortcutInKeys(a, b, keys[1..], path);
      PrintsSameIff(va, vb);
      if va == vb && Structured(va) {
        NoPathIff(va.value, vb.value, here);
        AlikeItself(va.value);
      }
      ShortcutChangesNothing(va, vb, here);
    }
  }
}
