/** Exactly which paths are reported as drift, and what the reported text says of them. */
module DriftPaths {
  import opened Options
  import opened Decimals
  import opened Drift
  import opened DriftPrint
  import opened DriftProofs

  // ------------------------------------------------------------- between two values

  /** What is not a list and not an object. */
  predicate Leaf(v: Json) {
    !v.Arr? && !v.Obj?
  }

  /** The two differ here: one is missing, or they are not the same and not both made of parts. */
  predicate DifferHere(a: Option<Json>, b: Option<Json>) {
    match (a, b)
    case (None, None) => false
    case (Some(x), Some(y)) => x != y && (Leaf(x) || Leaf(y))
    case _ => true
  }

  /** Following the path key by key the two are made of parts, and at its end they differ. */
  ghost predicate DifferAt(a: Option<Json>, b: Option<Json>, path: seq<string>)
    decreases |path|
  {
    if path == [] then DifferHere(a, b)
    else
      && a.Some? && b.Some? && !Leaf(a.value) && !Leaf(b.value)
      && DifferAt(At(a.value, path[0]), At(b.value, path[0]), path[1..])
  }

  lemma ClashIs(a: Option<Json>, b: Option<Json>)
    ensures Clash(a, b) <==> DifferHere(a, b)
  {
  }

  /** A path is reported exactly when the two values differ at its end. */
  lemma {:induction false} PathReportedIff(a: Option<Json>, b: Option<Json>, path: seq<string>, more: seq<string>)
    ensures path + more in Diff(a, b, path) <==> DifferAt(a, b, more)
    ensures forall p | p in Diff(a, b, path) :: path <= p
    decreases SizeOf(a) + SizeOf(b), 1, 0
  {
    hide Size, Keys, At, Clash, Diff;
    ClashIs(a, b);
    DiffIs(a, b, path);
    if Clash(a, b) {
      assert path + more == path <==> more == [];
      if more != [] { NotBelow(a, b, more); }
    } else if !Structured(a) {
      NothingBelow(a, b, more);
    } else {
      var keys := Union(Keys(a.value), Keys(b.value));
      KeysReportedIff(a.value, b.value, keys, path, more);
      KeysAreThere(a.value, b.value);
      NotLeaves(a, b);
      if more != [] && more[0] !in keys { Absent(a, b, more); }
    }
  }

  lemma NotBelow(a: Option<Json>, b: Option<Json>, more: seq<string>)
    requires DifferHere(a, b) && more != []
    ensures !DifferAt(a, b, more)
  {
  }

  lemma NothingBelow(a: Option<Json>, b: Option<Json>, more: seq<string>)
    requires !Clash(a, b) && !Structured(a)
    ensures !DifferAt(a, b, more)
  {
  }

  lemma NotLeaves(a: Option<Json>, b: Option<Json>)
    requires !Clash(a, b) && Structured(a)
    ensures b.Some? && !Leaf(a.value) && !Leaf(b.value) && !DifferAt(a, b, [])
  {
  }

  lemma Absent(a: Option<Json>, b: Option<Json>, more: seq<string>)
    requires a.Some? && b.Some? && more != [] && At(a.value, more[0]).None? && At(b.value, more[0]).None?
    ensures !DifferAt(a, b, more)
  {
    hide At;
  }

  lemma {:induction false} KeysReportedIff(a: Json, b: Json, keys: seq<string>, path: seq<string>, more: seq<string>)
    requires a.Arr? || a.Obj?
    ensures path + more in DiffKeys(a, b, keys, path) <==>
              more != [] && more[0] in keys && DifferAt(At(a, more[0]), At(b, more[0]), more[1..])
    ensures forall p | p in DiffKeys(a, b, keys, path) :: path <= p
    decreases SizeOf(Some(a)) + SizeOf(Some(b)), 0, |keys|
  {
    if keys != [] {
      var key := keys[0];
      KeysReportedIff(a, b, keys[1..], path, more);
      var va, vb := At(a, key), At(b, key);
      if PrintOf(va) != PrintOf(vb) {
        PathReportedIff(va, vb, path + [key], if more == [] then [] else more[1..]);
        hide Size, Keys, At, Diff, Print, DifferAt;
        Below(va, vb, path, key, more);
      } else {
        hide Size, Keys, At, Diff, Print;
        PrintsSameIff(va, vb);
        SameDifferNowhere(va, if more == [] then [] else more[1..]);
      }
    }
  }

  /** What is reported under a key starts with it. */
  lemma Below(va: Option<Json>, vb: Option<Json>, path: seq<string>, key: string, more: seq<string>)
    requires forall p | p in Diff(va, vb, path + [key]) :: path + [key] <= p
    requires (path + [key]) + (if more == [] then [] else more[1..]) in Diff(va, vb, path + [key]) <==>
               DifferAt(va, vb, if more == [] then [] else more[1..])
    ensures path + more in Diff(va, vb, path + [key]) <==> more != [] && more[0] == key && DifferAt(va, vb, more[1..])
    ensures forall p | p in Diff(va, vb, path + [key]) :: path <= p
  {
    hide Diff, DifferAt;
    forall p | p in Diff(va, vb, path + [key]) ensures path <= p {
      assert p[..|path|] == (path + [key])[..|path|];
    }
    KeyNext(path, key, more);
    if more != [] && more[0] == key { assert (path + [key]) + more[1..] == path + more; }
  }

  lemma {:induction false} SameDifferNowhere(a: Option<Json>, path: seq<string>)
    ensures !DifferAt(a, a, path)
    decreases |path|
  {
    hide At;
    if path != [] && a.Some? { SameDifferNowhere(At(a.value, path[0]), path[1..]); }
  }

  lemma KeyNext(path: seq<string>, key: string, more: seq<string>)
    ensures path + [key] <= path + more <==> more != [] && more[0] == key
  {
    assert more != [] ==> (path + more)[|path|] == more[0];
    assert (path + [key])[|path|] == key;
    if more != [] && more[0] == key { assert path + more == (path + [key]) + more[1..]; }
  }

  // ------------------------------------------------------------- between stored and desired

  /**
    The stored value has drifted there. Through objects only keys count that both have, through
    lists of one length every position; anything else is compared as it is, so that an entry added
    to a list or taken from it is named.
   */
  ghost predicate DriftedAt(stored: Json, desired: Json, path: seq<string>)
    decreases |path|
  {
    if Shaped(stored, desired) then
      path != [] &&
      var vs, vd := At(stored, path[0]), At(desired, path[0]);
      vs.Some? && vd.Some? && DriftedAt(vs.value, vd.value, path[1..])
    else DifferAt(Some(stored), Some(desired), path)
  }

  lemma {:induction false} ItemOfProjection(stored: seq<Json>, desired: seq<Json>, i: nat, key: string)
    requires |stored| == |desired|
    ensures var vs, vd := ItemAt(stored, i, key), ItemAt(desired, i, key);
            && (vs.Some? <==> vd.Some?)
            && ItemAt(ProjectItems(stored, desired), i, key) ==
                 if vs.Some? && vd.Some? then Some(Project(vs.value, vd.value)) else None
    decreases |stored|
  {
    hide Project, Digits;
    if stored != [] {
      ItemOfProjection(stored[1..], desired[1..], i + 1, key);
      assert ProjectItems(stored, desired)[1..] == ProjectItems(stored[1..], desired[1..]);
    }
  }

  /** What stands at a key of the projection. */
  lemma AtOfProjection(stored: Json, desired: Json, key: string)
    requires Shaped(stored, desired)
    ensures var vs, vd := At(stored, key), At(desired, key);
            At(Project(stored, desired), key) ==
              if vd.None? then None else if vs.None? then vd else Some(Project(vs.value, vd.value))
    ensures !Leaf(Project(stored, desired)) && !Leaf(desired)
  {
    if stored.Obj? {
      FieldOfProjection(stored, desired, key);
    } else {
      ItemOfProjection(stored.items, desired.items, 0, key);
    }
  }

  lemma {:induction false} ProjectionDiffersIff(stored: Json, desired: Json, path: seq<string>)
    ensures DifferAt(Some(Project(stored, desired)), Some(desired), path) <==> DriftedAt(stored, desired, path)
    decreases |path|
  {
    if Shaped(stored, desired) {
      AtOfProjection(stored, desired, if path == [] then "" else path[0]);
      hide Project, At;
      if path != [] {
        var vs, vd := At(stored, path[0]), At(desired, path[0]);
        if vs.Some? && vd.Some? {
          ProjectionDiffersIff(vs.value, vd.value, path[1..]);
        } else {
          SameDifferNowhere(vd, path[1..]);
          SameDifferNowhere(None, path[1..]);
        }
      }
    }
  }

  /** A path is reported as drift exactly when the stored value has drifted there. */
  lemma DriftReportedIff(stored: Json, desired: Json, path: seq<string>)
    ensures path in Diff(Some(Project(stored, desired)), Some(desired), []) <==> DriftedAt(stored, desired, path)
  {
    hide Diff, Project, DifferAt, DriftedAt;
    assert [] + path == path;
    PathReportedIff(Some(Project(stored, desired)), Some(desired), [], path);
    ProjectionDiffersIff(stored, desired, path);
  }

  // ------------------------------------------------------------- paths as text

  /** A text cut at its dots. */
  function AtDots(text: string): (r: seq<string>)
    ensures r != []
  {
    if text == "" then [""]
    else
      var rest := AtDots(text[1..]);
      if text[0] == '.' then [""] + rest else [[text[0]] + rest[0]] + rest[1..]
  }

  lemma {:induction false} NoDots(text: string)
    requires '.' !in text
    ensures AtDots(text) == [text]
    decreases |text|
  {
    if text != "" {
      NoDots(text[1..]);
      assert text == [text[0]] + text[1..];
    }
  }

  lemma {:induction false} DotBetween(a: string, b: string)
    ensures AtDots(a + "." + b) == AtDots(a) + AtDots(b)
    decreases |a|
  {
    if a == "" {
      assert a + "." + b == "." + b && ("." + b)[1..] == b;
    } else {
      assert (a + "." + b)[1..] == a[1..] + "." + b;
      DotBetween(a[1..], b);
    }
  }

  /** Keys without dots, and the first not empty: what the written path can be read back from. */
  predicate Readable(path: seq<string>) {
    path != [] && (|path| > 1 ==> path[0] != "") && forall i | 0 <= i < |path| :: '.' !in path[i]
  }

  lemma {:induction false} PiecesHaveNoDot(text: string)
    ensures forall i | 0 <= i < |AtDots(text)| :: '.' !in AtDots(text)[i]
    decreases |text|
  {
    if text != "" { PiecesHaveNoDot(text[1..]); }
  }

  lemma DottedInit(path: seq<string>)
    requires path != []
    ensures Dotted(path) == Joined(Dotted(path[..|path| - 1]), path[|path| - 1]) && Dotted([]) == ""
  {
  }

  lemma {:induction false} ReadsBack(path: seq<string>)
    requires Readable(path)
    ensures AtDots(Dotted(path)) == path
    decreases |path|
  {
    hide Dotted, AtDots;
    var init, key := path[..|path| - 1], path[|path| - 1];
    DottedInit(path);
    NoDots(key);
    if init == [] {
      assert path == [key];
    } else {
      ReadsBack(init);
      NoDots("");
      DotBetween(Dotted(init), key);
      assert init + [key] == path;
    }
  }

  /** A path that starts with an empty key loses it. */
  lemma {:induction false} FewerPieces(path: seq<string>)
    requires |path| > 1 && path[0] == "" && forall i | 0 <= i < |path| :: '.' !in path[i]
    ensures |AtDots(Dotted(path))| < |path|
    decreases |path|
  {
    hide Dotted, AtDots;
    var init, key := path[..|path| - 1], path[|path| - 1];
    DottedInit(path);
    NoDots(key);
    DotBetween(Dotted(init), key);
    if |init| == 1 {
      DottedInit(init);
      assert init[..0] == [];
    } else {
      FewerPieces(init);
    }
  }

  /**
    A path written with dots is cut at its dots into its keys exactly when no key has a dot and
    the first is not empty.
   */
  lemma DottedReadsBackIff(path: seq<string>)
    requires path != []
    ensures AtDots(Dotted(path)) == path <==> Readable(path)
  {
    hide Dotted, AtDots;
    PiecesHaveNoDot(Dotted(path));
    if Readable(path) {
      ReadsBack(path);
    } else if |path| > 1 && path[0] == "" && (forall i | 0 <= i < |path| :: '.' !in path[i]) {
      FewerPieces(path);
    }
  }

  lemma {:induction false} DottedEmptyIff(path: seq<string>)
    ensures Dotted(path) == "" <==> forall i | 0 <= i < |path| :: path[i] == ""
    decreases |path|
  {
    if path != [] {
      var init := path[..|path| - 1];
      DottedEmptyIff(init);
      assert forall i | 0 <= i < |init| :: init[i] == path[i];
    }
  }

  /** A difference at the top is written as the root's; any other with its path. */
  lemma WrittenAs(path: seq<string>)
    ensures Reported([path]) == [if forall i | 0 <= i < |path| :: path[i] == "" then "(root)" else Dotted(path)]
  {
    DottedEmptyIff(path);
    ReportedOne(path);
  }
}
