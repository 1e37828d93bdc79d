/** Drift between a stored manifest and the desired one, over JSON values. */
module Drift {
  import opened Options
  import opened Decimals

  /** Fields in the order they were added; where a key repeats the first one is meant. */
  datatype Json =
    | Null
    | Bool(b: bool)
    | Num(n: int)
    | Str(s: string)
    | Arr(items: seq<Json>)
    | Obj(fields: seq<Field>)

  datatype Field = Field(key: string, value: Json)

  // ------------------------------------------------------------- keys

  function ItemSizes(items: seq<Json>): nat {
    if items == [] then 0 else Size(items[0]) + ItemSizes(items[1..])
  }

  function FieldSizes(fields: seq<Field>): nat {
    if fields == [] then 0 else Size(fields[0].value) + FieldSizes(fields[1..])
  }

  function Size(v: Json): (n: nat)
    ensures n > 0
  {
    match v
    case Arr(items) => 1 + ItemSizes(items)
    case Obj(fields) => 1 + FieldSizes(fields)
    case _ => 1
  }

  function SizeOf(v: Option<Json>): nat {
    if v.Some? then Size(v.value) else 0
  }

  /** What stands at `key` in the items numbered from `i`. */
  function ItemAt(items: seq<Json>, i: nat, key: string): (r: Option<Json>)
    ensures r.Some? ==> Size(r.value) <= ItemSizes(items)
    decreases |items|
  {
    if items == [] then None
    else if Digits(i) == key then Some(items[0])
    else ItemAt(items[1..], i + 1, key)
  }

  function FieldAt(fields: seq<Field>, key: string): (r: Option<Json>)
    ensures r.Some? ==> Size(r.value) <= FieldSizes(fields)
  {
    if fields == [] then None
    else if fields[0].key == key then Some(fields[0].value)
    else FieldAt(fields[1..], key)
  }

  /** `undefined` where there is nothing. */
  function At(v: Json, key: string): (r: Option<Json>)
    ensures r.Some? ==> Size(r.value) < Size(v)
  {
    match v
    case Arr(items) => ItemAt(items, 0, key)
    case Obj(fields) => FieldAt(fields, key)
    case _ => None
  }

  function Numbers(i: nat, n: nat): seq<string>
    decreases n
  {
    if n == 0 then [] else [Digits(i)] + Numbers(i + 1, n - 1)
  }

  function KeysOf(fields: seq<Field>): seq<string> {
    if fields == [] then [] else [fields[0].key] + KeysOf(fields[1..])
  }

  function Keys(v: Json): seq<string> {
    match v
    case Arr(items) => Numbers(0, |items|)
    case Obj(fields) => KeysOf(fields)
    case _ => []
  }

  // ------------------------------------------------------------- printing

  /** One hexadecimal digit. */
  function Hex(n: nat): char
    requires n < 16
  {
    "0123456789abcdef"[n]
  }

  /** How a character stands in a quoted string. */
  function Escaped(c: char): string {
    if c == '"' then "\\\""
    else if c == '\\' then "\\\\"
    else if c == '\n' then "\\n"
    else if c == '\r' then "\\r"
    else if c == '\t' then "\\t"
    else if c as int == 8 then "\\b"
    else if c as int == 12 then "\\f"
    else if c as int < 32 then "\\u00" + [Hex(c as int / 16), Hex(c as int % 16)]
    else [c]
  }

  function Quoted(s: string): string {
    if s == "" then "\"" else Escaped(s[0]) + Quoted(s[1..])
  }

  function PrintInt(n: int): string {
    if n < 0 then "-" + Digits(-n) else Digits(n)
  }

  /** `JSON.stringify` of a value. A string's opening quote comes first, then `Quoted`. */
  function Print(v: Json): string
    decreases Size(v), 0
  {
    match v
    case Null => "null"
    case Bool(b) => if b then "true" else "false"
    case Num(n) => PrintInt(n)
    case Str(s) => "\"" + Quoted(s)
    case Arr(items) => "[" + PrintItems(items, true)
    case Obj(fields) => "{" + PrintFields(fields, true)
  }

  /** The items not printed yet, and the closing bracket. */
  function PrintItems(items: seq<Json>, first: bool): string
    decreases ItemSizes(items), 1
  {
    if items == [] then "]"
    else (if first then "" else ",") + Print(items[0]) + PrintItems(items[1..], false)
  }

  function PrintFields(fields: seq<Field>, first: bool): string
    decreases FieldSizes(fields), 1
  {
    if fields == [] then "}"
    else
      (if first then "" else ",") + "\"" + Quoted(fields[0].key) + ":" + Print(fields[0].value)
      + PrintFields(fields[1..], false)
  }

  /** `undefined` does not print as any text. */
  function PrintOf(v: Option<Json>): Option<string> {
    if v.Some? then Some(Print(v.value)) else None
  }

  // ------------------------------------------------------------- projection

  /** The stored value, in the shape of the desired one. */
  function Project(stored: Json, desired: Json): Json
    decreases desired
  {
    if stored.Arr? && desired.Arr? then
      if |stored.items| != |desired.items| then stored
      else Arr(ProjectItems(stored.items, desired.items))
    else if stored.Obj? && desired.Obj? then Obj(ProjectFields(stored, desired.fields))
    else stored
  }

  function ProjectItems(stored: seq<Json>, desired: seq<Json>): (r: seq<Json>)
    requires |stored| == |desired|
    ensures |r| == |stored|
    decreases desired
  {
    if stored == [] then [] else [Project(stored[0], desired[0])] + ProjectItems(stored[1..], desired[1..])
  }

  /** A key the stored value does not have compares equal: it is taken from the desired one. */
  function ProjectFields(stored: Json, desired: seq<Field>): (r: seq<Field>)
    decreases desired
  {
    if desired == [] then [] else
      var f := desired[0];
      var v := At(stored, f.key);
      [Field(f.key, if v.Some? then Project(v.value, f.value) else f.value)] + ProjectFields(stored, desired[1..])
  }

  // ------------------------------------------------------------- differences

  predicate Structured(v: Option<Json>) {
    v.Some? && (v.value.Arr? || v.value.Obj?)
  }

  /** Different at the top: one structured and the other not, or different plain values. */
  predicate Clash(a: Option<Json>, b: Option<Json>) {
    if Structured(a) && Structured(b) then false else a != b
  }

  function Union(keys: seq<string>, more: seq<string>): seq<string>
    decreases |more|
  {
    if more == [] then keys
    else if more[0] in keys then Union(keys, more[1..])
    else Union(keys + [more[0]], more[1..])
  }

  /** The paths at which two values differ, each a list of keys, all starting with `path`. */
  function Diff(a: Option<Json>, b: Option<Json>, path: seq<string>): seq<seq<string>>
    decreases SizeOf(a) + SizeOf(b), 1, 0
  {
    if Clash(a, b) then [path]
    else if !Structured(a) then []
    else DiffKeys(a.value, b.value, Union(Keys(a.value), Keys(b.value)), path)
  }

  /** Values that print the same are not compared further. */
  function DiffKeys(a: Json, b: Json, keys: seq<string>, path: seq<string>): seq<seq<string>>
    requires a.Arr? || a.Obj?
    decreases Size(a) + Size(b), 0, |keys|
  {
    if keys == [] then [] else
      var va, vb := At(a, keys[0]), At(b, keys[0]);
      (if PrintOf(va) != PrintOf(vb) then Diff(va, vb, path + [keys[0]]) else []) + DiffKeys(a, b, keys[1..], path)
  }

  function Joined(prefix: string, key: string): string {
    if prefix == "" then key else prefix + "." + key
  }

  /** A path as it is written: its keys with dots between them. */
  function Dotted(path: seq<string>): string {
    if path == [] then "" else Joined(Dotted(path[..|path| - 1]), path[|path| - 1])
  }

  function Named(prefix: string): string {
    if prefix == "" then "(root)" else prefix
  }

  function Reported(paths: seq<seq<string>>): seq<string> {
    if paths == [] then [] else [Named(Dotted(paths[0]))] + Reported(paths[1..])
  }

  lemma ReportedAppend(a: seq<seq<string>>, b: seq<seq<string>>)
    ensures Reported(a + b) == Reported(a) + Reported(b)
  {
    if a == [] {
      assert a + b == b;
    } else {
      assert (a + b)[1..] == a[1..] + b;
      ReportedAppend(a[1..], b);
    }
  }

  // ------------------------------------------------------------- what is meant

  /** Equal, whatever the order of the keys of an object. */
  ghost predicate Same(a: Json, b: Json)
    decreases Size(a) + Size(b)
  {
    if a.Arr? && b.Arr? then
      && |a.items| == |b.items|
      && (forall i: nat | i < |a.items| :: ItemSmaller(a, b, i) && Same(a.items[i], b.items[i]))
    else if a.Obj? && b.Obj? then
      forall key ::
        var va, vb := FieldAt(a.fields, key), FieldAt(b.fields, key);
        (va.Some? <==> vb.Some?) && (va.Some? && vb.Some? ==> Same(va.value, vb.value))
    else a == b
  }

  /** True of every item: what lets a predicate recurse on it. */
  ghost predicate ItemSmaller(a: Json, b: Json, i: nat)
    requires a.Arr? && b.Arr? && i < |a.items| == |b.items|
    ensures ItemSmaller(a, b, i) && Size(a.items[i]) + Size(b.items[i]) < Size(a) + Size(b)
  {
    SizeOfItem(a.items, i);
    SizeOfItem(b.items, i);
    true
  }

  lemma SizeOfItem(items: seq<Json>, i: nat)
    requires i < |items|
    ensures Size(items[i]) <= ItemSizes(items)
  {
    if i > 0 { SizeOfItem(items[1..], i - 1); }
  }

  /** Every list read as an object keyed by position. */
  function AsObject(v: Json): Json
    decreases Size(v), 0
  {
    match v
    case Arr(items) => Obj(ItemFields(items, 0))
    case Obj(fields) => Obj(FieldFields(fields))
    case _ => v
  }

  function ItemFields(items: seq<Json>, i: nat): seq<Field>
    decreases ItemSizes(items), 1
  {
    if items == [] then [] else [Field(Digits(i), AsObject(items[0]))] + ItemFields(items[1..], i + 1)
  }

  function FieldFields(fields: seq<Field>): seq<Field>
    decreases FieldSizes(fields), 1
  {
    if fields == [] then [] else [Field(fields[0].key, AsObject(fields[0].value))] + FieldFields(fields[1..])
  }

  /**
    Agreeing on every key both have, lists of one length item by item. Anything else is the
    same, a list against an object once the list is read as one.
   */
  ghost predicate Agree(stored: Json, desired: Json)
    decreases Size(stored) + Size(desired)
  {
    if stored.Obj? && desired.Obj? then
      forall key ::
        var vs, vd := FieldAt(stored.fields, key), FieldAt(desired.fields, key);
        vs.Some? && vd.Some? ==> Agree(vs.value, vd.value)
    else if stored.Arr? && desired.Arr? then
      && |stored.items| == |desired.items|
      && (forall i: nat | i < |stored.items| ::
          ItemSmaller(stored, desired, i) && Agree(stored.items[i], desired.items[i]))
    else Same(AsObject(stored), AsObject(desired))
  }

  // ------------------------------------------------------------- the loops

  method ProjectOnto(stored: Json, desired: Json) returns (out: Json)
    ensures out == Project(stored, desired)
    decreases desired
  {
    if stored.Arr? && desired.Arr? {
      if |stored.items| != |desired.items| {
        return stored;
      }
      var items: seq<Json> := [];
      assert Project(stored, desired) == Arr(ProjectItems(stored.items, desired.items));
      hide Project, ProjectItems;
      assert stored.items[0..] == stored.items && desired.items[0..] == desired.items;
      for i := 0 to |stored.items|
        invariant items + ProjectItems(stored.items[i..], desired.items[i..])
            == ProjectItems(stored.items, desired.items)
      {
        var item := ProjectOnto(stored.items[i], desired.items[i]);
        NextItem(stored.items, desired.items, i);
        items := items + [item];
      }
      NoMoreItems(stored.items[|stored.items|..], desired.items[|stored.items|..]);
      assert items + [] == items;
      return Arr(items);
    }
    if stored.Obj? && desired.Obj? {
      var fields: seq<Field> := [];
      assert Project(stored, desired) == Obj(ProjectFields(stored, desired.fields));
      hide Project, ProjectFields, At;
      assert desired.fields[0..] == desired.fields;
      for i := 0 to |desired.fields|
        invariant fields + ProjectFields(stored, desired.fields[i..]) == ProjectFields(stored, desired.fields)
      {
        var f := desired.fields[i];
        NextField(stored, desired.fields, i);
        var v := At(stored, f.key);
        var value := f.value;
        if v.Some? {
          value := ProjectOnto(v.value, f.value);
        }
        fields := fields + [Field(f.key, value)];
      }
      NoMoreFields(stored, desired.fields[|desired.fields|..]);
      assert fields + [] == fields;
      return Obj(fields);
    }
    return stored;
  }

  lemma NextItem(stored: seq<Json>, desired: seq<Json>, i: nat)
    requires i < |stored| == |desired|
    ensures ProjectItems(stored[i..], desired[i..])
         == [Project(stored[i], desired[i])] + ProjectItems(stored[i + 1..], desired[i + 1..])
  {
    hide Project;
    assert stored[i..][1..] == stored[i + 1..] && desired[i..][1..] == desired[i + 1..];
  }

  lemma NoMoreItems(stored: seq<Json>, desired: seq<Json>)
    requires |stored| == |desired| == 0
    ensures ProjectItems(stored, desired) == []
  {
  }

  lemma NextField(stored: Json, desired: seq<Field>, i: nat)
    requires i < |desired|
    ensures var f := desired[i];
            var v := At(stored, f.key);
            var value := if v.Some? then Project(v.value, f.value) else f.value;
            ProjectFields(stored, desired[i..]) == [Field(f.key, value)] + ProjectFields(stored, desired[i + 1..])
  {
    hide Project, At;
    assert desired[i..][1..] == desired[i + 1..];
  }

  lemma NoMoreFields(stored: Json, desired: seq<Field>)
    requires desired == []
    ensures ProjectFields(stored, desired) == []
  {
  }

  lemma NextKey(a: Json, b: Json, keys: seq<string>, i: nat, path: seq<string>)
    requires (a.Arr? || a.Obj?) && i < |keys|
    ensures var va, vb := At(a, keys[i]), At(b, keys[i]);
            DiffKeys(a, b, keys[i..], path) ==
              (if PrintOf(va) != PrintOf(vb) then Diff(va, vb, path + [keys[i]]) else [])
                  + DiffKeys(a, b, keys[i + 1..], path)
  {
    hide Size, Keys, At, Union, Print, Diff;
    assert keys[i..][0] == keys[i] && keys[i..][1..] == keys[i + 1..];
  }

  lemma DottedMore(path: seq<string>, key: string)
    ensures Dotted(path + [key]) == Joined(Dotted(path), key)
  {
    assert (path + [key])[..|path|] == path;
  }

  lemma ReportedOne(path: seq<string>)
    ensures Reported([path]) == [Named(Dotted(path))]
  {
    assert [path][1..] == [];
  }

  /** The paths, written out; `prefix` is the path so far. */
  method DiffPaths(a: Option<Json>, b: Option<Json>, ghost path: seq<string>, prefix: string) returns (out: seq<string>)
    requires prefix == Dotted(path)
    ensures out == Reported(Diff(a, b, path))
    decreases SizeOf(a) + SizeOf(b)
  {
    hide *;
    DiffIs(a, b, path);
    NoneReported();
    if Clash(a, b) {
      ReportedOne(path);
      return [Named(prefix)];
    }
    if !Structured(a) {
      return [];
    }
    var keys := Union(Keys(a.value), Keys(b.value));
    out := [];
    ghost var found: seq<seq<string>> := [];
    assert keys[0..] == keys;
    for i := 0 to |keys|
      invariant out == Reported(found)
      invariant found + DiffKeys(a.value, b.value, keys[i..], path) == Diff(a, b, path)
    {
      var va, vb := At(a.value, keys[i]), At(b.value, keys[i]);
      NextKey(a.value, b.value, keys, i, path);
      Smaller(a, b, keys[i]);
      if PrintOf(va) != PrintOf(vb) {
        DottedMore(path, keys[i]);
        var more := DiffPaths(va, vb, path + [keys[i]], Joined(prefix, keys[i]));
        ReportedAppend(found, Diff(va, vb, path + [keys[i]]));
        out := out + more;
        found := found + Diff(va, vb, path + [keys[i]]);
      }
    }
    NoMoreKeys(a.value, b.value, keys[|keys|..], path);
    assert found + [] == found;
  }

  lemma DiffIs(a: Option<Json>, b: Option<Json>, path: seq<string>)
    ensures Structured(a) ==> a.Some? && (a.value.Arr? || a.value.Obj?)
    ensures Structured(a) && !Clash(a, b) ==> Structured(b) && b.Some?
    ensures Diff(a, b, path) ==
      if Clash(a, b) then [path]
      else if !Structured(a) then []
      else DiffKeys(a.value, b.value, Union(Keys(a.value), Keys(b.value)), path)
  {
    hide Size, Keys, Union, Print, DiffKeys;
  }

  lemma NoneReported()
    ensures Reported([]) == []
  {
  }

  lemma Smaller(a: Option<Json>, b: Option<Json>, key: string)
    requires Structured(a) && Structured(b)
    ensures SizeOf(At(a.value, key)) + SizeOf(At(b.value, key)) < SizeOf(a) + SizeOf(b)
  {
    hide Size, At;
  }

  lemma NoMoreKeys(a: Json, b: Json, keys: seq<string>, path: seq<string>)
    requires (a.Arr? || a.Obj?) && keys == []
    ensures DiffKeys(a, b, keys, path) == []
  {
  }
}
