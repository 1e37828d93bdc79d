/** Printing a JSON value loses nothing: two values that print the same are the same. */
module DriftPrint {
  import opened Options
  import opened Decimals
  import opened Drift

  lemma CutAt(a: string, x: string, b: string, y: string)
    requires a + x == b + y && |a| == |b|
    ensures a == b && x == y
  {
    assert a == (a + x)[..|a|] && b == (b + y)[..|a|];
    assert x == (a + x)[|a|..] && y == (b + y)[|a|..];
  }

  // ------------------------------------------------------------- strings

  /** How long a character's escape is, and what tells it from the others. */
  lemma EscapedShape(c: char)
    ensures var e := Escaped(c);
            && |e| in {1, 2, 6} && e[0] != '"'
            && (|e| == 1 ==> e[0] == c && c != '\\')
            && (|e| > 1 ==> e[0] == '\\')
            && (|e| == 6 <==> |e| > 1 && e[1] == 'u')
  {
  }

  lemma EscapedInjective(c: char, d: char)
    requires Escaped(c) == Escaped(d)
    ensures c == d
  {
    EscapedShape(c);
    if |Escaped(c)| == 6 {
      var e := Escaped(c);
      assert e[4] == Hex(c as int / 16) == Hex(d as int / 16) && e[5] == Hex(c as int % 16) == Hex(d as int % 16);
      HexInjective(c as int / 16, d as int / 16);
      HexInjective(c as int % 16, d as int % 16);
    }
  }

  lemma HexInjective(m: nat, n: nat)
    requires m < 16 && n < 16 && Hex(m) == Hex(n)
    ensures m == n
  {
  }

  lemma EscapedApart(c: char, x: string, d: char, y: string)
    requires Escaped(c) + x == Escaped(d) + y
    ensures c == d && x == y
  {
    EscapedShape(c);
    EscapedShape(d);
    hide Escaped;
    var e, f := Escaped(c), Escaped(d);
    assert (e + x)[0] == e[0] && (f + y)[0] == f[0];
    if |e| > 1 && |f| > 1 {
      assert (e + x)[1] == e[1] && (f + y)[1] == f[1];
    }
    CutAt(e, x, f, y);
    EscapedInjective(c, d);
  }

  lemma QuotedStart(s: string, x: string)
    ensures Quoted(s) + x != ""
    ensures (Quoted(s) + x)[0] == '"' <==> s == ""
  {
    hide Escaped;
    if s != "" {
      EscapedShape(s[0]);
      assert (Quoted(s) + x)[0] == Escaped(s[0])[0];
    }
  }

  lemma {:induction false} QuotedApart(s: string, x: string, t: string, y: string)
    requires Quoted(s) + x == Quoted(t) + y
    ensures s == t && x == y
    decreases |s|
  {
    hide Escaped;
    QuotedStart(s, x);
    QuotedStart(t, y);
    if s == "" {
      CutAt("\"", x, "\"", y);
    } else {
      assert Quoted(s) + x == Escaped(s[0]) + (Quoted(s[1..]) + x);
      assert Quoted(t) + y == Escaped(t[0]) + (Quoted(t[1..]) + y);
      EscapedApart(s[0], Quoted(s[1..]) + x, t[0], Quoted(t[1..]) + y);
      QuotedApart(s[1..], x, t[1..], y);
      assert s == [s[0]] + s[1..] && t == [t[0]] + t[1..];
    }
  }

  // ------------------------------------------------------------- numbers

  /** What can follow a value inside a printed one. */
  predicate Ends(x: string) {
    x == "" || x[0] in {',', ']', '}'}
  }

  lemma DigitsApart(m: nat, x: string, n: nat, y: string)
    requires Digits(m) + x == Digits(n) + y && Ends(x) && Ends(y)
    ensures m == n && x == y
  {
    hide Digits, Value;
    DigitsRead(m);
    DigitsRead(n);
    DigitsUpTo(Digits(m), x);
    DigitsUpTo(Digits(n), y);
    CutAt(Digits(m), x, Digits(n), y);
  }

  /** How many digits a text starts with. */
  function DigitRun(s: string): nat {
    if s == "" || !IsDigit(s[0]) then 0 else 1 + DigitRun(s[1..])
  }

  lemma {:induction false} DigitsUpTo(a: string, x: string)
    requires AllDigits(a) && Ends(x)
    ensures DigitRun(a + x) == |a|
  {
    if a == "" {
      assert a + x == x;
    } else {
      assert (a + x)[1..] == a[1..] + x;
      DigitsUpTo(a[1..], x);
    }
  }

  lemma IntApart(m: int, x: string, n: int, y: string)
    requires PrintInt(m) + x == PrintInt(n) + y && Ends(x) && Ends(y)
    ensures m == n && x == y
  {
    hide Digits;
    IntStarts(m);
    IntStarts(n);
    assert (PrintInt(m) + x)[0] == PrintInt(m)[0] && (PrintInt(n) + y)[0] == PrintInt(n)[0];
    if m < 0 {
      assert PrintInt(m) + x == "-" + (Digits(-m) + x) && PrintInt(n) + y == "-" + (Digits(-n) + y);
      CutAt("-", Digits(-m) + x, "-", Digits(-n) + y);
      DigitsApart(-m, x, -n, y);
    } else {
      DigitsApart(m, x, n, y);
    }
  }

  lemma IntStarts(n: int)
    ensures PrintInt(n) != "" && (if n < 0 then PrintInt(n)[0] == '-' else IsDigit(PrintInt(n)[0]))
  {
    if n >= 0 { DigitsRead(n); }
    hide Digits, Value;
  }

  // ------------------------------------------------------------- values

  datatype Kind = Constant | Number | Text | List | Record

  function KindOf(v: Json): Kind {
    match v
    case Num(_) => Number
    case Str(_) => Text
    case Arr(_) => List
    case Obj(_) => Record
    case _ => Constant
  }

  /** What a value prints first tells its kind. */
  lemma PrintStarts(v: Json)
    ensures Print(v) != ""
    ensures var c := Print(v)[0];
            match KindOf(v)
            case Constant => c in {'n', 't', 'f'}
            case Number => c == '-' || IsDigit(c)
            case Text => c == '"'
            case List => c == '['
            case Record => c == '{'
  {
    hide PrintInt;
    if v.Num? { IntStarts(v.n); }
  }

  lemma ConstantApart(a: Json, x: string, b: Json, y: string)
    requires KindOf(a) == KindOf(b) == Constant && Print(a) + x == Print(b) + y
    ensures a == b && x == y
  {
    assert (Print(a) + x)[0] == Print(a)[0] && (Print(b) + y)[0] == Print(b)[0];
    assert Print(a)[0] == if a.Null? then 'n' else if a.b then 't' else 'f';
    assert Print(b)[0] == if b.Null? then 'n' else if b.b then 't' else 'f';
    CutAt(Print(a), x, Print(b), y);
  }

  lemma ItemsEnd(items: seq<Json>, x: string)
    ensures Ends(PrintItems(items, false) + x) && PrintItems(items, false) != ""
  {
    hide Print;
    if items == [] {
      assert ("]" + x)[0] == ']';
    } else {
      assert (PrintItems(items, false) + x)[0] == ',';
    }
  }

  lemma FieldsEnd(fields: seq<Field>, x: string)
    ensures Ends(PrintFields(fields, false) + x) && PrintFields(fields, false) != ""
  {
    hide Print, Quoted;
    if fields == [] {
      assert ("}" + x)[0] == '}';
    } else {
      assert (PrintFields(fields, false) + x)[0] == ',';
    }
  }

  /** Reading back: what is printed determines the value, and where it ends. */
  lemma {:induction false} PrintApart(a: Json, x: string, b: Json, y: string)
    requires Print(a) + x == Print(b) + y && Ends(x) && Ends(y)
    ensures a == b && x == y
    decreases Size(a), 1
  {
    PrintStarts(a);
    PrintStarts(b);
    assert (Print(a) + x)[0] == Print(a)[0] && (Print(b) + y)[0] == Print(b)[0];
    assert KindOf(a) == KindOf(b);
    match KindOf(a) {
      case Constant => ConstantApart(a, x, b, y);
      case Number => IntApart(a.n, x, b.n, y);
      case Text =>
        hide Quoted;
        Tail("\"", Quoted(a.s), x, Quoted(b.s), y);
        QuotedApart(a.s, x, b.s, y);
      case List =>
        hide PrintItems;
        Tail("[", PrintItems(a.items, true), x, PrintItems(b.items, true), y);
        ItemsApart(a.items, x, b.items, y, true);
      case Record =>
        hide PrintFields;
        Tail("{", PrintFields(a.fields, true), x, PrintFields(b.fields, true), y);
        FieldsApart(a.fields, x, b.fields, y, true);
    }
  }

  lemma Tail(head: string, a: string, x: string, b: string, y: string)
    requires (head + a) + x == (head + b) + y
    ensures a + x == b + y
  {
    assert (head + a) + x == head + (a + x) && (head + b) + y == head + (b + y);
    CutAt(head, a + x, head, b + y);
  }

  function Comma(first: bool): string {
    if first then "" else ","
  }

  lemma ItemsUnfold(items: seq<Json>, first: bool, x: string)
    requires items != []
    ensures PrintItems(items, first) + x == Comma(first) + (Print(items[0]) + (PrintItems(items[1..], false) + x))
  {
    hide Print;
  }

  lemma ItemsStart(items: seq<Json>, first: bool, x: string)
    ensures PrintItems(items, first) + x != ""
    ensures (PrintItems(items, first) + x)[0] == ']' <==> items == []
  {
    if items != [] {
      PrintStarts(items[0]);
      ItemsUnfold(items, first, x);
      hide Print, PrintItems;
    }
  }

  lemma {:induction false} ItemsApart(a: seq<Json>, x: string, b: seq<Json>, y: string, first: bool)
    requires PrintItems(a, first) + x == PrintItems(b, first) + y
    ensures a == b && x == y
    decreases ItemSizes(a), 2
  {
    ItemsStart(a, first, x);
    ItemsStart(b, first, y);
    if a == [] {
      CutAt("]", x, "]", y);
    } else {
      ItemsUnfold(a, first, x);
      ItemsUnfold(b, first, y);
      hide Print, PrintItems;
      var u, v := PrintItems(a[1..], false) + x, PrintItems(b[1..], false) + y;
      CutAt(Comma(first), Print(a[0]) + u, Comma(first), Print(b[0]) + v);
      ItemsEnd(a[1..], x);
      ItemsEnd(b[1..], y);
      PrintApart(a[0], u, b[0], v);
      ItemsApart(a[1..], x, b[1..], y, false);
      assert a == [a[0]] + a[1..] && b == [b[0]] + b[1..];
    }
  }

  lemma FieldsUnfold(fields: seq<Field>, first: bool, x: string)
    requires fields != []
    ensures PrintFields(fields, first) + x
         == (Comma(first) + "\"")
             + (Quoted(fields[0].key) + (":" + (Print(fields[0].value) + (PrintFields(fields[1..], false) + x))))
  {
    hide Print, Quoted;
  }

  lemma FieldsStart(fields: seq<Field>, first: bool, x: string)
    ensures PrintFields(fields, first) + x != ""
    ensures (PrintFields(fields, first) + x)[0] == '}' <==> fields == []
  {
    if fields != [] {
      FieldsUnfold(fields, first, x);
      hide Print, PrintFields, Quoted;
    }
  }

  lemma {:induction false} FieldsApart(a: seq<Field>, x: string, b: seq<Field>, y: string, first: bool)
    requires PrintFields(a, first) + x == PrintFields(b, first) + y
    ensures a == b && x == y
    decreases FieldSizes(a), 2
  {
    FieldsStart(a, first, x);
    FieldsStart(b, first, y);
    if a == [] {
      CutAt("}", x, "}", y);
    } else {
      FieldsUnfold(a, first, x);
      FieldsUnfold(b, first, y);
      hide Print, PrintFields, Quoted;
      var u, v := PrintFields(a[1..], false) + x, PrintFields(b[1..], false) + y;
      var p, q := ":" + (Print(a[0].value) + u), ":" + (Print(b[0].value) + v);
      CutAt(Comma(first) + "\"", Quoted(a[0].key) + p, Comma(first) + "\"", Quoted(b[0].key) + q);
      QuotedApart(a[0].key, p, b[0].key, q);
      CutAt(":", Print(a[0].value) + u, ":", Print(b[0].value) + v);
      FieldsEnd(a[1..], x);
      FieldsEnd(b[1..], y);
      PrintApart(a[0].value, u, b[0].value, v);
      FieldsApart(a[1..], x, b[1..], y, false);
      assert a == [a[0]] + a[1..] && b == [b[0]] + b[1..];
    }
  }

  /** Two values print the same exactly when they are the same, order of keys and all. */
  lemma PrintsSameIff(a: Option<Json>, b: Option<Json>)
    ensures PrintOf(a) == PrintOf(b) <==> a == b
  {
    if a.Some? && b.Some? && PrintOf(a) == PrintOf(b) {
      assert Print(a.value) + "" == Print(a.value) && Print(b.value) + "" == Print(b.value);
      hide Print;
      PrintApart(a.value, "", b.value, "");
    }
  }
}
