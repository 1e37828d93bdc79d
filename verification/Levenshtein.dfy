/**
  The distance a misheard name is matched by: a loop over one row of a table, proved equal to
  the Levenshtein distance, which is the cost of the cheapest edit script and a metric.
 */
module Levenshtein {

  function Min(a: nat, b: nat): nat { if a < b then a else b }

  function Min3(a: nat, b: nat, c: nat): nat { Min(a, Min(b, c)) }

  function Init(s: string): string
    requires s != ""
  {
    s[..|s| - 1]
  }

  function Differ(c: char, d: char): nat { if c == d then 0 else 1 }

  /** The Levenshtein distance, by the last characters. */
  function Distance(a: string, b: string): nat
    decreases |a| + |b|
  {
    if a == "" then |b|
    else if b == "" then |a|
    else
      Min3(Distance(Init(a), b) + 1,
           Distance(a, Init(b)) + 1,
           Distance(Init(a), Init(b)) + Differ(a[|a| - 1], b[|b| - 1]))
  }

  /** The entry of the whole table at row `i` and column `j`. */
  ghost function Cell(a: string, b: string, i: nat, j: nat): nat
    requires i <= |a| && j <= |b|
  {
    Distance(a[..i], b[..j])
  }

  lemma CellFrom(a: string, b: string, i: nat, j: nat)
    requires i <= |a| && j <= |b|
    ensures i == 0 ==> Cell(a, b, i, j) == j
    ensures j == 0 ==> Cell(a, b, i, j) == i
    ensures i > 0 && j > 0 ==>
              Cell(a, b, i, j)
              == Min3(Cell(a, b, i - 1, j) + 1, Cell(a, b, i, j - 1) + 1,
                  Cell(a, b, i - 1, j - 1) + Differ(a[i - 1], b[j - 1]))
  {
    if i > 0 && j > 0 {
      assert Init(a[..i]) == a[..i - 1] && Init(b[..j]) == b[..j - 1];
    }
  }

  /** Levenshtein distance over one row, overwritten for each character of `a`. */
  method EditDistance(a: string, b: string) returns (d: nat)
    ensures d == Distance(a, b)
  {
    hide Cell, Min3;
    var row := new nat[|b| + 1](i => i);
    forall j | 0 <= j <= |b| ensures row[j] == Cell(a, b, 0, j) {
      CellFrom(a, b, 0, j);
    }
    for i := 1 to |a| + 1
      invariant forall j :: 0 <= j <= |b| ==> row[j] == Cell(a, b, i - 1, j)
    {
      var previous := row[0];
      row[0] := i;
      CellFrom(a, b, i, 0);
      for j := 1 to |b| + 1
        invariant previous == Cell(a, b, i - 1, j - 1)
        invariant forall k :: 0 <= k < j ==> row[k] == Cell(a, b, i, k)
        invariant forall k :: j <= k <= |b| ==> row[k] == Cell(a, b, i - 1, k)
      {
        var current := row[j];
        CellFrom(a, b, i, j);
        row[j] := Min3(row[j] + 1, row[j - 1] + 1, previous + Differ(a[i - 1], b[j - 1]));
        previous := current;
      }
    }
    d := row[|b|];
    assert d == Distance(a, b) by { LastCell(a, b); }
  }

  lemma LastCell(a: string, b: string)
    ensures Cell(a, b, |a|, |b|) == Distance(a, b)
  {
    assert a[..|a|] == a && b[..|b|] == b;
  }

  // ------------------------------------------------------------- a metric

  lemma {:induction false} Symmetric(a: string, b: string)
    ensures Distance(a, b) == Distance(b, a)
    decreases |a| + |b|
  {
    if a != "" && b != "" {
      Symmetric(Init(a), b);
      Symmetric(a, Init(b));
      Symmetric(Init(a), Init(b));
    }
  }

  lemma {:induction false} AtLeastLengthDifference(a: string, b: string)
    ensures |a| - |b| <= Distance(a, b) && |b| - |a| <= Distance(a, b)
    decreases |a| + |b|
  {
    if a != "" && b != "" {
      AtLeastLengthDifference(Init(a), b);
      AtLeastLengthDifference(a, Init(b));
      AtLeastLengthDifference(Init(a), Init(b));
    }
  }

  lemma {:induction false} ZeroIffEqual(a: string, b: string)
    ensures Distance(a, b) == 0 <==> a == b
    decreases |a| + |b|
  {
    if a != "" && b != "" {
      ZeroIffEqual(Init(a), Init(b));
      assert a == Init(a) + [a[|a| - 1]] && b == Init(b) + [b[|b| - 1]];
    }
  }

  lemma {:induction false} Triangle(a: string, b: string, c: string)
    ensures Distance(a, c) <= Distance(a, b) + Distance(b, c)
    decreases |a| + |b| + |c|
  {
    if a == "" {
      AtLeastLengthDifference(b, c);
    } else if c == "" {
      AtLeastLengthDifference(a, b);
    } else if b == "" {
      NoMoreThanBoth(a, c);
    } else {
      Triangle(Init(a), b, c);
      Triangle(a, b, Init(c));
      Triangle(a, Init(b), c);
      Triangle(a, Init(b), Init(c));
      Triangle(Init(a), Init(b), c);
      Triangle(Init(a), Init(b), Init(c));
    }
  }

  lemma {:induction false} NoMoreThanBoth(a: string, b: string)
    ensures Distance(a, b) <= |a| + |b|
    decreases |a| + |b|
  {
    if a != "" && b != "" {
      NoMoreThanBoth(Init(a), b);
    }
  }

  // ------------------------------------------------------------- edit scripts

  datatype Edit = Keep | Replace | Insert | Delete

  /** The script turns `a` into `b`, edit by edit. */
  predicate Turns(script: seq<Edit>, a: string, b: string)
    decreases |script|
  {
    if script == [] then a == "" && b == ""
    else
      var rest := script[..|script| - 1];
      match script[|script| - 1]
      case Keep => a != "" && b != "" && a[|a| - 1] == b[|b| - 1] && Turns(rest, Init(a), Init(b))
      case Replace => a != "" && b != "" && Turns(rest, Init(a), Init(b))
      case Insert => b != "" && Turns(rest, a, Init(b))
      case Delete => a != "" && Turns(rest, Init(a), b)
  }

  function Cost(script: seq<Edit>): nat {
    if script == [] then 0 else (if script[|script| - 1] == Keep then 0 else 1) + Cost(script[..|script| - 1])
  }

  lemma {:induction false} NoScriptIsCheaper(script: seq<Edit>, a: string, b: string)
    requires Turns(script, a, b)
    ensures Distance(a, b) <= Cost(script)
    decreases |script|
  {
    if script != [] {
      var rest := script[..|script| - 1];
      match script[|script| - 1]
      case Keep => NoScriptIsCheaper(rest, Init(a), Init(b));
      case Replace => NoScriptIsCheaper(rest, Init(a), Init(b));
      case Insert =>
        NoScriptIsCheaper(rest, a, Init(b));
        OneLess(a, b);
      case Delete =>
        NoScriptIsCheaper(rest, Init(a), b);
        OneLess(b, a);
        Symmetric(a, b);
        Symmetric(Init(a), b);
    }
  }

  lemma OneLess(a: string, b: string)
    requires b != ""
    ensures Distance(a, b) <= Distance(a, Init(b)) + 1
  {
  }

  lemma {:induction false} CheapestScript(a: string, b: string) returns (script: seq<Edit>)
    ensures Turns(script, a, b) && Cost(script) == Distance(a, b)
    decreases |a| + |b|
  {
    if a == "" && b == "" {
      script := [];
      return;
    }
    var rest: seq<Edit>;
    var last: Edit;
    if b != "" && Distance(a, b) == Distance(a, Init(b)) + 1 {
      rest := CheapestScript(a, Init(b));
      last := Insert;
    } else if a != "" && Distance(a, b) == Distance(Init(a), b) + 1 {
      rest := CheapestScript(Init(a), b);
      last := Delete;
    } else {
      rest := CheapestScript(Init(a), Init(b));
      last := if a[|a| - 1] == b[|b| - 1] then Keep else Replace;
    }
    script := rest + [last];
    assert script[..|script| - 1] == rest;
  }

  /** The distance is the cost of the cheapest edit script. */
  lemma DistanceIsCheapest(a: string, b: string)
    ensures exists script :: Turns(script, a, b) && Cost(script) == Distance(a, b)
    ensures forall script :: Turns(script, a, b) ==> Distance(a, b) <= Cost(script)
  {
    var script := CheapestScript(a, b);
    forall script | Turns(script, a, b) ensures Distance(a, b) <= Cost(script) {
      NoScriptIsCheaper(script, a, b);
    }
  }
}
