/**
  The picker's guess at a misheard agent: the nearest handle among the words heard, offered
  for confirmation. Handles and what was heard are normalized before they get here.
 */
module AgentPicker {
  import opened Options
  import opened Levenshtein

  /** The best guess so far: which agent, and how far off. */
  datatype Guess = Guess(agent: nat, distance: nat)

  /** How many edits a handle forgives: two in five of its characters, but at least one. */
  function Allowed(handle: string): nat {
    var n := 2 * |handle| / 5;
    if n < 1 then 1 else n
  }

  /** The pre-filter: lengths more than two apart are not compared. */
  predicate Near(word: string, handle: string) {
    |word| - |handle| <= 2 && |handle| - |word| <= 2
  }

  predicate Admissible(word: string, handle: string) {
    Distance(word, handle) <= Allowed(handle)
  }

  /** A word heard, a handle of an agent, near enough to be tried and to be offered. */
  ghost predicate Match(agents: seq<seq<string>>, words: seq<string>, agent: nat, h: nat, w: nat) {
    && agent < |agents| && h < |agents[agent]| && w < |words|
    && Near(words[w], agents[agent][h]) && Admissible(words[w], agents[agent][h])
  }

  /** Tried before the handle `h` of agent `agent` met the word `w`. */
  predicate Before(a: nat, x: nat, k: nat, agent: nat, h: nat, w: nat) {
    a < agent || (a == agent && (x < h || (x == h && k < w)))
  }

  /** The guess is at least as near as this match, and nearer than one of an earlier agent. */
  ghost predicate Covers(best: Option<Guess>, agents: seq<seq<string>>, words: seq<string>, a: nat, x: nat, k: nat)
    requires Match(agents, words, a, x, k)
  {
    && best.Some?
    && best.value.distance <= Distance(words[k], agents[a][x])
    && (best.value.agent <= a || best.value.distance < Distance(words[k], agents[a][x]))
  }

  /** The guess is a match, tried before this point. */
  ghost predicate Reached(best: Guess, agents: seq<seq<string>>, words: seq<string>, agent: nat, h: nat, w: nat) {
    exists x: nat, k: nat ::
      && Match(agents, words, best.agent, x, k)
      && Before(best.agent, x, k, agent, h, w)
      && best.distance == Distance(words[k], agents[best.agent][x])
  }

  /** The guess is the first of the least distance among the matches tried so far. */
  ghost predicate BestBefore(
      agents: seq<seq<string>>, words: seq<string>, agent: nat, h: nat, w: nat, best: Option<Guess>) {
    && (forall a: nat, x: nat, k: nat ::
          Match(agents, words, a, x, k) && Before(a, x, k, agent, h, w) ==> Covers(best, agents, words, a, x, k))
    && (best.Some? ==> Reached(best.value, agents, words, agent, h, w))
  }

  /** Going from one point to a later one, with nothing new tried in between or only `(agent, h, w)`. */
  lemma Moves(
      agents: seq<seq<string>>, words: seq<string>, best: Option<Guess>,
      agent: nat, h: nat, w: nat, agent': nat, h': nat, w': nat)
    requires BestBefore(agents, words, agent, h, w, best)
    requires forall a: nat, x: nat, k: nat :: Match(agents, words, a, x, k) ==>
               (Before(a, x, k, agent, h, w) <==> Before(a, x, k, agent', h', w'))
    ensures BestBefore(agents, words, agent', h', w', best)
  {
    hide Distance, Match, Before;
  }

  lemma Step(agents: seq<seq<string>>, words: seq<string>, agent: nat, h: nat, w: nat, best: Option<Guess>)
    requires agent < |agents| && h < |agents[agent]| && w < |words|
    requires BestBefore(agents, words, agent, h, w, best)
    ensures var d := Distance(words[w], agents[agent][h]);
            var best' := if Match(agents, words, agent, h, w) && (best.None? || d < best.value.distance)
                         then Some(Guess(agent, d)) else best;
            BestBefore(agents, words, agent, h, w + 1, best')
  {
    hide Distance, Match;
    var d := Distance(words[w], agents[agent][h]);
    var taken := Match(agents, words, agent, h, w) && (best.None? || d < best.value.distance);
    var best' := if taken then Some(Guess(agent, d)) else best;
    forall a: nat, x: nat, k: nat | Match(agents, words, a, x, k) && Before(a, x, k, agent, h, w + 1)
      ensures Covers(best', agents, words, a, x, k)
    {
      if Before(a, x, k, agent, h, w) {
        assert Covers(best, agents, words, a, x, k);
      } else {
        assert a == agent && x == h && k == w;
        if best.Some? { EarlierAgent(best.value, agents, words, agent, h, w); }
      }
    }
    if taken {
      assert Before(agent, h, w, agent, h, w + 1);
      assert Reached(best'.value, agents, words, agent, h, w + 1);
    } else if best.Some? {
      ReachedLater(best.value, agents, words, agent, h, w);
    }
  }

  lemma ReachedLater(best: Guess, agents: seq<seq<string>>, words: seq<string>, agent: nat, h: nat, w: nat)
    requires Reached(best, agents, words, agent, h, w)
    ensures Reached(best, agents, words, agent, h, w + 1)
  {
    hide Distance;
    var x: nat, k: nat :| Match(agents, words, best.agent, x, k) && Before(best.agent, x, k, agent, h, w)
                          && best.distance == Distance(words[k], agents[best.agent][x]);
    assert Before(best.agent, x, k, agent, h, w + 1);
  }

  lemma EarlierAgent(best: Guess, agents: seq<seq<string>>, words: seq<string>, agent: nat, h: nat, w: nat)
    requires Reached(best, agents, words, agent, h, w)
    ensures best.agent <= agent
  {
  }

  /** What is offered: nothing when nothing matches, else the nearest match, of the earliest agent as near. */
  ghost predicate Offers(agents: seq<seq<string>>, words: seq<string>, best: Option<Guess>) {
    && (forall a: nat, x: nat, k: nat :: Match(agents, words, a, x, k) ==> Covers(best, agents, words, a, x, k))
    && (best.Some? ==> exists x: nat, k: nat ::
          Match(agents, words, best.value.agent, x, k)
              && best.value.distance == Distance(words[k], agents[best.value.agent][x]))
  }

  /** The nearest agent to what was heard, if any is near enough. */
  method AgentNearlyNamed(agents: seq<seq<string>>, text: string) returns (best: Option<Guess>)
    ensures Offers(agents, Words(text), best)
  {
    hide Distance, BestBefore, Words;
    var words := Words(text);
    best := None;
    NothingTried(agents, words);
    for agent := 0 to |agents|
      invariant BestBefore(agents, words, agent, 0, 0, best)
    {
      var handles := agents[agent];
      for h := 0 to |handles|
        invariant BestBefore(agents, words, agent, h, 0, best)
      {
        var handle := handles[h];
        for w := 0 to |words|
          invariant BestBefore(agents, words, agent, h, w, best)
        {
          Step(agents, words, agent, h, w, best);
          var word := words[w];
          if |word| - |handle| > 2 || |handle| - |word| > 2 {
            continue;
          }
          var distance := EditDistance(word, handle);
          var allowed := Allowed(handle);
          if distance <= allowed && (best.None? || distance < best.value.distance) {
            best := Some(Guess(agent, distance));
          }
        }
        Moves(agents, words, best, agent, h, |words|, agent, h + 1, 0);
      }
      Moves(agents, words, best, agent, |handles|, 0, agent + 1, 0, 0);
    }
    AllTried(agents, words, best);
  }

  lemma NothingTried(agents: seq<seq<string>>, words: seq<string>)
    ensures BestBefore(agents, words, 0, 0, 0, None)
  {
    hide Distance;
  }

  lemma AllTried(agents: seq<seq<string>>, words: seq<string>, best: Option<Guess>)
    requires BestBefore(agents, words, |agents|, 0, 0, best)
    ensures Offers(agents, words, best)
  {
    hide Distance;
    forall a: nat, x: nat, k: nat | Match(agents, words, a, x, k)
      ensures Covers(best, agents, words, a, x, k)
    {
      assert Before(a, x, k, |agents|, 0, 0);
    }
  }

  // ------------------------------------------------------------- the words heard

  /** `split(" ")`. */
  function Pieces(text: string): (r: seq<string>)
    ensures r != []
  {
    if text == "" then [""]
    else
      var rest := Pieces(text[1..]);
      if text[0] == ' ' then [""] + rest else [[text[0]] + rest[0]] + rest[1..]
  }

  function LongEnough(pieces: seq<string>): seq<string> {
    if pieces == [] then [] else (if |pieces[0]| >= 3 then [pieces[0]] else []) + LongEnough(pieces[1..])
  }

  /** Only words of three characters or more are tried. */
  function Words(text: string): seq<string> {
    LongEnough(Pieces(text))
  }

  /** What can be a word heard. */
  predicate Hearable(word: string) {
    ' ' !in word && |word| >= 3
  }

  lemma {:induction false} PiecesHaveNoSpace(text: string)
    ensures forall piece :: piece in Pieces(text) ==> ' ' !in piece
    decreases |text|
  {
    if text != "" { PiecesHaveNoSpace(text[1..]); }
  }

  lemma {:induction false} LongEnoughAre(pieces: seq<string>)
    ensures forall word :: word in LongEnough(pieces) <==> word in pieces && |word| >= 3
    decreases |pieces|
  {
    if pieces != [] {
      LongEnoughAre(pieces[1..]);
      assert pieces == [pieces[0]] + pieces[1..];
    }
  }

  lemma {:induction false} OnePiece(word: string)
    requires ' ' !in word
    ensures Pieces(word) == [word]
    decreases |word|
  {
    if word != "" {
      OnePiece(word[1..]);
      assert word == [word[0]] + word[1..];
    }
  }

  /** A word is tried for some text exactly when it is hearable. */
  lemma HeardIff(word: string)
    ensures (exists text :: word in Words(text)) <==> Hearable(word)
  {
    if text :| word in Words(text) {
      PiecesHaveNoSpace(text);
      LongEnoughAre(Pieces(text));
    }
    if Hearable(word) {
      OnePiece(word);
      assert word in Words(word);
    }
  }

  // ------------------------------------------------------------- what is forgiven

  /** A handle forgives the most edits that are no more than two in five of its characters, and one in any case. */
  lemma AllowedIs(handle: string)
    ensures Allowed(handle) >= 1
    ensures forall n: nat :: n <= Allowed(handle) <==> n <= 1 || 5 * n <= 2 * |handle|
  {
  }

  lemma ScriptAdmits(script: seq<Edit>, word: string, handle: string)
    requires Turns(script, word, handle) && Cost(script) <= Allowed(handle)
    ensures Admissible(word, handle)
  {
    hide Turns, Cost, Distance;
    NoScriptIsCheaper(script, word, handle);
  }

  lemma HurthIsHearth()
    ensures Admissible("hurth", "hearth") && Near("hurth", "hearth")
  {
    var script := [Keep, Replace, Insert, Keep, Keep, Keep];
    assert Init("hurth") == "hurt" && Init("hurt") == "hur" && Init("hur") == "hu";
    assert Init("hu") == "h" && Init("h") == "";
    assert Init("hearth") == "heart" && Init("heart") == "hear" && Init("hear") == "hea" && Init("hea") == "he"
        && Init("he") == "h";
    assert script[..5] == [Keep, Replace, Insert, Keep, Keep] && script[..5][..4] == [Keep, Replace, Insert, Keep];
    assert [Keep, Replace, Insert, Keep][..3] == [Keep, Replace, Insert];
    assert [Keep, Replace, Insert][..2] == [Keep, Replace];
    assert [Keep, Replace][..1] == [Keep] && [Keep][..0] == [];
    assert Turns([Keep], "h", "h") && Cost([Keep]) == 0;
    assert Turns([Keep, Replace, Insert], "hu", "hea") && Cost([Keep, Replace, Insert]) == 2;
    ScriptAdmits(script, "hurth", "hearth");
  }

  lemma ForjIsForge()
    ensures Admissible("forj", "forge") && Near("forj", "forge")
  {
    var script := [Keep, Keep, Keep, Replace, Insert];
    assert Init("forj") == "for" && Init("for") == "fo" && Init("fo") == "f" && Init("f") == "";
    assert Init("forge") == "forg" && Init("forg") == "for";
    assert script[..4] == [Keep, Keep, Keep, Replace] && script[..4][..3] == [Keep, Keep, Keep];
    assert [Keep, Keep, Keep][..2] == [Keep, Keep] && [Keep, Keep][..1] == [Keep] && [Keep][..0] == [];
    assert Turns([Keep, Keep, Keep], "for", "for") && Cost([Keep, Keep, Keep]) == 0;
    ScriptAdmits(script, "forj", "forge");
  }

  lemma {:induction false} LastCharacters(a: string, b: string)
    requires a != "" && b != ""
    ensures Distance(a, b) ==
              Min3(Distance(Init(a), b) + 1, Distance(a, Init(b)) + 1,
                  Distance(Init(a), Init(b)) + Differ(a[|a| - 1], b[|b| - 1]))
  {
  }

  lemma OneIsNotHome()
    ensures !Admissible("one", "home")
  {
    hide Distance;
    assert Init("one") == "on" && Init("on") == "o" && Init("home") == "hom" && Init("hom") == "ho";
    LastCharacters("one", "home");
    LastCharacters("on", "hom");
    AtLeastLengthDifference("on", "home");
    AtLeastLengthDifference("o", "hom");
    AtLeastLengthDifference("o", "ho");
    ZeroIffEqual("one", "hom");
    ZeroIffEqual("on", "ho");
  }

  /** "hurth" is Hearth, "forj" is Forge, and "one" is not Home. */
  lemma AsIntended()
    ensures Admissible("hurth", "hearth") && Admissible("forj", "forge") && !Admissible("one", "home")
  {
    hide Distance;
    HurthIsHearth();
    ForjIsForge();
    OneIsNotHome();
  }

  // ------------------------------------------------------------- the pre-filter

  /** No word it leaves out could have been heard and was admissible. */
  ghost predicate Harmless(handle: string) {
    forall text, word :: word in Words(text) && Admissible(word, handle) ==> Near(word, handle)
  }

  function Spaces(s: string): nat {
    if s == "" then 0 else Spaces(Init(s)) + if s[|s| - 1] == ' ' then 1 else 0
  }

  function Closed(s: string): string {
    if s == "" then "" else Closed(Init(s)) + if s[|s| - 1] == ' ' then "" else [s[|s| - 1]]
  }

  /** A word has no space, so each of the handle's costs an edit. */
  lemma {:induction false} EachSpaceCosts(word: string, handle: string)
    requires ' ' !in word
    ensures Distance(word, handle) >= Spaces(handle)
    decreases |word| + |handle|
  {
    if handle != "" {
      EachSpaceCosts(word, Init(handle));
      if word != "" {
        EachSpaceCosts(Init(word), handle);
        EachSpaceCosts(Init(word), Init(handle));
      } else {
        SpacesWithin(handle);
      }
    }
  }

  lemma {:induction false} SpacesWithin(s: string)
    ensures Spaces(s) <= |s|
    decreases |s|
  {
    if s != "" { SpacesWithin(Init(s)); }
  }

  /** The handle with its spaces closed up is as far off as it has spaces. */
  lemma {:induction false} ClosedUp(s: string)
    ensures |Closed(s)| == |s| - Spaces(s) && ' ' !in Closed(s) && Distance(Closed(s), s) <= Spaces(s)
    decreases |s|
  {
    if s != "" {
      ClosedUp(Init(s));
      OneLess(Closed(s), s);
      if s[|s| - 1] != ' ' {
        assert Init(Closed(s)) == Closed(Init(s));
        OneMore(Closed(s), s);
      } else {
        assert Closed(s) == Closed(Init(s));
      }
    }
  }

  lemma OneMore(a: string, b: string)
    requires a != "" && b != "" && a[|a| - 1] == b[|b| - 1]
    ensures Distance(a, b) <= Distance(Init(a), Init(b))
  {
  }

  lemma {:induction false} Dropped(s: string, n: nat)
    requires n <= |s|
    ensures Distance(s[..n], s) <= |s| - n
    decreases |s|
  {
    if n == |s| {
      assert s[..n] == s;
      ZeroIffEqual(s, s);
    } else {
      assert Init(s)[..n] == s[..n];
      Dropped(Init(s), n);
      OneLess(s[..n], s);
    }
  }

  /** A word that the filter leaves out: the handle closed up, and short of at least three characters. */
  lemma LeftOut(handle: string) returns (word: string)
    requires |handle| >= 8 && Spaces(handle) <= Allowed(handle)
    ensures Hearable(word) && Admissible(word, handle) && !Near(word, handle)
  {
    hide Distance, Spaces, Closed;
    ClosedUp(handle);
    var closed := Closed(handle);
    var n := if Spaces(handle) < 3 then |handle| - 3 else |closed|;
    word := closed[..n];
    Dropped(closed, n);
    Triangle(word, closed, handle);
  }

  /**
    Of the words that can be heard, the pre-filter loses none that is admissible exactly for
    handles under eight characters, and for those with more spaces than edits they forgive.
   */
  lemma PrefilterHarmlessIff(handle: string)
    ensures Harmless(handle) <==> |handle| < 8 || Spaces(handle) > Allowed(handle)
  {
    hide Distance, Spaces, Words;
    if |handle| < 8 || Spaces(handle) > Allowed(handle) {
      forall text, word | word in Words(text) && Admissible(word, handle) ensures Near(word, handle) {
        HeardIff(word);
        AtLeastLengthDifference(word, handle);
        EachSpaceCosts(word, handle);
      }
    } else {
      var word := LeftOut(handle);
      HeardIff(word);
      var text :| word in Words(text);
      assert !Near(word, handle);
    }
  }
}
