/**
  An agent's questions as message elements, and the answers read back from what was picked.
  Labels and layout are left out: an element is known by its ids and the values it carries.
 */
module Questions {
  import opened Options
  import opened Decimals

  datatype Question = Question(options: nat, multiSelect: bool)

  /** One interaction: a tap carries a value, a changed selection the values now selected. */
  datatype Action = Action(id: string, value: Option<string>, selected: Option<seq<string>>)

  datatype Reply = Answers(picks: seq<seq<nat>>) | Incomplete | Nothing

  type State = map<string, map<string, seq<string>>>

  const PREFIX := "thicket_q"
  const SUBMIT := "thicket_q:submit"

  function BlockId(q: nat): string { PREFIX + ":" + Digits(q) }

  function ActionId(q: nat): string { PREFIX + ":answer:" + Digits(q) }

  function OptionValue(q: nat, option: nat): string { Digits(q) + ":" + Digits(option) }

  function Colon(s: string): (k: nat)
    ensures k <= |s| && (k < |s| ==> s[k] == ':') && forall i | 0 <= i < k :: s[i] != ':'
  {
    if s == "" || s[0] == ':' then 0 else 1 + Colon(s[1..])
  }

  /** Two numbers with a colon between them, and nothing else. */
  function ParseValue(s: string): Option<(nat, nat)> {
    var k := Colon(s);
    if 0 < k < |s| - 1 && AllDigits(s[..k]) && AllDigits(s[k + 1..])
    then Some((Value(s[..k]), Value(s[k + 1..])))
    else None
  }

  predicate IsForm(questions: seq<Question>) {
    |questions| != 1 || questions[0].multiSelect
  }

  /** The values a person's picks put into the state. */
  function Picked(q: nat, picks: seq<nat>): seq<string> {
    if picks == [] then [] else [OptionValue(q, picks[0])] + Picked(q, picks[1..])
  }

  predicate IsQuestionAction(a: Action) {
    PREFIX + ":" <= a.id
  }

  function Ours(actions: seq<Action>): seq<Action> {
    if actions == [] then [] else (if IsQuestionAction(actions[0]) then [actions[0]] else []) + Ours(actions[1..])
  }

  function FirstTap(actions: seq<Action>): Option<string> {
    if actions == [] then None else if actions[0].value.Some? then actions[0].value else FirstTap(actions[1..])
  }

  predicate Submitted(actions: seq<Action>) {
    exists i :: 0 <= i < |actions| && actions[i].id == SUBMIT
  }

  function FromState(state: Option<State>, q: nat): Option<seq<string>> {
    if state.Some? && BlockId(q) in state.value && ActionId(q) in state.value[BlockId(q)]
    then Some(state.value[BlockId(q)][ActionId(q)]) else None
  }

  function FromActions(actions: seq<Action>, q: nat): Option<seq<string>> {
    if actions == [] then None
    else if actions[0].id == ActionId(q) then actions[0].selected
    else FromActions(actions[1..], q)
  }

  /** The options of question `q` among the values; what belongs elsewhere is ignored. */
  function Admitted(values: seq<string>, q: nat, options: nat): (r: seq<nat>)
    ensures forall o | o in r :: o < options
  {
    if values == [] then [] else
      var v := ParseValue(values[0]);
      (if v.Some? && v.value.0 == q && v.value.1 < options then [v.value.1] else []) + Admitted(values[1..], q, options)
  }

  function PickOf(questions: seq<Question>, actions: seq<Action>, state: Option<State>, q: nat): seq<nat>
    requires q < |questions|
  {
    var values := if FromState(state, q).Some? then FromState(state, q).value else FromActions(actions, q).GetOr([]);
    Admitted(values, q, questions[q].options)
  }

  /** The answers of a submitted form, from question `q` on. */
  method DecodeAnswers(questions: seq<Question>, actions: seq<Action>, state: Option<State>) returns (r: Reply)
    ensures r == Decode(questions, actions, state)
  {
    var ours := Ours(actions);
    if |ours| == 0 {
      return Nothing;
    }
    if !IsForm(questions) {
      var tap := FirstTap(ours);
      if tap.None? {
        return Nothing;
      }
      var parsed := ParseValue(tap.value);
      if parsed.None? || parsed.value.0 != 0 || parsed.value.1 >= questions[0].options {
        return Nothing;
      }
      return Answers([[parsed.value.1]]);
    }
    if !Submitted(ours) {
      return Nothing;
    }
    var picks: seq<seq<nat>> := [];
    for q := 0 to |questions|
      invariant |picks| == q && forall i | 0 <= i < q :: picks[i] == PickOf(questions, actions, state, i) != []
    {
      var picked := PickOf(questions, actions, state, q);
      if |picked| == 0 {
        return Incomplete;
      }
      picks := picks + [picked];
    }
    return Answers(picks);
  }

  /** What an interaction means: complete answers, an incomplete form, or nothing yet. */
  function Decode(questions: seq<Question>, actions: seq<Action>, state: Option<State>): Reply {
    var ours := Ours(actions);
    if ours == [] then Nothing
    else if !IsForm(questions) then
      var tap := FirstTap(ours);
      var parsed := if tap.Some? then ParseValue(tap.value) else None;
      if parsed.None? || parsed.value.0 != 0 || parsed.value.1 >= questions[0].options then Nothing
      else Answers([[parsed.value.1]])
    else if !Submitted(ours) then Nothing
    else if exists q :: 0 <= q < |questions| && PickOf(questions, actions, state, q) == [] then Incomplete
    else Answers(seq(|questions|, q requires 0 <= q < |questions| => PickOf(questions, actions, state, q)))
  }

  // ------------------------------------------------------------- round trips

  /** A value names an option of a question: two numbers in decimal, with a colon between them. */
  ghost predicate Names(v: string, q: nat, option: nat) {
    exists k: nat :: NamesAt(v, k, q, option)
  }

  predicate NamesAt(v: string, k: nat, q: nat, option: nat) {
    && 0 < k < |v| - 1 && v[k] == ':' && AllDigits(v[..k]) && AllDigits(v[k + 1..])
    && Value(v[..k]) == q && Value(v[k + 1..]) == option
  }

  /** A value is read as an option exactly when it names it. */
  lemma ParsesIff(v: string, q: nat, option: nat)
    ensures ParseValue(v) == Some((q, option)) <==> Names(v, q, option)
  {
    hide Value;
    if k: nat :| NamesAt(v, k, q, option) {
      assert forall i | 0 <= i < k :: IsDigit(v[..k][i]) && v[..k][i] == v[i];
      assert Colon(v) == k;
    }
    if ParseValue(v) == Some((q, option)) {
      assert NamesAt(v, Colon(v), q, option);
    }
  }

  lemma ParsesBack(q: nat, option: nat)
    ensures Names(OptionValue(q, option), q, option)
    ensures ParseValue(OptionValue(q, option)) == Some((q, option))
  {
    hide Digits, Value, ParseValue;
    var s := OptionValue(q, option);
    var k := |Digits(q)|;
    DigitsRead(q);
    DigitsRead(option);
    assert s[..k] == Digits(q) && s[k] == ':' && s[k + 1..] == Digits(option);
    assert NamesAt(s, k, q, option);
    ParsesIff(s, q, option);
  }

  lemma IdsAreDistinct(p: nat, q: nat)
    requires BlockId(p) == BlockId(q) || ActionId(p) == ActionId(q)
    ensures p == q
  {
    hide Digits, Value;
    DigitsRead(p);
    DigitsRead(q);
    assert BlockId(p)[|PREFIX + ":"|..] == Digits(p) && BlockId(q)[|PREFIX + ":"|..] == Digits(q);
    assert ActionId(p)[|PREFIX + ":answer:"|..] == Digits(p) && ActionId(q)[|PREFIX + ":answer:"|..] == Digits(q);
  }

  /** The message's state once every question has its picks. */
  function StateOf(picks: seq<seq<nat>>): State {
    if picks == [] then map[] else
      var q := |picks| - 1;
      StateOf(picks[..q])[BlockId(q) := map[ActionId(q) := Picked(q, picks[q])]]
  }

  lemma {:induction false} StateHolds(picks: seq<seq<nat>>, q: nat)
    requires q < |picks|
    ensures FromState(Some(StateOf(picks)), q) == Some(Picked(q, picks[q]))
    decreases |picks|
  {
    hide Picked, BlockId, ActionId;
    var n := |picks| - 1;
    if q < n {
      StateHolds(picks[..n], q);
      if BlockId(q) == BlockId(n) { IdsAreDistinct(q, n); }
    }
  }

  lemma {:induction false} PicksAdmitted(picks: seq<nat>, q: nat, options: nat)
    requires forall o | o in picks :: o < options
    ensures Admitted(Picked(q, picks), q, options) == picks
  {
    hide ParseValue, OptionValue;
    if picks != [] {
      assert picks[0] in picks && forall o | o in picks[1..] :: o in picks;
      ParsesBack(q, picks[0]);
      PicksAdmitted(picks[1..], q, options);
    }
  }

  /** Picks of options that exist, some questions perhaps without any. */
  predicate InRange(questions: seq<Question>, picks: seq<seq<nat>>) {
    |picks| == |questions| && forall q | 0 <= q < |picks| :: forall o | o in picks[q] :: o < questions[q].options
  }

  predicate Possible(questions: seq<Question>, picks: seq<seq<nat>>) {
    && |picks| == |questions|
    && forall q | 0 <= q < |picks| :: picks[q] != [] && forall o | o in picks[q] :: o < questions[q].options
  }

  /** More than one question, or one with more than one answer, make a form with a Submit button. */
  predicate NeedsSubmit(questions: seq<Question>) {
    |questions| != 1 || questions[0].multiSelect
  }

  /** The Submit button is among what was touched. */
  predicate Submits(actions: seq<Action>) {
    exists i :: 0 <= i < |actions| && actions[i].id == SUBMIT
  }

  lemma OursFirst(actions: seq<Action>)
    requires actions != []
    ensures Ours(actions)
            == if IsQuestionAction(actions[0]) then [actions[0]] + Ours(actions[1..]) else Ours(actions[1..])
    ensures actions == [actions[0]] + actions[1..]
  {
    hide IsQuestionAction;
    assert [] + Ours(actions[1..]) == Ours(actions[1..]);
  }

  lemma {:induction false} OursAre(actions: seq<Action>)
    ensures forall a :: a in Ours(actions) <==> a in actions && IsQuestionAction(a)
    decreases |actions|
  {
    hide IsQuestionAction, Ours;
    if actions == [] {
      NothingOurs();
    } else {
      OursFirst(actions);
      OursAre(actions[1..]);
    }
  }

  lemma NothingOurs()
    ensures Ours([]) == []
  {
  }

  lemma SubmitIsOurs(actions: seq<Action>)
    ensures Submitted(Ours(actions)) <==> Submits(actions)
  {
    hide Ours;
    OursAre(actions);
    assert PREFIX + ":" <= SUBMIT;
    if i :| 0 <= i < |actions| && actions[i].id == SUBMIT {
      assert actions[i] in Ours(actions);
      var k :| 0 <= k < |Ours(actions)| && Ours(actions)[k] == actions[i];
    }
    if k :| 0 <= k < |Ours(actions)| && Ours(actions)[k].id == SUBMIT {
      assert Ours(actions)[k] in actions;
      var i :| 0 <= i < |actions| && actions[i] == Ours(actions)[k];
    }
  }

  /** A form submitted reads back as exactly the picks made; one with a pick missing is incomplete. */
  lemma FormRoundTrip(questions: seq<Question>, picks: seq<seq<nat>>, actions: seq<Action>)
    requires NeedsSubmit(questions) && InRange(questions, picks) && Submits(actions)
    ensures Decode(questions, actions, Some(StateOf(picks))) == if [] in picks then Incomplete else Answers(picks)
  {
    hide StateOf, Picked, Admitted, FromState, Submitted;
    var state := Some(StateOf(picks));
    forall q | 0 <= q < |picks| ensures PickOf(questions, actions, state, q) == picks[q] {
      StateHolds(picks, q);
      PicksAdmitted(picks[q], q, questions[q].options);
    }
    SubmitDecodes(questions, picks, actions, state);
  }

  lemma SubmitDecodes(questions: seq<Question>, picks: seq<seq<nat>>, actions: seq<Action>, state: Option<State>)
    requires NeedsSubmit(questions) && Submits(actions) && |picks| == |questions|
    requires forall q | 0 <= q < |picks| :: PickOf(questions, actions, state, q) == picks[q]
    ensures Decode(questions, actions, state) == if [] in picks then Incomplete else Answers(picks)
  {
    hide Admitted, FromState, FromActions;
    SubmitIsOurs(actions);
    assert Ours(actions) != [] by { NotSubmitted(); }
    hide Submitted, PickOf;
    if [] in picks {
      var q :| 0 <= q < |picks| && picks[q] == [];
      assert PickOf(questions, actions, state, q) == [];
    } else {
      assert Decode(questions, actions, state).picks == picks;
    }
  }

  lemma NotSubmitted()
    ensures !Submitted([])
  {
  }

  /** What the elements of a form say for themselves, where the message's state is not sent along. */
  function Selections(picks: seq<seq<nat>>): seq<Action> {
    if picks == [] then []
    else
      var q := |picks| - 1;
      Selections(picks[..q]) + [Action(ActionId(q), None, Some(Picked(q, picks[q])))]
  }

  lemma {:induction false} SelectionsHold(picks: seq<seq<nat>>, q: nat, more: seq<Action>)
    requires q < |picks|
    ensures FromActions(Selections(picks) + more, q) == Some(Picked(q, picks[q]))
    decreases |picks|
  {
    hide Picked, ActionId;
    var n := |picks| - 1;
    var last := Action(ActionId(n), None, Some(Picked(n, picks[n])));
    assert Selections(picks) + more == Selections(picks[..n]) + ([last] + more);
    if q < n {
      SelectionsHold(picks[..n], q, [last] + more);
    } else {
      NoSelection(picks[..n], q, [last] + more);
      assert ([last] + more)[0] == last;
    }
  }

  lemma {:induction false} NoSelection(picks: seq<seq<nat>>, q: nat, more: seq<Action>)
    requires |picks| <= q
    ensures FromActions(Selections(picks) + more, q) == FromActions(more, q)
    decreases |picks|
  {
    hide Picked, ActionId;
    if picks == [] {
      assert Selections(picks) + more == more;
    } else {
      var n := |picks| - 1;
      var last := Action(ActionId(n), None, Some(Picked(n, picks[n])));
      assert Selections(picks) + more == Selections(picks[..n]) + ([last] + more);
      NoSelection(picks[..n], q, [last] + more);
      if ActionId(n) == ActionId(q) { IdsAreDistinct(n, q); }
      assert ([last] + more)[0] == last && ([last] + more)[1..] == more;
    }
  }

  /** The same where only the elements' own selections come with the Submit. */
  lemma FallbackRoundTrip(questions: seq<Question>, picks: seq<seq<nat>>, submit: Action)
    requires NeedsSubmit(questions) && InRange(questions, picks) && submit.id == SUBMIT
    ensures Decode(questions, Selections(picks) + [submit], None) == if [] in picks then Incomplete else Answers(picks)
  {
    hide Picked, Admitted, FromActions, Selections, Submitted;
    var actions := Selections(picks) + [submit];
    forall q | 0 <= q < |picks| ensures PickOf(questions, actions, None, q) == picks[q] {
      SelectionsHold(picks, q, [submit]);
      PicksAdmitted(picks[q], q, questions[q].options);
    }
    assert actions[|actions| - 1].id == SUBMIT;
    SubmitDecodes(questions, picks, actions, None);
  }

  /** A changed selection means nothing until the form is submitted, whatever it selects. */
  lemma SelectionChangeIsNothing(questions: seq<Question>, actions: seq<Action>, state: Option<State>)
    requires NeedsSubmit(questions) && !Submits(actions)
    ensures Decode(questions, actions, state) == Nothing
  {
    SubmitIsOurs(actions);
  }

  /** What was touched first of ours and carries a value. */
  ghost predicate Tapped(actions: seq<Action>, i: nat) {
    && i < |actions| && PREFIX + ":" <= actions[i].id && actions[i].value.Some?
    && forall j | 0 <= j < i :: !(PREFIX + ":" <= actions[j].id) || actions[j].value.None?
  }

  lemma {:induction false} TapIsFirst(actions: seq<Action>, i: nat)
    requires Tapped(actions, i)
    ensures Ours(actions) != [] && FirstTap(Ours(actions)) == actions[i].value
    decreases |actions|
  {
    hide Ours;
    OursFirst(actions);
    var rest := actions[1..];
    if i > 0 {
      assert forall j | 0 <= j < i - 1 :: rest[j] == actions[j + 1];
      TapIsFirst(rest, i - 1);
    }
    if IsQuestionAction(actions[0]) { assert ([actions[0]] + Ours(rest))[1..] == Ours(rest); }
  }

  lemma TappedLater(actions: seq<Action>, i: nat)
    requires actions != [] && !Tapped(actions, 0) && Tapped(actions[1..], i)
    ensures Tapped(actions, i + 1)
  {
    assert forall j | 0 < j < i + 1 :: actions[j] == actions[1..][j - 1];
  }

  lemma {:induction false} NoTap(actions: seq<Action>)
    requires forall i: nat :: !Tapped(actions, i)
    ensures FirstTap(Ours(actions)) == None
    decreases |actions|
  {
    hide Ours;
    if actions == [] {
      NothingOurs();
    } else {
      OursFirst(actions);
      assert !Tapped(actions, 0);
      var rest := actions[1..];
      forall i: nat ensures !Tapped(rest, i) {
        if Tapped(rest, i) {
          TappedLater(actions, i);
        }
      }
      NoTap(rest);
      if IsQuestionAction(actions[0]) { assert ([actions[0]] + Ours(rest))[1..] == Ours(rest); }
    }
  }

  /** For one question with one answer, a tap answers exactly when it names one of its options; all else is nothing. */
  lemma TapIff(question: Question, actions: seq<Action>, state: Option<State>, option: nat)
    requires !question.multiSelect
    ensures Decode([question], actions, state) == Answers([[option]]) <==>
              && option < question.options
              && exists i: nat :: Tapped(actions, i) && Names(actions[i].value.value, 0, option)
    ensures var r := Decode([question], actions, state);
            r == Nothing || exists o: nat :: o < question.options && r == Answers([[o]])
  {
    hide ParseValue, Tapped, Names;
    if i: nat :| Tapped(actions, i) {
      TapIsFirst(actions, i);
      TappedHas(actions, i);
      forall o: nat
        ensures ParseValue(actions[i].value.value) == Some((0, o)) <==> Names(actions[i].value.value, 0, o) {
        ParsesIff(actions[i].value.value, 0, o);
      }
      forall j: nat | Tapped(actions, j) ensures j == i {
        TappedOnce(actions, i, j);
      }
      if Answers([[option]]) == Decode([question], actions, state) { SameAnswer(question, actions, state, option); }
    } else {
      NoTap(actions);
    }
  }

  lemma TappedHas(actions: seq<Action>, i: nat)
    requires Tapped(actions, i)
    ensures i < |actions| && actions[i].value.Some?
  {
  }

  lemma TappedOnce(actions: seq<Action>, i: nat, j: nat)
    requires Tapped(actions, i) && Tapped(actions, j)
    ensures i == j
  {
  }

  lemma SameAnswer(question: Question, actions: seq<Action>, state: Option<State>, option: nat)
    requires !question.multiSelect && Decode([question], actions, state) == Answers([[option]])
    ensures var tap := FirstTap(Ours(actions));
            tap.Some? && ParseValue(tap.value) == Some((0, option)) && option < question.options
  {
    hide ParseValue;
    assert [[option]][0] == [option] && [option][0] == option;
  }

  /** A tap on a button answers the one question with that option. */
  lemma TapRoundTrip(question: Question, option: nat, id: string)
    requires !question.multiSelect && option < question.options && PREFIX + ":" <= id
    ensures Decode([question], [Action(id, Some(OptionValue(0, option)), None)], None) == Answers([[option]])
  {
    hide OptionValue, ParseValue, Names;
    ParsesBack(0, option);
    var actions := [Action(id, Some(OptionValue(0, option)), None)];
    assert Tapped(actions, 0);
    TapIff(question, actions, None, option);
  }

  /** What is not ours is nothing. */
  lemma OthersAreNothing(questions: seq<Question>, actions: seq<Action>, state: Option<State>)
    requires forall a | a in actions :: !(PREFIX + ":" <= a.id)
    ensures Decode(questions, actions, state) == Nothing
  {
    OneOfOurs(actions);
  }

  lemma OneOfOurs(actions: seq<Action>)
    ensures Ours(actions) == [] || exists a :: a in actions && IsQuestionAction(a)
  {
    hide Ours, IsQuestionAction;
    OursAre(actions);
    if Ours(actions) != [] { assert Ours(actions)[0] in Ours(actions); }
  }

  /** Of the values of a question, in order, those that name an option it has are its picks; all others are ignored. */
  lemma {:induction false} PicksAreNamed(values: seq<string>, q: nat, options: nat, v: string, more: seq<string>)
    ensures Admitted(values + [v] + more, q, options) ==
              Admitted(values, q, options) + Admitted([v], q, options) + Admitted(more, q, options)
    ensures forall o: nat | o < options && Names(v, q, o) :: Admitted([v], q, options) == [o]
    ensures (forall o: nat | o < options :: !Names(v, q, o)) ==> Admitted([v], q, options) == []
    decreases |values|
  {
    hide ParseValue, Names;
    assert [v][1..] == [];
    forall o: nat ensures ParseValue(v) == Some((q, o)) <==> Names(v, q, o) { ParsesIff(v, q, o); }
    if values == [] {
      assert values + [v] + more == [v] + more && ([v] + more)[1..] == more;
    } else {
      PicksAreNamed(values[1..], q, options, v, more);
      assert (values + [v] + more)[1..] == values[1..] + [v] + more;
    }
  }

  /** Whatever comes in: answers are complete and every pick names an option that exists. */
  lemma AnswersAreReal(questions: seq<Question>, actions: seq<Action>, state: Option<State>)
    requires Decode(questions, actions, state).Answers?
    ensures Possible(questions, Decode(questions, actions, state).picks)
  {
    hide ParseValue, FromState, FromActions;
  }
}
