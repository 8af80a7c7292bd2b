/**
 * The career-assessment quiz: nine answer slots are tallied into scores for
 * Science, Technology and Mathematics, a completion percentage gates the
 * result behind a confirmation, and the scores resolve to exactly one field.
 */
module Quiz {
  import opened Wrappers
  import opened Careers

  const TotalQuestions: nat := 9

  /**
   * One question slot as the page shows it: `None` when the element `Q<i>`
   * is missing, otherwise its `selectedIndex` (0 is the placeholder option).
   */
  type Slot = Option<int>

  datatype Scores = Scores(s: nat, t: nat, m: nat)

  function ScoreOf(sc: Scores, f: Field): nat {
    match f
    case S => sc.s
    case T => sc.t
    case M => sc.m
  }

  /** `answerMapping`: option 1 is Mathematics, 2 Science, 3 Technology. */
  function AnswerMapping(index: int): (r: Option<Field>)
    ensures r.Some? <==> 1 <= index <= 3
    ensures r.Some? ==> r.value == [M, S, T][index - 1]
  {
    if index == 1 then Some(M)
    else if index == 2 then Some(S)
    else if index == 3 then Some(T)
    else None
  }

  predicate IsAnswered(slot: Slot) {
    slot.Some? && slot.value > 0
  }

  /** The number of answered slots. */
  function AnsweredCount(slots: seq<Slot>): (n: nat)
    ensures n <= |slots|
  {
    if slots == [] then 0
    else AnsweredCount(slots[..|slots| - 1]) + (if IsAnswered(slots[|slots| - 1]) then 1 else 0)
  }

  /** The number of slots whose selected option is `index`. */
  function Selected(slots: seq<Slot>, index: int): (n: nat)
    ensures n <= |slots|
  {
    if slots == [] then 0
    else Selected(slots[..|slots| - 1], index) + (if slots[|slots| - 1] == Some(index) then 1 else 0)
  }

  /** The tally the quiz computes: one point per slot, to the field its option maps to. */
  function TallyOf(slots: seq<Slot>): Scores {
    Scores(Selected(slots, 2), Selected(slots, 3), Selected(slots, 1))
  }

  /** The answers recorded for analytics: question number to selected option. */
  function AnswersOf(slots: seq<Slot>, upTo: nat): map<nat, int>
    requires upTo <= |slots|
  {
    if upTo == 0 then map[]
    else
      var earlier := AnswersOf(slots, upTo - 1);
      if IsAnswered(slots[upTo - 1]) then earlier[upTo := slots[upTo - 1].value] else earlier
  }

  /** True when some answered slot holds an option beyond the three mapped ones. */
  predicate HasUnmappedAnswer(slots: seq<Slot>) {
    exists i :: 0 <= i < |slots| && IsAnswered(slots[i]) && slots[i].value > 3
  }

  /**
   * Every point goes to an answered slot, so the scores never exceed the
   * number answered; they add up to it exactly when no answered slot holds an
   * option without a field.
   */
  lemma {:induction false} TallyBoundedByAnswered(slots: seq<Slot>)
    ensures var sc := TallyOf(slots); sc.s + sc.t + sc.m <= AnsweredCount(slots)
    ensures var sc := TallyOf(slots);
      sc.s + sc.t + sc.m == AnsweredCount(slots) <==> !HasUnmappedAnswer(slots)
  {
    if slots != [] {
      var init, last := slots[..|slots| - 1], slots[|slots| - 1];
      TallyBoundedByAnswered(init);
      if HasUnmappedAnswer(init) {
        var i :| 0 <= i < |init| && IsAnswered(init[i]) && init[i].value > 3;
        assert slots[i] == init[i];
      }
    }
  }

  /** A slot's contribution: an option in 1..3 adds exactly one point to its field; anything else adds none. */
  lemma SlotContribution(slots: seq<Slot>, slot: Slot)
    ensures var before, after := TallyOf(slots), TallyOf(slots + [slot]);
      match AnswerMapping(if slot.Some? then slot.value else 0)
      case Some(f) =>
        ScoreOf(after, f) == ScoreOf(before, f) + 1 &&
        forall g :: g != f ==> ScoreOf(after, g) == ScoreOf(before, g)
      case None => after == before
    ensures AnsweredCount(slots + [slot]) == AnsweredCount(slots) + (if IsAnswered(slot) then 1 else 0)
  {
    assert (slots + [slot])[..|slots + [slot]| - 1] == slots;
  }

  /**
   * `Math.round(answered / 9 * 100)` in integers: the nearest whole percentage
   * (100 * answered / 9 is never halfway between two integers).
   */
  function CompletionPercentage(answered: nat): (p: nat)
    ensures -9 < 18 * p - 200 * answered <= 9
    ensures answered <= TotalQuestions ==> p <= 100
  {
    (200 * answered + 9) / 18
  }

  /** The confirmation gate (below 70%) is hit exactly when at most six of the nine questions are answered. */
  lemma ConfirmGateAtMostSix(answered: nat)
    ensures CompletionPercentage(answered) < 70 <==> answered <= 6
  {
  }

  /**
   * `determineResult`: a strict maximum wins; two-way ties above the third go
   * Science/Technology to Technology, Science/Mathematics to Science and
   * Technology/Mathematics to Technology; everything else is Technology.
   */
  function DetermineResult(sc: Scores): (r: Field)
    ensures ScoreOf(sc, r) >= sc.s && ScoreOf(sc, r) >= sc.t && ScoreOf(sc, r) >= sc.m
    ensures r == M ==> sc.m > sc.s && sc.m > sc.t
    ensures r == S ==> sc.s > sc.t
  {
    var s, t, m := sc.s, sc.t, sc.m;
    if s > t && s > m then S
    else if m > s && m > t then M
    else if t > s && t > m then T
    else if s == t && s > m then T
    else if s == m && s > t then S
    else if t == m && t > s then T
    else T
  }

  /** True when none of the six comparisons of `determineResult` fires, so its last line decides. */
  predicate ReachesFallback(sc: Scores) {
    var s, t, m := sc.s, sc.t, sc.m;
    !(s > t && s > m) && !(m > s && m > t) && !(t > s && t > m) &&
    !(s == t && s > m) && !(s == m && s > t) && !(t == m && t > s)
  }

  lemma DetermineResultCases(sc: Scores)
    ensures sc.s > sc.t && sc.s > sc.m ==> DetermineResult(sc) == S
    ensures sc.t > sc.s && sc.t > sc.m ==> DetermineResult(sc) == T
    ensures sc.m > sc.s && sc.m > sc.t ==> DetermineResult(sc) == M
    ensures sc.s == sc.t > sc.m ==> DetermineResult(sc) == T
    ensures sc.s == sc.m > sc.t ==> DetermineResult(sc) == S
    ensures sc.t == sc.m > sc.s ==> DetermineResult(sc) == T
    ensures ReachesFallback(sc) <==> sc.s == sc.t == sc.m
    ensures DetermineResult(Scores(0, 0, 0)) == T
  {
  }

  /**
   * An independent statement of the same rule: the result is a field with the
   * highest score, and among the fields sharing it Technology is preferred to
   * Science and Science to Mathematics.
   */
  function PreferredMaximum(sc: Scores): Field {
    if sc.t >= sc.s && sc.t >= sc.m then T
    else if sc.s >= sc.m then S
    else M
  }

  lemma DetermineResultIsPreferredMaximum(sc: Scores)
    ensures DetermineResult(sc) == PreferredMaximum(sc)
  {
  }

  /** What the quiz stores under `lastQuizResult` (the timestamp is not modelled). */
  datatype QuizRecord = QuizRecord(scores: Scores, answers: map<nat, int>, completionPercentage: nat)

  datatype CalculateOutcome =
    | NoAnswers                                  // "Please answer the questions!", nothing stored
    | NotConfirmed(percentage: nat)              // the user declined to continue, nothing stored
    | Completed(stored: QuizRecord, result: Field, target: string)
    | InvalidResult(stored: QuizRecord, result: Field)

  /**
   * `calculate`: tally the nine slots, refuse an empty quiz, ask for
   * confirmation below 70% (`confirms` is what the user would answer), store
   * the record and route to the result's page.
   */
  method Calculate(slots: seq<Slot>, confirms: bool) returns (asked: bool, outcome: CalculateOutcome)
    requires |slots| == TotalQuestions
    ensures var answered := AnsweredCount(slots);
      asked <==> answered > 0 && CompletionPercentage(answered) < 70
    ensures AnsweredCount(slots) == 0 ==> outcome == NoAnswers
    ensures var answered := AnsweredCount(slots); var pct := CompletionPercentage(answered);
      answered > 0 && pct < 70 && !confirms ==> outcome == NotConfirmed(pct)
    ensures var answered := AnsweredCount(slots); var pct := CompletionPercentage(answered);
      answered > 0 && (pct >= 70 || confirms) ==>
        var result := DetermineResult(TallyOf(slots));
        outcome == Completed(QuizRecord(TallyOf(slots), AnswersOf(slots, |slots|), pct),
                             result, CareerPaths[Code(result)])
  {
    var scores := Scores(0, 0, 0);
    var answered := 0;
    var answers: map<nat, int> := map[];
    for i := 0 to TotalQuestions
      invariant scores == TallyOf(slots[..i])
      invariant answered == AnsweredCount(slots[..i])
      invariant answers == AnswersOf(slots, i)
    {
      assert slots[..i + 1] == slots[..i] + [slots[i]];
      assert slots[..i + 1][..i] == slots[..i];
      var slot := slots[i];
      if slot.None? {
        // a missing question element is skipped with a warning
        continue;
      }
      var selectedIndex := slot.value;
      if selectedIndex > 0 {
        answered := answered + 1;
        var field := AnswerMapping(selectedIndex);
        answers := answers[i + 1 := selectedIndex];
        if field.Some? {
          match field.value
          case S => scores := scores.(s := scores.s + 1);
          case T => scores := scores.(t := scores.t + 1);
          case M => scores := scores.(m := scores.m + 1);
        }
      }
    }
    assert slots[..TotalQuestions] == slots;

    asked := false;
    if answered == 0 {
      outcome := NoAnswers;
      return;
    }
    var completionPercentage := CompletionPercentage(answered);
    if completionPercentage < 70 {
      asked := true;
      if !confirms {
        outcome := NotConfirmed(completionPercentage);
        return;
      }
    }
    var stored := QuizRecord(scores, answers, completionPercentage);
    var result := DetermineResult(scores);
    if Code(result) in CareerPaths {
      outcome := Completed(stored, result, CareerPaths[Code(result)]);
    } else {
      outcome := InvalidResult(stored, result);
    }
  }

  /** `updateProgress`: the same rounded percentage, counted over the same slots. */
  method UpdateProgress(slots: seq<Slot>) returns (percentage: nat)
    requires |slots| == TotalQuestions
    ensures percentage == CompletionPercentage(AnsweredCount(slots))
    ensures percentage <= 100
  {
    var answered := 0;
    for i := 0 to TotalQuestions
      invariant answered == AnsweredCount(slots[..i])
    {
      assert slots[..i + 1][..i] == slots[..i];
      if slots[i].Some? && slots[i].value > 0 {
        answered := answered + 1;
      }
    }
    assert slots[..TotalQuestions] == slots;
    percentage := CompletionPercentage(answered);
  }
}
