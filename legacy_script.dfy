/**
 * The older, global-scope implementation of the site (`script.js`): counters
 * that live for the whole page and are never reset, a resolution chain built
 * from `||`, the career selector routed by option index, and the three
 * profile panels toggled by class.
 */
module LegacyScript {
  import opened Wrappers
  import Quiz
  import Careers

  datatype Decision =
    | Navigate(href: string)
    | AlertNoAnswers   // "Please answer the questions!"
    | Crashed          // `getElementById("Q<i>")` returned null: a TypeError ends the handler

  /**
   * The resolution chain of `calculate`, on the counters (S, M, TE).
   * The comparisons use `||`, so a counter wins as soon as it beats either other one.
   */
  function Resolve(s: nat, m: nat, te: nat): (d: Decision)
    ensures d == Navigate("science.html") <==> s > m || s > te
    ensures d == Navigate("math.html") <==> !(s > m || s > te) && (m > s || m > te)
    ensures d == Navigate("tech_eng.html") <==> s == m <= te && te > 0
    ensures d == AlertNoAnswers <==> s == 0 && m == 0 && te == 0
    ensures d.Navigate? || d == AlertNoAnswers
  {
    if s > m || s > te then Navigate("science.html")
    else if m > s || m > te then Navigate("math.html")
    else if te > s || te > m then Navigate("tech_eng.html")
    else if s == 0 && m == 0 && te == 0 then AlertNoAnswers
    else Navigate("tech_eng.html")
  }

  /**
   * The legacy chain and `determineResult` disagree: Science beats a larger
   * Technology score, and Mathematics can too.
   */
  lemma ResolveDisagreesWithQuiz()
    ensures Resolve(1, 0, 5) == Navigate("science.html")
    ensures Quiz.DetermineResult(Quiz.Scores(1, 5, 0)) == Careers.T
    ensures Resolve(0, 1, 5) == Navigate("math.html")
    ensures Quiz.DetermineResult(Quiz.Scores(0, 5, 1)) == Careers.T
  {
  }

  /** The slots read before the first missing question element. */
  function PresentPrefix(questions: seq<Quiz.Slot>): (p: seq<Quiz.Slot>)
    ensures |p| <= |questions| && p == questions[..|p|]
    ensures forall i :: 0 <= i < |p| ==> p[i].Some?
    ensures |p| < |questions| ==> questions[|p|].None?
  {
    if questions == [] || questions[0].None? then []
    else [questions[0]] + PresentPrefix(questions[1..])
  }

  /** `submit`: the selector's option index routes to a page; any other index does nothing. */
  function SubmitTarget(selectedIndex: int): (r: Option<string>)
    ensures r.Some? <==> 0 <= selectedIndex <= 2
    ensures selectedIndex == 0 ==> r == Some("science.html")
    ensures selectedIndex == 1 ==> r == Some("tech_eng.html")
    ensures selectedIndex == 2 ==> r == Some("math.html")
  {
    if selectedIndex == 0 then Some("science.html")
    else if selectedIndex == 1 then Some("tech_eng.html")
    else if selectedIndex == 2 then Some("math.html")
    else None
  }

  /** The two classes `p1`/`p2`/`p3` flip on a profile panel. */
  datatype ClassList = ClassList(expanded: bool, collapsed: bool)

  function ToggleBoth(c: ClassList): ClassList {
    ClassList(!c.expanded, !c.collapsed)
  }

  /** Toggling twice restores the panel, and a panel with exactly one of the two classes keeps exactly one. */
  lemma ToggleBothProperties(c: ClassList)
    ensures ToggleBoth(ToggleBoth(c)) == c
    ensures (c.expanded != c.collapsed) == (ToggleBoth(c).expanded != ToggleBoth(c).collapsed)
    ensures ToggleBoth(c).expanded != c.expanded
  {
  }

  const PanelIds: set<string> := {"p1", "p2", "p3"}

  /** The page's global state: the three counters and the profile panels present, by id. */
  class LegacyPage {
    var sCntr: nat
    var teCntr: nat
    var mCntr: nat
    var panels: map<string, ClassList>

    /** Loading the script: `var S_cntr = 0; var TE_cntr = 0; var M_cntr = 0;`. */
    constructor (panels: map<string, ClassList>)
      ensures sCntr == 0 && teCntr == 0 && mCntr == 0
      ensures this.panels == panels
    {
      sCntr, teCntr, mCntr := 0, 0, 0;
      this.panels := panels;
    }

    /**
     * `calculate`: the nine question blocks add 1 to M, S or TE for options
     * 1, 2 and 3, on top of whatever earlier calls left there; then the chain
     * decides. A missing question element stops the handler after the blocks
     * before it have counted.
     */
    method Calculate(questions: seq<Quiz.Slot>) returns (d: Decision)
      requires |questions| == Quiz.TotalQuestions
      modifies this
      ensures var added := Quiz.TallyOf(PresentPrefix(questions));
        sCntr == old(sCntr) + added.s && teCntr == old(teCntr) + added.t && mCntr == old(mCntr) + added.m
      ensures panels == old(panels)
      ensures d == if |PresentPrefix(questions)| < |questions| then Crashed else Resolve(sCntr, mCntr, teCntr)
    {
      ghost var prefix := PresentPrefix(questions);
      var i := 0;
      while i < |questions|
        invariant 0 <= i <= |prefix|
        invariant prefix[..i] == questions[..i]
        invariant var added := Quiz.TallyOf(prefix[..i]);
          sCntr == old(sCntr) + added.s && teCntr == old(teCntr) + added.t && mCntr == old(mCntr) + added.m
        invariant panels == old(panels)
      {
        if questions[i].None? {
          d := Crashed;
          return;
        }
        assert prefix[..i + 1] == prefix[..i] + [questions[i]];
        Quiz.SlotContribution(prefix[..i], questions[i]);
        var selectedIndex := questions[i].value;
        if selectedIndex == 1 {
          mCntr := mCntr + 1;
        } else if selectedIndex == 2 {
          sCntr := sCntr + 1;
        } else if selectedIndex == 3 {
          teCntr := teCntr + 1;
        }
        i := i + 1;
      }
      assert prefix[..i] == prefix;
      d := Resolve(sCntr, mCntr, teCntr);
    }

    /** `p1()`, `p2()`, `p3()`: flip both classes of that panel, or fail when it is missing. */
    method TogglePanel(id: string) returns (crashed: bool)
      requires id in PanelIds
      modifies this
      ensures crashed <==> id !in old(panels)
      ensures panels == if crashed then old(panels) else old(panels)[id := ToggleBoth(old(panels)[id])]
      ensures sCntr == old(sCntr) && teCntr == old(teCntr) && mCntr == old(mCntr)
    {
      if id !in panels {
        return true;
      }
      panels := panels[id := ToggleBoth(panels[id])];
      return false;
    }
  }
}
