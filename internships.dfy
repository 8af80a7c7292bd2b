/**
 * The internship list: a table of links and details per internship type, a
 * confirmation modal composed from the details, the decision flow of opening a
 * link, capped click and page-view logs, and click counts per type.
 */
module Internships {
  import opened Wrappers
  import opened BoundedLog
  import opened Counting

  /** An entry of `details`; `location`, `duration` and `eligibility` are optional. */
  datatype Details = Details(
    title: string, organization: string, kind: string,
    location: Option<string>, duration: Option<string>, eligibility: Option<string>,
    description: string)

  const Urls: map<string, string> := map[
    "cuny" := "https://www.cuny.edu/about/administration/offices/ocip/students/careerlaunch/",
    "metro" := "https://www.linkedin.com/jobs/view/3894464535/",
    "microsoft" := "https://www.linkedin.com/jobs/view/3910635594/",
    "refugee" := "https://www.google.com/search?q=asylum+seeker+internship"]

  const DetailsTable: map<string, Details> := map[
    "cuny" := Details("CUNY Career Launch Program Summer 2024", "City University of New York",
      "Career Development Program", None, Some("Summer 2024"), Some("CUNY Students"),
      "Comprehensive career development program for CUNY students"),
    "metro" := Details("MetroPlusHealth Summer Internship: Telecommunications", "MetroPlusHealth",
      "Technical Internship", Some("New York"), Some("Summer 2024"), None,
      "Hands-on telecommunications experience in healthcare technology"),
    "microsoft" := Details("Research Intern", "Microsoft", "Research Internship", None, Some("Variable"), None,
      "Research opportunities in cutting-edge technology at Microsoft"),
    "refugee" := Details("Refugee Resettlement Intern - Summer 2024", "Various NGOs",
      "Social Impact Internship", None, Some("Summer 2024"), None,
      "Support refugees and asylum seekers in their resettlement journey")]

  /** The types of the internship cards, by card index. */
  const CardTypes: seq<string> := ["cuny", "metro", "microsoft", "refugee"]

  /** Both tables describe the same four internship types. */
  lemma TablesAgree()
    ensures Urls.Keys == DetailsTable.Keys
    ensures Urls.Keys == {"cuny", "metro", "microsoft", "refugee"}
    ensures forall t :: t in CardTypes <==> t in Urls
  {
  }

  /** `setupInternshipCards`: card `index` is bound to `types[index]`; cards past the fourth are skipped. */
  function CardType(index: nat): (r: Option<string>)
    ensures r.Some? <==> index < |CardTypes|
    ensures r.Some? ==> r.value == CardTypes[index] && r.value in Urls && r.value in DetailsTable
  {
    if index < |CardTypes| then Some(CardTypes[index]) else None
  }

  /** A template-literal condition: a set and non-empty string. */
  predicate Truthy(v: Option<string>) {
    v.Some? && v.value != ""
  }

  /** `${v ? `<name>: ${v}\n` : ''}`. */
  function OptionalLine(name: string, v: Option<string>): (line: string)
    ensures line == "" <==> !Truthy(v)
  {
    if Truthy(v) then name + ": " + v.value + "\n" else ""
  }

  const ModalQuestion: string := "Would you like to visit this opportunity?"

  /** The text `showInternshipModal` passes to `confirm`. */
  function ModalText(d: Details): (text: string)
    ensures |text| > |d.title| + 2 + |ModalQuestion|
    ensures text[..|d.title| + 2] == d.title + "\n\n"
    ensures text[|text| - |ModalQuestion|..] == ModalQuestion
  {
    d.title + "\n\n" +
    "Organization: " + d.organization + "\n" +
    "Type: " + d.kind + "\n" +
    OptionalLine("Location", d.location) +
    OptionalLine("Duration", d.duration) +
    "\n" + d.description + "\n\n" +
    ModalQuestion
  }

  /** The fixed lines before the optional ones: title, blank line, organization and type. */
  function ModalHead(d: Details): string {
    d.title + "\n\n" + "Organization: " + d.organization + "\n" + "Type: " + d.kind + "\n"
  }

  /** The fixed lines after the optional ones: blank line, description, blank line and the question. */
  function ModalTail(d: Details): string {
    "\n" + d.description + "\n\n" + ModalQuestion
  }

  lemma ModalTextSplit(d: Details)
    ensures ModalText(d) ==
      ModalHead(d) + OptionalLine("Location", d.location) + OptionalLine("Duration", d.duration) + ModalTail(d)
  {
  }

  /** `l` sits between `h` and `a + t`; dropping it leaves the same text around it. */
  lemma InsertedBefore(h: string, l: string, a: string, t: string)
    ensures var e := h + "" + a + t;
      exists k :: 0 <= k <= |e| && h + l + a + t == e[..k] + l + e[k..]
  {
    var e := h + "" + a + t;
    assert e[..|h|] == h && e[|h|..] == a + t;
  }

  /** `l` sits between `h` and `t`; dropping it leaves the same text around it. */
  lemma InsertedBetween(h: string, l: string, t: string)
    ensures var e := h + "" + t;
      exists k :: 0 <= k <= |e| && h + l + t == e[..k] + l + e[k..]
  {
    var e := h + "" + t;
    assert e[..|h|] == h && e[|h|..] == t;
  }

  /**
   * The modal has a Location line exactly when a location is set, and it is
   * the text without it with "Location: <value>" and a newline inserted.
   */
  lemma ModalLocationLine(d: Details)
    ensures Truthy(d.location) <==> ModalText(d) != ModalText(d.(location := None))
    ensures Truthy(d.location) ==>
      |ModalText(d)| == |ModalText(d.(location := None))| + |"Location: "| + |d.location.value| + 1
    ensures Truthy(d.location) ==>
      var e := ModalText(d.(location := None));
      exists k :: 0 <= k <= |e| && ModalText(d) == e[..k] + ("Location: " + d.location.value + "\n") + e[k..]
  {
    var e := d.(location := None);
    ModalTextSplit(d);
    ModalTextSplit(e);
    assert OptionalLine("Location", e.location) == "";
    if !Truthy(d.location) {
      assert OptionalLine("Location", d.location) == "";
    } else {
      assert OptionalLine("Location", d.location) == "Location: " + d.location.value + "\n";
      assert ModalHead(e) == ModalHead(d) && ModalTail(e) == ModalTail(d);
      InsertedBefore(ModalHead(d), OptionalLine("Location", d.location),
                     OptionalLine("Duration", d.duration), ModalTail(d));
    }
  }

  /**
   * The modal has a Duration line exactly when a duration is set, and it is
   * the text without it with "Duration: <value>" and a newline inserted.
   */
  lemma ModalDurationLine(d: Details)
    ensures Truthy(d.duration) <==> ModalText(d) != ModalText(d.(duration := None))
    ensures Truthy(d.duration) ==>
      |ModalText(d)| == |ModalText(d.(duration := None))| + |"Duration: "| + |d.duration.value| + 1
    ensures Truthy(d.duration) ==>
      var e := ModalText(d.(duration := None));
      exists k :: 0 <= k <= |e| && ModalText(d) == e[..k] + ("Duration: " + d.duration.value + "\n") + e[k..]
  {
    var e := d.(duration := None);
    ModalTextSplit(d);
    ModalTextSplit(e);
    assert OptionalLine("Duration", e.duration) == "";
    if !Truthy(d.duration) {
      assert OptionalLine("Duration", d.duration) == "";
    } else {
      assert OptionalLine("Duration", d.duration) == "Duration: " + d.duration.value + "\n";
      assert ModalHead(e) == ModalHead(d) && ModalTail(e) == ModalTail(d);
      InsertedBetween(ModalHead(d) + OptionalLine("Location", d.location),
                      OptionalLine("Duration", d.duration), ModalTail(d));
    }
  }

  /** What `window.open` did: returned a window, returned null (popup blocked), or threw. */
  datatype OpenResult = Opened | Blocked | Threw

  datatype NavigateOutcome =
    | UnknownType                                // "Internship link not found", nothing tracked or opened
    | Declined                                   // the modal was declined, nothing tracked or opened
    | OpenedNewTab(url: string, message: string) // success alert
    | PopupBlocked(url: string)                  // warning alert, then same-tab navigation after a delay
    | OpenFailed(url: string)                    // same-tab navigation

  /** An `internshipInteractions` record (timestamp, user agent and referrer are not modelled). */
  datatype InternshipClick = InternshipClick(internshipType: string, internshipTitle: string, page: string)

  /** A `pageViews` record (timestamp and user agent are not modelled). */
  datatype PageView = PageView(page: string)

  const ClickLogCap: nat := 100
  const PageViewCap: nat := 50

  /** `this.details[type]?.title || type`. */
  function ClickTitle(kind: string): (title: string)
    ensures kind in Urls ==> title == DetailsTable[kind].title
    ensures kind !in DetailsTable ==> title == kind
  {
    if kind in DetailsTable && DetailsTable[kind].title != "" then DetailsTable[kind].title else kind
  }

  /** `details?.title || 'internship page'`. */
  function OpeningMessage(kind: string): (msg: string)
    ensures kind in Urls ==> msg == "Opening " + DetailsTable[kind].title + "..."
    ensures kind !in DetailsTable ==> msg == "Opening internship page..."
  {
    "Opening " + (if kind in DetailsTable && DetailsTable[kind].title != ""
                  then DetailsTable[kind].title else "internship page") + "..."
  }

  /** The internship types of the logged clicks, oldest first. */
  function ClickTypes(log: seq<InternshipClick>): (types: seq<string>)
    ensures |types| == |log|
    ensures forall i :: 0 <= i < |log| ==> types[i] == log[i].internshipType
  {
    if log == [] then [] else ClickTypes(log[..|log| - 1]) + [log[|log| - 1].internshipType]
  }

  datatype InternshipStats = InternshipStats(
    totalClicks: nat,
    clicksByType: map<string, nat>,
    typeOrder: seq<string>)   // the order of `Object.keys(clicksByType)`

  /** The click counts add up to the total and every type logged has its own count. */
  lemma {:induction false} StatsAddUp(log: seq<InternshipClick>)
    ensures SumCounts(FirstSeen(ClickTypes(log)), ClickTypes(log)) == |log|
    ensures forall i :: 0 <= i < |log| ==> log[i].internshipType in CountMap(ClickTypes(log))
  {
    SumCountsOfFirstSeen(ClickTypes(log));
    forall i | 0 <= i < |log| ensures log[i].internshipType in CountMap(ClickTypes(log)) {
      assert ClickTypes(log)[i] == log[i].internshipType;
    }
  }

  /** The internship page: the two stored logs and the page's path. */
  class InternshipNavigator {
    var internshipInteractions: seq<InternshipClick>
    var pageViews: seq<PageView>
    const page: string

    constructor (clicks: seq<InternshipClick>, views: seq<PageView>, page: string)
      ensures internshipInteractions == clicks && pageViews == views && this.page == page
    {
      internshipInteractions := clicks;
      pageViews := views;
      this.page := page;
    }

    /**
     * `navigateToInternship`: an unknown type stops with an error; otherwise
     * the modal is shown and, if accepted, the click is logged before the link
     * is opened. `confirms` answers the modal, `open` is what `window.open` does.
     */
    method NavigateToInternship(kind: string, confirms: bool, open: OpenResult)
      returns (modal: Option<string>, outcome: NavigateOutcome)
      modifies this
      ensures kind !in Urls ==> outcome == UnknownType && modal == None
      ensures kind in Urls ==> modal == Some(ModalText(DetailsTable[kind]))
      ensures kind in Urls && !confirms ==> outcome == Declined
      ensures kind in Urls && confirms ==>
        internshipInteractions == BoundedAppend(old(internshipInteractions),
          InternshipClick(kind, ClickTitle(kind), page), ClickLogCap) &&
        outcome == match open
          case Opened => OpenedNewTab(Urls[kind], OpeningMessage(kind))
          case Blocked => PopupBlocked(Urls[kind])
          case Threw => OpenFailed(Urls[kind])
      ensures !(kind in Urls && confirms) ==> internshipInteractions == old(internshipInteractions)
      ensures pageViews == old(pageViews)
    {
      modal := None;
      if kind !in Urls {
        outcome := UnknownType;
        return;
      }
      var url := Urls[kind];
      if kind in DetailsTable {
        modal := Some(ModalText(DetailsTable[kind]));
        if !confirms {
          outcome := Declined;
          return;
        }
      }
      TrackInternshipClick(kind);
      match open
      case Opened => outcome := OpenedNewTab(url, OpeningMessage(kind));
      case Blocked => outcome := PopupBlocked(url);
      case Threw => outcome := OpenFailed(url);
    }

    /** `trackInternshipClick`: append the record, keep the newest 100. */
    method TrackInternshipClick(kind: string)
      modifies this
      ensures internshipInteractions == BoundedAppend(old(internshipInteractions),
        InternshipClick(kind, ClickTitle(kind), page), ClickLogCap)
      ensures pageViews == old(pageViews)
    {
      internshipInteractions := internshipInteractions + [InternshipClick(kind, ClickTitle(kind), page)];
      if |internshipInteractions| > ClickLogCap {
        internshipInteractions := internshipInteractions[|internshipInteractions| - ClickLogCap..];
      }
    }

    /** `setupAnalytics`: append a page view, keep the newest 50. */
    method SetupAnalytics()
      modifies this
      ensures pageViews == BoundedAppend(old(pageViews), PageView(page), PageViewCap)
      ensures internshipInteractions == old(internshipInteractions)
    {
      pageViews := pageViews + [PageView(page)];
      if |pageViews| > PageViewCap {
        pageViews := pageViews[|pageViews| - PageViewCap..];
      }
    }

    /** `getInternshipStats`, the total and the counts by type. */
    method GetInternshipStats() returns (stats: InternshipStats)
      ensures stats.totalClicks == |internshipInteractions|
      ensures stats.clicksByType == CountMap(ClickTypes(internshipInteractions))
      ensures stats.typeOrder == FirstSeen(ClickTypes(internshipInteractions))
      ensures SumCounts(stats.typeOrder, ClickTypes(internshipInteractions)) == stats.totalClicks
    {
      var counts, order := TallyKeys(ClickTypes(internshipInteractions));
      StatsAddUp(internshipInteractions);
      stats := InternshipStats(|internshipInteractions|, counts, order);
    }
  }
}
