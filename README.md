# Career Compass — a verified Dafny model

Career Compass is a small static site. Students pick or are quizzed into one of
three career fields: Science (`S`), Technology/Engineering (`T`) or Mathematics
(`M`). The browser scripts then send them to that field's page. There they can
open expert profiles and follow links to internships. The site also keeps a few
bounded analytics logs in local storage.

This project models the decision logic and the state those scripts keep:

- **Quiz** (`quiz.dfy`, `careers.dfy`). The nine-question quiz is tallied into
  S/T/M scores. The model computes the rounded completion percentage, applies
  the confirmation gate below 70 %, picks the winning field with its tie rules,
  and builds the stored quiz record and the target page.
- **Legacy script** (`legacy_script.dfy`). The older global-function page has
  counters that persist across calls. Its `||`-chain result picker disagrees
  with the quiz module's picker, and a lemma shows two scores on which they
  differ. The model also covers the `submit` index routing and the
  `p1`/`p2`/`p3` class toggles.
- **Profiles** (`profiles.dfy`). Expandable expert profiles are a map from
  element id to class and aria state, owned by a `ProfileManager` class. It
  covers:
  - toggling, with at most one profile open;
  - closing the others, or all of them;
  - keyboard wrap-around between profile buttons;
  - the capped profile and e-mail logs;
  - the view statistics with their most-viewed profile.
- **Internships** (`internships.dfy`). The URL and details tables, the text of
  the confirmation modal, and the click/open outcome with its popup-blocked and
  exception fallbacks. Also the capped click and page-view logs and the
  per-type click statistics.
- **Application shell** (`app_main.dfy`). The once-only `init` guard, which
  modules each page path gets, the global keyboard shortcuts, and the capped
  error and rejection logs.
- **Navigation** (`navigation.dfy`). Routing of the career `<select>`, the
  throttled scroll header, the mobile-menu state machine, active-link marking
  and anchor targets.
- **Utilities** (`utils.dfy`). The `throttle` closure modelled as a class with
  its `lastCall` field, and the `isInViewport` test.
- Shared pieces: `bounded_log.dfy` models "push, then splice down to the last N
  entries". `counting.dfy` models "count occurrences into an object inside a
  `forEach`", with JavaScript key insertion order kept as a first-seen
  sequence.

Browser facts become inputs or optional values:

- a missing DOM element is `None`, or an id absent from a map;
- the answers of `confirm`, the result of `window.open` and the current time
  are parameters;
- local storage becomes fields of the owning class, or sequences passed in.

An option index above 3 counts as answered but scores no points: the quiz
counts every positive index (js/quiz.js:51-52) but adds a point only for an
index that `answerMapping` knows (js/quiz.js:53-58). So the three scores need
not add up to the answered count; `Quiz.TallyBoundedByAnswered` states exactly
when they do.

## Model

| member | source | states |
|---|---|---|
| Careers.CareerPathsCoverFields | js/quiz.js:9-13 | every field code has a results page, and the table has exactly the keys S, T, M, so the "invalid result" branch cannot be reached |
| Quiz.AnswerMapping | js/quiz.js:17-21 | exactly the option indices 1, 2 and 3 map to a field, to M, S and T respectively |
| Quiz.TallyBoundedByAnswered | js/quiz.js:41-60 | S+T+M never exceeds the number of answered questions, and equals it exactly when no answered question used an option index other than 1, 2 or 3 |
| Quiz.SlotContribution | js/quiz.js:17-21 | one more question adds exactly 1 to M, S or T for index 1, 2 or 3; it adds nothing for index 0 or a missing element; it counts as answered iff its index is positive |
| Quiz.CompletionPercentage | js/quiz.js:70 | the percentage is answered/9·100 rounded to the nearest integer, halves up (18p − 200a lies in the window from −9 exclusive to 9 inclusive); it never exceeds 100 |
| Quiz.ConfirmGateAtMostSix | js/quiz.js:72-82 | the "only answered X%" confirmation appears iff at most 6 of the 9 questions are answered |
| Quiz.DetermineResult | js/quiz.js:117-141 | the winner's score is at least each other score; M wins only as a strict maximum; S wins only over a lower T |
| Quiz.DetermineResultCases | js/quiz.js:121-140 | a strict maximum wins; the ties S=T>M, S=M>T and T=M>S go to T, S and T; the final fallback is reached iff all three scores are equal; all zero gives T |
| Quiz.DetermineResultIsPreferredMaximum | js/quiz.js:117-141 | the result equals an independent definition: among the fields with the highest score, prefer T, then S, then M |
| Quiz.Calculate | js/quiz.js:34-110 | no answers gives "please answer" with nothing stored; confirmation is asked iff 0 < percentage < 70; declining stores nothing; otherwise the record holds the tally, the answers keyed by question number and the percentage, and the target is the winner's page |
| Quiz.UpdateProgress | js/quiz.js:343-354 | the progress percentage is the completion percentage of the answered count, the same one the quiz uses, and is at most 100 |
| LegacyScript.Resolve | script.js:107-117 | science iff S exceeds either other counter; math iff S exceeds neither and M exceeds one; tech iff S = M ≤ TE with TE > 0; the alert iff all three are zero; otherwise a navigation |
| LegacyScript.ResolveDisagreesWithQuiz | script.js:107-112 | with counters (S,M,TE) = (1,0,5) the legacy page goes to science and with (0,1,5) to math, while the quiz module picks T for both |
| LegacyScript.SubmitTarget | script.js:1-9 | index 0, 1, 2 go to science, tech_eng and math; any other index navigates nowhere |
| LegacyScript.ToggleBothProperties | script.js:11-27 | toggling both classes twice restores them; it keeps "exactly one of expanded/collapsed"; it always flips 'expanded' |
| LegacyScript.LegacyPage.constructor | script.js:30-32 | the three counters start at zero |
| LegacyScript.LegacyPage.Calculate | script.js:34-117 | each counter grows by the tally of the questions read before the first missing element, on top of its old value; the call crashes iff some question is missing, otherwise the decision is `Resolve` of the new counters |
| LegacyScript.LegacyPage.TogglePanel | script.js:11-27 | a missing panel crashes and changes nothing; otherwise only that panel's two classes flip; the counters are untouched |
| Profiles.Expand | js/profiles.js:47-50 | an expanded panel has 'expanded', not 'collapsed', and aria-expanded true |
| Profiles.Collapse | js/profiles.js:70-74 | a collapsed panel has 'collapsed', not 'expanded', and aria-expanded false |
| Profiles.CloseExpanded | js/profiles.js:80-89 | closing over the profile ids keeps the set of existing elements |
| Profiles.ToggledProperties | js/profiles.js:22-41 | the target's expanded state flips and it is settled; every other profile is closed, so at most one is expanded; other panels that were not open are untouched |
| Profiles.CloseAllProperties | js/profiles.js:183-190 | no profile is left expanded; panels that were not expanded are untouched; the closed ones are settled |
| Profiles.NavigateProfiles | js/profiles.js:165-178 | nothing happens iff no button has focus; otherwise the new index is in range, and for a step of ±1 it is (current + step) wrapped modulo the button count |
| Profiles.ExpandedIds | js/profiles.js:275-287 | the expand entries' profile ids are at most as many as the log entries |
| Profiles.ExpandedIdsMembers | js/profiles.js:282-287 | a profile id is listed iff some 'expand' entry of the log names it |
| Profiles.ExpandedIdsCount | js/profiles.js:275 | one id is listed per 'expand' entry, so the views total is the number of log positions whose action is 'expand' |
| Profiles.ExpandedIdsAppend | js/profiles.js:275-287 | the filter commutes with concatenation: the ids of a log are the ids of its first part followed by those of the rest |
| Profiles.ReduceMaxIndex | js/profiles.js:290-294 | the reduce picks a key whose count is maximal, and every key after it in insertion order has a strictly smaller count (ties go to the later key) |
| Profiles.ReduceMax | js/profiles.js:291-293 | the left-to-right reduce loop settles on the key `ReduceMaxIndex` describes: a maximal count, with ties going to the later key |
| Profiles.ReduceMaxIndexOverAllKeys | js/profiles.js:290-294 | because `Object.keys` lists every counted profile, the reduce's winner has a count at least that of every profile in the dictionary |
| Profiles.StatsProperties | js/profiles.js:270-296 | total views equals the number of expand entries and the sum of the per-profile counts, and equals the number of 'expand' positions in the log; there is no most-viewed profile iff there are no views; otherwise it has a maximal count and no later key reaches it |
| Profiles.ProfileManager.ToggleProfile | js/profiles.js:22-41 | a missing id changes nothing; otherwise the others are closed, the target flips, at most one stays expanded, and one profile interaction with the new action is logged under the cap of 50 |
| Profiles.ProfileManager.ExpandProfile | js/profiles.js:47-64 | only the target panel changes, to its expanded form; the logs are untouched |
| Profiles.ProfileManager.CollapseProfile | js/profiles.js:70-74 | only the target panel changes, to its collapsed form; the logs are untouched |
| Profiles.ProfileManager.CloseEach | js/profiles.js:81-88 | the shared forEach over p1..p3 leaves exactly the close-over result for the spared id (or none), as both close functions need; the logs are untouched |
| Profiles.ProfileManager.CloseOtherProfiles | js/profiles.js:80-89 | the panels become the close-over-p1..p3 result sparing the current id; the logs are untouched |
| Profiles.ProfileManager.CloseAllProfiles | js/profiles.js:183-190 | the panels become the close-over-p1..p3 result sparing none; the logs are untouched |
| Profiles.ProfileManager.TrackProfileInteraction | js/profiles.js:218-238 | the profile log gets the new record at the end and keeps only its last 50 entries; nothing else changes |
| Profiles.ProfileManager.TrackEmailClick | js/profiles.js:244-264 | the e-mail log gets the new record at the end and keeps only its last 20 entries; nothing else changes |
| Profiles.ProfileManager.GetProfileStats | js/profiles.js:270-296 | the forEach/reduce computation returns exactly the statistics that `StatsProperties` describes |
| Internships.TablesAgree | js/internships.js:12-53 | urls and details have the same keys, {cuny, metro, microsoft, refugee}, which are also the card types |
| Internships.CardType | js/internships.js:131-135 | card i is bound iff i < 4, and then to the i-th type, which has a URL and details |
| Internships.OptionalLine | js/internships.js:120-121 | an optional modal line is empty iff its value is not truthy |
| Internships.ModalText | js/internships.js:115-125 | the modal text starts with the title and a blank line and ends with the visit question |
| Internships.ModalLocationLine | js/internships.js:120 | the text contains a Location line iff the location is truthy, and then it is the text without the line with "Location: " plus the value plus a newline inserted at one position |
| Internships.ModalDurationLine | js/internships.js:121 | the text contains a Duration line iff the duration is truthy, and then it is the text without the line with "Duration: " plus the value plus a newline inserted at one position |
| Internships.ClickTitle | js/internships.js:236 | a known type is logged with its own title; a type without details is logged under its own name |
| Internships.OpeningMessage | js/internships.js:100 | the success message names the type's title for a known type and says "internship page" for a type without details |
| Internships.ClickTypes | js/internships.js:302-305 | the i-th key counted is the i-th click's internship type |
| Internships.StatsAddUp | js/internships.js:292-305 | the per-type counts sum to the number of clicks, and every clicked type has a count |
| Internships.InternshipNavigator.NavigateToInternship | js/internships.js:67-107 | a type the urls table does not own shows no modal, logs nothing and opens nothing; a declined modal logs nothing; a confirmed one logs the click, under the cap, before the open, and the outcome follows the open result (new tab with its message, popup blocked, or same-tab fallback) at the type's URL |
| Internships.InternshipNavigator.TrackInternshipClick | js/internships.js:232-263 | the click log gets the record with the type's title, or the type itself, at the end and keeps only its last 100 entries |
| Internships.InternshipNavigator.SetupAnalytics | js/internships.js:268-286 | the page-view log gets this page at the end and keeps only its last 50 entries |
| Internships.InternshipNavigator.GetInternshipStats | js/internships.js:292-305 | the total is the log length, the per-type counts are the occurrence counts in insertion order, and they add up to the total |
| BoundedLog.BoundedAppend | js/profiles.js:227-235 | push-then-splice keeps min(length+1, cap) entries; the new entry is last; the survivors are the newest entries in their original order |
| BoundedLog.BoundedAppendEvictsOldest | js/internships.js:244-252 | below the cap the log just grows by the new entry; at the cap the oldest entry is dropped |
| BoundedLog.AppendAllKeepsNewest | js/main.js:257-265 | any run of capped appends to a log within its cap leaves exactly the last cap entries of everything appended |
| BoundedLog.LastNOfLastN | js/main.js:278-286 | trimming to the last N entries early and again later gives the same log as trimming once at the end |
| Counting.TallyKeys | js/internships.js:302-305 | the counting forEach yields each key's number of occurrences, with the keys in first-seen order |
| Counting.FirstSeenInFirstOccurrenceOrder | js/profiles.js:282-291 | the keys are listed in the order of their first occurrence, the insertion order that `Object.keys` reports and the reduce walks |
| Counting.SumCountsOfFirstSeen | js/profiles.js:282-287 | the counts over the distinct keys add up to the number of entries counted |
| App.IncludesAt | js/main.js:75-81 | the substring test `includes` holds iff the part occurs at some position of the path |
| App.ModulesFor | js/main.js:68-89 | Navigation comes first and Internships last; Quiz iff the path contains quiz.html; Profiles iff it contains science.html, math.html or tech_eng.html; no module twice |
| App.CompletedSteps | js/main.js:31-52 | the setup steps completed are a prefix of the fixed order; all of them run iff none throws; a throwing step and those after it do not complete |
| App.GlobalKeyActions | js/main.js:293-311 | help iff F1 or Ctrl+'/', search iff Ctrl+'k', home iff Alt+'h', and at most one action per key event |
| App.CareerCompassApp.constructor | js/main.js:13-23 | a new application is not initialized, has run no module and has no error handlers yet; the stored logs are those given |
| App.CareerCompassApp.Init | js/main.js:28-63 | a second call does nothing; a first call runs the steps in order, becomes initialized iff no step throws and alerts otherwise; it adds the page's modules iff the module step completes and installs the error handlers iff that step completes; the logs are untouched |
| App.CareerCompassApp.OnError | js/main.js:242-266 | with the handlers installed an error is appended to the error log under the cap of 10; nothing else changes |
| App.CareerCompassApp.OnUnhandledRejection | js/main.js:268-287 | with the handlers installed a rejection is appended to its log under the cap of 10; nothing else changes |
| Navigation.SubmitCareerSelection | js/navigation.js:28-58 | a missing select gives an error, an empty value a warning, a non-empty value the table does not own an invalid-selection error; a value in the table stores the field and navigates to its page |
| Navigation.SubmitRoutes | js/navigation.js:9-13 | S, T and M route to pages/science.html, pages/tech_eng.html and pages/math.html |
| Navigation.ScrollHeader.constructor | js/navigation.js:63-75 | a new header has its given scroll class and a fresh 100 ms throttle with lastCall 0 and no runs |
| Navigation.ScrollHeader.OnScroll | js/navigation.js:63-76 | a scroll event is handled iff 100 ms have passed since the last handled one; a handled event sets the throttle's lastCall to its time and records the run, and the header then has 'scroll' iff scrollY > 100; an unhandled event changes nothing |
| Navigation.MobileMenu.ToggleClicked | js/navigation.js:87-91 | a toggle click flips 'active' and aria-expanded mirrors it |
| Navigation.MobileMenu.DocumentClicked | js/navigation.js:94-99 | a click outside both the toggle and the list closes the menu; a click inside changes nothing |
| Navigation.MobileMenu.KeyDown | js/navigation.js:102-108 | Escape closes the menu and moves focus to the toggle iff the menu was open; any other case changes nothing |
| Navigation.ActiveLinkCases | js/navigation.js:119-120 | off the root path a link is active iff its href is the path; on '/' iff its href is '/' or '#home' |
| Navigation.SetupActiveNavigation | js/navigation.js:114-124 | each link ends up active iff it was already active or it matches the current path |
| Navigation.AnchorTarget | js/navigation.js:143-153 | an anchor scrolls to its own href unless the href is the bare '#' |
| Utils.Throttle.constructor | js/utils.js:102-103 | a new throttle has lastCall 0 and no runs |
| Utils.Throttle.Call | js/utils.js:102-111 | a call runs iff now − lastCall ≥ delay; a run sets lastCall to now, otherwise it is unchanged; for a non-negative delay, runs that happened are pairwise at least delay apart |
| Utils.InViewportIsContainment | js/utils.js:118-126 | the element is in the viewport iff its rectangle lies inside (0, 0, height, width), where a zero innerHeight or innerWidth falls back to the client extent; anything inside a visible rectangle is visible |

## Left out

- Rendering and styling are view code with no decision in them: `showResultsAnimation`, `highlightUnansweredQuestions`, tooltips and previews, skip links, `addAnimationStyles` and the markup of `showAlert`.
- The score bars in the results overlay are left out: their widths are float divisions used only for display (js/quiz.js:170-184).
- Timers are left out because they depend on the event loop: the 2-second delay before navigating, the 1-second popup fallback, the 300/100 ms focus and scroll timers in `expandProfile`, `debounce`, the memory monitor and the welcome message. The model records the decision taken before each timer.
- Local storage and JSON are modelled as class fields, or as sequences handed to constructors. A corrupt or missing stored value read as an empty list is not modelled.
- `window.open`, `confirm` and the clock are parameters. `alert`, `location.href` and `navigateTo` are recorded as outcomes.
- Foreign calls are left out: `gtag`, the `performance` and `navigator` APIs, and console logging.
- Timestamps, `userAgent`, `referrer`, the error `stack` and `timestamp` fields are dropped from the logged records: they come from the clock or the browser.
- The hour and day buckets of `getInternshipStats` (js/internships.js:307-313) are left out: they depend on date parsing and the local time zone.
- `scrollTo`, `scrollIntoView`, `scrollToSection`, `history.pushState` and the popstate handler are left out as browser side effects. `AnchorTarget` models only which target a click picks.
- Event-listener wiring is left out as DOM plumbing: `setupProfileInteractions`, `setupKeyboardNavigation`, `setupAccessibility`, the card hover handlers, and the `mailto:` prefix stripping before `trackEmailClick`.
- `App.CareerCompassApp.Init`: the `await` inside `init` is treated as sequential. A throw part-way through `initializeModules` is treated as the whole step failing.
- `LegacyScript.LegacyPage.Calculate`: the nine unrolled `if` blocks (script.js:35-105) are one loop over the questions. A missing question element stops the call, as the TypeError would.
- The legacy `submit` (script.js:1-9) crashing when the `career` element is missing is not modelled. `SubmitTarget` takes the selected index.
- The four legacy internship link functions (script.js:121-134) only assign fixed URLs and are left out.
- `Profiles.NavigateProfiles`: the contract states the wrap-around modulo the button count only for steps of +1 and −1, the only directions the keyboard handler passes.
- Page coordinates and `scrollY` are integers here, while the browser uses floating point.
- Table lookups (`CAREER_PATHS[value]` at js/navigation.js:44, `this.urls[type]` and `this.details[type]` at js/internships.js:68-69) are modelled as own-key lookups: names inherited from `Object.prototype`, such as `constructor` or `toString`, count as absent, although in JavaScript they find a truthy value.
- JavaScript lists object keys that look like integers in numeric order. The model assumes insertion order, which holds for the string ids and type names used as keys here.
