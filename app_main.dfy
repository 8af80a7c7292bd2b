/**
 * The application entry point: a guarded `init` that runs the setup steps in
 * order, the page-dependent choice of modules, the capped error and rejection
 * logs, and the global keyboard shortcuts.
 */
module App {
  import opened Wrappers
  import opened BoundedLog

  /** `String.prototype.includes`. */
  predicate Includes(s: string, part: string)
    decreases |s|
  {
    part <= s || (|s| > 0 && Includes(s[1..], part))
  }

  /** `Includes` finds `part` at some position of `s`. */
  lemma {:induction false} IncludesAt(s: string, part: string)
    ensures Includes(s, part) <==> exists i :: 0 <= i <= |s| - |part| && part <= s[i..]
    decreases |s|
  {
    if part <= s {
      assert s[0..] == s;
    } else if |s| > 0 {
      IncludesAt(s[1..], part);
      if exists i :: 0 <= i <= |s| - |part| && part <= s[i..] {
        var i :| 0 <= i <= |s| - |part| && part <= s[i..];
        assert i != 0 by { assert s[0..] == s; }
        assert s[1..][i - 1..] == s[i..];
      }
      if Includes(s[1..], part) {
        var i :| 0 <= i <= |s[1..]| - |part| && part <= s[1..][i..];
        assert s[1..][i..] == s[i + 1..];
      }
    }
  }

  datatype AppModule = NavigationModule | QuizModule | ProfilesModule | InternshipsModule

  /** `initializeModules`: the modules initialised for the page at `path`, in order. */
  function ModulesFor(path: string): (r: seq<AppModule>)
    ensures |r| >= 2 && r[0] == NavigationModule && r[|r| - 1] == InternshipsModule
    ensures QuizModule in r <==> Includes(path, "quiz.html")
    ensures ProfilesModule in r <==>
      Includes(path, "science.html") || Includes(path, "math.html") || Includes(path, "tech_eng.html")
    ensures forall i, j :: 0 <= i < j < |r| ==> r[i] != r[j]
  {
    [NavigationModule] +
    (if Includes(path, "quiz.html") then [QuizModule] else []) +
    (if Includes(path, "science.html") || Includes(path, "math.html") || Includes(path, "tech_eng.html")
     then [ProfilesModule] else []) +
    [InternshipsModule]
  }

  /** The steps of `init`, in the order it runs them. */
  datatype InitStep = AnimationStyles | Modules | GlobalListeners | PerformanceMonitoring
                    | AccessibilityFeatures | ErrorHandling

  const InitSteps: seq<InitStep> :=
    [AnimationStyles, Modules, GlobalListeners, PerformanceMonitoring, AccessibilityFeatures, ErrorHandling]

  /** The steps that complete when `failing` is the first step to throw (`None`: none throws). */
  function CompletedSteps(failing: Option<InitStep>): (r: seq<InitStep>)
    ensures r <= InitSteps
    ensures failing.None? <==> r == InitSteps
    ensures failing.Some? ==> failing.value !in r && InitSteps[|r|] == failing.value
  {
    match failing
    case None => InitSteps
    case Some(step) =>
      match step
      case AnimationStyles => []
      case Modules => InitSteps[..1]
      case GlobalListeners => InitSteps[..2]
      case PerformanceMonitoring => InitSteps[..3]
      case AccessibilityFeatures => InitSteps[..4]
      case ErrorHandling => InitSteps[..5]
  }

  datatype KeyAction = ShowHelp | FocusSearch | GoHome

  /** `handleGlobalKeydown`: the actions a key event fires, in order. */
  function GlobalKeyActions(key: string, ctrlKey: bool, altKey: bool): (r: seq<KeyAction>)
    ensures |r| <= 1
    ensures ShowHelp in r <==> key == "F1" || (ctrlKey && key == "/")
    ensures FocusSearch in r <==> ctrlKey && key == "k"
    ensures GoHome in r <==> altKey && key == "h"
  {
    (if key == "F1" || (ctrlKey && key == "/") then [ShowHelp] else []) +
    (if ctrlKey && key == "k" then [FocusSearch] else []) +
    (if altKey && key == "h" then [GoHome] else [])
  }

  /** An `errorLog` record (stack, timestamp and user agent are not modelled). */
  datatype ErrorData = ErrorData(message: string, filename: string, lineno: int, colno: int, url: string)

  /** A `rejectionLog` record (the timestamp is not modelled). */
  datatype RejectionData = RejectionData(reason: Option<string>, url: string)

  const ErrorLogCap: nat := 10

  /** The application object, the stored error logs and the effects of the setup steps. */
  class CareerCompassApp {
    var initialized: bool
    var modules: seq<AppModule>          // the modules whose `init` has run
    var errorHandlersInstalled: bool
    var errorLog: seq<ErrorData>
    var rejectionLog: seq<RejectionData>
    const path: string

    constructor (path: string, errors: seq<ErrorData>, rejections: seq<RejectionData>)
      ensures !initialized && modules == [] && !errorHandlersInstalled
      ensures errorLog == errors && rejectionLog == rejections && this.path == path
    {
      initialized := false;
      modules := [];
      errorHandlersInstalled := false;
      errorLog := errors;
      rejectionLog := rejections;
      this.path := path;
    }

    /**
     * `init`: does nothing once initialised; otherwise runs the steps in order
     * and sets `initialized` only after the last one. `failing` is the first
     * step that throws; the error is caught and reported with an alert.
     */
    method Init(failing: Option<InitStep>) returns (completed: seq<InitStep>, alerted: bool)
      modifies this
      ensures old(initialized) ==>
        completed == [] && !alerted && initialized && modules == old(modules) &&
        errorHandlersInstalled == old(errorHandlersInstalled)
      ensures !old(initialized) ==>
        completed == CompletedSteps(failing) && alerted == failing.Some? && initialized == failing.None? &&
        modules == (if Modules in completed then old(modules) + ModulesFor(path) else old(modules)) &&
        errorHandlersInstalled == (old(errorHandlersInstalled) || ErrorHandling in completed)
      ensures initialized ==> old(initialized) || completed == InitSteps
      ensures errorLog == old(errorLog) && rejectionLog == old(rejectionLog)
    {
      completed, alerted := [], false;
      if initialized {
        return;
      }
      if failing == Some(AnimationStyles) {
        assert completed == InitSteps[..0];
        alerted := true;
        return;
      }
      completed := completed + [AnimationStyles];
      if failing == Some(Modules) {
        assert completed == InitSteps[..1];
        alerted := true;
        return;
      }
      modules := modules + ModulesFor(path);
      completed := completed + [Modules];
      if failing == Some(GlobalListeners) {
        assert completed == InitSteps[..2];
        alerted := true;
        return;
      }
      completed := completed + [GlobalListeners];
      if failing == Some(PerformanceMonitoring) {
        assert completed == InitSteps[..3];
        alerted := true;
        return;
      }
      completed := completed + [PerformanceMonitoring];
      if failing == Some(AccessibilityFeatures) {
        assert completed == InitSteps[..4];
        alerted := true;
        return;
      }
      completed := completed + [AccessibilityFeatures];
      if failing == Some(ErrorHandling) {
        assert completed == InitSteps[..5];
        alerted := true;
        return;
      }
      errorHandlersInstalled := true;
      completed := completed + [ErrorHandling];
      initialized := true;
    }

    /** The window 'error' listener: append the record, keep the newest 10. */
    method OnError(e: ErrorData)
      modifies this
      ensures errorLog == if old(errorHandlersInstalled) then BoundedAppend(old(errorLog), e, ErrorLogCap)
                          else old(errorLog)
      ensures rejectionLog == old(rejectionLog) && initialized == old(initialized)
      ensures modules == old(modules) && errorHandlersInstalled == old(errorHandlersInstalled)
    {
      if errorHandlersInstalled {
        errorLog := errorLog + [e];
        if |errorLog| > ErrorLogCap {
          errorLog := errorLog[|errorLog| - ErrorLogCap..];
        }
      }
    }

    /** The window 'unhandledrejection' listener: append the record, keep the newest 10. */
    method OnUnhandledRejection(r: RejectionData)
      modifies this
      ensures rejectionLog == if old(errorHandlersInstalled) then BoundedAppend(old(rejectionLog), r, ErrorLogCap)
                              else old(rejectionLog)
      ensures errorLog == old(errorLog) && initialized == old(initialized)
      ensures modules == old(modules) && errorHandlersInstalled == old(errorHandlersInstalled)
    {
      if errorHandlersInstalled {
        rejectionLog := rejectionLog + [r];
        if |rejectionLog| > ErrorLogCap {
          rejectionLog := rejectionLog[|rejectionLog| - ErrorLogCap..];
        }
      }
    }
  }
}
