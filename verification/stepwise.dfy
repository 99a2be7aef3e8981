/** The stepwise test hook of the Electron client: it starts a test, then
    repeatedly screenshots the game, submits the step for the current class
    id, records the step result and clicks where the detection says, until
    the server reports completion.

    React state is the fields of `StepwiseTest`. The callbacks close over the
    `history` of the render that created them; within one `Run` that is the
    history before the run started, which the model passes on as `seen`.
    Screenshots, the server's replies, clicks and cancellation come from
    outside and enter as parameters; clicks and posted requests are logged in
    `clicks` and `sent`. */
module Stepwise {
  import opened Wrappers
  import opened Text
  import Api
  import BaseService

  /** A click point; the detection service computes it as a box mean, so
      it is real-valued. */
  datatype Coords = Coords(x: real, y: real)

  /** A `step_result`; `detection` holds its `click_x`/`click_y`. */
  datatype StepResult = StepResult(classId: int, passed: bool, detection: Option<Coords>)

  datatype NextStep = NextStep(classId: Option<int>, coordinates: Option<Coords>)

  datatype FinalResult = FinalResult(status: string)

  /** The reply to one `/run-test-step` request. */
  datatype StepResponse = StepResponse(stepResult: StepResult, nextStep: Option<NextStep>, status: string,
                                       finalResult: Option<FinalResult>)

  /** The fields of the `/run-test` reply the hook reads. */
  datatype StartResponse = StartResponse(testId: Option<string>, nextStep: Option<NextStep>)

  datatype Click = Click(classId: int, at: Coords)

  /** How a run ended: with the completion reply, by cancellation, with an
      error, or still waiting for the server's next reply. */
  datatype Outcome =
    | Completed(testId: string, finalResult: Option<FinalResult>, history: seq<StepResult>)
    | Cancelled
    | Raised(message: string)
    | Waiting

  const NotStarted := "Test has not been started"
  const NoScreenshotApi := "Window API for screenshot not available"
  const NoFirstClass := "Backend did not provide next class_id"
  const FlowTerminated := "Flow terminated unexpectedly without completion"
  const CancelledMessage := "Test was cancelled"

  /** `!testIdRef.current` is false: a test id is set and non-empty. */
  predicate Started(testId: Option<string>)
  {
    testId.Some? && testId.value != []
  }

  /** `history.find(h => h.class_id === classId)` finds an entry. */
  predicate Executed(history: seq<StepResult>, classId: int)
  {
    exists k :: 0 <= k < |history| && history[k].classId == classId
  }

  function DataUri(base64: string): string
  {
    "data:image/png;base64," + base64
  }

  /** `action_result.clicked`: the `passed` flag of the last entry of the
      history the callback sees, or false when it is empty. */
  function Clicked(seen: seq<StepResult>): (c: bool)
    ensures seen == [] ==> !c
    ensures seen != [] ==> (c <==> seen[|seen| - 1].passed)
  {
    seen != [] && seen[|seen| - 1].passed
  }

  /** `next_step?.class_id ?? null`. */
  function NextClassOf(next: Option<NextStep>): (c: Option<int>)
    ensures next.None? ==> c.None?
    ensures next.Some? ==> c == next.value.classId
  {
    if next.Some? then next.value.classId else None
  }

  /** The click coordinates of a step: a manual override for the class
      first, then the reply's `next_step.coordinates`, then the detection. */
  function CoordsFor(overrides: map<int, Coords>, classId: int, resp: StepResponse): (c: Option<Coords>)
    ensures classId in overrides ==> c == Some(overrides[classId])
    ensures classId !in overrides && resp.nextStep.Some? && resp.nextStep.value.coordinates.Some? ==>
      c == resp.nextStep.value.coordinates
    ensures classId !in overrides && (resp.nextStep.None? || resp.nextStep.value.coordinates.None?) ==>
      c == resp.stepResult.detection
  {
    if classId in overrides then Some(overrides[classId])
    else if resp.nextStep.Some? && resp.nextStep.value.coordinates.Some? then resp.nextStep.value.coordinates
    else resp.stepResult.detection
  }

  /** The click a step issues: only when it passed, coordinates exist and the
      window exposes `performClick`. */
  function ClickOf(overrides: map<int, Coords>, classId: int, resp: StepResponse, canClick: bool): (cs: seq<Click>)
    ensures |cs| <= 1
    ensures cs != [] <==> resp.stepResult.passed && canClick && CoordsFor(overrides, classId, resp).Some?
    ensures cs != [] ==> cs[0] == Click(classId, CoordsFor(overrides, classId, resp).value)
  {
    var c := CoordsFor(overrides, classId, resp);
    if resp.stepResult.passed && c.Some? && canClick then [Click(classId, c.value)] else []
  }

  /** The part of the hook's state a run changes step by step: the
      history, the requests sent, the clicks made, the last reply per class
      id and the class id shown as current. */
  datatype Log = Log(history: seq<StepResult>, sent: seq<Api.Post>, clicks: seq<Click>,
                     lastResponses: map<int, StepResponse>, current: Option<int>)

  /** The state after the step for `classId` has been submitted and `reply`
      has come back: the request is sent in any case; a reply is stored,
      its step result appended to the history and its click made. */
  function AfterStep(log: Log, testId: string, classId: int, seen: seq<StepResult>, shot: string,
                     overrides: map<int, Coords>, canClick: bool,
                     reply: Result<StepResponse, Api.HttpFailure>): Log
  {
    var sent := log.sent + [Api.SubmitTestStep(testId, classId, DataUri(shot), Clicked(seen))];
    match reply
    case Failure(_) => log.(sent := sent)
    case Success(resp) =>
      log.(history := log.history + [resp.stepResult], sent := sent,
           clicks := log.clicks + ClickOf(overrides, classId, resp, canClick),
           lastResponses := log.lastResponses[classId := resp])
  }

  /** The inputs of one run: the test id, the history the callbacks closed
      over, whether the window can capture screenshots, the screenshot
      captured at each turn (`performStep` captures afresh at every step),
      whether it can click, the reply to each turn's step, and the turn at
      which cancellation is seen. */
  datatype RunContext = RunContext(testId: Option<string>, seen: seq<StepResult>,
                                   canCapture: bool, shots: nat -> string,
                                   canClick: bool, replies: seq<Result<StepResponse, Api.HttpFailure>>,
                                   cancelAt: Option<nat>)

  /** How a run ends and the state it leaves. */
  datatype Trace = Trace(outcome: Outcome, log: Log)

  /** The `while` loop of `run` from its `i`-th turn on, in state `log`, with
      `classId` the class about to be submitted; cancellation is seen at the
      top of the turn numbered `cancelAt`, and the `i`-th reply answers the
      `i`-th step. Overrides are empty during a run, since `run` resets
      them. */
  function Drive(ctx: RunContext, classId: Option<int>, i: nat, log: Log): (t: Trace)
    requires i <= |ctx.replies|
    ensures t.outcome.Completed? ==> ctx.testId.Some? && t.outcome.testId == ctx.testId.value
    decreases |ctx.replies| - i
  {
    if ctx.cancelAt == Some(i) then Trace(Cancelled, log)
    else if classId.None? then Trace(Raised(NoFirstClass), log)
    else if !Started(ctx.testId) then Trace(Raised(NotStarted), log)
    else if !ctx.canCapture then Trace(Raised(NoScreenshotApi), log)
    else if i == |ctx.replies| then Trace(Waiting, log)
    else
      var stepped := AfterStep(log, ctx.testId.value, classId.value, ctx.seen, ctx.shots(i), map[], ctx.canClick,
                               ctx.replies[i]);
      match ctx.replies[i]
      case Failure(err) => Trace(Raised(Api.HandleApiError(err)), stepped)
      case Success(resp) =>
        if resp.status == "complete" then
          Trace(Completed(ctx.testId.value, resp.finalResult, ctx.seen + [resp.stepResult]), stepped)
        else
          var next := NextClassOf(resp.nextStep);
          if next.None? then Trace(Raised(FlowTerminated), stepped.(current := next))
          else Drive(ctx, next, i + 1, stepped.(current := next))
  }

  /** A reply after which the loop goes on: received, not complete, and
      naming the next class id. */
  predicate Continues(reply: Result<StepResponse, Api.HttpFailure>)
  {
    reply.Success? && reply.value.status != "complete" && NextClassOf(reply.value.nextStep).Some?
  }

  /** The `j`-th turn is reached from the `i`-th with `classId` current:
      the test is started, a screenshot can be taken, there is a class id,
      no cancellation is seen at turns `i` to `j`, and every reply before
      turn `j` continues the loop. */
  predicate Reaches(ctx: RunContext, classId: Option<int>, i: nat, j: nat)
  {
    && i <= j < |ctx.replies|
    && Started(ctx.testId) && ctx.canCapture && classId.Some?
    && (ctx.cancelAt.None? || ctx.cancelAt.value < i || j < ctx.cancelAt.value)
    && forall k :: i <= k < j ==> Continues(ctx.replies[k])
  }

  /** A reached reply whose status is "complete" completes the run, with
      that reply's final result and its step appended to the history the
      callbacks see. */
  lemma {:induction false} CompletesOnReachedComplete(ctx: RunContext, classId: Option<int>, i: nat, j: nat, log: Log)
    requires Reaches(ctx, classId, i, j)
    requires ctx.replies[j].Success? && ctx.replies[j].value.status == "complete"
    ensures Drive(ctx, classId, i, log).outcome
            == Completed(ctx.testId.value, ctx.replies[j].value.finalResult, ctx.seen + [ctx.replies[j].value.stepResult])
    decreases j - i
  {
    if i < j {
      assert Continues(ctx.replies[i]);
      var next := NextClassOf(ctx.replies[i].value.nextStep);
      var stepped := AfterStep(log, ctx.testId.value, classId.value, ctx.seen, ctx.shots(i), map[], ctx.canClick,
                               ctx.replies[i]);
      assert Reaches(ctx, next, i + 1, j);
      CompletesOnReachedComplete(ctx, next, i + 1, j, stepped.(current := next));
    }
  }

  /** A reached reply that is not complete and names no next class id ends
      the run with FlowTerminated. */
  lemma {:induction false} TerminatesWithoutNextClass(ctx: RunContext, classId: Option<int>, i: nat, j: nat, log: Log)
    requires Reaches(ctx, classId, i, j)
    requires ctx.replies[j].Success? && ctx.replies[j].value.status != "complete"
    requires NextClassOf(ctx.replies[j].value.nextStep).None?
    ensures Drive(ctx, classId, i, log).outcome == Raised(FlowTerminated)
    decreases j - i
  {
    if i < j {
      assert Continues(ctx.replies[i]);
      var next := NextClassOf(ctx.replies[i].value.nextStep);
      var stepped := AfterStep(log, ctx.testId.value, classId.value, ctx.seen, ctx.shots(i), map[], ctx.canClick,
                               ctx.replies[i]);
      assert Reaches(ctx, next, i + 1, j);
      TerminatesWithoutNextClass(ctx, next, i + 1, j, stepped.(current := next));
    }
  }

  /** Conversely, a run completes only on a reached reply whose status is
      "complete". */
  lemma {:induction false} CompletedOnlyOnComplete(ctx: RunContext, classId: Option<int>, i: nat, log: Log)
    requires i <= |ctx.replies|
    requires Drive(ctx, classId, i, log).outcome.Completed?
    ensures exists j: nat :: Reaches(ctx, classId, i, j) && ctx.replies[j].Success? && ctx.replies[j].value.status == "complete"
    decreases |ctx.replies| - i
  {
    var resp := ctx.replies[i].value;
    if resp.status == "complete" {
      assert Reaches(ctx, classId, i, i);
    } else {
      var next := NextClassOf(resp.nextStep);
      var stepped := AfterStep(log, ctx.testId.value, classId.value, ctx.seen, ctx.shots(i), map[], ctx.canClick,
                               ctx.replies[i]);
      CompletedOnlyOnComplete(ctx, next, i + 1, stepped.(current := next));
      var j: nat :| Reaches(ctx, next, i + 1, j) && ctx.replies[j].Success? && ctx.replies[j].value.status == "complete";
      assert Continues(ctx.replies[i]);
      assert Reaches(ctx, classId, i, j);
    }
  }

  /** The `/run-test` request a run starts with. */
  function StartPost(gameUrl: string, testType: string): (p: Api.Post)
    ensures p == Api.SubmitComplianceTest(gameUrl, testType)
  {
    if testType == "Regression" then Api.StartRegressionTest(gameUrl) else Api.SubmitComplianceTest(gameUrl, testType)
  }

  /** The whole `run` from the state `log` left by the reset and the start
      request: the start reply, then the loop. */
  function RunTrace(start: Result<StartResponse, Api.HttpFailure>, seen: seq<StepResult>,
                    canCapture: bool, shots: nat -> string, canClick: bool, replies: seq<Result<StepResponse, Api.HttpFailure>>,
                    cancelAt: Option<nat>, log: Log): Trace
  {
    match start
    case Failure(err) => Trace(Raised(Api.HandleApiError(err)), log)
    case Success(s) =>
      var first := NextClassOf(s.nextStep);
      Drive(RunContext(s.testId, seen, canCapture, shots, canClick, replies, cancelAt), first, 0, log.(current := first))
  }

  /** `finalResult` after a run. */
  function FinalOf(o: Outcome): (f: Option<FinalResult>)
    ensures f.Some? <==> o.Completed?
    ensures o.Completed? && o.finalResult.None? ==> f == Some(FinalResult("complete"))
    ensures o.Completed? && o.finalResult.Some? ==> f == o.finalResult
  {
    if o.Completed? then Some(if o.finalResult.Some? then o.finalResult.value else FinalResult("complete"))
    else None
  }

  /** `error` after a run. */
  function ErrorOf(o: Outcome): (e: Option<string>)
    ensures e.Some? <==> o.Cancelled? || o.Raised?
    ensures o.Raised? ==> e == Some(o.message)
    ensures o.Cancelled? ==> e == Some(CancelledMessage)
  {
    match o
    case Cancelled => Some(CancelledMessage)
    case Raised(m) => Some(m)
    case _ => None
  }

  class StepwiseTest {
    var isRunning: bool
    var currentClassId: Option<int>
    var history: seq<StepResult>
    var finalResult: Option<FinalResult>
    var error: Option<string>
    var cancelRequested: bool
    var testId: Option<string>
    var lastResponses: map<int, StepResponse>
    var overrides: map<int, Coords>
    /** Requests posted to the server, oldest first. */
    var sent: seq<Api.Post>
    /** Clicks issued through `window.api.performClick`, oldest first. */
    var clicks: seq<Click>

    /** The fields a run changes step by step. */
    ghost function Snapshot(): Log
      reads this
    {
      Log(history, sent, clicks, lastResponses, currentClassId)
    }

    constructor()
      ensures !isRunning && currentClassId.None? && history == [] && finalResult.None? && error.None?
      ensures !cancelRequested && testId.None? && lastResponses == map[] && overrides == map[]
      ensures sent == [] && clicks == []
    {
      isRunning := false;
      currentClassId := None;
      history := [];
      finalResult := None;
      error := None;
      cancelRequested := false;
      testId := None;
      lastResponses := map[];
      overrides := map[];
      sent := [];
      clicks := [];
    }

    /** `pushHistory`: appends one step result. */
    method PushHistory(step: StepResult)
      modifies this
      ensures history == old(history) + [step]
      ensures isRunning == old(isRunning) && currentClassId == old(currentClassId)
      ensures finalResult == old(finalResult) && error == old(error) && cancelRequested == old(cancelRequested)
      ensures testId == old(testId) && lastResponses == old(lastResponses) && overrides == old(overrides)
      ensures sent == old(sent) && clicks == old(clicks)
    {
      history := history + [step];
    }

    /** `reset`: clears all state; requests already sent and clicks already
        made stay made. */
    method Reset()
      modifies this
      ensures !isRunning && currentClassId.None? && history == [] && finalResult.None? && error.None?
      ensures !cancelRequested && testId.None? && lastResponses == map[] && overrides == map[]
      ensures sent == old(sent) && clicks == old(clicks)
    {
      cancelRequested := false;
      isRunning := false;
      currentClassId := None;
      history := [];
      finalResult := None;
      error := None;
      testId := None;
      lastResponses := map[];
      overrides := map[];
    }

    /** `overrideClickCoords`. */
    method OverrideClickCoords(classId: int, x: real, y: real)
      modifies this
      ensures overrides == old(overrides)[classId := Coords(x, y)]
      ensures isRunning == old(isRunning) && currentClassId == old(currentClassId) && history == old(history)
      ensures finalResult == old(finalResult) && error == old(error) && cancelRequested == old(cancelRequested)
      ensures testId == old(testId) && lastResponses == old(lastResponses)
      ensures sent == old(sent) && clicks == old(clicks)
    {
      overrides := overrides[classId := Coords(x, y)];
    }

    /** `cancel`. */
    method Cancel()
      modifies this
      ensures cancelRequested
      ensures isRunning == old(isRunning) && currentClassId == old(currentClassId) && history == old(history)
      ensures finalResult == old(finalResult) && error == old(error) && overrides == old(overrides)
      ensures testId == old(testId) && lastResponses == old(lastResponses)
      ensures sent == old(sent) && clicks == old(clicks)
    {
      cancelRequested := true;
    }

    /** `performStep`: `seen` is the history the callback closed over,
        `shot` the captured screenshot (None when the window has no capture
        function), `reply` the server's answer. An exception is a Failure
        carrying its message. */
    method PerformStep(classId: int, seen: seq<StepResult>, shot: Option<string>, canClick: bool,
                       reply: Result<StepResponse, Api.HttpFailure>) returns (r: Result<StepResponse, string>)
      modifies this
      ensures !Started(old(testId)) ==> r == Failure(NotStarted)
      ensures Started(old(testId)) && shot.None? ==> r == Failure(NoScreenshotApi)
      ensures Started(old(testId)) && shot.Some? ==> r == Api.Call(reply)
      ensures !Started(old(testId)) || shot.None? ==> Snapshot() == old(Snapshot())
      ensures Started(old(testId)) && shot.Some? ==>
        Snapshot() == AfterStep(old(Snapshot()), old(testId).value, classId, seen, shot.value, old(overrides),
                                canClick, reply)
      ensures isRunning == old(isRunning) && finalResult == old(finalResult)
      ensures error == old(error) && cancelRequested == old(cancelRequested) && testId == old(testId)
      ensures overrides == old(overrides)
    {
      if !Started(testId) {
        return Failure(NotStarted);
      }
      if shot.None? {
        return Failure(NoScreenshotApi);
      }
      var post := Api.SubmitTestStep(testId.value, classId, DataUri(shot.value), Clicked(seen));
      sent := sent + [post];
      match reply {
        case Failure(err) =>
          r := Failure(Api.HandleApiError(err));
        case Success(resp) =>
          lastResponses := lastResponses[classId := resp];
          history := history + [resp.stepResult];
          clicks := clicks + ClickOf(overrides, classId, resp, canClick);
          r := Success(resp);
      }
    }

    /** `retryStep`: allowed only for a class id that has a history entry. */
    method RetryStep(classId: int, shot: Option<string>, canClick: bool,
                     reply: Result<StepResponse, Api.HttpFailure>) returns (r: Result<StepResponse, string>)
      modifies this
      ensures !Started(old(testId)) ==> r == Failure(NotStarted)
      ensures Started(old(testId)) && !Executed(old(history), classId) ==>
        r == Failure("Cannot retry class_id " + IntToString(classId) + " because it has not been executed yet")
      ensures r.Success? ==> Executed(old(history), classId)
      ensures Started(old(testId)) && Executed(old(history), classId) && shot.None? ==>
        r == Failure(NoScreenshotApi) && Snapshot() == old(Snapshot())
      ensures Started(old(testId)) && Executed(old(history), classId) && shot.Some? ==>
        && r == Api.Call(reply)
        && Snapshot() == AfterStep(old(Snapshot()), old(testId).value, classId, old(history), shot.value,
                                   old(overrides), canClick, reply)
      ensures !Started(old(testId)) || !Executed(old(history), classId) ==> Snapshot() == old(Snapshot())
      ensures isRunning == old(isRunning) && finalResult == old(finalResult)
      ensures error == old(error) && testId == old(testId) && overrides == old(overrides)
    {
      if !Started(testId) {
        return Failure(NotStarted);
      }
      var found := false;
      var k := 0;
      while k < |history| && !found
        invariant 0 <= k <= |history|
        invariant found <==> Executed(history[..k], classId)
      {
        found := history[k].classId == classId;
        k := k + 1;
      }
      if !found {
        return Failure("Cannot retry class_id " + IntToString(classId) + " because it has not been executed yet");
      }
      r := PerformStep(classId, history, shot, canClick, reply);
    }

    /** `run`: resets the state, posts the start request, then submits one
        step per turn until the server reports completion, a class id is
        missing, an error is thrown, cancellation is seen, or no further reply
        has arrived. */
    method Run(gameUrl: string, testType: string, start: Result<StartResponse, Api.HttpFailure>,
               canCapture: bool, shots: nat -> string, canClick: bool,
               replies: seq<Result<StepResponse, Api.HttpFailure>>, cancelAt: Option<nat>) returns (outcome: Outcome)
      modifies this
      ensures var t := RunTrace(start, old(history), canCapture, shots, canClick, replies, cancelAt,
                                Log([], old(sent) + [Api.SubmitComplianceTest(gameUrl, testType)], old(clicks), map[], None));
        outcome == t.outcome && Snapshot() == t.log
      ensures testId == (if start.Success? then start.value.testId else None)
      ensures isRunning <==> outcome.Waiting?
      ensures finalResult == FinalOf(outcome) && error == ErrorOf(outcome)
      ensures cancelRequested <==> outcome.Cancelled?
      ensures overrides == map[]
    {
      var seen := history;
      Reset();
      isRunning := true;
      sent := sent + [StartPost(gameUrl, testType)];
      if start.Failure? {
        outcome := Raised(Api.HandleApiError(start.error));
        error := Some(outcome.message);
        isRunning := false;
        return;
      }
      testId := start.value.testId;
      var first := NextClassOf(start.value.nextStep);
      currentClassId := first;
      outcome := RunLoop(RunContext(testId, seen, canCapture, shots, canClick, replies, cancelAt), first);
    }

    /** The `while` loop of `run`, entered in the state `run` sets up. */
    method RunLoop(ctx: RunContext, first: Option<int>) returns (outcome: Outcome)
      requires testId == ctx.testId && overrides == map[] && currentClassId == first
      requires isRunning && finalResult.None? && error.None? && !cancelRequested
      modifies this
      ensures var t := Drive(ctx, first, 0, old(Snapshot()));
        outcome == t.outcome && Snapshot() == t.log
      ensures testId == ctx.testId && overrides == map[]
      ensures isRunning <==> outcome.Waiting?
      ensures finalResult == FinalOf(outcome) && error == ErrorOf(outcome)
      ensures cancelRequested <==> outcome.Cancelled?
    {
      var classId := first;
      ghost var whole := Drive(ctx, first, 0, Snapshot());
      var i := 0;
      while true
        invariant 0 <= i <= |ctx.replies|
        invariant testId == ctx.testId && overrides == map[] && currentClassId == classId
        invariant isRunning && finalResult.None? && error.None? && !cancelRequested
        invariant Drive(ctx, classId, i, Snapshot()) == whole
        decreases |ctx.replies| - i
      {
        if ctx.cancelAt == Some(i) {
          outcome := Cancelled;
          cancelRequested := true;
          break;
        }
        if classId.None? {
          outcome := Raised(NoFirstClass);
          break;
        }
        if i == |ctx.replies| && Started(testId) && ctx.canCapture {
          outcome := Waiting;
          return;
        }
        var reply := if i < |ctx.replies| then ctx.replies[i] else Failure(Api.HttpFailure(None, ""));
        var shot := if ctx.canCapture then Some(ctx.shots(i)) else None;
        var r := PerformStep(classId.value, ctx.seen, shot, ctx.canClick, reply);
        if r.Failure? {
          outcome := Raised(r.error);
          break;
        }
        var resp := r.value;
        if resp.status == "complete" {
          outcome := Completed(testId.value, resp.finalResult, ctx.seen + [resp.stepResult]);
          finalResult := FinalOf(outcome);
          break;
        }
        classId := NextClassOf(resp.nextStep);
        currentClassId := classId;
        if classId.None? {
          outcome := Raised(FlowTerminated);
          break;
        }
        i := i + 1;
      }
      if !outcome.Completed? {
        error := ErrorOf(outcome);
      }
      isRunning := false;
    }
  }

  /** The backend's `/run-test` reply carries no `next_step`. */
  function StartFromBackend(resp: BaseService.TestExecutionResponse): (s: StartResponse)
    ensures s.testId == Some(resp.testId) && s.nextStep.None?
  {
    StartResponse(Some(resp.testId), None)
  }

  /** So a run started against the backend stops before its first step:
      nothing is submitted and nothing is clicked. */
  lemma BackendRunStopsBeforeFirstStep(resp: BaseService.TestExecutionResponse, seen: seq<StepResult>,
                                       canCapture: bool, shots: nat -> string, canClick: bool,
                                       replies: seq<Result<StepResponse, Api.HttpFailure>>, cancelAt: Option<nat>,
                                       log: Log)
    ensures var t := RunTrace(Success(StartFromBackend(resp)), seen, canCapture, shots, canClick, replies, cancelAt, log);
      && t.outcome == (if cancelAt == Some(0) then Cancelled else Raised(NoFirstClass))
      && t.log == log.(current := None)
  {
  }

  /** A run only appends to the history, the requests and the clicks; every
      request it sends goes to `/run-test-step` and reports the same
      `clicked` flag, the one the pre-run history gives. */
  lemma {:induction false} StepsReportStaleClicked(ctx: RunContext, classId: Option<int>, i: nat, log: Log)
    requires i <= |ctx.replies|
    ensures var t := Drive(ctx, classId, i, log);
      && log.history <= t.log.history && log.sent <= t.log.sent && log.clicks <= t.log.clicks
      && forall k :: |log.sent| <= k < |t.log.sent| ==>
           t.log.sent[k].path == "/run-test-step" && t.log.sent[k].body.StepBody?
           && t.log.sent[k].body.clicked == Clicked(ctx.seen)
    decreases |ctx.replies| - i
  {
    if ctx.cancelAt != Some(i) && classId.Some? && Started(ctx.testId) && ctx.canCapture && i < |ctx.replies| {
      var stepped := AfterStep(log, ctx.testId.value, classId.value, ctx.seen, ctx.shots(i), map[], ctx.canClick,
                               ctx.replies[i]);
      match ctx.replies[i]
      case Failure(_) =>
      case Success(resp) =>
        var next := NextClassOf(resp.nextStep);
        if resp.status != "complete" && next.Some? {
          StepsReportStaleClicked(ctx, next, i + 1, stepped.(current := next));
        }
    }
  }

  /** A run that completes returns the pre-run history plus only the last
      step's result, while the hook's `history` holds every step of the run. */
  lemma {:induction false} CompletedHistory(ctx: RunContext, classId: Option<int>, i: nat, log: Log)
    requires i <= |ctx.replies|
    ensures var t := Drive(ctx, classId, i, log);
      t.outcome.Completed? ==>
        && |t.log.history| > |log.history|
        && t.outcome.history == ctx.seen + [t.log.history[|t.log.history| - 1]]
    decreases |ctx.replies| - i
  {
    if ctx.cancelAt != Some(i) && classId.Some? && Started(ctx.testId) && ctx.canCapture && i < |ctx.replies| {
      var stepped := AfterStep(log, ctx.testId.value, classId.value, ctx.seen, ctx.shots(i), map[], ctx.canClick,
                               ctx.replies[i]);
      match ctx.replies[i]
      case Failure(_) =>
      case Success(resp) =>
        var next := NextClassOf(resp.nextStep);
        if resp.status != "complete" && next.Some? {
          CompletedHistory(ctx, next, i + 1, stepped.(current := next));
        }
    }
  }
}
