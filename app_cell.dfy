/**
 * The app cell: its state machine's current state, the cell model it keeps in
 * the notebook metadata, the code it writes into the cell, the job listeners
 * it holds, and the handlers that move it through the lifecycle table.
 *
 * Every thrown error becomes a `Fail` outcome; whatever the handler wrote
 * before the throw stays written. A transition the table does not list is
 * refused by the state machine and throws.
 */
module AppCell {
  import opened Wrappers
  import opened Json
  import opened AppStates
  import opened Render
  import opened AppLogic

  /**
   * A `run-status` message: the launch event, the `job_id` the `launched_job`
   * event carries, and the `jobId` and `runId` written to the log.
   */
  datatype LaunchMessage = LaunchMessage(event: Option<Json>, launchedJobId: Option<Json>, jobId: Option<Json>, runId: Option<Json>)

  datatype LogEvent =
    | JobsStatus(jobState: Option<Json>)
    | LaunchStatus(jobId: Option<Json>, runId: Option<Json>, status: Option<Json>)

  datatype LogEntry = LogEntry(timestamp: int, event: LogEvent)

  /** The `exec` part of the cell model; deleting it leaves `NoExec`. */
  datatype Exec = Exec(
    jobState: Option<Json>,
    outputWidgetInfo: Option<Json>,
    log: seq<LogEntry>,
    launchState: Option<LaunchMessage>,
    jobStateUpdated: Option<int>)

  const NoExec := Exec(None, None, [], None, None)

  datatype FatalErrorInfo = FatalErrorInfo(title: string, message: string)

  /**
   * The cell model: the saved state-machine state, the app, the parameter
   * values, the execution record, the notifications, the output cells by job
   * and the fatal error.
   */
  datatype CellModel = CellModel(
    fsmState: Option<Tag>,
    app: App,
    params: seq<Member>,
    exec: Exec,
    notifications: seq<string>,
    outputByJob: map<string, Json>,
    fatalError: Option<FatalErrorInfo>)

  /** A listener on the job channel of `jobId`, for job-status or job-deleted messages. */
  datatype Listener = JobStatusListener(jobId: Option<Json>) | JobDeletedListener(jobId: Option<Json>)

  /** The text of the code cell: empty, or the app-runner call built for a run. */
  datatype CellCode = NoCode | AppRunner(cellId: string, runId: string, app: FixedApp, params: seq<Member>)

  /** What cancelling asks of the job manager. */
  datatype Request = NoRequest | CancelJob(jobId: Option<Json>)

  /**
   * The execution record after a job-status message: a status that is new, or
   * arrives when no truthy status is stored, replaces the stored one and adds
   * one `jobs-status` log entry; either way the update time is recorded.
   */
  function RecordJobStatus(e: Exec, jobState: Option<Json>, outputWidgetInfo: Option<Json>, now: int): (r: Exec)
    ensures r.jobStateUpdated == Some(now) && r.launchState == e.launchState
    ensures !OptTruthy(e.jobState) || e.jobState != jobState ==>
      && r.jobState == jobState
      && r.log == e.log + [LogEntry(now, JobsStatus(jobState))]
      && r.outputWidgetInfo == (if OptTruthy(outputWidgetInfo) then outputWidgetInfo else e.outputWidgetInfo)
    ensures OptTruthy(e.jobState) && e.jobState == jobState ==>
      r == e.(jobStateUpdated := Some(now))
  {
    var recorded :=
      if !OptTruthy(e.jobState) || e.jobState != jobState then
        e.(jobState := jobState,
           outputWidgetInfo := if OptTruthy(outputWidgetInfo) then outputWidgetInfo else e.outputWidgetInfo,
           log := e.log + [LogEntry(now, JobsStatus(jobState))])
      else e;
    recorded.(jobStateUpdated := Some(now))
  }

  /** A truthy job status delivered twice is logged once. */
  lemma RepeatedJobStatusLoggedOnce(e: Exec, jobState: Option<Json>, info1: Option<Json>, info2: Option<Json>, t1: int, t2: int)
    requires OptTruthy(jobState)
    ensures var once := RecordJobStatus(e, jobState, info1, t1);
      var twice := RecordJobStatus(once, jobState, info2, t2);
      twice.log == once.log && twice.jobState == jobState && twice.jobStateUpdated == Some(t2)
  {
  }

  /** The start position of `s.splice(index, 1)`. */
  function SpliceStart(n: nat, index: int): (start: nat)
    ensures start <= n
  {
    if index < 0 then (if n + index < 0 then 0 else n + index)
    else if index > n then n
    else index
  }

  /** `s.splice(index, 1)`: the element at the position `index` denotes is removed, if there is one. */
  function SpliceOne(s: seq<string>, index: int): (r: seq<string>)
    ensures |s| > 0 && index < |s| ==> |r| == |s| - 1
    ensures index >= |s| ==> r == s
    ensures forall k :: 0 <= k < SpliceStart(|s|, index) ==> r[k] == s[k]
  {
    var start := SpliceStart(|s|, index);
    if start < |s| then s[..start] + s[start + 1..] else s
  }

  /** Removing the last notification, by its index or by -1, undoes adding it. */
  lemma RemoveUndoesAdd(s: seq<string>, n: string)
    ensures SpliceOne(s + [n], |s|) == s
    ensures SpliceOne(s + [n], -1) == s
  {
    assert (s + [n])[..|s|] == s;
  }

  /** Removing the notification at `k` keeps the ones after it, one place earlier. */
  lemma RemoveShiftsLater(s: seq<string>, k: nat)
    requires k < |s|
    ensures forall j :: k <= j < |s| - 1 ==> SpliceOne(s, k)[j] == s[j + 1]
  {
  }

  /** The model after a load failure is reported: one notification more and the fatal error. */
  function Reported(m: CellModel, failure: Failure): CellModel {
    var message := ErrorMessage(failure);
    m.(notifications := m.notifications + ["Error loading main widgets: " + message],
       fatalError := Some(FatalErrorInfo("Error loading main widgets", message)))
  }

  class AppCellWidget {
    /** The state machine's current state. */
    var current: Tag
    var model: CellModel
    var code: CellCode
    var jobListeners: seq<Listener>
    const ui: CellUi
    /** The parameter specifications, in order, and by id. */
    const parameters: seq<ParamSpec>
    const parameterMap: map<string, ParamSpec>
    /** The emptiness test of the parameter specifications. */
    const isEmpty: (ParamSpec, Option<Json>) -> bool
    const cellId: string

    ghost predicate Valid()
      reads this
    {
      Defined(current)
    }

    /** The screen shows state `t`. */
    ghost predicate Showing(t: Tag)
      reads this, ui
    {
      Shows(ui.buttons, ui.panels, t)
    }

    /** Whether validation of the current parameter values passes. */
    function ModelValid(): bool
      reads this
    {
      ValidateModel(parameters, model.params, isEmpty).isValid
    }

    function Exported(): Result<seq<Member>, Failure>
      reads this
    {
      Export(model.params, parameterMap)
    }

    function Fixed(): Result<FixedApp, Failure>
      reads this
    {
      FixApp(model.app)
    }

    /** A cell loaded from its metadata, before the state machine is started. */
    constructor(saved: CellModel, parameters: seq<ParamSpec>, parameterMap: map<string, ParamSpec>,
                isEmpty: (ParamSpec, Option<Json>) -> bool, cellId: string)
      ensures Valid() && current == NewTag
      ensures model == saved && code == NoCode && jobListeners == []
      ensures this.parameters == parameters && this.parameterMap == parameterMap
      ensures this.isEmpty == isEmpty && this.cellId == cellId
      ensures fresh(ui) && ui.buttons == map[] && ui.panels == map[]
    {
      current := NewTag;
      model := saved;
      code := NoCode;
      jobListeners := [];
      ui := new CellUi();
      this.parameters := parameters;
      this.parameterMap := parameterMap;
      this.isEmpty := isEmpty;
      this.cellId := cellId;
    }

    /**
     * Starts the state machine in the saved state, or in the new state when
     * none is saved. Starting does not write the state back.
     */
    method InitializeFsm() returns (o: Outcome<Failure>)
      modifies this
      ensures Valid()
      ensures model == old(model) && code == old(code) && jobListeners == old(jobListeners)
      ensures var start := if model.fsmState.Some? then model.fsmState.value else NewTag;
        && (Defined(start) ==> o.Pass? && current == start)
        && (!Defined(start) ==> o == Fail(UnknownState(start)) && current == NewTag)
    {
      var start := if model.fsmState.Some? then model.fsmState.value else NewTag;
      if Defined(start) {
        current := start;
        o := Pass;
      } else {
        current := NewTag;
        o := Fail(UnknownState(start));
      }
    }

    /**
     * Moves to `target` when the current state lists it, saving it in the
     * model; otherwise refuses and changes nothing.
     */
    method NewState(target: Tag) returns (o: Outcome<Failure>)
      requires Valid()
      modifies this
      ensures Valid()
      ensures code == old(code) && jobListeners == old(jobListeners)
      ensures Successor(old(current), target) ==>
        o.Pass? && current == target && model == old(model).(fsmState := Some(target))
      ensures !Successor(old(current), target) ==>
        o == Fail(IllegalTransition(old(current), target)) && current == old(current) && model == old(model)
    {
      if Successor(current, target) {
        TableClosed(current, target);
        current := target;
        model := model.(fsmState := Some(target));
        o := Pass;
      } else {
        o := Fail(IllegalTransition(current, target));
      }
    }

    /** Sets the buttons and panels from the current state's definition. */
    method RenderUi()
      requires Valid()
      modifies ui
      ensures ui.buttons == ButtonsAfter(old(ui.buttons), Lookup(current).value.ui.buttons)
      ensures ui.panels == PanelsAfter(old(ui.panels), Lookup(current).value.ui.elements)
      ensures Showing(current)
    {
      RenderShows(current, ui.buttons, ui.panels);
      ui.Render(Lookup(current).value);
    }

    /**
     * Validates the parameters. When they are valid, builds the app-runner code
     * from the exported parameters and the fixed app and moves to the complete
     * editing state; otherwise clears the code and moves to the incomplete one.
     */
    method EvaluateAppState(runId: string) returns (o: Outcome<Failure>)
      requires Valid()
      modifies this, ui
      ensures Valid() && jobListeners == old(jobListeners)
      ensures !old(ModelValid()) ==> code == NoCode
      ensures old(ModelValid()) && old(Exported()).Err? ==>
        o == Fail(old(Exported()).error) && current == old(current) && model == old(model) && code == old(code)
      ensures old(ModelValid()) && old(Exported()).Ok? && old(Fixed()).Err? ==>
        o == Fail(old(Fixed()).error) && current == old(current) && model == old(model) && code == old(code)
      ensures old(ModelValid()) && old(Exported()).Ok? && old(Fixed()).Ok? ==>
        code == AppRunner(cellId, runId, old(Fixed()).value, old(Exported()).value)
      ensures !old(ModelValid()) || (old(Exported()).Ok? && old(Fixed()).Ok?) ==>
        var target := if old(ModelValid()) then EditingComplete else EditingIncomplete;
        && (Successor(old(current), target) ==>
              o.Pass? && current == target && model == old(model).(fsmState := Some(target)) && Showing(target))
        && (!Successor(old(current), target) ==>
              o == Fail(IllegalTransition(old(current), target)) && current == old(current) && model == old(model))
    {
      var validation := ValidateModel(parameters, model.params, isEmpty);
      if validation.isValid {
        var exported := ExportParams(model.params, parameterMap);
        if exported.Err? {
          return Fail(exported.error);
        }
        var fixed := FixApp(model.app);
        if fixed.Err? {
          return Fail(fixed.error);
        }
        code := AppRunner(cellId, runId, fixed.value, exported.value);
        o := NewState(EditingComplete);
      } else {
        code := NoCode;
        o := NewState(EditingIncomplete);
      }
      if o.Pass? {
        RenderUi();
      }
    }

    /**
     * Reports a failure to load the cell: a notification, the fatal error in
     * the model, and the move to the fatal-error state, which only the new
     * state lists.
     */
    method ReportLoadFailure(failure: Failure) returns (o: Outcome<Failure>)
      requires Valid()
      modifies this, ui
      ensures Valid() && code == old(code) && jobListeners == old(jobListeners)
      ensures old(current) == NewTag ==>
        && o.Pass? && current == FatalErrorTag && Showing(FatalErrorTag)
        && model == Reported(old(model), failure).(fsmState := Some(FatalErrorTag))
      ensures old(current) != NewTag ==>
        o == Fail(IllegalTransition(old(current), FatalErrorTag)) && current == old(current)
        && model == Reported(old(model), failure)
    {
      var message := ErrorMessage(failure);
      AddNotification("Error loading main widgets: " + message);
      model := model.(fatalError := Some(FatalErrorInfo("Error loading main widgets", message)));
      FatalErrorOnlyFromNew(current);
      o := NewState(FatalErrorTag);
      if o.Pass? {
        RenderUi();
      }
    }

    /**
     * Loads the cell for a run. `loaded` is the outcome of fetching the app
     * specification and loading the widgets. A new cell is promoted to the
     * incomplete editing state and evaluated; any failure is reported.
     */
    method Run(loaded: Outcome<Failure>, runId: string) returns (o: Outcome<Failure>)
      requires Valid()
      modifies this, ui
      ensures Valid() && jobListeners == old(jobListeners)
      ensures loaded.Fail? ==>
        && code == old(code)
        && (old(current) == NewTag ==>
              o.Pass? && current == FatalErrorTag && Showing(FatalErrorTag)
              && model == Reported(old(model), loaded.error).(fsmState := Some(FatalErrorTag)))
        && (old(current) != NewTag ==>
              o == Fail(IllegalTransition(old(current), FatalErrorTag)) && current == old(current)
              && model == Reported(old(model), loaded.error))
      ensures loaded.Pass? && old(current) != NewTag ==>
        o.Pass? && current == old(current) && model == old(model) && code == old(code) && Showing(current)
      ensures loaded.Pass? && old(current) == NewTag ==>
        Promoted(old(model), old(code), runId, o, current, model, code) && (o.Pass? ==> Showing(current))
    {
      if loaded.Fail? {
        o := ReportLoadFailure(loaded.error);
        return;
      }
      RenderUi();
      if current.mode != New {
        RenderUi();
        return Pass;
      }
      o := PromoteNew(runId);
    }

    /**
     * What promoting a new cell with model `m` and code `c` leaves: the
     * outcome `o`, the state `t`, the model `m'` and the code `c'`. Valid
     * parameters build the code and reach the complete editing state, invalid
     * ones clear it and reach the incomplete one; a failed export or fix is
     * reported as a load failure, which the incomplete editing state refuses.
     */
    ghost predicate Promoted(m: CellModel, c: CellCode, runId: string, o: Outcome<Failure>, t: Tag, m': CellModel, c': CellCode)
      reads this
    {
      var valid := ValidateModel(parameters, m.params, isEmpty).isValid;
      var exported := Export(m.params, parameterMap);
      var fixed := FixApp(m.app);
      if !valid then
        o.Pass? && t == EditingIncomplete && m' == m.(fsmState := Some(EditingIncomplete)) && c' == NoCode
      else if exported.Ok? && fixed.Ok? then
        && o.Pass? && t == EditingComplete && m' == m.(fsmState := Some(EditingComplete))
        && c' == AppRunner(cellId, runId, fixed.value, exported.value)
      else
        var failure := if exported.Err? then exported.error else fixed.error;
        && o == Fail(IllegalTransition(EditingIncomplete, FatalErrorTag)) && t == EditingIncomplete
        && m' == Reported(m, failure).(fsmState := Some(EditingIncomplete)) && c' == c
    }

    /**
     * Promotes a new cell to the incomplete editing state and evaluates it; a
     * failure of the evaluation is reported like a load failure, which the
     * incomplete editing state refuses.
     */
    method PromoteNew(runId: string) returns (o: Outcome<Failure>)
      requires Valid() && current == NewTag
      modifies this, ui
      ensures Valid() && jobListeners == old(jobListeners)
      ensures Promoted(old(model), old(code), runId, o, current, model, code)
      ensures o.Pass? ==> Showing(current)
    {
      NewPromotesToEditing();
      var promoted := NewState(EditingIncomplete);
      EditingTargetsLegal(EditingIncomplete);
      var evaluated := EvaluateAppState(runId);
      if evaluated.Fail? {
        o := ReportLoadFailure(evaluated.error);
      } else {
        o := Pass;
      }
    }

    method StartListening(jobId: Option<Json>)
      modifies this
      ensures jobListeners == old(jobListeners) + [JobStatusListener(jobId), JobDeletedListener(jobId)]
      ensures current == old(current) && model == old(model) && code == old(code)
    {
      jobListeners := jobListeners + [JobStatusListener(jobId), JobDeletedListener(jobId)];
    }

    method StopListening()
      modifies this
      ensures jobListeners == []
      ensures current == old(current) && model == old(model) && code == old(code)
    {
      jobListeners := [];
    }

    /**
     * On reload, listens for the messages of the stored job when the saved
     * state is one in which a job is queued or running.
     */
    method ResumeListening()
      modifies this
      ensures current == old(current) && model == old(model) && code == old(code)
      ensures jobListeners == old(jobListeners) +
        (if ListensOnResume(model.fsmState) then [JobStatusListener(JobIdOf(model.exec.jobState)), JobDeletedListener(JobIdOf(model.exec.jobState))] else [])
    {
      if ListensOnResume(model.fsmState) {
        StartListening(JobIdOf(model.exec.jobState));
      }
    }

    /** Moves to the state a launch event leads to; a launched job is listened to first. */
    method UpdateFromLaunchEvent(message: LaunchMessage) returns (o: Outcome<Failure>)
      requires Valid()
      modifies this, ui
      ensures Valid() && code == old(code)
      ensures LaunchTarget(message.event).Err? ==>
        o == Fail(LaunchTarget(message.event).error) && current == old(current) && model == old(model) && jobListeners == old(jobListeners)
      ensures LaunchTarget(message.event).Ok? ==>
        var target := LaunchTarget(message.event).value;
        && jobListeners == old(jobListeners) +
             (if IsString(message.event, "launched_job") then [JobStatusListener(message.launchedJobId), JobDeletedListener(message.launchedJobId)] else [])
        && (Successor(old(current), target) ==> o.Pass? && current == target && model == old(model).(fsmState := Some(target)) && Showing(target))
        && (!Successor(old(current), target) ==> o == Fail(IllegalTransition(old(current), target)) && current == old(current) && model == old(model))
    {
      var target := LaunchTarget(message.event);
      if target.Err? {
        return Fail(target.error);
      }
      if IsString(message.event, "launched_job") {
        StartListening(message.launchedJobId);
      }
      o := NewState(target.value);
      if o.Pass? {
        RenderUi();
      }
    }

    /** A `run-status` message: the launch event's transition, then the launch state and a log entry. */
    method OnRunStatus(message: LaunchMessage, now: int) returns (o: Outcome<Failure>)
      requires Valid()
      modifies this, ui
      ensures Valid() && code == old(code)
      ensures LaunchTarget(message.event).Err? ==>
        o == Fail(LaunchTarget(message.event).error) && current == old(current) && model == old(model) && jobListeners == old(jobListeners)
      ensures LaunchTarget(message.event).Ok? ==>
        var target := LaunchTarget(message.event).value;
        && jobListeners == old(jobListeners) +
             (if IsString(message.event, "launched_job") then [JobStatusListener(message.launchedJobId), JobDeletedListener(message.launchedJobId)] else [])
        && (Successor(old(current), target) ==>
              && o.Pass? && current == target && Showing(target)
              && model == old(model).(fsmState := Some(target), exec := old(model).exec.(
                   launchState := Some(message),
                   log := old(model).exec.log + [LogEntry(now, LaunchStatus(message.jobId, message.runId, message.event))])))
        && (!Successor(old(current), target) ==>
              o == Fail(IllegalTransition(old(current), target)) && current == old(current) && model == old(model))
    {
      o := UpdateFromLaunchEvent(message);
      if o.Fail? {
        return;
      }
      model := model.(exec := model.exec.(
        launchState := Some(message),
        log := model.exec.log + [LogEntry(now, LaunchStatus(message.jobId, message.runId, message.event))]));
    }

    /**
     * Moves to the state a job status leads to. A finished, cancelled, suspended
     * or failed job is no longer listened to.
     */
    method UpdateFromJobState(jobState: Option<Json>) returns (o: Outcome<Failure>)
      requires Valid()
      modifies this, ui
      ensures Valid() && code == old(code)
      ensures o.Fail? ==> current == old(current) && model == old(model)
      ensures jobState.None? || jobState.value.JNull? ==> o == Fail(TypeError) && jobListeners == old(jobListeners)
      ensures jobState.Some? && !jobState.value.JNull? ==>
        var status := Property(jobState.value, "job_state");
        var target := JobTarget(status, old(current));
        && (target.Err? ==> o == Fail(target.error) && jobListeners == old(jobListeners))
        && (target.Ok? ==>
              && jobListeners == (if StopsListening(status) then [] else old(jobListeners))
              && (Successor(old(current), target.value) ==>
                    o.Pass? && current == target.value && model == old(model).(fsmState := Some(target.value)) && Showing(current))
              && (!Successor(old(current), target.value) ==> o == Fail(IllegalTransition(old(current), target.value))))
    {
      if jobState.None? || jobState.value.JNull? {
        return Fail(TypeError);
      }
      var status := Property(jobState.value, "job_state");
      var target := JobTarget(status, current);
      if target.Err? {
        return Fail(target.error);
      }
      if StopsListening(status) {
        StopListening();
      }
      o := NewState(target.value);
      if o.Pass? {
        RenderUi();
      }
    }

    /** A job-status message: record it (once per distinct status), then follow it. */
    method OnJobStatus(jobState: Option<Json>, outputWidgetInfo: Option<Json>, now: int) returns (o: Outcome<Failure>)
      requires Valid()
      modifies this, ui
      ensures Valid() && code == old(code)
      ensures var recorded := old(model).(exec := RecordJobStatus(old(model).exec, jobState, outputWidgetInfo, now));
        && (o.Fail? ==> current == old(current) && model == recorded)
        && (jobState.None? || jobState.value.JNull? ==> o == Fail(TypeError) && jobListeners == old(jobListeners))
        && (jobState.Some? && !jobState.value.JNull? ==>
              var status := Property(jobState.value, "job_state");
              var target := JobTarget(status, old(current));
              && (target.Err? ==> o == Fail(target.error) && jobListeners == old(jobListeners))
              && (target.Ok? ==>
                    && jobListeners == (if StopsListening(status) then [] else old(jobListeners))
                    && (Successor(old(current), target.value) ==>
                          o.Pass? && current == target.value && model == recorded.(fsmState := Some(target.value)) && Showing(current))
                    && (!Successor(old(current), target.value) ==> o == Fail(IllegalTransition(old(current), target.value)))))
    {
      model := model.(exec := RecordJobStatus(model.exec, jobState, outputWidgetInfo, now));
      o := UpdateFromJobState(jobState);
    }

    /** Drops the execution record and returns to the complete editing state. */
    method ResetToEditMode() returns (o: Outcome<Failure>)
      requires Valid()
      modifies this, ui
      ensures Valid() && code == old(code) && jobListeners == old(jobListeners)
      ensures model.exec == NoExec
      ensures Successor(old(current), EditingComplete) ==>
        o.Pass? && current == EditingComplete && model == old(model).(exec := NoExec, fsmState := Some(EditingComplete))
        && Showing(EditingComplete)
      ensures !Successor(old(current), EditingComplete) ==>
        o == Fail(IllegalTransition(old(current), EditingComplete)) && current == old(current)
        && model == old(model).(exec := NoExec)
    {
      model := model.(exec := NoExec);
      o := NewState(EditingComplete);
      if o.Pass? {
        RenderUi();
      }
    }

    /** A job-deleted message resets the cell unless it is already editing; the new and fatal-error states refuse the reset. */
    method OnJobDeleted() returns (o: Outcome<Failure>)
      requires Valid()
      modifies this, ui
      ensures Valid() && code == old(code) && jobListeners == old(jobListeners)
      ensures old(current).mode == Editing ==>
        o.Pass? && current == old(current) && model == old(model) && ui.buttons == old(ui.buttons) && ui.panels == old(ui.panels)
      ensures ExecMode(old(current)) ==>
        o.Pass? && current == EditingComplete && model == old(model).(exec := NoExec, fsmState := Some(EditingComplete))
      ensures old(current).mode == New || old(current).mode == FatalError ==>
        o == Fail(IllegalTransition(old(current), EditingComplete)) && current == old(current)
        && model == old(model).(exec := NoExec)
    {
      if current.mode == Editing {
        return Pass;
      }
      if ExecMode(current) {
        ResetTargetLegal(current);
      }
      o := ResetToEditMode();
    }

    /**
     * A confirmed cancel asks the job manager to cancel the stored job; with no
     * job stored it drops the execution record and returns to editing.
     */
    method Cancel(confirmed: bool) returns (request: Request, o: Outcome<Failure>)
      requires Valid()
      modifies this, ui
      ensures Valid() && code == old(code) && jobListeners == old(jobListeners)
      ensures !confirmed ==> request == NoRequest && o.Pass? && current == old(current) && model == old(model)
      ensures confirmed && OptTruthy(old(model).exec.jobState) ==>
        request == CancelJob(Property(old(model).exec.jobState.value, "job_id")) && o.Pass?
        && current == old(current) && model == old(model)
      ensures confirmed && !OptTruthy(old(model).exec.jobState) ==>
        && request == NoRequest
        && (Successor(old(current), EditingComplete) ==>
              o.Pass? && current == EditingComplete && model == old(model).(exec := NoExec, fsmState := Some(EditingComplete))
              && Showing(EditingComplete))
        && (!Successor(old(current), EditingComplete) ==>
              o == Fail(IllegalTransition(old(current), EditingComplete)) && current == old(current)
              && model == old(model).(exec := NoExec))
    {
      request := NoRequest;
      if !confirmed {
        return NoRequest, Pass;
      }
      if OptTruthy(model.exec.jobState) {
        return CancelJob(Property(model.exec.jobState.value, "job_id")), Pass;
      }
      model := model.(exec := NoExec);
      o := NewState(EditingComplete);
      if o.Pass? {
        RenderUi();
      }
    }

    method AddNotification(notification: string)
      modifies this
      ensures model == old(model).(notifications := old(model).notifications + [notification])
      ensures current == old(current) && code == old(code) && jobListeners == old(jobListeners)
    {
      model := model.(notifications := model.notifications + [notification]);
    }

    method RemoveNotification(index: int)
      modifies this
      ensures model == old(model).(notifications := SpliceOne(old(model).notifications, index))
      ensures current == old(current) && code == old(code) && jobListeners == old(jobListeners)
    {
      model := model.(notifications := SpliceOne(model.notifications, index));
    }

    method ClearNotifications()
      modifies this
      ensures model == old(model).(notifications := [])
      ensures current == old(current) && code == old(code) && jobListeners == old(jobListeners)
    {
      model := model.(notifications := []);
    }

    /** An output cell was removed: forget the job's output, if it was recorded. */
    method OnOutputCellRemoved(jobId: string)
      modifies this
      ensures jobId in old(model).outputByJob && Truthy(old(model).outputByJob[jobId]) ==>
        model == old(model).(outputByJob := old(model).outputByJob - {jobId})
      ensures !(jobId in old(model).outputByJob && Truthy(old(model).outputByJob[jobId])) ==> model == old(model)
      ensures current == old(current) && code == old(code) && jobListeners == old(jobListeners)
    {
      if jobId !in model.outputByJob || !Truthy(model.outputByJob[jobId]) {
        return;
      }
      model := model.(outputByJob := model.outputByJob - {jobId});
    }
  }
}
