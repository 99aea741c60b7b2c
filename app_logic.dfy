/**
 * The decisions of the app cell that are computed from values alone: which
 * state a launch event or a job status leads to, whether the parameters are
 * valid, the canonical app identity, the parameters handed to the app runner,
 * the output parameters and their object references, and when a reloaded
 * cell resumes listening for job messages.
 */
module AppLogic {
  import opened Wrappers
  import opened Text
  import opened Json
  import opened AppStates
  import opened Workspace

  /**
   * Why an operation of the cell failed: a JavaScript TypeError (a property read
   * on null or undefined), an Error the code throws with a message, or a state
   * the state machine refuses to start in or move to.
   */
  datatype Failure =
    | TypeError
    | Thrown(message: string)
    | UnknownState(state: Tag)
    | IllegalTransition(from: Tag, to: Tag)

  /**
   * The `message` of a failure. The texts of a TypeError and of the state
   * machine's own errors are not the cell's, so they are stand-ins.
   */
  function ErrorMessage(f: Failure): string {
    match f
    case Thrown(m) => m
    case TypeError => "TypeError"
    case UnknownState(_) => "Unknown state"
    case IllegalTransition(_, _) => "Invalid state transition"
  }

  /** `v === s` for a string constant `s`. */
  predicate IsString(v: Option<Json>, s: string) {
    v == Some(JStr(s))
  }

  // ---- Launch events ----

  predicate IsLaunchingEvent(event: Option<Json>) {
    IsString(event, "validating_app") || IsString(event, "validated_app")
    || IsString(event, "launching_job") || IsString(event, "launched_job")
  }

  /** The state a `run-status` launch event leads to, or the error it throws. */
  function LaunchTarget(event: Option<Json>): (r: Result<Tag, Failure>)
    ensures r == Ok(ProcessingLaunching) <==> IsLaunchingEvent(event)
    ensures r == Ok(ErrorLaunching) <==> IsString(event, "error")
    ensures r.Err? <==> !IsLaunchingEvent(event) && !IsString(event, "error")
    ensures r.Err? ==> r.error == Thrown("Invalid launch state " + StringOf(event))
  {
    if IsLaunchingEvent(event) then Ok(ProcessingLaunching)
    else if IsString(event, "error") then Ok(ErrorLaunching)
    else Err(Thrown("Invalid launch state " + StringOf(event)))
  }

  /**
   * A launch event is legal right after the run button (from the complete
   * editing state) and while launching, and refused once the job is queued or
   * running.
   */
  lemma LaunchTargetLegality(event: Option<Json>, current: Tag)
    requires LaunchTarget(event).Ok?
    requires Defined(current) && (current.mode == Editing || current.mode == Processing)
    ensures Successor(current, LaunchTarget(event).value) <==> current == EditingComplete || current == ProcessingLaunching
  {
  }

  // ---- Job states ----

  predicate StopsListening(jobState: Option<Json>) {
    IsString(jobState, "completed") || IsString(jobState, "cancelled")
    || IsString(jobState, "suspend") || IsString(jobState, "error")
  }

  /**
   * The state a job status (its `job_state` field) leads to from the current
   * state, or the error it throws. An error keeps the stage of the current
   * state when it has one.
   */
  function JobTarget(jobState: Option<Json>, current: Tag): (r: Result<Tag, Failure>)
    ensures r == Ok(ProcessingQueued) <==> IsString(jobState, "queued")
    ensures r == Ok(ProcessingRunning) <==> IsString(jobState, "job_started") || IsString(jobState, "in-progress")
    ensures r == Ok(SuccessTag) <==> IsString(jobState, "completed") || IsString(jobState, "cancelled")
    ensures IsString(jobState, "suspend") || IsString(jobState, "error") <==> r.Ok? && r.value.mode == Error
    ensures r.Ok? && r.value.mode == Error ==> r.value == Tag(Error, None, None, current.stage)
    ensures r.Err? <==>
      !(|| IsString(jobState, "queued") || IsString(jobState, "job_started") || IsString(jobState, "in-progress")
        || IsString(jobState, "completed") || IsString(jobState, "cancelled")
        || IsString(jobState, "suspend") || IsString(jobState, "error"))
    ensures r.Err? ==> r.error == Thrown("Invalid job state " + StringOf(jobState))
  {
    if IsString(jobState, "queued") then Ok(ProcessingQueued)
    else if IsString(jobState, "job_started") || IsString(jobState, "in-progress") then Ok(ProcessingRunning)
    else if IsString(jobState, "completed") || IsString(jobState, "cancelled") then Ok(SuccessTag)
    else if IsString(jobState, "suspend") || IsString(jobState, "error") then
      Ok(if current.stage.Some? then StageTag(Error, current.stage.value) else ErrorTag)
    else Err(Thrown("Invalid job state " + StringOf(jobState)))
  }

  /** From a defined state every job-status target is itself a defined state. */
  lemma JobTargetDefined(jobState: Option<Json>, current: Tag)
    requires Defined(current) && JobTarget(jobState, current).Ok?
    ensures Defined(JobTarget(jobState, current).value)
  {
  }

  /**
   * While processing, every job status leads to a legal successor except one:
   * a `queued` status while running asks for the queued state, which the
   * running state does not list.
   */
  lemma JobTargetLegality(jobState: Option<Json>, current: Tag)
    requires Defined(current) && current.mode == Processing
    requires JobTarget(jobState, current).Ok?
    ensures Successor(current, JobTarget(jobState, current).value)
      <==> !(current == ProcessingRunning && IsString(jobState, "queued"))
  {
  }

  /**
   * Once the job has succeeded, a repeated `completed` is accepted, but an
   * `error` status asks for the plain error state, which success does not list.
   */
  lemma ErrorAfterSuccessRefused()
    ensures JobTarget(Some(JStr("completed")), SuccessTag) == Ok(SuccessTag)
    ensures Successor(SuccessTag, SuccessTag)
    ensures JobTarget(Some(JStr("error")), SuccessTag) == Ok(ErrorTag)
    ensures !Successor(SuccessTag, ErrorTag)
  {
  }

  // ---- Model validation ----

  /** What the cell reads of a parameter specification. */
  datatype ParamSpec = ParamSpec(id: string, dataType: string, required: bool, fieldType: string)

  /** A `required-missing` validation error. */
  datatype ValidationError = RequiredMissing(errorMessage: string)

  datatype Validation = Validation(isValid: bool, errors: seq<ValidationError>)

  function MissingError(p: ParamSpec): ValidationError {
    RequiredMissing("The " + p.dataType + " \"" + p.id + "\" is required but was not provided")
  }

  /**
   * A required parameter whose value is empty. What counts as empty belongs to
   * the parameter specification, so it is a parameter of the model.
   */
  predicate IsMissing(p: ParamSpec, params: seq<Member>, isEmpty: (ParamSpec, Option<Json>) -> bool) {
    p.required && isEmpty(p, Field(params, p.id))
  }

  /** One error per parameter for which `missing` holds, in the order of the specifications. */
  function RequiredErrors(parameters: seq<ParamSpec>, missing: ParamSpec -> bool): (errors: seq<ValidationError>)
    ensures |errors| <= |parameters|
    ensures |errors| == 0 <==> forall i :: 0 <= i < |parameters| ==> !missing(parameters[i])
  {
    if |parameters| == 0 then []
    else
      var rest := RequiredErrors(parameters[1..], missing);
      assert forall i :: 1 <= i < |parameters| ==> parameters[i] == parameters[1..][i - 1];
      if missing(parameters[0]) then [MissingError(parameters[0])] + rest else rest
  }

  /** The model is valid exactly when no required parameter is empty. */
  function ValidateModel(parameters: seq<ParamSpec>, params: seq<Member>, isEmpty: (ParamSpec, Option<Json>) -> bool): (v: Validation)
    ensures v.isValid <==> forall i :: 0 <= i < |parameters| ==> !IsMissing(parameters[i], params, isEmpty)
    ensures v.isValid <==> |v.errors| == 0
  {
    var errors := RequiredErrors(parameters, p => IsMissing(p, params, isEmpty));
    Validation(|errors| == 0, errors)
  }

  /** `errors[k]` is the error of the parameter at `idx[k]`, for which `missing` holds. */
  predicate ErrorsAt(parameters: seq<ParamSpec>, missing: ParamSpec -> bool, idx: seq<nat>, errors: seq<ValidationError>) {
    && |idx| == |errors|
    && forall k :: 0 <= k < |idx| ==>
         (idx[k] < |parameters| && missing(parameters[idx[k]]) && errors[k] == MissingError(parameters[idx[k]]))
  }

  predicate Increasing(idx: seq<nat>) {
    forall k, l :: 0 <= k < l < |idx| ==> idx[k] < idx[l]
  }

  /** Every position whose parameter is missing is in `idx`. */
  predicate CoversMissing(parameters: seq<ParamSpec>, missing: ParamSpec -> bool, idx: seq<nat>) {
    forall i :: 0 <= i < |parameters| && missing(parameters[i]) ==> i in idx
  }

  /**
   * The errors are those of the missing parameters, one each, in the order of
   * the specifications: `idx` gives, for each error, the position of its
   * parameter, increasing, and holds every missing position.
   */
  lemma {:induction false} RequiredErrorsInOrder(parameters: seq<ParamSpec>, missing: ParamSpec -> bool)
    returns (idx: seq<nat>)
    ensures ErrorsAt(parameters, missing, idx, RequiredErrors(parameters, missing))
    ensures Increasing(idx)
    ensures CoversMissing(parameters, missing, idx)
  {
    if |parameters| == 0 {
      idx := [];
      return;
    }
    var tail := RequiredErrorsInOrder(parameters[1..], missing);
    var shifted := Shift(tail);
    var restErrors := RequiredErrors(parameters[1..], missing);
    ShiftedPositions(parameters, missing, tail, restErrors);
    if missing(parameters[0]) {
      idx := [0] + shifted;
      PrependFirst(parameters, missing, shifted, restErrors);
    } else {
      idx := shifted;
      assert RequiredErrors(parameters, missing) == restErrors;
      forall i | 0 <= i < |parameters| && missing(parameters[i]) ensures i in idx {
        assert i != 0;
      }
    }
  }

  /** Every position moved one place on. */
  function Shift(idx: seq<nat>): (r: seq<nat>)
    ensures |r| == |idx| && forall k :: 0 <= k < |idx| ==> r[k] == idx[k] + 1
  {
    seq(|idx|, k requires 0 <= k < |idx| => idx[k] + 1)
  }

  /** Positions in the rest of the specifications, moved one place on, are positions in them all. */
  lemma ShiftedPositions(parameters: seq<ParamSpec>, missing: ParamSpec -> bool, tail: seq<nat>, errors: seq<ValidationError>)
    requires |parameters| >= 1
    requires ErrorsAt(parameters[1..], missing, tail, errors)
    requires Increasing(tail)
    requires CoversMissing(parameters[1..], missing, tail)
    ensures ErrorsAt(parameters, missing, Shift(tail), errors)
    ensures Increasing(Shift(tail))
    ensures forall i :: 1 <= i < |parameters| && missing(parameters[i]) ==> i in Shift(tail)
  {
    var rest := parameters[1..];
    var shifted := Shift(tail);
    forall k | 0 <= k < |shifted|
      ensures shifted[k] < |parameters| && missing(parameters[shifted[k]])
        && errors[k] == MissingError(parameters[shifted[k]])
    {
      assert parameters[shifted[k]] == rest[tail[k]];
    }
    forall k, l | 0 <= k < l < |shifted| ensures shifted[k] < shifted[l] {
      assert tail[k] < tail[l];
    }
    forall i | 1 <= i < |parameters| && missing(parameters[i])
      ensures i in shifted
    {
      assert rest[i - 1] == parameters[i];
      assert i - 1 in tail;
      var k :| 0 <= k < |tail| && tail[k] == i - 1;
      assert shifted[k] == i;
    }
  }

  /** A missing first parameter puts its error, at position 0, before the others. */
  lemma PrependFirst(parameters: seq<ParamSpec>, missing: ParamSpec -> bool, shifted: seq<nat>, restErrors: seq<ValidationError>)
    requires |parameters| >= 1 && missing(parameters[0])
    requires restErrors == RequiredErrors(parameters[1..], missing)
    requires ErrorsAt(parameters, missing, shifted, restErrors)
    requires Increasing(shifted)
    requires forall k :: 0 <= k < |shifted| ==> shifted[k] >= 1
    requires forall i :: 1 <= i < |parameters| && missing(parameters[i]) ==> i in shifted
    ensures ErrorsAt(parameters, missing, [0] + shifted, RequiredErrors(parameters, missing))
    ensures Increasing([0] + shifted)
    ensures CoversMissing(parameters, missing, [0] + shifted)
  {
    assert RequiredErrors(parameters, missing) == [MissingError(parameters[0])] + restErrors;
    PrependErrors(parameters, missing, shifted, restErrors);
    PrependIncreasing(shifted);
    PrependCovers(parameters, missing, shifted);
  }

  lemma PrependErrors(parameters: seq<ParamSpec>, missing: ParamSpec -> bool, shifted: seq<nat>, restErrors: seq<ValidationError>)
    requires |parameters| >= 1 && missing(parameters[0])
    requires ErrorsAt(parameters, missing, shifted, restErrors)
    ensures ErrorsAt(parameters, missing, [0] + shifted, [MissingError(parameters[0])] + restErrors)
  {
    var idx := [0] + shifted;
    var errors := [MissingError(parameters[0])] + restErrors;
    forall k | 0 <= k < |idx|
      ensures idx[k] < |parameters| && missing(parameters[idx[k]]) && errors[k] == MissingError(parameters[idx[k]])
    {
      if k > 0 {
        assert idx[k] == shifted[k - 1] && errors[k] == restErrors[k - 1];
      }
    }
  }

  lemma PrependIncreasing(shifted: seq<nat>)
    requires Increasing(shifted)
    requires forall k :: 0 <= k < |shifted| ==> shifted[k] >= 1
    ensures Increasing([0] + shifted)
  {
    var idx := [0] + shifted;
    forall k, l | 0 <= k < l < |idx| ensures idx[k] < idx[l] {
      assert idx[l] == shifted[l - 1];
      if k > 0 {
        assert idx[k] == shifted[k - 1];
      }
    }
  }

  lemma PrependCovers(parameters: seq<ParamSpec>, missing: ParamSpec -> bool, shifted: seq<nat>)
    requires |parameters| >= 1
    requires forall i :: 1 <= i < |parameters| && missing(parameters[i]) ==> i in shifted
    ensures CoversMissing(parameters, missing, [0] + shifted)
  {
    var idx := [0] + shifted;
    forall i | 0 <= i < |parameters| && missing(parameters[i]) ensures i in idx {
      if i > 0 {
        assert i in shifted;
      }
    }
  }

  /** The errors of a validation, in the terms of the parameters and their values. */
  lemma ValidationErrorsInOrder(parameters: seq<ParamSpec>, params: seq<Member>, isEmpty: (ParamSpec, Option<Json>) -> bool)
    returns (idx: seq<nat>)
    ensures var missing := p => IsMissing(p, params, isEmpty);
      && ErrorsAt(parameters, missing, idx, ValidateModel(parameters, params, isEmpty).errors)
      && Increasing(idx)
      && CoversMissing(parameters, missing, idx)
  {
    idx := RequiredErrorsInOrder(parameters, p => IsMissing(p, params, isEmpty));
  }

  // ---- The app identity ----

  /** The app as the cell model stores it; a `None` field is absent. */
  datatype App = App(id: string, tag: Option<string>, version: Option<string>)

  /** The identity handed to the app runner: a version only for released apps. */
  datatype FixedApp = FixedApp(id: string, tag: string, version: Option<string>)

  /** The canonical identity of an app, or the error thrown for an unknown release tag. */
  function FixApp(app: App): (r: Result<FixedApp, Failure>)
    ensures r.Ok? <==> app.tag in {Some("release"), Some("beta"), Some("dev")}
    ensures r.Ok? ==> r.value.id == app.id && Some(r.value.tag) == app.tag
    ensures r.Ok? ==> r.value.version == (if app.tag == Some("release") then app.version else None)
    ensures r.Err? ==> r.error == Thrown("Invalid tag for app " + app.id)
  {
    if app.tag == Some("release") then Ok(FixedApp(app.id, "release", app.version))
    else if app.tag == Some("beta") || app.tag == Some("dev") then Ok(FixedApp(app.id, app.tag.value, None))
    else Err(Thrown("Invalid tag for app " + app.id))
  }

  /** The fixed identity read back as an app. */
  function Unfix(f: FixedApp): App {
    App(f.id, Some(f.tag), f.version)
  }

  /** Fixing is idempotent: a fixed identity is already canonical. */
  lemma FixAppIdempotent(app: App)
    requires FixApp(app).Ok?
    ensures FixApp(Unfix(FixApp(app).value)) == FixApp(app)
  {
  }

  // ---- Exported parameters ----

  /** A `textsubdata` array travels as its comma-joined text; every other value as it is. */
  function ExportedValue(spec: ParamSpec, v: Json): Json {
    if spec.fieldType == "textsubdata" && v.JArr? then JStr(ToJsString(v)) else v
  }

  /**
   * The parameters handed to the app runner: every parameter with its value
   * exported, or a TypeError when one of them has no specification.
   */
  function Export(params: seq<Member>, parameterMap: map<string, ParamSpec>): (r: Result<seq<Member>, Failure>)
    ensures r.Ok? <==> forall i :: 0 <= i < |params| ==> params[i].key in parameterMap
    ensures r.Ok? ==> Keys(r.value) == Keys(params)
    ensures r.Ok? ==> |r.value| == |params| && forall i :: 0 <= i < |params| ==>
      r.value[i] == Member(params[i].key, ExportedValue(parameterMap[params[i].key], params[i].value))
    ensures r.Err? ==> r.error == TypeError
  {
    if forall i :: 0 <= i < |params| ==> params[i].key in parameterMap then
      var out := seq(|params|, i requires 0 <= i < |params| && params[i].key in parameterMap =>
        Member(params[i].key, ExportedValue(parameterMap[params[i].key], params[i].value)));
      assert Keys(out) == Keys(params);
      Ok(out)
    else Err(TypeError)
  }

  /** Fills the exported parameters key by key, in the order of the parameters. */
  method ExportParams(params: seq<Member>, parameterMap: map<string, ParamSpec>) returns (r: Result<seq<Member>, Failure>)
    ensures r == Export(params, parameterMap)
  {
    var out: seq<Member> := [];
    for i := 0 to |params|
      invariant |out| == i
      invariant forall j :: 0 <= j < i ==>
        (params[j].key in parameterMap
         && out[j] == Member(params[j].key, ExportedValue(parameterMap[params[j].key], params[j].value)))
    {
      var key := params[i].key;
      if key !in parameterMap {
        assert !(forall j :: 0 <= j < |params| ==> params[j].key in parameterMap);
        return Err(TypeError);
      }
      out := out + [Member(key, ExportedValue(parameterMap[key], params[i].value))];
    }
    assert Export(params, parameterMap).Ok?;
    assert out == Export(params, parameterMap).value;
    r := Ok(out);
  }

  /**
   * A sub-data selection exported for the runner splits back on `,` into the
   * selected ids, provided no id contains a comma.
   */
  lemma ExportedSubdataSplitsBack(spec: ParamSpec, ids: seq<string>)
    requires spec.fieldType == "textsubdata" && |ids| >= 1
    requires forall i :: 0 <= i < |ids| ==> ',' !in ids[i]
    ensures ExportedValue(spec, Strings(ids)).JStr?
    ensures Split(ExportedValue(spec, Strings(ids)).s, ',') == ids
  {
    JoinStrings(ids);
    SplitJoin(ids, ',');
  }

  // ---- Output parameters ----

  /** What the cell reads of a parameter of the app specification. */
  datatype AppParam = AppParam(id: string, textOptions: Option<Json>)

  /** A parameter whose text options carry `is_output_name === 1`. */
  predicate IsOutputName(p: AppParam) {
    OptTruthy(p.textOptions) && Property(p.textOptions.value, "is_output_name") == Some(JNum(1))
  }

  predicate IsOutputParam(appParams: seq<AppParam>, key: string) {
    exists i :: 0 <= i < |appParams| && appParams[i].id == key && IsOutputName(appParams[i])
  }

  datatype OutputName = OutputName(param: string, objectName: Json)

  /** The parameters of the cell that name output objects, in the order of the cell's parameters. */
  function OutputParams(appParams: seq<AppParam>, params: seq<Member>): (r: seq<OutputName>)
    ensures |r| <= |params|
    ensures forall k :: 0 <= k < |r| ==> Member(r[k].param, r[k].objectName) in params && IsOutputParam(appParams, r[k].param)
    ensures forall i :: 0 <= i < |params| && IsOutputParam(appParams, params[i].key) ==> OutputName(params[i].key, params[i].value) in r
  {
    if |params| == 0 then []
    else
      var rest := OutputParams(appParams, params[1..]);
      assert forall i :: 1 <= i < |params| ==> params[i] == params[1..][i - 1];
      if IsOutputParam(appParams, params[0].key) then [OutputName(params[0].key, params[0].value)] + rest else rest
  }

  /** Output parameters keep the order of the cell's parameters: the first one comes first. */
  lemma OutputParamsHead(appParams: seq<AppParam>, params: seq<Member>)
    requires |params| >= 1 && IsOutputParam(appParams, params[0].key)
    ensures OutputParams(appParams, params)[0] == OutputName(params[0].key, params[0].value)
  {
  }

  /** Filtering a concatenation filters each part: the output parameters keep order and multiplicity. */
  lemma {:induction false} OutputParamsAppend(appParams: seq<AppParam>, p: seq<Member>, q: seq<Member>)
    ensures OutputParams(appParams, p + q) == OutputParams(appParams, p) + OutputParams(appParams, q)
    decreases |p|
  {
    if |p| > 0 {
      assert (p + q)[1..] == p[1..] + q;
      OutputParamsAppend(appParams, p[1..], q);
    } else {
      assert p + q == q;
    }
  }

  /** A single parameter is kept exactly when it names an output. */
  lemma OutputParamsSingle(appParams: seq<AppParam>, m: Member)
    ensures OutputParams(appParams, [m]) == if IsOutputParam(appParams, m.key) then [OutputName(m.key, m.value)] else []
  {
  }

  // ---- Output object references ----

  datatype OutputRef = OutputRef(param: string, name: Json, ref: string)

  function NotFoundMessage(o: OutputName): string {
    "Output object " + StringOf(Some(o.objectName)) + " specified in param " + o.param + " was not found in this workspace"
  }

  /**
   * The reference of each output object, from the object infos the workspace
   * returned for them (one per output, `None` for a missing object). A missing
   * object throws; an info beyond the outputs reads a property of undefined.
   */
  function OutputObjectRefs(outputs: seq<OutputName>, results: seq<Option<ObjectInfo>>): (r: Result<seq<OutputRef>, Failure>)
    ensures r.Ok? <==> |results| <= |outputs| && forall i :: 0 <= i < |results| ==> results[i].Some?
    ensures r.Ok? ==> |r.value| == |results|
    ensures r.Ok? ==> forall i :: 0 <= i < |results| ==>
      r.value[i] == OutputRef(outputs[i].param, outputs[i].objectName, Ref(results[i].value))
    decreases |results|
  {
    if |results| == 0 then Ok([])
    else if results[0].None? then
      if |outputs| == 0 then Err(TypeError) else Err(Thrown(NotFoundMessage(outputs[0])))
    else if |outputs| == 0 then Err(TypeError)
    else
      var rest := OutputObjectRefs(outputs[1..], results[1..]);
      assert forall i :: 1 <= i < |results| ==> results[i] == results[1..][i - 1];
      if rest.Err? then Err(rest.error)
      else Ok([OutputRef(outputs[0].param, outputs[0].objectName, Ref(results[0].value))] + rest.value)
  }

  /**
   * A failure comes from the first result that cannot be mapped, at index
   * `i`: a missing object named by an output is reported as not found, and a
   * result beyond the outputs reads a property of undefined.
   */
  lemma {:induction false} OutputObjectRefsFailure(outputs: seq<OutputName>, results: seq<Option<ObjectInfo>>) returns (i: nat)
    requires OutputObjectRefs(outputs, results).Err?
    ensures i < |results| && i <= |outputs|
    ensures forall j :: 0 <= j < i ==> results[j].Some?
    ensures i < |outputs| ==> results[i].None? && OutputObjectRefs(outputs, results).error == Thrown(NotFoundMessage(outputs[i]))
    ensures i >= |outputs| ==> OutputObjectRefs(outputs, results).error == TypeError
    decreases |results|
  {
    if results[0].None? || |outputs| == 0 {
      i := 0;
    } else {
      assert OutputObjectRefs(outputs, results) == OutputObjectRefs(outputs[1..], results[1..]);
      var k := OutputObjectRefsFailure(outputs[1..], results[1..]);
      i := k + 1;
      assert results[i] == results[1..][k];
      assert i < |outputs| ==> outputs[i] == outputs[1..][k];
      forall j | 1 <= j < i
        ensures results[j].Some?
      {
        assert results[j] == results[1..][j - 1];
      }
    }
  }

  // ---- Resuming a saved cell ----

  /**
   * Whether a cell loaded with saved state `saved` starts listening for job
   * messages: an editing, launching or processing mode whose stage is queued or
   * running. (No state of the table has a launching mode.)
   */
  predicate ListensOnResume(saved: Option<Tag>) {
    && saved.Some?
    && (saved.value.mode == Editing || saved.value.mode == Processing)
    && (saved.value.stage == Some(Queued) || saved.value.stage == Some(Running))
  }

  /** Of the states of the table, exactly the queued and running processing states resume listening. */
  lemma ResumeListensWhileJobActive(t: Tag)
    requires Defined(t)
    ensures ListensOnResume(Some(t)) <==> t == ProcessingQueued || t == ProcessingRunning
  {
  }

  /** The `exec.jobState.job_id` the cell reads, undefined when any step of the path is missing. */
  function JobIdOf(jobState: Option<Json>): (r: Option<Json>)
    ensures jobState.Some? && jobState.value.JObj? ==> r == Field(jobState.value.members, "job_id")
    ensures !(jobState.Some? && jobState.value.JObj?) ==> r.None?
  {
    if jobState.Some? && jobState.value.JObj? then Field(jobState.value.members, "job_id") else None
  }
}
