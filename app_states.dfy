/**
 * The lifecycle table of an app cell: twelve state definitions, each a tag
 * (a set of dimension/value pairs), the controls and panels the state shows,
 * and the tags that may legally follow it. The transition check of the state
 * machine is stated over this table.
 */
module AppStates {
  import opened Wrappers

  /** The values the `mode`, `params`, `code` and `stage` dimensions take in the table. */
  datatype Mode = New | FatalError | Editing | Processing | Success | Error
  datatype Params = Incomplete | Complete
  datatype Code = Built
  datatype Stage = Launching | Queued | Running

  /** The text of a mode, as it is stored in cell metadata. */
  function ModeName(m: Mode): string {
    match m
    case New => "new"
    case FatalError => "fatal-error"
    case Editing => "editing"
    case Processing => "processing"
    case Success => "success"
    case Error => "error"
  }

  function StageName(s: Stage): string {
    match s
    case Launching => "launching"
    case Queued => "queued"
    case Running => "running"
  }

  /**
   * A state tag. An absent dimension is `None`, so two tags are equal exactly
   * when they have the same dimensions with the same values.
   */
  datatype Tag = Tag(mode: Mode, params: Option<Params>, code: Option<Code>, stage: Option<Stage>)

  function ModeTag(mode: Mode): Tag {
    Tag(mode, None, None, None)
  }

  function StageTag(mode: Mode, stage: Stage): Tag {
    Tag(mode, None, None, Some(stage))
  }

  const NewTag := ModeTag(New)
  const FatalErrorTag := ModeTag(FatalError)
  const EditingIncomplete := Tag(Editing, Some(Incomplete), None, None)
  const EditingComplete := Tag(Editing, Some(Complete), Some(Built), None)
  const ProcessingLaunching := StageTag(Processing, Launching)
  const ProcessingQueued := StageTag(Processing, Queued)
  const ProcessingRunning := StageTag(Processing, Running)
  const SuccessTag := ModeTag(Success)
  const ErrorLaunching := StageTag(Error, Launching)
  const ErrorQueued := StageTag(Error, Queued)
  const ErrorRunning := StageTag(Error, Running)
  const ErrorTag := ModeTag(Error)

  /** The controls (`run-app`, `re-run-app`, `cancel`) and panels the definitions name. */
  datatype Control = RunApp | ReRunApp | Cancel
  datatype Panel = FatalErrorPanel | ParametersGroup | OutputGroup | ParametersDisplayGroup | ExecGroup

  datatype Buttons = Buttons(enabled: seq<Control>, disabled: seq<Control>, hidden: seq<Control>)
  datatype Elements = Elements(show: seq<Panel>, hide: seq<Panel>)
  datatype Ui = Ui(buttons: Buttons, elements: Elements)

  /** A state definition; `enter` and `resume` list the messages the definition declares for those events. */
  datatype StateDef = StateDef(state: Tag, ui: Ui, enter: seq<string>, resume: seq<string>, next: seq<Tag>)

  const RunDisabled := Buttons([], [RunApp], [ReRunApp, Cancel])
  const RunEnabled := Buttons([RunApp], [], [ReRunApp, Cancel])
  const CancelEnabled := Buttons([Cancel], [], [RunApp, ReRunApp])
  const ReRunEnabled := Buttons([ReRunApp], [], [RunApp, Cancel])

  const EditingPanels := Elements([ParametersGroup, OutputGroup], [FatalErrorPanel, ParametersDisplayGroup, ExecGroup])
  const ExecPanels := Elements([ParametersDisplayGroup, ExecGroup, OutputGroup], [ParametersGroup])

  /** The definitions of the table, one function per entry. */
  function NewDef(): StateDef {
    StateDef(NewTag,
      Ui(RunDisabled, Elements([], [FatalErrorPanel, ParametersGroup, OutputGroup, ParametersDisplayGroup, ExecGroup])),
      [], [],
      [FatalErrorTag, EditingIncomplete])
  }

  function FatalErrorDef(): StateDef {
    StateDef(FatalErrorTag,
      Ui(RunDisabled, Elements([FatalErrorPanel], [ParametersGroup, OutputGroup, ParametersDisplayGroup, ExecGroup])),
      [], [],
      [])
  }

  function EditingIncompleteDef(): StateDef {
    StateDef(EditingIncomplete, Ui(RunDisabled, EditingPanels), [], [],
      [EditingComplete, EditingIncomplete])
  }

  function EditingCompleteDef(): StateDef {
    StateDef(EditingComplete, Ui(RunEnabled, EditingPanels), [], [],
      [EditingIncomplete, EditingComplete, ProcessingLaunching, ProcessingQueued, ProcessingRunning,
       SuccessTag, ErrorLaunching, ErrorQueued, ErrorRunning, ErrorTag])
  }

  function ProcessingLaunchingDef(): StateDef {
    StateDef(ProcessingLaunching, Ui(CancelEnabled, ExecPanels),
      ["sync-all-display-parameters"], ["sync-all-display-parameters"],
      [ProcessingLaunching, ProcessingQueued, ProcessingRunning, SuccessTag, ErrorLaunching, EditingComplete])
  }

  function ProcessingQueuedDef(): StateDef {
    StateDef(ProcessingQueued, Ui(CancelEnabled, ExecPanels), [], [],
      [ProcessingRunning, ProcessingQueued, SuccessTag, ErrorQueued, EditingComplete])
  }

  function ProcessingRunningDef(): StateDef {
    StateDef(ProcessingRunning, Ui(CancelEnabled, ExecPanels), [], [],
      [ProcessingRunning, SuccessTag, ErrorRunning, EditingComplete])
  }

  function SuccessDef(): StateDef {
    StateDef(SuccessTag, Ui(ReRunEnabled, ExecPanels), ["on-success"], [],
      [SuccessTag, EditingComplete])
  }

  function ErrorLaunchingDef(): StateDef {
    StateDef(ErrorLaunching, Ui(ReRunEnabled, ExecPanels), [], [], [ErrorLaunching, EditingComplete])
  }

  function ErrorQueuedDef(): StateDef {
    StateDef(ErrorQueued, Ui(ReRunEnabled, ExecPanels), [], [], [ErrorQueued, EditingComplete])
  }

  function ErrorRunningDef(): StateDef {
    StateDef(ErrorRunning, Ui(ReRunEnabled, ExecPanels), [], [], [ErrorRunning, EditingComplete])
  }

  /** The plain error state. */
  function ErrorDef(): StateDef {
    StateDef(ErrorTag, Ui(ReRunEnabled, ExecPanels), [], [], [ErrorTag, EditingComplete])
  }

  /** The table, in its source order. */
  function Table(): seq<StateDef> {
    [NewDef(), FatalErrorDef(), EditingIncompleteDef(), EditingCompleteDef(),
     ProcessingLaunchingDef(), ProcessingQueuedDef(), ProcessingRunningDef(), SuccessDef(),
     ErrorLaunchingDef(), ErrorQueuedDef(), ErrorRunningDef(), ErrorDef()]
  }

  /**
   * The definition whose tag equals `t` on every dimension, or `None` when the
   * state machine would raise an unknown-state error.
   */
  function Lookup(t: Tag): (r: Option<StateDef>)
    ensures r.Some? ==> r.value.state == t
  {
    if t == NewTag then Some(NewDef())
    else if t == FatalErrorTag then Some(FatalErrorDef())
    else if t == EditingIncomplete then Some(EditingIncompleteDef())
    else if t == EditingComplete then Some(EditingCompleteDef())
    else if t == ProcessingLaunching then Some(ProcessingLaunchingDef())
    else if t == ProcessingQueued then Some(ProcessingQueuedDef())
    else if t == ProcessingRunning then Some(ProcessingRunningDef())
    else if t == SuccessTag then Some(SuccessDef())
    else if t == ErrorLaunching then Some(ErrorLaunchingDef())
    else if t == ErrorQueued then Some(ErrorQueuedDef())
    else if t == ErrorRunning then Some(ErrorRunningDef())
    else if t == ErrorTag then Some(ErrorDef())
    else None
  }

  predicate Defined(t: Tag) {
    Lookup(t).Some?
  }

  /** `to` may follow `from`: it is listed in the `next` list of `from`'s definition. */
  predicate Successor(from: Tag, to: Tag) {
    Defined(from) && to in Lookup(from).value.next
  }

  /**
   * Lookup is a search of the table by full-tag equality: a tag has a definition
   * exactly when some entry carries it, and then it is that entry (the entries'
   * tags being pairwise distinct).
   */
  lemma LookupSearchesTable(t: Tag)
    ensures Defined(t) <==> exists i :: 0 <= i < |Table()| && Table()[i].state == t
    ensures forall i :: 0 <= i < |Table()| && Table()[i].state == t ==> Lookup(t) == Some(Table()[i])
  {
    if Defined(t) {
      var i: nat :|
        i < |Table()| && Table()[i] == Lookup(t).value by {
        if t == NewTag { assert Table()[0] == NewDef(); }
        else if t == FatalErrorTag { assert Table()[1] == FatalErrorDef(); }
        else if t == EditingIncomplete { assert Table()[2] == EditingIncompleteDef(); }
        else if t == EditingComplete { assert Table()[3] == EditingCompleteDef(); }
        else if t == ProcessingLaunching { assert Table()[4] == ProcessingLaunchingDef(); }
        else if t == ProcessingQueued { assert Table()[5] == ProcessingQueuedDef(); }
        else if t == ProcessingRunning { assert Table()[6] == ProcessingRunningDef(); }
        else if t == SuccessTag { assert Table()[7] == SuccessDef(); }
        else if t == ErrorLaunching { assert Table()[8] == ErrorLaunchingDef(); }
        else if t == ErrorQueued { assert Table()[9] == ErrorQueuedDef(); }
        else if t == ErrorRunning { assert Table()[10] == ErrorRunningDef(); }
        else { assert Table()[11] == ErrorDef(); }
      }
      forall j | 0 <= j < |Table()| && Table()[j].state == t
        ensures Lookup(t) == Some(Table()[j])
      {
        TagsDistinct();
      }
    } else {
      forall j | 0 <= j < |Table()|
        ensures Table()[j].state != t
      {
        TableEntryDefined(j);
      }
    }
  }

  /** The tags of the twelve entries are pairwise distinct. */
  lemma TagsDistinct()
    ensures forall i, j :: 0 <= i < j < |Table()| ==> Table()[i].state != Table()[j].state
  {
  }

  /** Every entry of the table is what looking up its own tag yields. */
  lemma TableEntryDefined(i: nat)
    requires i < |Table()|
    ensures Lookup(Table()[i].state) == Some(Table()[i])
  {
  }

  /** The table is closed: every listed successor has a definition of its own. */
  lemma TableClosed(from: Tag, to: Tag)
    requires Successor(from, to)
    ensures Defined(to)
  {
    NextListsNameTableTags(from);
    TableTagsDefined(to);
  }

  /** The tags of the twelve entries, in table order. */
  const TableTags: seq<Tag> := [NewTag, FatalErrorTag, EditingIncomplete, EditingComplete,
    ProcessingLaunching, ProcessingQueued, ProcessingRunning, SuccessTag,
    ErrorLaunching, ErrorQueued, ErrorRunning, ErrorTag]

  lemma NextListsNameTableTags(from: Tag)
    requires Defined(from)
    ensures forall to :: to in Lookup(from).value.next ==> to in TableTags
  {
  }

  lemma TableTagsDefined(t: Tag)
    requires t in TableTags
    ensures Defined(t)
  {
  }

  /** No transition leaves the fatal-error state. */
  lemma FatalErrorIsTerminal(to: Tag)
    ensures !Successor(FatalErrorTag, to)
  {
  }

  /** The fatal-error state can only be entered from the new state. */
  lemma FatalErrorOnlyFromNew(from: Tag)
    ensures Successor(from, FatalErrorTag) <==> from == NewTag
  {
  }

  /** The elements of a sequence, as a set. */
  function Elems<T>(xs: seq<T>): set<T>
  {
    set x | x in xs
  }

  const Controls: set<Control> := {RunApp, ReRunApp, Cancel}
  const Panels: set<Panel> := {FatalErrorPanel, ParametersGroup, OutputGroup, ParametersDisplayGroup, ExecGroup}

  /** The three button lists share no control and together name every control once. */
  predicate Partitioned(b: Buttons) {
    && Elems(b.enabled) !! Elems(b.disabled)
    && Elems(b.enabled) !! Elems(b.hidden)
    && Elems(b.disabled) !! Elems(b.hidden)
    && Elems(b.enabled) + Elems(b.disabled) + Elems(b.hidden) == Controls
  }

  /** In every state each control is exactly one of enabled, disabled or hidden. */
  lemma ButtonsPartitioned(t: Tag)
    requires Defined(t)
    ensures Partitioned(Lookup(t).value.ui.buttons)
  {
    var b := Lookup(t).value.ui.buttons;
    forall c: Control
      ensures c in Elems(b.enabled) + Elems(b.disabled) + Elems(b.hidden) <==> c in Controls
    {
      assert c.RunApp? || c.ReRunApp? || c.Cancel?;
    }
  }

  /** `run-app` is enabled in the complete, built editing state and nowhere else. */
  lemma RunAppEnabledOnlyWhenBuilt(t: Tag)
    requires Defined(t)
    ensures RunApp in Lookup(t).value.ui.buttons.enabled <==> t == EditingComplete
  {
  }

  /** `cancel` is enabled exactly in the three processing states. */
  lemma CancelEnabledOnlyWhileProcessing(t: Tag)
    requires Defined(t)
    ensures Cancel in Lookup(t).value.ui.buttons.enabled <==> t.mode == Processing
  {
  }

  /** No state both shows and hides a panel. */
  lemma ShowHideDisjoint(t: Tag)
    requires Defined(t)
    ensures Elems(Lookup(t).value.ui.elements.show) !! Elems(Lookup(t).value.ui.elements.hide)
  {
  }

  /**
   * Both targets of the app-state evaluation are legal from both editing
   * states, and the new state may be promoted to the incomplete editing state.
   */
  lemma EditingTargetsLegal(from: Tag)
    requires from == EditingIncomplete || from == EditingComplete
    ensures Successor(from, EditingComplete) && Successor(from, EditingIncomplete)
  {
  }

  lemma NewPromotesToEditing()
    ensures Successor(NewTag, EditingIncomplete)
  {
  }

  /** The reset target is legal from every processing, success and error state. */
  lemma ResetTargetLegal(t: Tag)
    requires Defined(t)
    requires t.mode == Processing || t.mode == Success || t.mode == Error
    ensures Successor(t, EditingComplete)
  {
  }

  /** A path through the table: each tag is a legal successor of the one before it. */
  predicate IsPath(p: seq<Tag>) {
    forall k :: 0 < k < |p| ==> Successor(p[k - 1], p[k])
  }

  ghost predicate Reachable(t: Tag) {
    exists p :: |p| >= 1 && p[0] == NewTag && p[|p| - 1] == t && IsPath(p)
  }

  /** Every definition of the table can be reached from the new state. */
  lemma EveryStateReachable(t: Tag)
    requires Defined(t)
    ensures Reachable(t)
  {
    if t == NewTag {
      assert IsPath([NewTag]);
    } else if t == FatalErrorTag {
      assert IsPath([NewTag, FatalErrorTag]);
    } else {
      EditingCompleteReaches(t);
      EditingTargetsLegal(EditingIncomplete);
      NewPromotesToEditing();
      ThreeStepPath(NewTag, EditingIncomplete, EditingComplete, t);
    }
  }

  /** The complete editing state may be followed by every state other than new and fatal-error. */
  lemma EditingCompleteReaches(t: Tag)
    requires Defined(t) && t != NewTag && t != FatalErrorTag
    ensures Successor(EditingComplete, t)
  {
  }

  lemma ThreeStepPath(a: Tag, b: Tag, c: Tag, d: Tag)
    requires Successor(a, b) && Successor(b, c) && Successor(c, d)
    ensures IsPath([a, b, c, d])
  {
  }
}
