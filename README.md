# App cell state machine and subdata input, modelled in Dafny

This project models two parts of a notebook extension that runs apps in
narrative cells.

The first is the **app cell widget** (`appCellWidget.js`). A cell moves
through a table of states. The states are *new*, *fatal-error*, *editing*
(incomplete or complete), *processing* (launching, queued, running),
*success* and *error* (plain, launching, queued, running). The table gives
each state three lists of buttons (enabled, disabled, hidden), two lists of
panels (shown, hidden) and the states it may move to next.

Around the table the widget:

- validates the parameters and builds the app's code;
- follows launch events and job-status messages;
- listens for job messages, and resumes listening when a saved cell is
  reopened;
- cancels and resets the cell;
- keeps a list of notifications;
- exports the parameters;
- finds the cell's output parameters and the references to the objects they
  name.

The second is the **subdata input widget** (`singleSubdata.js`). It fetches a
part of a workspace object and reads a path into it. It turns the array or
object found there into items, each with an id, a description and an object
reference, and sorts the items by id. It builds the select options and the
"n / m items" count, resets its value to the defaults, and follows changes of
the parameter it depends on.

## Modules

- `wrappers.dfy`: `Option`, `Result` and `Outcome`.
- `text.dfy`: JavaScript string operations. These are `String(n)` for a
  natural number, `join`, and `split` on a one-character separator, with
  round-trip lemmas.
- `json.dfy`: JavaScript values.
  - Objects are ordered member lists, so that `Object.keys` has an order.
  - It defines truthiness, `typeof`, property access and string conversion.
- `workspace.dfy`: the part of an object-info tuple that is read, and the
  reference `wsid/objid/version` built from it.
- `app_states.dfy`: the state table, looking a state up, and the transition
  relation.
- `render.dfy`: applying a state's button and panel lists to the cell's
  screen.
- `app_logic.dfy`: the widget's pure decisions.
  - Where a launch event or a job state leads.
  - Validation, `fixApp`, export of parameters, output parameters and
    output references.
  - When listening resumes.
- `app_cell.dfy`: the widget itself, as a class whose methods update the
  cell's model and fsm state. It records job statuses and keeps the
  notification list.
- `subdata.dfy`: the subdata input widget.

Thrown JavaScript errors become `Err`/`Fail` values. Writes that the source
performs before a throw are kept in the new state.

## Model

| member | source | states |
|---|---|---|
| AppStates.Lookup | nbextensions/appCell/widgets/appCellWidget.js:54-512 | a definition found for a tag is the one whose state is that tag |
| AppStates.LookupSearchesTable | nbextensions/appCell/widgets/appCellWidget.js:54-512 | a tag is defined iff some table entry has it as its state, and lookup returns that entry |
| AppStates.TagsDistinct | nbextensions/appCell/widgets/appCellWidget.js:54-512 | no two entries of the table share a state |
| AppStates.TableEntryDefined | nbextensions/appCell/widgets/appCellWidget.js:54-512 | looking up an entry's own state yields that entry |
| AppStates.TableClosed | nbextensions/appCell/widgets/appCellWidget.js:54-512 | every state listed as next has a definition |
| AppStates.FatalErrorIsTerminal | nbextensions/appCell/widgets/appCellWidget.js:80-97 | fatal-error has no successor |
| AppStates.FatalErrorOnlyFromNew | nbextensions/appCell/widgets/appCellWidget.js:54-512 | fatal-error is a legal target exactly from the new state |
| AppStates.ButtonsPartitioned | nbextensions/appCell/widgets/appCellWidget.js:54-512 | in every state each button is in exactly one of the enabled, disabled and hidden lists |
| AppStates.RunAppEnabledOnlyWhenBuilt | nbextensions/appCell/widgets/appCellWidget.js:126-184 | run-app is enabled iff the state is editing, complete and built |
| AppStates.CancelEnabledOnlyWhileProcessing | nbextensions/appCell/widgets/appCellWidget.js:186-337 | cancel is enabled iff the state is a processing state |
| AppStates.ShowHideDisjoint | nbextensions/appCell/widgets/appCellWidget.js:54-512 | no state both shows and hides a panel |
| AppStates.EditingTargetsLegal | nbextensions/appCell/widgets/appCellWidget.js:98-184 | both editing states list both editing targets of the app-state evaluation |
| AppStates.NewPromotesToEditing | nbextensions/appCell/widgets/appCellWidget.js:70-78 | the new state may move to editing-incomplete |
| AppStates.ResetTargetLegal | nbextensions/appCell/widgets/appCellWidget.js:186-512 | every processing, success and error state may move to editing-complete |
| AppStates.EveryStateReachable | nbextensions/appCell/widgets/appCellWidget.js:54-512 | every defined state lies on a path of legal transitions from the new state |
| AppStates.EditingCompleteReaches | nbextensions/appCell/widgets/appCellWidget.js:143-183 | editing-complete lists every state except new and fatal-error |
| Render.Assign | nbextensions/appCell/widgets/appCellWidget.js:1315-1323 | the listed controls get the given state and the others keep theirs |
| Render.CellUi.SetButtons | nbextensions/appCell/widgets/appCellWidget.js:1315-1323 | the loop over one button list leaves the map of one update per listed button, in order |
| Render.CellUi.SetPanels | nbextensions/appCell/widgets/appCellWidget.js:1327-1332 | the loop over one panel list leaves the map of one update per listed panel, in order |
| Render.CellUi.Render | nbextensions/appCell/widgets/appCellWidget.js:1308-1333 | the five lists are applied in source order and nothing else changes |
| Render.ButtonsAfterPartitioned | nbextensions/appCell/widgets/appCellWidget.js:1315-1323 | with lists that partition the buttons, each button ends in the state of the list that names it |
| Render.ButtonsAfterIgnoresPrev | nbextensions/appCell/widgets/appCellWidget.js:1315-1323 | with lists that partition the buttons, the result does not depend on the earlier states |
| Render.ButtonsFollowState | nbextensions/appCell/widgets/appCellWidget.js:1308-1333 | after rendering a defined state every button is enabled, disabled or hidden exactly as that state's lists say |
| Render.ButtonsIgnorePriorScreen | nbextensions/appCell/widgets/appCellWidget.js:1308-1333 | the buttons after rendering do not depend on the screen before |
| Render.PanelNamed | nbextensions/appCell/widgets/appCellWidget.js:54-512 | outside the processing, success and error states the element lists name every panel |
| Render.PanelsAfterNamed | nbextensions/appCell/widgets/appCellWidget.js:1327-1332 | a panel named by disjoint show and hide lists is shown iff the show list names it |
| Render.PanelsFollowState | nbextensions/appCell/widgets/appCellWidget.js:1308-1333 | every panel a state's lists name is shown iff it is in the show list |
| Render.ExecStatesKeepFatalPanel | nbextensions/appCell/widgets/appCellWidget.js:186-512 | the processing, success and error states leave the fatal-error panel as it was |
| Render.RenderIdempotent | nbextensions/appCell/widgets/appCellWidget.js:1308-1333 | rendering a definition twice equals rendering it once |
| Render.RenderShows | nbextensions/appCell/widgets/appCellWidget.js:1308-1333 | after rendering, the screen shows the state |
| AppLogic.LaunchTarget | nbextensions/appCell/widgets/appCellWidget.js:1519-1534 | processing-launching iff the event is one of the three launching events or launched_job; error-launching iff the event is 'error'; otherwise the thrown "Invalid launch state" error |
| AppLogic.LaunchTargetLegality | nbextensions/appCell/widgets/appCellWidget.js:1519-1535 | from an editing or processing state the launch target is legal iff the cell is editing-complete or processing-launching |
| AppLogic.JobTarget | nbextensions/appCell/widgets/appCellWidget.js:1541-1568 | the target for each job state; error targets keep the current stage; it throws "Invalid job state" iff the state is none of the seven recognised strings |
| AppLogic.JobTargetDefined | nbextensions/appCell/widgets/appCellWidget.js:1541-1568 | from a defined state every job target has a definition |
| AppLogic.JobTargetLegality | nbextensions/appCell/widgets/appCellWidget.js:1541-1569 | while processing, the job target is legal iff it is not a queued status received while running |
| AppLogic.ErrorAfterSuccessRefused | nbextensions/appCell/widgets/appCellWidget.js:1550-1569 | after success a repeated 'completed' is accepted, and an 'error' asks for a state success does not list |
| AppLogic.RequiredErrors | nbextensions/appCell/widgets/appCellWidget.js:1042-1057 | at most one error per parameter, and none iff no required parameter is empty |
| AppLogic.ValidateModel | nbextensions/appCell/widgets/appCellWidget.js:1017-1062 | valid iff no required parameter is empty, iff there are no errors |
| AppLogic.RequiredErrorsInOrder | nbextensions/appCell/widgets/appCellWidget.js:1042-1057 | the errors are one per missing required parameter, at increasing positions, covering every missing one |
| AppLogic.ValidationErrorsInOrder | nbextensions/appCell/widgets/appCellWidget.js:1017-1062 | the same order and coverage for the errors of the validation |
| AppLogic.FixApp | nbextensions/appCell/widgets/appCellWidget.js:1069-1086 | Ok iff the tag is release, beta or dev; id and tag are kept; the version is kept only for release; otherwise "Invalid tag for app" |
| AppLogic.FixAppIdempotent | nbextensions/appCell/widgets/appCellWidget.js:1069-1086 | fixing a fixed app changes nothing |
| AppLogic.Export | nbextensions/appCell/widgets/appCellWidget.js:2182-2213 | Ok iff every parameter has a spec; then the i-th parameter is exported under its own key with its spec's exported value (a textsubdata array becomes its comma join); a missing spec is a TypeError |
| AppLogic.ExportParams | nbextensions/appCell/widgets/appCellWidget.js:2195-2212 | the loop computes the export |
| AppLogic.ExportedSubdataSplitsBack | nbextensions/appCell/widgets/appCellWidget.js:2203-2207 | a textsubdata list of comma-free ids is exported as one string that splits back into the ids |
| AppLogic.OutputParams | nbextensions/appCell/widgets/appCellWidget.js:1737-1763 | an output name is produced for a parameter iff it is in the params and the spec marks it is_output_name |
| AppLogic.OutputParamsHead | nbextensions/appCell/widgets/appCellWidget.js:1750-1761 | outputs follow the order of the params: a leading output parameter comes first |
| AppLogic.OutputParamsAppend | nbextensions/appCell/widgets/appCellWidget.js:1750-1761 | the outputs of two runs of parameters are the outputs of the first followed by those of the second, so order and multiplicity are kept |
| AppLogic.OutputParamsSingle | nbextensions/appCell/widgets/appCellWidget.js:1750-1761 | one parameter gives one output name when it is an output parameter and none otherwise |
| AppLogic.OutputObjectRefs | nbextensions/appCell/widgets/appCellWidget.js:1783-1795 | Ok iff there are no more results than outputs and every result is present; then one reference per result, built from its object info, with the output's param and name |
| AppLogic.OutputObjectRefsFailure | nbextensions/appCell/widgets/appCellWidget.js:1784-1793 | a failure comes from the first result that cannot be mapped: a missing object named by an output gives that output's not-found error, a result beyond the outputs a TypeError |
| AppLogic.ResumeListensWhileJobActive | nbextensions/appCell/widgets/appCellWidget.js:2004-2025 | a resumed cell listens for job messages iff its saved state is processing-queued or processing-running |
| AppLogic.JobIdOf | nbextensions/appCell/widgets/appCellWidget.js:2017 | for a job state object, its `job_id` member; undefined for any other job state |
| AppCell.RecordJobStatus | nbextensions/appCell/widgets/appCellWidget.js:1629-1663 | a new or changed job state replaces the stored one and is logged once; a repeated one only updates the time |
| AppCell.RepeatedJobStatusLoggedOnce | nbextensions/appCell/widgets/appCellWidget.js:1632-1663 | the same job status received twice is logged once |
| AppCell.SpliceOne | nbextensions/appCell/widgets/appCellWidget.js:1205-1210 | splice(index, 1) removes one element when there is one to remove, keeps the prefix, and changes nothing past the end |
| AppCell.RemoveUndoesAdd | nbextensions/appCell/widgets/appCellWidget.js:1205-1246 | removing the last notification, by its index or by -1, undoes adding it |
| AppCell.RemoveShiftsLater | nbextensions/appCell/widgets/appCellWidget.js:1205-1210 | after a removal, the later notifications move down by one |
| AppCell.AppCellWidget.constructor | nbextensions/appCell/widgets/appCellWidget.js:1117-1121 | a cell starts in the new state with its saved model and no listeners |
| AppCell.AppCellWidget.InitializeFsm | nbextensions/appCell/widgets/appCellWidget.js:1109-1133 | the saved state, or new, becomes current when defined; otherwise an unknown-state failure |
| AppCell.AppCellWidget.NewState | nbextensions/appCell/widgets/appCellWidget.js:1125-1127 | a listed target becomes current and is saved in the model; any other target is refused and nothing changes |
| AppCell.AppCellWidget.RenderUi | nbextensions/appCell/widgets/appCellWidget.js:1308-1333 | the screen is the current state's lists applied to the old screen, and it shows the current state |
| AppCell.AppCellWidget.EvaluateAppState | nbextensions/appCell/widgets/appCellWidget.js:2451-2462 | a valid model builds the code from the fixed app and the exported params and moves to editing-complete; an invalid one clears the code and moves to editing-incomplete; export and fixApp failures propagate |
| AppCell.AppCellWidget.ReportLoadFailure | nbextensions/appCell/widgets/appCellWidget.js:2502-2512 | the notification and the fatal error are recorded and nothing else of the model changes; the move to fatal-error succeeds iff the cell is new, and is then saved; the code and listeners are kept |
| AppCell.AppCellWidget.Run | nbextensions/appCell/widgets/appCellWidget.js:2464-2513 | a load failure is reported with the whole model stated; a cell that is not new is rendered unchanged; a new cell is promoted and evaluated as PromoteNew states; the listeners are kept |
| AppCell.AppCellWidget.PromoteNew | nbextensions/appCell/widgets/appCellWidget.js:2494-2512 | a new cell moves to editing-incomplete and is evaluated: invalid parameters clear the code and stay in editing-incomplete; valid ones build the app-runner code and reach editing-complete; a failed export or fixApp keeps the code, records the failure report in the model and is refused, leaving editing-incomplete saved; the listeners are kept |
| AppCell.AppCellWidget.StartListening | nbextensions/appCell/widgets/appCellWidget.js:1618-1690 | a job-status and a job-deleted listener for the job are appended |
| AppCell.AppCellWidget.StopListening | nbextensions/appCell/widgets/appCellWidget.js:1692-1697 | all listeners are dropped |
| AppCell.AppCellWidget.ResumeListening | nbextensions/appCell/widgets/appCellWidget.js:2004-2025 | the listeners for the saved job are added iff the saved state is queued or running |
| AppCell.AppCellWidget.UpdateFromLaunchEvent | nbextensions/appCell/widgets/appCellWidget.js:1512-1537 | moves to the launch target; launched_job starts listening first; an unknown event throws |
| AppCell.AppCellWidget.OnRunStatus | nbextensions/appCell/widgets/appCellWidget.js:2029-2053 | an invalid event throws with nothing changed; a launched job is listened to; a legal target is entered and saved, and then the launch state is stored and a launch-status entry is logged; an illegal target throws with the state and model kept |
| AppCell.AppCellWidget.UpdateFromJobState | nbextensions/appCell/widgets/appCellWidget.js:1539-1571 | moves to the job target; terminal statuses stop listening; a missing job state is a TypeError |
| AppCell.AppCellWidget.OnJobStatus | nbextensions/appCell/widgets/appCellWidget.js:1628-1667 | the status is recorded, then the state follows JobTarget of its job_state: a legal target is entered and saved, a final status stops listening, and a missing status, an unknown job state or an illegal target throws with the state unchanged |
| AppCell.AppCellWidget.ResetToEditMode | nbextensions/appCell/widgets/appCellWidget.js:1400-1415 | the execution record is dropped; the cell moves to editing-complete and saves it when that state is listed, and otherwise the move is refused with only the execution record dropped |
| AppCell.AppCellWidget.OnJobDeleted | nbextensions/appCell/widgets/appCellWidget.js:1678-1687 | an editing cell is left alone; a processing, success or error cell is reset to editing-complete; in the new and fatal-error states the execution record is dropped and the reset is refused |
| AppCell.AppCellWidget.Cancel | nbextensions/appCell/widgets/appCellWidget.js:1482-1498 | an unconfirmed cancel does nothing; with a job stored it requests cancelling that job id; without one it drops exec and enters and saves editing-complete, or, where that is not listed, throws with only exec dropped |
| AppCell.AppCellWidget.AddNotification | nbextensions/appCell/widgets/appCellWidget.js:1241-1246 | the notification is appended |
| AppCell.AppCellWidget.RemoveNotification | nbextensions/appCell/widgets/appCellWidget.js:1205-1210 | the notification at the index is spliced out |
| AppCell.AppCellWidget.ClearNotifications | nbextensions/appCell/widgets/appCellWidget.js:1248-1250 | the list is emptied |
| AppCell.AppCellWidget.OnOutputCellRemoved | nbextensions/appCell/widgets/appCellWidget.js:2055-2067 | the job's output entry is deleted when it is truthy; otherwise nothing changes |
| Text.NatToString | test/attic/widgetsx/input/singleSubdata.js:110 | the text of a number is digits only |
| Text.NatToStringRoundTrip | test/attic/widgetsx/input/singleSubdata.js:110 | the value of the digits of String(n) is n |
| Text.NatToStringInjective | test/attic/widgetsx/input/singleSubdata.js:110 | distinct numbers have distinct texts |
| Text.Split | test/attic/widgetsx/input/singleSubdata.js:236 | split returns at least one piece |
| Text.SplitPieces | test/attic/widgetsx/input/singleSubdata.js:236 | no piece contains the separator, and there is one piece more than there are separators |
| Text.JoinSplit | test/attic/widgetsx/input/singleSubdata.js:236 | joining the pieces of a split gives the text back |
| Text.SplitJoin | nbextensions/appCell/widgets/appCellWidget.js:2205 | splitting a join of separator-free pieces gives the pieces back |
| Json.IndexOf | test/attic/widgetsx/input/singleSubdata.js:319 | an index key is the text of the number it denotes |
| Json.JoinStrings | nbextensions/appCell/widgets/appCellWidget.js:2205 | an array of strings joins to the comma join of the strings |
| Workspace.RefRoundTrip | test/attic/widgetsx/input/singleSubdata.js:313 | a reference reads back as the workspace id, object id and version |
| Workspace.RefInjective | nbextensions/appCell/widgets/appCellWidget.js:1792 | two objects have the same reference only when they have the same three numbers |
| Subdata.GetProp | test/attic/widgetsx/input/singleSubdata.js:271-276 | the loop follows the path as the specification function does, and a property of null or undefined is a TypeError |
| Subdata.PropPathAppend | test/attic/widgetsx/input/singleSubdata.js:271-276 | following p then q equals following p + q |
| Subdata.PropPathThroughObject | test/attic/widgetsx/input/singleSubdata.js:271-276 | a step through a member reaches that member's value |
| Subdata.ArrayItemId | test/attic/widgetsx/input/singleSubdata.js:311 | reading the id fails iff the datum is null |
| Subdata.ObjectItemId | test/attic/widgetsx/input/singleSubdata.js:322-340 | the id fails iff there is a selection id and the datum is null; without a selection id it is the key |
| Subdata.IdIsKeyOrSelected | test/attic/widgetsx/input/singleSubdata.js:322-340 | by typeof: objects give the selected property; strings and numbers give the datum for 'value', else the key; other kinds give the key |
| Subdata.IndexKeys | test/attic/widgetsx/input/singleSubdata.js:318 | the keys of a string are its indices as text |
| Subdata.ObjectKeys | test/attic/widgetsx/input/singleSubdata.js:318 | Object.keys of an object, string, number or boolean |
| Subdata.Entries | test/attic/widgetsx/input/singleSubdata.js:318-319 | one entry per key, holding that key's property |
| Subdata.ArrayItems | test/attic/widgetsx/input/singleSubdata.js:306-316 | fails iff an element is null; otherwise one item per element with its selected id, the result's reference and its name |
| Subdata.ObjectItems | test/attic/widgetsx/input/singleSubdata.js:318-348 | fails iff there is a selection id and some datum is null; otherwise one item per key |
| Subdata.Collected | test/attic/widgetsx/input/singleSubdata.js:300-351 | every item carries one of the references of the present results |
| Subdata.PresentRefSource | test/attic/widgetsx/input/singleSubdata.js:300-313 | a listed reference is the reference of a present result at a returned index |
| Subdata.PresentRefsComplete | test/attic/widgetsx/input/singleSubdata.js:300-313 | the reference of every present result is listed |
| Subdata.ResultItemsRef | test/attic/widgetsx/input/singleSubdata.js:313-345 | the items of one result all carry that result's reference |
| Subdata.Present | test/attic/widgetsx/input/singleSubdata.js:300-303 | only present results remain |
| Subdata.MissingResultsSkipped | test/attic/widgetsx/input/singleSubdata.js:300-303 | missing results contribute nothing |
| Subdata.CollectedAppend | test/attic/widgetsx/input/singleSubdata.js:300-350 | a further result appends its items |
| Subdata.CollectedErrorPersists | test/attic/widgetsx/input/singleSubdata.js:300-350 | a failure in a prefix makes the whole collection fail |
| Subdata.CollectedFailsAt | test/attic/widgetsx/input/singleSubdata.js:300-350 | a failing result makes the whole collection fail |
| Subdata.ArrayItemsFailAt | test/attic/widgetsx/input/singleSubdata.js:309-311 | a null element makes the whole array fail |
| Subdata.ObjectItemsFailAt | test/attic/widgetsx/input/singleSubdata.js:318-325 | an entry whose id cannot be read makes the whole object fail |
| Subdata.PushArrayItems | test/attic/widgetsx/input/singleSubdata.js:309-316 | the loop appends the array's items |
| Subdata.PushObjectItems | test/attic/widgetsx/input/singleSubdata.js:318-348 | the loop over the keys and their data appends the object's items |
| Subdata.CollectValues | test/attic/widgetsx/input/singleSubdata.js:295-351 | the loop over the results computes the collection |
| Subdata.KeysIdentifyWithoutSelection | test/attic/widgetsx/input/singleSubdata.js:338-340 | without a selection id the ids of an object's items are its keys |
| Subdata.StrLeqTotal | test/attic/widgetsx/input/singleSubdata.js:355-363 | string comparison is total |
| Subdata.StrLeqTrans | test/attic/widgetsx/input/singleSubdata.js:355-363 | string comparison is transitive |
| Subdata.IdLeqTotal | test/attic/widgetsx/input/singleSubdata.js:355-363 | the id order is total |
| Subdata.IdLeqTrans | test/attic/widgetsx/input/singleSubdata.js:355-363 | the id order is transitive |
| Subdata.SortedHasNoInversion | test/attic/widgetsx/input/singleSubdata.js:353-364 | in a sorted list no later id precedes an earlier one, and numeric ids ascend |
| Subdata.SortById | test/attic/widgetsx/input/singleSubdata.js:353-364 | the array ends sorted by id and is a permutation of the input |
| Subdata.InsertLast | test/attic/widgetsx/input/singleSubdata.js:355-363 | one insertion step extends the sorted prefix by one element and permutes the array |
| Subdata.FetchData | test/attic/widgetsx/input/singleSubdata.js:280-366 | no reference name gives no request and no items; otherwise the request is wsid/name with the selection's `subdata_included` paths, and the items are the collected ones sorted, or the failure |
| Subdata.CountIsJoin | test/attic/widgetsx/input/singleSubdata.js:106-111 | the count is the space join of its four words |
| Subdata.CountRoundTrip | test/attic/widgetsx/input/singleSubdata.js:106-111 | the count reads back as the value's length and the number of available values |
| Subdata.BuildOptions | test/attic/widgetsx/input/singleSubdata.js:84-104 | a blank option, then one option per available value, whose value and label are the id, selected iff the value holds the id; a value that cannot be searched throws |
| Subdata.SelectedIffInValue | test/attic/widgetsx/input/singleSubdata.js:96-98 | for a list of strings, an option is selected iff its id is one of them |
| Subdata.ResetValue | test/attic/widgetsx/input/singleSubdata.js:232-240 | null iff there are no default values |
| Subdata.ResetValueJoinsBack | test/attic/widgetsx/input/singleSubdata.js:236 | the reset value joins back to the first default |
| Subdata.ResetCount | test/attic/widgetsx/input/singleSubdata.js:232-240 | after a reset the count shows one more item than there are commas in the default |
| Subdata.ReferenceName | test/attic/widgetsx/input/singleSubdata.js:462-466 | an empty name becomes null; any other value is kept; truthiness is unchanged |
| Subdata.SubdataWidget.constructor | test/attic/widgetsx/input/singleSubdata.js:517-522 | the reference name and the value are null and the available values empty |
| Subdata.SubdataWidget.ResetModelValue | test/attic/widgetsx/input/singleSubdata.js:232-240 | the value becomes the reset value and nothing else changes |
| Subdata.SubdataWidget.ResetToDefaults | test/attic/widgetsx/input/singleSubdata.js:435-442 | the reset value, no available values and a null reference, with the count that follows from them |
| Subdata.SubdataWidget.Update | test/attic/widgetsx/input/singleSubdata.js:443-446 | the value becomes the message's value |
| Subdata.SubdataWidget.SyncAvailableValues | test/attic/widgetsx/input/singleSubdata.js:368-375 | the request is as FetchData states; the available values become the fetched items, sorted and a permutation of the collection; a failed fetch keeps them |
| Subdata.SubdataWidget.OnParameterChanged | test/attic/widgetsx/input/singleSubdata.js:460-475 | for the linked parameter the reference name is updated; a truthy name requests wsid/name with the included paths, keeps the values when the fetch fails and otherwise stores the sorted items; a falsy one clears the values; other parameters are ignored |

## Left out

- The fsm library is not part of this model. Its behaviour is modelled as follows:
  - `start` puts the saved state, or new, in force without saving it again.
  - A state that has no definition fails with an unknown-state error and leaves the cell new.
  - `newState` refuses a target that the current state does not list, and does so by throwing.
  - Only an accepted move is saved in the model, as `onNewState` does.
- The ui library is not part of this model.
  - Button and panel updates are modelled as a map, where the last update wins.
  - The fsm bar, the notification markup, the settings and the DOM are not modelled. This includes `clearOutput`, `reloadExecutionWidget`, `syncFatalError` and the about and spec panels.
- Bus messages and listener registration with the runtime bus are not modelled.
  - Listeners are recorded as values.
  - Emitted events are not modelled.
- Asynchronous flow is replaced by sequential calls. Promises, the confirmation dialog and the loading of widgets and specs are not modelled.
  - Their outcomes are parameters: `loaded`, `confirmed`, and the workspace `results`.
  - Workspace requests are returned as values.
- Run identifiers, the clock and the Python code builder are not modelled. The clock and run id are parameters, and `buildPython` becomes the `code` field.
- AppLogic.ErrorMessage: the messages of TypeError and of the fsm's own failures are stand-in texts.
- AppCell.RecordJobStatus: `isEqual` is a deep comparison that ignores key order. The model compares job states structurally, so member order counts.
- AppCell.AppCellWidget.OnOutputCellRemoved: the `output` item and its `byJob` member are assumed to exist. In the source, a missing `output` makes `output.byJob` throw, and an `output` without `byJob` makes `output.byJob[message.jobId]` throw.
- AppCell.AppCellWidget.InitializeFsm: a saved state is one of the table's tag values. Saved objects with other keys or values, such as a 'launching' mode, are not modelled.
- The commented-out 'canceled' state and its transitions are not part of the table, because the source does not enable them.
- Workspace object-info tuples are records of the four fields that are read.
  - The object info request for output objects (`get_object_info_new`) is replaced by its results.
- Subdata.SortById: on ids of mixed kinds the JavaScript comparator with `>` and `<` is not a consistent order.
  - The model sorts by a total preorder.
  - That preorder agrees with JavaScript comparison when all ids are numbers, or all are strings of Basic Multilingual Plane characters.
  - The order `Array.prototype.sort` gives to equal ids is not modelled.
  - Strings are compared character by character, where a character is a Unicode code point. JavaScript compares UTF-16 code units. The two orders agree on strings of Basic Multilingual Plane characters only: "\u{1F600}" comes after "\u{FF61}" here but before it in JavaScript.
- Subdata.MakeItem: the Handlebars description template is a parameter function from a datum to a string.
- Subdata.SubdataWidget: the factory's check that a workspace id is given is not modelled; the id is a natural number.
- Subdata.SubdataWidget.SyncAvailableValues: a fetch that fails leaves the available values as they were. The error is only logged.
- The subdata widget's `validate`, `getInputValue`, `makeInputControl`, `updateInputControl`, the select control and its events are not modelled. They build markup or send bus messages.
- JSON numbers are integers. Floating point is not modelled.
- Json.Field: an object is a list of members, and nothing requires its keys to be distinct. `Field` returns the first member with the key, and `Object.keys` lists a repeated key more than once. Where `JSON.parse` meets a repeated key it keeps the last value. The model's results match JavaScript's only for objects whose keys are distinct, which are all the objects a JavaScript program can build.
- Json.Property: properties that values inherit from their prototypes are undefined in the model, except the `length` of arrays and strings.
- Json.Property and Subdata.ObjectKeys: a string's `length`, its index reads and its keys count Unicode code points, where JavaScript counts UTF-16 code units. They agree with JavaScript only on strings of Basic Multilingual Plane characters: `"\u{1F600}".length` is 2 in JavaScript but 1 here, and its keys are `["0","1"]` there but `["0"]` here. This reaches the count of a string value, the items of string subdata and a `length` step of a property path.
