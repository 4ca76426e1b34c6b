# FreebirdEditor effect timeline, in Dafny

This project models the effect-timeline core of `GameManagerScript`, the Unity
component of FreebirdEditor that schedules visual effects, skybox tints and
audio filters against the playback position of an audio clip.

- **Effect records.** `CreationElement` is a class with immutable fields: type
  (VFX, Skybox or SFX), effect name, position, start time and end time. Records
  are compared by reference, as the C# `HashSet` does.
- **The timeline.** `effectList` is a `seq<CreationElement>` in insertion order.
  The authoring methods append to it; `Reset` and `LoadEffectList` replace it.
- **Per-frame evaluation.** While the clip plays, each frame makes three scans,
  all using the same closed-window covering test:
  - Every covering VFX record that is not in the playing set starts a
    start-then-stop task.
  - The last covering Skybox record names the tint. With none, the tint is
    `NeutralSkybox`.
  - Reverb and echo are each on exactly when some covering SFX record has that
    name.
- **Start-then-stop tasks.** Each coroutine is two events: its start (the
  record joins `effectsPlaying` and the task is suspended in `vfxTasks`) and
  its finish (the record leaves both).
- **Transport.** The state is the cursor `time`, the `playing` flag and
  `clipLength`:
  - A seek is applied only strictly between 0.1 s and `clipLength - 0.5`.
  - Any cursor at or past `clipLength - 0.5` forces a stop, which rewinds to 0.
  - Between frames the audio engine moves the cursor on while the clip plays.
    This is the `Advance` event.
  - The cursor is never negative; this is part of the class invariant `Valid`.
- **Modes.** Authoring keys are read only in Edit mode. The Edit/Preview
  transition side effects are modelled as a function of the mode seen at the
  start of the frame and the current mode.
- **Clock text.** `SerializeSeconds` renders the "mm:ss" clock text. It is
  modelled with C#'s truncating `/` and `%`, `Int32.ToString` and `PadLeft`,
  and a parser proves the rendering can be read back.

Modules: `Wrappers` (Option), `Clock` (`SerializeSeconds`), `Effects` (the
records and the pure scans) and `Manager` (the `GameManager` class, its frame
and its authoring, transport and mode methods).

Four behaviours of the code that a reader might not expect, all modelled as
written:

- **Mode transitions never fire.** `previousGameMode` is a local variable read
  at the top of `Update`, and nothing before the comparison writes `gameMode`.
  So calling `Preview()` or `Edit()` never rewinds, plays or pauses the clip.
  `Update` is proved to leave `mode` unchanged, so it always sees
  `NoTransition`. `ApplyModeTransition` states what the transition would do
  for any pair of modes.
- **Appends are not always mode-gated.** Only the key-driven authoring is
  limited to Edit mode. `ApplyFireworkVFX` and `ApplyFireCircleVFX` are
  public, and the clap handler calls them in any mode.
- **Type and name are independent fields.** A Skybox record whose name is not
  a skybox name wins the scan but leaves the applied tint unchanged. A VFX
  record whose name has no prefab starts a coroutine that adds and removes the
  record in the same run, so it leaves no task.
- **A failed read is not caught.** Loading skips a file only when
  `File.Exists` is false. A read that fails, or a payload that
  `JsonUtility.FromJsonOverwrite` rejects, would raise an exception. That path
  is not modelled.

## Model

| member | source | states |
|---|---|---|
| Clock.TruncDiv | Assets/ScriptsW/GameManagerScript.cs:217 | C#'s `/` truncates toward zero: the quotient has the sign of the dividend and is 0 whenever the dividend is smaller than the divisor in size, negative dividends included |
| Clock.TruncRem | Assets/ScriptsW/GameManagerScript.cs:218 | C#'s `%`: the remainder lies in [0, 60) for a non-negative dividend and in (-60, 0] for a negative one |
| Clock.TruncDivRem | Assets/ScriptsW/GameManagerScript.cs:217-218 | minutes * 60 + leftover seconds gives back the input; leftover lies in [0, 60) for non-negative input and in (-60, 0] for negative input, as C# truncation gives |
| Clock.NatToString | Assets/ScriptsW/GameManagerScript.cs:219 | Int32.ToString of a non-negative value: at least one decimal digit, no leading zero, "0" exactly for 0, one digit below 10 and at most two below 100 |
| Clock.DigitsValueOfNatToString | Assets/ScriptsW/GameManagerScript.cs:219 | the digits ToString writes read back as the same number |
| Clock.IntToString | Assets/ScriptsW/GameManagerScript.cs:219 | a minus sign appears exactly for negative values; otherwise the plain digits |
| Clock.PadLeft | Assets/ScriptsW/GameManagerScript.cs:219 | PadLeft(2, '0') yields max(length, 2) characters |
| Clock.PadLeftShape | Assets/ScriptsW/GameManagerScript.cs:219 | the padded string ends with the original and holds only pad characters before it |
| Clock.SerializeSeconds | Assets/ScriptsW/GameManagerScript.cs:216-220 | the rendering has at least five characters: two padded fields and the colon |
| Clock.SerializeSecondsFields | Assets/ScriptsW/GameManagerScript.cs:216-220 | for s >= 0 the text is minutes, ':' and seconds; the minutes field has at least two digits and the value s / 60; the seconds field has exactly two digits and the value s % 60 |
| Clock.SerializeSecondsRoundTrip | Assets/ScriptsW/GameManagerScript.cs:216-220 | parsing the "mm:ss" text of any s >= 0 gives back s |
| Clock.SerializeSecondsInjective | Assets/ScriptsW/GameManagerScript.cs:216-220 | distinct non-negative second counts get distinct texts |
| Clock.SerializeSecondsSign | Assets/ScriptsW/GameManagerScript.cs:216-220 | the text contains '-' exactly when the count is negative |
| Effects.CreationElement.constructor | Assets/ScriptsW/GameManagerScript.cs:311-316 | a new record carries exactly the given type, name, position, start and end |
| Effects.NewRecordWindow | Assets/ScriptsW/GameManagerScript.cs:315-316 | a placed record starts 0.05 s after the cursor (strictly after it), lasts 2 s for VFX and 1.5 s otherwise, and covers exactly [t + 0.05, t + 0.05 + duration] |
| Effects.CoversBothEnds | Assets/ScriptsW/GameManagerScript.cs:138 | the covering test is the closed window: both the start and the end instant are covered |
| Effects.ResolveSkyboxIsLastCovering | Assets/ScriptsW/GameManagerScript.cs:145-154 | with no covering Skybox record the result is NeutralSkybox; otherwise it is the name on the last covering Skybox record in list order |
| Effects.ResolveSkyboxOrigin | Assets/ScriptsW/GameManagerScript.cs:145-154 | conversely, a result other than NeutralSkybox is the name of the last covering Skybox record |
| Effects.ToggleOnConcat | Assets/ScriptsW/GameManagerScript.cs:254-267 | the toggle over a concatenation is the OR of the toggles over the parts |
| Effects.ToggleOnDuplicate | Assets/ScriptsW/GameManagerScript.cs:254-267 | appending a record equal in all fields to one already present changes no toggle |
| Effects.ToggleOnIndependent | Assets/ScriptsW/GameManagerScript.cs:254-282 | a record of another name or another type never changes the reverb or the echo toggle, so the two are independent |
| Effects.VfxStarts | Assets/ScriptsW/GameManagerScript.cs:136-143 | the records a frame starts are in the list, cover t, are VFX with a prefab name, were not already playing and are pairwise distinct; every covering VFX record with a prefab name is playing afterwards |
| Effects.PlayingNotRestarted | Assets/ScriptsW/GameManagerScript.cs:139-140 | a record whose task is outstanding is never started again |
| Effects.FinishedIsRestarted | Assets/ScriptsW/GameManagerScript.cs:138-140 | once its task has finished, a covering VFX record with a prefab name is started again |
| Effects.PresentPayloadsCount | Assets/ScriptsW/GameManagerScript.cs:451-464 | a load keeps one record per existing file: the count is the number of files minus the missing ones, and every loaded payload comes from an existing file |
| Effects.PresentPayloadsRoundTrip | Assets/ScriptsW/GameManagerScript.cs:451-459 | loading files that each hold one payload gives back those payloads, in file order |
| Manager.Transition | Assets/ScriptsW/GameManagerScript.cs:87-98 | no transition exactly when the two modes agree; entering Preview exactly for Edit to Preview; leaving it exactly for Preview to Edit |
| Manager.AuthoringOnlyAppends | Assets/ScriptsW/GameManagerScript.cs:48-71 | without load or clear the old list stays a prefix, at most six records are added, each starts 0.05 s after the cursor and lasts its type's duration, and with no append key nothing changes |
| Manager.ClearWins | Assets/ScriptsW/GameManagerScript.cs:81-83 | a clear in the same frame leaves the list empty whatever else was pressed |
| Manager.LoadReplaces | Assets/ScriptsW/GameManagerScript.cs:77-79 | a load without a clear replaces the list by the payloads of the existing files, discarding earlier appends |
| Manager.GameManager.constructor | Assets/ScriptsW/GameManagerScript.cs:11-42 | the starting state: both filters off, Edit mode, empty list and playing set, cursor at 0, playing as the clip's play-on-awake setting says |
| Manager.GameManager.Play | Assets/ScriptsW/GameManagerScript.cs:222-226 | afterwards the clip is playing |
| Manager.GameManager.Pause | Assets/ScriptsW/GameManagerScript.cs:228-232 | afterwards the clip is not playing |
| Manager.GameManager.Stop | Assets/ScriptsW/GameManagerScript.cs:234-237 | the cursor is rewound to 0 and the clip is not playing; the invariant is kept |
| Manager.GameManager.TogglePlayback | Assets/ScriptsW/GameManagerScript.cs:106-112 | the play/pause key flips the playing state |
| Manager.GameManager.Seek | Assets/ScriptsW/GameManagerScript.cs:114-124 | the cursor moves to the seek time exactly when 0.1 < seek time < clip length - 0.5, and stays put otherwise; the invariant is kept |
| Manager.GameManager.Advance | Assets/ScriptsW/GameManagerScript.cs:186-195 | while the clip plays the cursor moves forward by the elapsed time; the invariant, with the cursor never negative, is kept |
| Manager.GameManager.Preview | Assets/ScriptsW/GameManagerScript.cs:239-241 | sets the mode to Preview and nothing else |
| Manager.GameManager.Edit | Assets/ScriptsW/GameManagerScript.cs:243-245 | sets the mode to Edit and nothing else |
| Manager.GameManager.ApplyModeTransition | Assets/ScriptsW/GameManagerScript.cs:87-98 | entering Preview rewinds to 0 and plays, leaving it pauses and keeps the cursor, no transition changes nothing |
| Manager.GameManager.AppendRecord | Assets/ScriptsW/GameManagerScript.cs:311-319 | the shared body of the six appends: earlier records stay in place by reference and exactly one fresh record with the given type, name and position is appended, with the window of NewRecordWindow |
| Manager.GameManager.ApplyFireworkVFX | Assets/ScriptsW/GameManagerScript.cs:310-320 | exactly one fresh record is appended, earlier records unchanged: VFX Firework at the given position, window [time + 0.05, time + 2.05] |
| Manager.GameManager.ApplyFireCircleVFX | Assets/ScriptsW/GameManagerScript.cs:326-336 | exactly one fresh record is appended, earlier records unchanged: VFX FireCircle at the given position, window [time + 0.05, time + 2.05] |
| Manager.GameManager.AppendEchoEffect | Assets/ScriptsW/GameManagerScript.cs:338-348 | exactly one fresh record is appended, earlier records unchanged: SFX Echo at the origin, window [time + 0.05, time + 1.55] |
| Manager.GameManager.AppendReverbEffect | Assets/ScriptsW/GameManagerScript.cs:350-360 | exactly one fresh record is appended, earlier records unchanged: SFX Reverb at the origin, window [time + 0.05, time + 1.55] |
| Manager.GameManager.AppendBlueSkyboxEffect | Assets/ScriptsW/GameManagerScript.cs:362-372 | exactly one fresh record is appended, earlier records unchanged: Skybox BlueSkybox at the origin, window [time + 0.05, time + 1.55] |
| Manager.GameManager.AppendPinkSkyboxEffect | Assets/ScriptsW/GameManagerScript.cs:375-385 | exactly one fresh record is appended, earlier records unchanged: Skybox PinkSkybox at the origin, window [time + 0.05, time + 1.55] |
| Manager.GameManager.Reset | Assets/ScriptsW/GameManagerScript.cs:410-414 | the effect list is empty |
| Manager.GameManager.LoadEffectList | Assets/ScriptsW/GameManagerScript.cs:445-468 | the list is replaced by fresh records holding the payloads of the existing files, in listing order, with missing files skipped |
| Manager.GameManager.HandleVfxKeys | Assets/ScriptsW/GameManagerScript.cs:49-55 | the firework key, then the fire-circle key, each appends its record; earlier records stay in place by reference and the new ones are fresh |
| Manager.GameManager.HandleSfxKeys | Assets/ScriptsW/GameManagerScript.cs:57-63 | the reverb key, then the echo key, each appends its record; earlier records stay in place by reference and the new ones are fresh |
| Manager.GameManager.HandleSkyboxKeys | Assets/ScriptsW/GameManagerScript.cs:65-71 | the blue key, then the pink key, each appends its record; earlier records stay in place by reference and the new ones are fresh |
| Manager.GameManager.HandleAppendKeys | Assets/ScriptsW/GameManagerScript.cs:48-71 | the list after the six append keys: one record per pressed key, in polling order (firework, fire circle, reverb, echo, blue, pink); the earlier records stay in place by reference and every added record is fresh |
| Manager.GameManager.HandleAuthoringInput | Assets/ScriptsW/GameManagerScript.cs:48-85 | the list after an Edit-mode frame's keys: the appends in polling order, then a load replaces the list, then a clear empties it; by reference, without load or clear the earlier records stay and the added ones are fresh, and after a load every record is fresh |
| Manager.GameManager.IsToggleEffectEnabled | Assets/ScriptsW/GameManagerScript.cs:254-282 | the shared loop of the two checks, with `continue` and early return: true exactly when some covering SFX record has the given name |
| Manager.GameManager.IsReverbEffectEnabled | Assets/ScriptsW/GameManagerScript.cs:254-267 | true exactly when some SFX record named Reverb covers the cursor |
| Manager.GameManager.IsEchoEffectEnabled | Assets/ScriptsW/GameManagerScript.cs:269-282 | true exactly when some SFX record named Echo covers the cursor |
| Manager.GameManager.ResolveSkyboxType | Assets/ScriptsW/GameManagerScript.cs:145-154 | the scan's result is the last-wins skybox resolution of the list at the cursor |
| Manager.GameManager.ApplySkyboxTint | Assets/ScriptsW/GameManagerScript.cs:157-166 | the three skybox names set the tint; any other name leaves the tint as it was |
| Manager.GameManager.StartThenStopVFX | Assets/ScriptsW/GameManagerScript.cs:284-301 | a start adds the record to the playing set and suspends its task when the name has a prefab; otherwise the set is left unchanged; the playing-set invariant is kept |
| Manager.GameManager.FinishVFX | Assets/ScriptsW/GameManagerScript.cs:291-303 | a finishing task leaves the outstanding tasks and removes exactly its record from the playing set |
| Manager.GameManager.VisitVFX | Assets/ScriptsW/GameManagerScript.cs:137-142 | one step of the visual-effect scan keeps the playing-set invariant and advances the scan's outstanding starts by one record |
| Effects.VfxScanStepTasks | Assets/ScriptsW/GameManagerScript.cs:136-143 | one scan step moves a started record from the starts still to come to the outstanding tasks, so tasks plus remaining starts stay equal |
| Effects.VfxScanStepPlaying | Assets/ScriptsW/GameManagerScript.cs:136-143 | the same step for the playing set: it gains the record exactly when the record starts |
| Manager.GameManager.StartVFXTasks | Assets/ScriptsW/GameManagerScript.cs:136-143 | the tasks started are exactly VfxStarts of the list at the cursor, in list order, and the playing set grows by exactly their records |
| Manager.GameManager.EvaluateEffects | Assets/ScriptsW/GameManagerScript.cs:134-183 | in a playing frame: the VFX starts, the tint of the resolved skybox (if it names one), and reverb / echo set to their covering-record OR, all at the frame's cursor |
| Manager.GameManager.UpdateTimeText | Assets/ScriptsW/GameManagerScript.cs:100-103 | the text is the clock of the floored cursor, '/', and the clock of the floored clip length |
| Manager.Seeked | Assets/ScriptsW/GameManagerScript.cs:114-132 | one seek input moves the cursor by its offset exactly when the target lies strictly inside (0.1, clip length - 0.5); no input or an out-of-band target leaves it |
| Manager.FrameCursorNonNegative | Assets/ScriptsW/GameManagerScript.cs:114-132 | the scrubber seek followed by the axis seek never takes a non-negative cursor below zero, and without seek input leaves it |
| Manager.GameManager.HandleEditInput | Assets/ScriptsW/GameManagerScript.cs:45-98 | Edit-mode authoring (payloads and references as for HandleAuthoringInput), no authoring in Preview mode, and no cursor or playing change since the mode comparison sees no transition |
| Manager.GameManager.HandleTransportInput | Assets/ScriptsW/GameManagerScript.cs:105-132 | the play/pause key flips the playing state; the cursor ends where the scrubber seek and then the axis seek take it, each applied only inside (0.1, clip length - 0.5) |
| Manager.GameManager.HandleFrameInput | Assets/ScriptsW/GameManagerScript.cs:44-132 | authoring (payloads and references) only in Edit mode, the clock text of the cursor at the start of the frame, playing flipped exactly by the play/pause key, and the cursor where the two seeks take it |
| Manager.GameManager.EvaluateFrame | Assets/ScriptsW/GameManagerScript.cs:134-195 | a frame that began playing has its scans' effect state at the cursor it began with, even when the guard then stops it; a frame not playing changes no filter, tint or playing set; a cursor at or past clip length - 0.5 is stopped and rewound to 0, any other is left |
| Manager.GameManager.Update | Assets/ScriptsW/GameManagerScript.cs:44-198 | a frame keeps the invariant and never changes the mode; Edit-mode authoring by payload and by reference; after the seeks, a cursor below clip length - 0.5 is kept with playing flipped exactly by the play/pause key, and any other cursor is stopped and rewound to 0; a frame that plays has its scans' effect state at the seeked cursor, and a frame that does not changes no effect state |

## Left out

- Saving (`SaveEffectList`), `ClearSave`, `GetFilePath`, JSON encoding and all file access are not part of this model. A load takes the directory listing as a sequence of present payloads or missing files. A payload that sets only some fields, so that the others keep the placeholder defaults, is not modelled.
- Reading a file that exists but cannot be read raises an exception in the code; the model has no such path.
- A malformed payload makes `JsonUtility.FromJsonOverwrite` throw, which aborts the load with a partly built list. Every stored file in the model holds a well-formed payload.
- Rendering is not modelled: `Instantiate` / `Destroy` of prefabs, `UpdateSkyboxColor` and the RGB table. The applied tint is modelled as the skybox name it was chosen for.
- Audio engine internals are not modelled. The reverb and echo filters are two booleans, and the transport is a cursor, a playing flag and a fixed clip length. The engine's forward motion of the cursor is the event `Advance`. What `AudioSource.Play` does to an already-playing source, and the clip running past its end on its own, are not modelled.
- Coroutine timing is not modelled. The wait of duration + 0.1 s is replaced by `FinishVFX`, an event the environment may schedule at any later point for any outstanding task.
- Input polling is not modelled: key presses, `Input.GetAxis`, `Time.deltaTime` and `Mathf.Approximately`. A frame receives the set of pressed keys and two optional seek offsets. Each offset stands for the input value times 20 times the frame time, and None stands for an input at rest.
- `ApplyRandomFireworkVFX` and `ApplyRandomFireCircleVFX` draw positions with `Random.Range`. The frame input carries the positions they would draw.
- `Clapped` is not modelled. It computes a position from hand tracking and `Random.Range`, then calls `ApplyFireworkVFX` or `ApplyFireCircleVFX`. Both are public methods of the model that take any position, so a clap is an outside call to one of them.
- The timeline controller notifications (`AddCreationElement`, `ClearTimeline`, `EnterPreviewMode`, `ExitPreviewMode`) and `Debug.Log` are calls to collaborators with no effect on this state.
- Times are unbounded reals. Single-precision rounding of the cursor and of the constants 0.05, 1.5, 2, 0.1 and 0.5 is not modelled, nor is overflow in `Mathf.FloorToInt`.
- The initial skybox tint comes from the material asset. The model starts it at NeutralSkybox, and the constructor takes whether the clip plays on awake.
