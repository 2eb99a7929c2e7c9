# arvosVun session logic in Dafny

This project models the session logic of `AugmentedScript`, the MonoBehaviour of the
arvosVun location-based augmented reality app (`Assets/AugmentedScript.cs`). The model
covers five parts of the script:

- **Start** looks up three scene objects by tag: the info text, the scene anchor and the
  wrapper template. Each missing one sets its error. Start then starts the
  `GetCoordinates` coroutine, which runs up to its first suspension before Start returns.
- **The coroutine's one-time initialisation** runs guarded by `_setOriginalValues`. It:
  - checks that the user enabled the location service;
  - switches on the compass and the location service;
  - waits at most 30 one-second polls while the service is initialising;
  - rejects a service that timed out or failed;
  - captures the original location;
  - fetches the object descriptor and rejects a network or HTTP error and an empty body.

  Every failure sets `_locationError` and ends the coroutine.
- **The descriptor processing** splits the text into lines, and each line into
  comma-separated fields:
  - an empty line is skipped;
  - a one-field line schedules the destruction of the object with that tag;
  - a four-field line `tag,name,lat,lon` instantiates a wrapper under the anchor, puts a
    named copy of the tagged object inside it, and records an `ArObject`;
  - any other line is fatal.

  Processing stops at the first failing line.
- **The coroutine's per-frame refresh** overwrites the current location and heading. It
  then recomputes each object's target as `(0, current height, distance)`.
- **Update**:
  - with an error, it only shows the error;
  - otherwise it smooths the compass heading with the source's own wrap-around rule,
    turns the anchor and every object to the same yaw, glides each object towards its
    target, and writes the diagnostics.

Modules:

- `Wrappers`: `Option` and `Result`.
- `Text`: .NET `String.Split(char)` and its inverse `Join`.
- `SceneGraph`: the part of the Unity scene the script touches, as a value. It holds:
  - the game objects by handle, with name, parent, position and yaw;
  - the tag lookup;
  - which originals `Instantiate` can copy;
  - the destructions scheduled by `Destroy`.
- `Heading`: the compass smoother. It has the wrap-around as written, which the model
  uses, and as evidently intended, and the `while (h > 360) h -= 360` reduction as a loop.
- `Descriptor`: the processing of one line (`ApplyLine`) and the fail-fast loop over the
  lines. It is written both as a function (`Run`) and as methods with loops
  (`ProcessLines`, `ProcessLine`).
- `Augmented`: the rest of the script:
  - a snapshot datatype `Session` of all the script's fields and the engine state it
    touches;
  - one specification function per step (`Started`, `Initialised`, `Located`, `Loaded`,
    `Processed`, `Refreshed`, `Resumed`, `Updated`);
  - class `AugmentedScript`, whose fields are the script's private fields plus the engine
    state. Each of its methods is proved to leave `Snapshot()` equal to a function of the
    old snapshot: a specification function, or an update of named fields.
    `FindReferences` instead pins the four fields it may change;
  - lemmas about whole sequences of frames and resumptions (`Play`).

The engine supplies the inputs:

- **A resumption of the coroutine** receives a `Tick`. It holds:
  - whether location is enabled;
  - the service status after each of the 0 to 30 waits;
  - the location fix;
  - the web response;
  - the sample read at the refresh.
- **`double.TryParse`, `Calc` and `Mathf.Sqrt(a*a + b*b)`** are function values in a
  `Platform`, and nothing is assumed about them.

## Model

| member | source | states |
|---|---|---|
| Augmented.Initial | Assets/AugmentedScript.cs:46-63 | The field initialisers: no error, the run-once flag set, no objects, the coroutine not started, and the session invariant holds. |
| Augmented.AugmentedScript.constructor | Assets/AugmentedScript.cs:46-63 | The new script's fields are the initial session over the given scene. |
| Augmented.Started | Assets/AugmentedScript.cs:257-280 | Start's lookups: starting without an error, no error is set exactly when all three tags exist. A missing `Wrapper` wins over a missing `SceneAnchor`, which wins over a missing `distanceText`, because the last failing lookup writes last. Only the references, the error and the coroutine change. |
| Augmented.AugmentedScript.Start | Assets/AugmentedScript.cs:257-280 | The script's fields after Start are the first resumption (`Resumed`) of `Started` of the fields before. `StartCoroutine` runs the coroutine up to its first suspension before Start returns. |
| Augmented.AugmentedScript.Launch | Assets/AugmentedScript.cs:279 | `StartCoroutine`: the coroutine is running, and nothing else changes. |
| Augmented.DisabledShownOnFirstFrame | Assets/AugmentedScript.cs:76-80 | When the user has not enabled location, the coroutine has already ended with an error when Start returns, and the first frame shows it. That error is the disabled-location message, with the compass untouched, when all three tags exist (lines 76-80, 279, 285-288). |
| Augmented.AugmentedScript.FindReferences | Assets/AugmentedScript.cs:259-276 | The three lookups with their `if` statements set the references and the error exactly as `Started` says, and change nothing else. |
| SceneGraph.Scene.Find | Assets/AugmentedScript.cs:149-150 | `FindGameObjectWithTag` gives an object exactly when the tag is known, and that object is in the scene. |
| SceneGraph.Scene.Instantiate | Assets/AugmentedScript.cs:176-190 | `Instantiate` either fails and leaves the scene as it was, or appends exactly one new object under a fresh handle. The objects already there, the tags and the scheduled destructions are kept. |
| SceneGraph.Scene.SetParent | Assets/AugmentedScript.cs:182 | Setting `transform.parent` changes only that object's parent. Its name, position and yaw, every other object, the tags and the scheduled destructions are kept (also line 191). |
| SceneGraph.Scene.SetName | Assets/AugmentedScript.cs:192 | Setting `name` changes only that object's name. Its parent, position and yaw, every other object, the tags and the scheduled destructions are kept. |
| SceneGraph.Scene.Turn | Assets/AugmentedScript.cs:310 | Setting `eulerAngles` to `(0, yaw, 0)` gives that object the yaw and keeps its position, name and parent. Every other object is kept (also line 317). |
| SceneGraph.Scene.Destroy | Assets/AugmentedScript.cs:155 | `Destroy(obj, .1f)` only schedules the destruction. The object stays in the scene and stays findable by its tag. |
| Augmented.WaitsFrom | Assets/AugmentedScript.cs:89-94 | The number of one-second waits is at most 30. Every poll before it was `Initializing`, and the loop stops early only on a status other than `Initializing`. |
| Augmented.TimeoutExactly | Assets/AugmentedScript.cs:89-101 | The wait times out exactly when the service was `Initializing` at all 30 polls. This includes the case where the service left `Initializing` during the 30th wait. |
| Augmented.StartupChecks | Assets/AugmentedScript.cs:75-130 | The start-up checks run in the source's order: location disabled, timeout, `Failed` status, web error, empty body. Each ends the coroutine with its own message. A disabled location ends it before the compass and the service are switched on, and the original location is captured only after both status checks pass. |
| Augmented.NothingLoadedUnlessReady | Assets/AugmentedScript.cs:75-130 | When any start-up check fails, the objects and the scene stay as they were. |
| Augmented.LoadedRuns | Assets/AugmentedScript.cs:132-218 | Once the checks pass, the session's objects and error are those of the descriptor run. The coroutine ends exactly when that run leaves an error. |
| Augmented.DescriptorLoaded | Assets/AugmentedScript.cs:132-218 | After a successful start-up, the error stays empty exactly when every descriptor line passes, and the coroutine ends exactly when one fails. The earlier objects are kept. The objects added are the accepted lines before the first failing line, in order. |
| Augmented.Initialised | Assets/AugmentedScript.cs:71-218 | The run-once block keeps the session invariant and always clears the flag. An error it sets always ends the coroutine. |
| Augmented.Located | Assets/AugmentedScript.cs:82-218 | After the location part the compass and the service are on, the flag is as before, and an error always ends the coroutine. |
| Augmented.Loaded | Assets/AugmentedScript.cs:113-218 | A web error becomes the error, and an empty body the empty-text error. Both end the coroutine. For a non-empty body, the coroutine ends exactly when processing set an error. |
| Augmented.Processed | Assets/AugmentedScript.cs:133-213 | Processing changes only the scene, the objects and the error. The tags are kept, the scene only grows, and the earlier objects stay a prefix of the list. |
| Augmented.AugmentedScript.Initialise | Assets/AugmentedScript.cs:71-80 | The run-once block: the flag is cleared first, then it halts with the disabled-location error or continues. The new fields are `Initialised` of the old. |
| Augmented.AugmentedScript.LocateDevice | Assets/AugmentedScript.cs:82-111 | The `maxWait` countdown loop is proved to wait `WaitsFrom` polls. The new fields are `Located` of the old: halted by a timeout, by a failed status, or with the origin captured and the descriptor loaded. |
| Augmented.AugmentedScript.StartServices | Assets/AugmentedScript.cs:82-86 | The compass and the location service are on, and nothing else changes. |
| Augmented.AugmentedScript.KeepOrigin | Assets/AugmentedScript.cs:110-111 | The original latitude and longitude are the fix, and nothing else changes. |
| Augmented.AugmentedScript.Halt | Assets/AugmentedScript.cs:97-101 | Setting an error and `yield break`: the error is the message, the coroutine has ended, and nothing else changes. |
| Augmented.AugmentedScript.LoadDescriptor | Assets/AugmentedScript.cs:113-130 | The new fields are `Loaded` of the old. A web error becomes the error, and an empty body becomes the empty-text error. Otherwise the descriptor is processed, and the coroutine ends if that set an error (lines 215-218). |
| Augmented.AugmentedScript.ProcessDescriptor | Assets/AugmentedScript.cs:133-213 | The scene, the object list and the error become the result of the fail-fast run over the descriptor's lines. |
| Descriptor.ApplyLine | Assets/AugmentedScript.cs:136-212 | A line passes exactly when it is one of these:<br>- empty;<br>- a one-field line with a known tag;<br>- an accepted four-field line.<br>The scene's existing objects and tags are kept. |
| Descriptor.ProcessLine | Assets/AugmentedScript.cs:136-212 | The foreach body, with its early exits, computes `ApplyLine`. |
| Descriptor.RemovalEffects | Assets/AugmentedScript.cs:136-157 | An empty line changes nothing. A one-field line adds no object. It schedules the destruction of the tagged object, or fails with the bad-name error when the tag is unknown. |
| Descriptor.Place | Assets/AugmentedScript.cs:175-211 | A four-field line with a known tag ends without an error exactly when both instantiations succeed and both coordinates parse. |
| Descriptor.PlacementEffects | Assets/AugmentedScript.cs:159-212 | An accepted line appends exactly one object. Its wrapper is the first new node, its text is the line, and its coordinates are the parsed third and fourth fields. An instantiated line adds the wrapper under the anchor and the copy, named by the second field, under the wrapper. Any other line appends nothing. |
| Descriptor.PlaceObjects | Assets/AugmentedScript.cs:194-212 | `Place` records one object exactly when both instantiations succeed and both coordinates parse. A line with a bad coordinate records nothing, though its copies exist (see `PlaceNodes`). |
| Descriptor.PlaceNodes | Assets/AugmentedScript.cs:176-192 | When both instantiations succeed, the wrapper is parented to the anchor and the named copy to the wrapper. |
| Descriptor.FirstFailure | Assets/AugmentedScript.cs:134-213 | The index of the first line that does not pass: every earlier line passes. |
| Descriptor.Run | Assets/AugmentedScript.cs:134-213 | The loop over the lines with its `yield break` keeps the tags. The earlier game objects stay a prefix of the scene, and the earlier objects a prefix of the list. Once an error is set, nothing changes. |
| Descriptor.ProcessLines | Assets/AugmentedScript.cs:134-213 | The foreach loop over the lines computes `Run`. |
| Descriptor.RunFailFast | Assets/AugmentedScript.cs:133-213 | Fail-fast processing: the run ends without an error exactly when every line passes. The objects already present are kept, and those added are exactly the accepted lines before the first failing one, in order. |
| Descriptor.FailFastPassingLine | Assets/AugmentedScript.cs:134-213 | A passing first line followed by a fail-fast rest is fail-fast. |
| Descriptor.FailFastFailingLine | Assets/AugmentedScript.cs:134-213 | A failing first line stops the processing, and nothing is added. |
| Descriptor.PlacedAfterLine | Assets/AugmentedScript.cs:136-212 | One line keeps the earlier objects and adds exactly its own placement, if it is accepted. |
| Text.Split | Assets/AugmentedScript.cs:133 | `String.Split(char)` always gives at least one piece: an empty text is one empty line (also line 144). |
| Text.JoinSplit | Assets/AugmentedScript.cs:133 | Splitting loses nothing: joining the pieces with the separator gives the text back. |
| Text.SplitJoin | Assets/AugmentedScript.cs:144 | Joining separator-free pieces and splitting again gives the pieces back. |
| Text.SplitPiecesFree | Assets/AugmentedScript.cs:144 | No field contains a comma. |
| Text.SinglePiece | Assets/AugmentedScript.cs:144-145 | A line has exactly one field exactly when it has no comma, and then the field is the line. |
| Augmented.Retarget | Assets/AugmentedScript.cs:229-237 | Each object keeps everything but its target. The target's x is 0, its y is the wrapper's height, and its z is the distance from the object's coordinates to the device. |
| Augmented.Refreshed | Assets/AugmentedScript.cs:221-238 | The refresh sets the current location and heading to the sample. Each object keeps everything but its target, and nothing else changes. |
| Augmented.AugmentedScript.Refresh | Assets/AugmentedScript.cs:221-238 | The current location and heading are overwritten by the sample, and every target is recomputed (`Refreshed`). |
| Augmented.RetargetAll | Assets/AugmentedScript.cs:229-238 | The loop over the objects computes `Retarget`. |
| Augmented.Resumed | Assets/AugmentedScript.cs:66-240 | One resumption keeps the session invariant. A resumption without an error clears the run-once flag. |
| Augmented.AugmentedScript.Resume | Assets/AugmentedScript.cs:66-240 | The coroutine from one suspension to the next: an ended coroutine stays ended; an error ends it; otherwise it initialises once, then refreshes. The new fields are `Resumed` of the old. |
| Augmented.ErrorStep | Assets/AugmentedScript.cs:68 | With the error set, a resumption ends the coroutine and a frame only shows the error. Nothing else changes. |
| Augmented.ErrorIsTerminal | Assets/AugmentedScript.cs:68 | Once set, the error is never cleared or replaced. Over any frames and resumptions, only the coroutine's state and the info text change, and the coroutine can only end. |
| Augmented.ErrorEndsOnResume | Assets/AugmentedScript.cs:68 | With the error set, any later resumption ends the coroutine for good. |
| Augmented.ErrorShownOnFrame | Assets/AugmentedScript.cs:285-289 | With the error set, after events ending with a frame the info text is the error. |
| Augmented.InitialisedOnce | Assets/AugmentedScript.cs:71-73 | After the run-once block, no sequence of frames and resumptions can do any of these:<br>- rerun it;<br>- move the original location;<br>- change the references, the tags or the scheduled destructions;<br>- add or remove objects;<br>- change an object's line or coordinates. |
| Augmented.SettledStep | Assets/AugmentedScript.cs:71-73 | The one-event step of `InitialisedOnce`. |
| Heading.AdjustAsWritten | Assets/AugmentedScript.cs:292-302 | The source's wrap-around adds 360 to at most one heading. It adds it to the current heading only when that heading is below 180. |
| Heading.Adjust | Assets/AugmentedScript.cs:292-302 | The corrected wrap-around adds 360 to at most one heading. It adds it to the current heading exactly when the shown one is more than 180 ahead, and to the shown one exactly when the current one is more than 180 ahead. |
| Heading.Smooth | Assets/AugmentedScript.cs:303-308 | The 1/20 step, once reduced, is at most 360 and differs from the unreduced step by whole turns. |
| Heading.StepAsWritten | Assets/AugmentedScript.cs:292-308 | One frame of the source's smoother: the current heading gains a turn only when it was below 180, and the new shown heading is at most 360. |
| Heading.Step | Assets/AugmentedScript.cs:292-308 | One frame of the corrected smoother: the current heading gains a turn only when the shown one is more than 180 ahead, and the new shown heading is at most 360. |
| Heading.Reduce | Assets/AugmentedScript.cs:305-308 | The reduction loop removes whole turns only. The result is at most 360, and positive when the input exceeded 360. |
| Heading.ReduceBelow720 | Assets/AugmentedScript.cs:305-308 | The reduction leaves a value up to 360 alone, and takes exactly one turn off a value in (360, 720]. |
| Heading.SmoothStep | Assets/AugmentedScript.cs:292-308 | The source's smoother, with its wrap-around test and its `while` reduction loop, computes `StepAsWritten`. |
| Heading.SmoothInRange | Assets/AugmentedScript.cs:303-308 | A 1/20 step between values in [0, 720] lands in [0, 360] once reduced. |
| Heading.StepAsWrittenInRange | Assets/AugmentedScript.cs:292-308 | As written, the smoother keeps current in [0, 720) and shown in [0, 360]. |
| Heading.StepInRange | Assets/AugmentedScript.cs:292-308 | The corrected smoother keeps the same ranges. |
| Heading.StepTakesShortWay | Assets/AugmentedScript.cs:292-303 | After the corrected adjustment the headings are at most half a turn apart. The shown heading moves at most 9 degrees a frame, up to whole turns. |
| Heading.AsWrittenCrossingSouth | Assets/AugmentedScript.cs:292-303 | Counterexample: current 181 and shown 179 move the shown heading to 161.1 as written, but to 179.1 with the corrected step. |
| Heading.AsWrittenLongWay | Assets/AugmentedScript.cs:292-302 | As written, headings that straddle 180 while less than half a turn apart end up more than half a turn apart, whichever of the two is the larger. |
| Augmented.Lerp | Assets/AugmentedScript.cs:316 | `Vector3.Lerp` clamps its fraction: at 0 or below it gives the start, at 1 or above the target. |
| Augmented.LerpClosesTenth | Assets/AugmentedScript.cs:316 | One frame's `Vector3.Lerp` with speed 0.1 closes a tenth of the gap to the target on each axis. |
| Augmented.Glide | Assets/AugmentedScript.cs:313-318 | The loop over the objects keeps the number of game objects. What it does to each is stated by `GlideTurnsEveryObject`. |
| Augmented.GlideTurnsEveryObject | Assets/AugmentedScript.cs:313-318 | After the loop over the objects, every object's wrapper has the yaw. No other game object changes, and no name or parent changes. |
| Augmented.GlideAll | Assets/AugmentedScript.cs:313-318 | The foreach over the objects computes `Glide`. |
| Augmented.Updated | Assets/AugmentedScript.cs:282-331 | A frame, with the source's heading step, keeps the session invariant and the coroutine's state. |
| Augmented.UpdateOrients | Assets/AugmentedScript.cs:282-318 | With an error, only the error text is written, and the headings and all transforms are unchanged. Otherwise these hold:<br>- the shown heading is in [0, 360];<br>- the anchor and every object's wrapper get the yaw 360 minus the shown heading;<br>- the objects, the tags, the names and the parents are unchanged. |
| Augmented.AugmentedScript.Update | Assets/AugmentedScript.cs:282-331 | The new fields are `Updated` of the old, and the invariant is kept. |
| Augmented.AugmentedScript.SmoothHeading | Assets/AugmentedScript.cs:291-308 | The two headings take one step of the source's smoother (`StepAsWritten`), and nothing else changes. |
| Augmented.AugmentedScript.Orient | Assets/AugmentedScript.cs:310-318 | The anchor is turned to the yaw 360 minus the shown heading, and every object glides and takes that yaw. Nothing else changes. |

## Left out

- **`Calc`** (lines 244-255) and the combination `Mathf.Sqrt(a*a + b*b)`: floating-point
  trigonometry. They are uninterpreted function values of `Platform`, and distances are
  stated only structurally.
- **`float` and `double`**: arithmetic is over `real`. The `(float)` casts, float
  rounding in `Vector3.Lerp` and in the smoother, and Unity's `eulerAngles`
  normalisation are not modelled. A yaw is the value written.
- **Formatting of the diagnostics line** (lines 326-331): the info text is a datatype
  carrying the distance, the count, the location and the heading, or "disabled" as
  `None`.
- **The coroutine's own suspensions**: the waits at lines 92 and 116 are atomic inside
  one resumption. The frames the engine runs during them are not interleaved. The first
  resumption runs inside `Start`, as `StartCoroutine` does; when that first segment
  reaches a wait, the model still runs on to line 239 before Start returns.
- **The URL fetch**: the web request is its result, a body or an error text.
- **A missing `distanceText` object**: Update would then throw a null reference when it
  writes the error. The model shows the error instead.
- SceneGraph.Scene.Find: the tag map stands for the tags declared in the project. In
  the program, `FindGameObjectWithTag` returns null only for a declared tag that no
  active object carries. For an undeclared tag, or "", it throws. In the coroutine that
  ends it with `_locationError` still empty, so Update keeps showing diagnostics for the
  objects placed so far. In Start it aborts Start before the coroutine is started. A
  misspelt tag, or a one-field line ending in the "\r" of CRLF text, is one such case.
  The model reports the bad-name or "Cannot find" error for every unknown tag instead.
- **Duplicate tags**: when several objects share a tag, which one
  `FindGameObjectWithTag` returns is not modelled. The tag map gives one object per tag.
- **The 0.1 s delay of `Destroy`**: the destruction is recorded, and the object stays
  in the scene.
- **`ArObject` is a value**: a class in the source, it is a datatype in the model. The
  list's entries are replaced, not updated through shared references. Nothing else holds
  a reference to them.
- **`Assets/CubeScript.cs`**: it only rotates objects by name every frame, and it is not
  part of this model.
- GroundDistance: `Calc` and the square root are uninterpreted, so this function has no
  contract of its own. Its use for the targets is stated by the `Retarget` row. The
  distance in the diagnostics line (lines 321-324) is not stated by any contract.
- Augmented.Resumed: states only the invariant and the flag. The full behaviour of a
  resumption is stated by the lemmas `StartupChecks`, `DescriptorLoaded`,
  `ErrorIsTerminal` and `InitialisedOnce`.

## Findings

| source | as written | input that shows it | evidently intended | confidence | as-written member | corrected member |
|---|---|---|---|---|---|---|
| Assets/AugmentedScript.cs:292-302 | 360 is added unless both headings are below 180 or both above 180, so two headings that straddle due south but lie close together are pushed apart by a full turn | current heading 181, shown heading 179: the shown heading goes to 161.1, and the scene spins almost a full turn the long way | add 360 to the smaller heading only when they are more than 180 apart, giving 179.1 | not executed | Heading.StepAsWritten (Heading.AsWrittenCrossingSouth, Heading.AsWrittenLongWay) | Heading.Step (Heading.StepTakesShortWay, Heading.StepInRange) |
