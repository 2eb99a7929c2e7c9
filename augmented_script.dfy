/** The session logic of Assets/AugmentedScript.cs: the start-up checks, the coroutine
    that initialises the location service, fetches and processes the descriptor and
    then refreshes the coordinates and targets once a frame, and the frame update that
    smooths the compass heading and turns and moves the placed objects.

    The script's private fields are the fields of class AugmentedScript; the parts of
    the engine it talks to (the scene, the status text, the compass and location
    switches, the coroutine's own state) are fields beside them. Each method is
    specified by a function on a snapshot of all these fields (datatype Session), and
    the properties of the script are lemmas about those functions. */
module Augmented {
  import opened Wrappers
  import opened Text
  import opened SceneGraph
  import opened Descriptor
  import Heading

  /** LocationServiceStatus */
  datatype Status = Stopped | Initializing | Running | Failed

  /** The seconds the start-up waits for the location service. */
  const MaxWait: nat := 30

  const Url: string := "http://www.mission-base.com/ArvosVun.txt"

  /** The interpolation factor of Vector3.Lerp in the frame update. */
  const Speed: real := 0.1

  const LocationDisabled: string := "Please enable the location service."
  const TimedOut: string := "Location service timed out."
  const NoLocation: string := "Unable to determine device location."
  const EmptyText: string := "WebRequest to url '" + Url + "' received empty text."
  const NoInfoText: string := "Cannot find object with tag distanceText"
  const NoSceneAnchor: string := "Cannot find object with tag SceneAnchor"
  const NoWrapper: string := "Cannot find object with tag Wrapper"

  /** The library functions the script calls and the model does not reproduce:
      double.TryParse, the haversine distance Calc, and the combination of two legs into
      one distance, Mathf.Sqrt(a * a + b * b). */
  datatype Platform = Platform(tryParse: Parser, calcDistance: (real, real, real, real) -> real, hypot: (real, real) -> real)

  /** Input.location.lastData */
  datatype Fix = Fix(latitude: real, longitude: real)

  /** What the engine reports while the coroutine initialises: whether the user enabled
      the location service, the service status after 0, 1, ..., MaxWait seconds of
      waiting, the location then, and the web request's body or error text. */
  datatype Startup = Startup(locationEnabled: bool, polls: seq<Status>, origin: Fix, response: Result<string, string>)

  /** What the engine reports when the coroutine refreshes: the location and the compass's true heading. */
  datatype Sample = Sample(fix: Fix, heading: real)

  /** Everything one resumption of the coroutine may read. */
  datatype Tick = Tick(startup: Startup, sample: Sample)

  predicate WellFormed(t: Tick) {
    |t.startup.polls| == MaxWait + 1 && 0.0 <= t.sample.heading < 360.0
  }

  /** The GetCoordinates coroutine: not yet started, running, or ended (by `yield break`
      or because the error was set when its loop condition was tested). */
  datatype Coroutine = Pending | Active | Ended

  /** The text of the info object: the error, or the diagnostics line with the distance
      walked, the number of objects, the location and the shown heading (None when the
      compass is disabled). Float formatting is not modelled. */
  datatype InfoText = Blank | ErrorText(message: string)
                    | Diagnostics(distance: real, count: nat, latitude: real, longitude: real, heading: Option<real>)

  /** A snapshot of the script's fields and the engine state it touches. */
  datatype Session = Session(
    currentLongitude: real, currentLatitude: real, currentHeading: real,
    originalLatitude: real, originalLongitude: real, headingShown: real,
    sceneAnchor: Option<Handle>, infoTextObject: Option<Handle>, wrapper: Option<Handle>,
    locationError: string, setOriginalValues: bool, arObjects: seq<ArObject>,
    scene: Scene, compassEnabled: bool, locationStarted: bool, coroutine: Coroutine, infoText: InfoText)

  /** The invariant of a session: the references point into the scene, a started session
      without error has all three references, and the headings are in the smoother's range. */
  ghost predicate Consistent(s: Session) {
    s.scene.Valid() &&
    (s.sceneAnchor.Some? ==> s.scene.Has(s.sceneAnchor.value)) &&
    (s.infoTextObject.Some? ==> s.scene.Has(s.infoTextObject.value)) &&
    (s.wrapper.Some? ==> s.scene.Has(s.wrapper.value)) &&
    (forall k :: 0 <= k < |s.arObjects| ==> s.scene.Has(s.arObjects[k].gameObject)) &&
    (s.coroutine != Pending && s.locationError == "" ==>
       s.sceneAnchor.Some? && s.infoTextObject.Some? && s.wrapper.Some?) &&
    Heading.InRange(s.currentHeading, s.headingShown)
  }

  /** The field initialisers of the script. */
  function Initial(scene: Scene): (r: Session)
    requires scene.Valid()
    ensures Consistent(r) && r.coroutine == Pending && r.setOriginalValues && r.arObjects == [] && r.locationError == ""
  {
    Session(0.0, 0.0, 0.0, 0.0, 0.0, 0.0, None, None, None, "", true, [], scene, false, false, Pending, Blank)
  }

  // ---------------------------------------------------------------- Start

  /** Start (lines 257-280): the three references are looked up by tag, each missing one
      setting its error (so the last missing one is reported), and the coroutine starts. */
  function Started(s: Session): (r: Session)
    requires Consistent(s) && s.coroutine == Pending
    ensures Consistent(r) && r.coroutine == Active
    ensures s.locationError == "" ==>
      (r.locationError == "" <==>
         "distanceText" in s.scene.tags && "SceneAnchor" in s.scene.tags && "Wrapper" in s.scene.tags)
    ensures "Wrapper" !in s.scene.tags ==> r.locationError == NoWrapper
    ensures "Wrapper" in s.scene.tags && "SceneAnchor" !in s.scene.tags ==> r.locationError == NoSceneAnchor
    ensures "Wrapper" in s.scene.tags && "SceneAnchor" in s.scene.tags && "distanceText" !in s.scene.tags ==>
      r.locationError == NoInfoText
    ensures r.(infoTextObject := s.infoTextObject, sceneAnchor := s.sceneAnchor, wrapper := s.wrapper,
               locationError := s.locationError, coroutine := s.coroutine) == s
  {
    var info := s.scene.Find("distanceText");
    var e1 := if info.None? then NoInfoText else s.locationError;
    var anchor := s.scene.Find("SceneAnchor");
    var e2 := if anchor.None? then NoSceneAnchor else e1;
    var wrapper := s.scene.Find("Wrapper");
    var e3 := if wrapper.None? then NoWrapper else e2;
    s.(infoTextObject := info, sceneAnchor := anchor, wrapper := wrapper, locationError := e3, coroutine := Active)
  }

  // ---------------------------------------------------------------- the coroutine

  /** The number of one-second waits of the loop at lines 89-94 when `k` have been done:
      it waits while the status is Initializing and fewer than MaxWait waits were made. */
  function WaitsFrom(polls: seq<Status>, k: nat): (w: nat)
    requires |polls| == MaxWait + 1 && k <= MaxWait
    ensures k <= w <= MaxWait
    ensures forall j :: k <= j < w ==> polls[j] == Initializing
    ensures w < MaxWait ==> polls[w] != Initializing
    decreases MaxWait - k
  {
    if k < MaxWait && polls[k] == Initializing then WaitsFrom(polls, k + 1) else k
  }

  /** The wait times out exactly when the status was still Initializing at each of the
      MaxWait polls, whatever it was after the last wait. */
  lemma TimeoutExactly(polls: seq<Status>)
    requires |polls| == MaxWait + 1
    ensures WaitsFrom(polls, 0) == MaxWait <==> forall j :: 0 <= j < MaxWait ==> polls[j] == Initializing
  {
  }

  /** The coroutine ends with an error message. */
  function Halted(s: Session, message: string): Session {
    s.(locationError := message, coroutine := Ended)
  }

  /** The descriptor processing (lines 133-213) applied to a session. */
  function Processed(s: Session, text: string, parse: Parser): (r: Session)
    requires Consistent(s) && s.coroutine == Active && s.locationError == ""
    ensures Consistent(r)
    ensures r.(scene := s.scene, arObjects := s.arObjects, locationError := s.locationError) == s
    ensures r.scene.tags == s.scene.tags && |s.scene.nodes| <= |r.scene.nodes|
    ensures |s.arObjects| <= |r.arObjects| && r.arObjects[..|s.arObjects|] == s.arObjects
  {
    var q := Run(Split(text, '\n'), Progress(s.scene, s.arObjects, ""), text, s.wrapper.value, s.sceneAnchor.value, parse);
    s.(scene := q.scene, arObjects := q.objects, locationError := q.error)
  }

  /** The run-once initialisation block (lines 71-218). */
  function Initialised(s: Session, st: Startup, p: Platform): (r: Session)
    requires Consistent(s) && s.coroutine == Active && s.locationError == "" && s.setOriginalValues
    requires |st.polls| == MaxWait + 1
    ensures Consistent(r) && !r.setOriginalValues
    ensures r.locationError != "" ==> r.coroutine == Ended
  {
    var s1 := s.(setOriginalValues := false);
    if !st.locationEnabled then Halted(s1, LocationDisabled) else Located(s1, st, p)
  }

  /** Lines 82-213 of the initialisation: the compass and the location service are
      switched on, the service is awaited, and once it runs the original coordinates are
      captured and the descriptor is loaded. */
  function Located(s: Session, st: Startup, p: Platform): (r: Session)
    requires Consistent(s) && s.coroutine == Active && s.locationError == ""
    requires |st.polls| == MaxWait + 1
    ensures Consistent(r) && r.setOriginalValues == s.setOriginalValues
    ensures r.compassEnabled && r.locationStarted
    ensures r.locationError != "" ==> r.coroutine == Ended
  {
    var s1 := s.(compassEnabled := true, locationStarted := true);
    var waited := WaitsFrom(st.polls, 0);
    if MaxWait - waited < 1 then Halted(s1, TimedOut)
    else if st.polls[waited] == Failed then Halted(s1, NoLocation)
    else Loaded(s1.(originalLatitude := st.origin.latitude, originalLongitude := st.origin.longitude), st.response, p)
  }

  /** The rest of the initialisation (lines 113-218): the web request for the descriptor,
      its error or empty body, and the processing of its lines. */
  function Loaded(s: Session, response: Result<string, string>, p: Platform): (r: Session)
    requires Consistent(s) && s.coroutine == Active && s.locationError == ""
    ensures Consistent(r)
    ensures r.setOriginalValues == s.setOriginalValues
    ensures response.Failure? ==> r.locationError == response.error && r.coroutine == Ended
    ensures response == Success("") ==> r.locationError == EmptyText && r.coroutine == Ended
    ensures response.Success? && response.value != "" ==> (r.coroutine == Ended <==> r.locationError != "")
    ensures r.locationError != "" ==> r.coroutine == Ended
  {
    match response
    case Failure(e) => Halted(s, e)
    case Success(text) =>
      if text == "" then Halted(s, EmptyText)
      else
        var s1 := Processed(s, text, p.tryParse);
        if s1.locationError != "" then s1.(coroutine := Ended) else s1
  }

  /** Where a placed object's wrapper should glide to (lines 231-237): straight ahead at
      its distance from the device, at the wrapper's current height. */
  function Retarget(objects: seq<ArObject>, nodes: seq<Node>, latitude: real, longitude: real, p: Platform): (r: seq<ArObject>)
    requires forall k :: 0 <= k < |objects| ==> objects[k].gameObject < |nodes|
    ensures |r| == |objects|
    ensures forall k :: 0 <= k < |r| ==>
      r[k].(targetPosition := objects[k].targetPosition) == objects[k] &&
      r[k].targetPosition.x == 0.0 &&
      r[k].targetPosition.y == nodes[objects[k].gameObject].position.y &&
      r[k].targetPosition.z == GroundDistance(p, objects[k].latitude, objects[k].longitude, latitude, longitude)
  {
    seq(|objects|, k requires 0 <= k < |objects| =>
      objects[k].(targetPosition := Vec3(0.0, nodes[objects[k].gameObject].position.y,
                                         GroundDistance(p, objects[k].latitude, objects[k].longitude, latitude, longitude))))
  }

  /** The distance from a coordinate to the device (lines 231-234, 321-324): the
      north-south and east-west legs by Calc, combined by Pythagoras. */
  function GroundDistance(p: Platform, latitude: real, longitude: real, currentLatitude: real, currentLongitude: real): real {
    var latDistance := p.calcDistance(latitude, currentLongitude, currentLatitude, currentLongitude);
    var lonDistance := p.calcDistance(currentLatitude, longitude, currentLatitude, currentLongitude);
    p.hypot(latDistance, lonDistance)
  }

  /** The per-frame refresh (lines 221-238): the current location and heading are
      overwritten and every target recomputed. */
  function Refreshed(s: Session, sample: Sample, p: Platform): (r: Session)
    requires Consistent(s) && 0.0 <= sample.heading < 360.0
    ensures Consistent(r)
    ensures r.currentLatitude == sample.fix.latitude && r.currentLongitude == sample.fix.longitude
    ensures r.currentHeading == sample.heading
    ensures |r.arObjects| == |s.arObjects|
    ensures forall k :: 0 <= k < |r.arObjects| ==>
      r.arObjects[k].(targetPosition := s.arObjects[k].targetPosition) == s.arObjects[k]
    ensures r.(currentLatitude := s.currentLatitude, currentLongitude := s.currentLongitude,
               currentHeading := s.currentHeading, arObjects := s.arObjects) == s
  {
    s.(currentLatitude := sample.fix.latitude, currentLongitude := sample.fix.longitude,
       currentHeading := sample.heading,
       arObjects := Retarget(s.arObjects, s.scene.nodes, sample.fix.latitude, sample.fix.longitude, p))
  }

  /** One resumption of GetCoordinates: one iteration of its outer loop, up to the next
      `yield return null`, or its end. */
  function Resumed(s: Session, t: Tick, p: Platform): (r: Session)
    requires Consistent(s) && s.coroutine != Pending && WellFormed(t)
    ensures Consistent(r) && r.coroutine != Pending
    ensures s.coroutine == Active && s.locationError == "" ==> !r.setOriginalValues
  {
    if s.coroutine == Ended then s
    else if s.locationError != "" then s.(coroutine := Ended)
    else
      var s1 := if s.setOriginalValues then Initialised(s, t.startup, p) else s;
      if s1.coroutine == Ended then s1 else Refreshed(s1, t.sample, p)
  }

  // ---------------------------------------------------------------- Update

  /** Vector3.Lerp(a, b, t): the point the fraction t (clamped to [0, 1]) of the way from a to b. */
  function Lerp(a: Vec3, b: Vec3, t: real): (r: Vec3)
    ensures t <= 0.0 ==> r == a
    ensures t >= 1.0 ==> r == b
  {
    var u := if t < 0.0 then 0.0 else if t > 1.0 then 1.0 else t;
    Vec3(a.x + (b.x - a.x) * u, a.y + (b.y - a.y) * u, a.z + (b.z - a.z) * u)
  }

  /** One frame's glide closes a tenth of the gap to the target on every axis. */
  lemma LerpClosesTenth(a: Vec3, b: Vec3)
    ensures var r := Lerp(a, b, Speed);
            r.x - b.x == 0.9 * (a.x - b.x) && r.y - b.y == 0.9 * (a.y - b.y) && r.z - b.z == 0.9 * (a.z - b.z)
  {
  }

  /** The loop over the objects in Update (lines 313-318): each wrapper glides towards
      its target and takes the yaw. */
  function Glide(nodes: seq<Node>, objects: seq<ArObject>, yaw: real): (r: seq<Node>)
    requires forall k :: 0 <= k < |objects| ==> objects[k].gameObject < |nodes|
    ensures |r| == |nodes|
    decreases |objects|
  {
    if objects == [] then nodes
    else
      var n := Glide(nodes, objects[..|objects| - 1], yaw);
      var o := objects[|objects| - 1];
      n[o.gameObject := n[o.gameObject].(position := Lerp(n[o.gameObject].position, o.targetPosition, Speed), yaw := yaw)]
  }

  /** After the glide every object's wrapper has the yaw; a game object that is no
      object's wrapper is untouched; names and parents never change. */
  lemma {:induction false} GlideTurnsEveryObject(nodes: seq<Node>, objects: seq<ArObject>, yaw: real)
    requires forall k :: 0 <= k < |objects| ==> objects[k].gameObject < |nodes|
    ensures forall k :: 0 <= k < |objects| ==> Glide(nodes, objects, yaw)[objects[k].gameObject].yaw == yaw
    ensures forall h :: 0 <= h < |nodes| && (forall k :: 0 <= k < |objects| ==> objects[k].gameObject != h) ==>
              Glide(nodes, objects, yaw)[h] == nodes[h]
    ensures forall h :: 0 <= h < |nodes| ==>
              Glide(nodes, objects, yaw)[h].name == nodes[h].name && Glide(nodes, objects, yaw)[h].parent == nodes[h].parent
    decreases |objects|
  {
    if objects != [] {
      var init := objects[..|objects| - 1];
      GlideTurnsEveryObject(nodes, init, yaw);
      forall k | 0 <= k < |objects| - 1 ensures objects[k] == init[k] { }
    }
  }

  /** Update (lines 282-318; the info text of lines 320-331 without its formatting):
      with an error only the error text is shown; otherwise one step of the smoother and
      the same yaw for the anchor and every object. */
  function Updated(s: Session, p: Platform): (r: Session)
    requires Consistent(s) && s.coroutine != Pending
    ensures Consistent(r) && r.coroutine == s.coroutine
  {
    if s.locationError != "" then s.(infoText := ErrorText(s.locationError))
    else
      var (c, h) := Heading.StepAsWritten(s.currentHeading, s.headingShown);
      Heading.StepAsWrittenInRange(s.currentHeading, s.headingShown);
      var yaw := 360.0 - h;
      var turned := s.scene.Turn(s.sceneAnchor.value, yaw);
      s.(currentHeading := c, headingShown := h,
         scene := turned.(nodes := Glide(turned.nodes, s.arObjects, yaw)),
         infoText := Diagnostics(GroundDistance(p, s.originalLatitude, s.originalLongitude, s.currentLatitude, s.currentLongitude),
                                 |s.arObjects|, s.currentLatitude, s.currentLongitude,
                                 if s.compassEnabled then Some(h) else None))
  }

  /** The loop over the objects at lines 229-237: each target is recomputed from the
      current location. */
  method RetargetAll(objects: seq<ArObject>, nodes: seq<Node>, latitude: real, longitude: real, p: Platform)
    returns (r: seq<ArObject>)
    requires forall k :: 0 <= k < |objects| ==> objects[k].gameObject < |nodes|
    ensures r == Retarget(objects, nodes, latitude, longitude, p)
  {
    r := objects;
    var i := 0;
    while i < |r|
      invariant 0 <= i <= |r| == |objects|
      invariant forall k :: 0 <= k < i ==> r[k] == Retarget(objects, nodes, latitude, longitude, p)[k]
      invariant forall k :: i <= k < |r| ==> r[k] == objects[k]
    {
      var o := r[i];
      var latDistance := p.calcDistance(o.latitude, longitude, latitude, longitude);
      var lonDistance := p.calcDistance(latitude, o.longitude, latitude, longitude);
      var distance := p.hypot(latDistance, lonDistance);
      r := r[i := o.(targetPosition := Vec3(0.0, nodes[o.gameObject].position.y, distance))];
      i := i + 1;
    }
  }

  /** The loop over the objects at lines 313-318 on the scene's nodes. */
  method GlideAll(nodes: seq<Node>, objects: seq<ArObject>, yaw: real) returns (r: seq<Node>)
    requires forall k :: 0 <= k < |objects| ==> objects[k].gameObject < |nodes|
    ensures r == Glide(nodes, objects, yaw)
  {
    r := nodes;
    var i := 0;
    while i < |objects|
      invariant 0 <= i <= |objects|
      invariant r == Glide(nodes, objects[..i], yaw)
    {
      var o := objects[i];
      var n := r[o.gameObject];
      r := r[o.gameObject := n.(position := Lerp(n.position, o.targetPosition, Speed), yaw := yaw)];
      assert objects[..i + 1][..i] == objects[..i];
      i := i + 1;
    }
    assert objects[..i] == objects;
  }

  // ---------------------------------------------------------------- properties

  /** What the engine does next: a frame (Update) or a resumption of the coroutine. */
  datatype Event = Frame | Resume(tick: Tick)

  predicate Playable(events: seq<Event>) {
    forall e | e in events :: e.Resume? ==> WellFormed(e.tick)
  }

  /** The session after one event. */
  function Next(s: Session, e: Event, p: Platform): (r: Session)
    requires Consistent(s) && s.coroutine != Pending && (e.Resume? ==> WellFormed(e.tick))
    ensures Consistent(r) && r.coroutine != Pending
  {
    match e
    case Frame => Updated(s, p)
    case Resume(t) => Resumed(s, t, p)
  }

  /** A session after a sequence of frames and resumptions. */
  function Play(s: Session, events: seq<Event>, p: Platform): (r: Session)
    requires Consistent(s) && s.coroutine != Pending && Playable(events)
    ensures Consistent(r) && r.coroutine != Pending
    decreases |events|
  {
    if events == [] then s
    else
      Play(Next(s, events[0], p), events[1..], p)
  }

  /** One event with the error set: a resumption ends the coroutine, a frame shows the
      error, and nothing else changes. */
  lemma ErrorStep(s: Session, e: Event, p: Platform)
    requires Consistent(s) && s.coroutine != Pending && s.locationError != "" && (e.Resume? ==> WellFormed(e.tick))
    ensures var r := Next(s, e, p);
      r.(coroutine := s.coroutine, infoText := s.infoText) == s &&
      (e.Resume? ==> r.coroutine == Ended) &&
      (e.Frame? ==> r.coroutine == s.coroutine && r.infoText == ErrorText(s.locationError))
  {
  }

  /** Once the error is set it is never cleared or replaced (the loop of line 68 does not
      iterate again): whatever frames and resumptions follow, only the coroutine's state
      and the info text can change, and the coroutine can only end. */
  lemma {:induction false} ErrorIsTerminal(s: Session, events: seq<Event>, p: Platform)
    requires Consistent(s) && s.coroutine != Pending && s.locationError != "" && Playable(events)
    ensures var r := Play(s, events, p);
      r.locationError == s.locationError &&
      r.(coroutine := s.coroutine, infoText := s.infoText) == s &&
      (r.coroutine == Ended || r.coroutine == s.coroutine)
    decreases |events|
  {
    if events != [] {
      ErrorStep(s, events[0], p);
      ErrorIsTerminal(Next(s, events[0], p), events[1..], p);
    }
  }

  /** With the error set, any resumption ends the coroutine for good. */
  lemma {:induction false} ErrorEndsOnResume(s: Session, events: seq<Event>, p: Platform)
    requires Consistent(s) && s.coroutine != Pending && s.locationError != "" && Playable(events)
    requires exists i :: 0 <= i < |events| && events[i].Resume?
    ensures Play(s, events, p).coroutine == Ended
    decreases |events|
  {
    var s1 := Next(s, events[0], p);
    ErrorStep(s, events[0], p);
    if events[0].Resume? {
      ErrorIsTerminal(s1, events[1..], p);
    } else {
      var i :| 0 <= i < |events| && events[i].Resume?;
      assert events[1..][i - 1].Resume?;
      ErrorEndsOnResume(s1, events[1..], p);
    }
  }

  /** With the error set, after events that end with a frame the info text is the
      error (lines 285-289). */
  lemma {:induction false} ErrorShownOnFrame(s: Session, events: seq<Event>, p: Platform)
    requires Consistent(s) && s.coroutine != Pending && s.locationError != "" && Playable(events)
    requires events != [] && events[|events| - 1].Frame?
    ensures Play(s, events, p).infoText == ErrorText(s.locationError)
    decreases |events|
  {
    var s1 := Next(s, events[0], p);
    ErrorStep(s, events[0], p);
    if |events| > 1 {
      assert events[1..][|events[1..]| - 1] == events[|events| - 1];
      ErrorShownOnFrame(s1, events[1..], p);
    }
  }

  /** The facts the run-once initialisation can change, and which stay fixed after it. */
  ghost predicate Settled(s: Session, r: Session) {
    !r.setOriginalValues &&
    r.originalLatitude == s.originalLatitude && r.originalLongitude == s.originalLongitude &&
    r.compassEnabled == s.compassEnabled && r.locationStarted == s.locationStarted &&
    r.sceneAnchor == s.sceneAnchor && r.infoTextObject == s.infoTextObject && r.wrapper == s.wrapper &&
    r.scene.tags == s.scene.tags && r.scene.destroying == s.scene.destroying &&
    |r.scene.nodes| == |s.scene.nodes| &&
    |r.arObjects| == |s.arObjects| &&
    forall k :: 0 <= k < |r.arObjects| ==> r.arObjects[k].(targetPosition := s.arObjects[k].targetPosition) == s.arObjects[k]
  }

  /** One frame or resumption after the initialisation has run leaves it settled. */
  lemma SettledStep(s: Session, e: Event, p: Platform)
    requires Consistent(s) && s.coroutine != Pending && !s.setOriginalValues && (e.Resume? ==> WellFormed(e.tick))
    ensures Settled(s, Next(s, e, p))
  {
  }

  /** The initialisation block runs at most once (its flag is cleared before any check,
      line 73): once it has run, no later frame or resumption reads the descriptor
      again, moves the original coordinates, adds, removes or destroys objects, or
      changes an object's line or coordinates; only the targets and transforms move. */
  lemma {:induction false} InitialisedOnce(s: Session, events: seq<Event>, p: Platform)
    requires Consistent(s) && s.coroutine != Pending && !s.setOriginalValues && Playable(events)
    ensures Settled(s, Play(s, events, p))
    decreases |events|
  {
    if events != [] {
      var s1 := Next(s, events[0], p);
      SettledStep(s, events[0], p);
      assert Playable(events[1..]);
      InitialisedOnce(s1, events[1..], p);
      var r := Play(s1, events[1..], p);
      forall k | 0 <= k < |r.arObjects|
        ensures r.arObjects[k].(targetPosition := s.arObjects[k].targetPosition) == s.arObjects[k]
      {
        assert r.arObjects[k].(targetPosition := s1.arObjects[k].targetPosition) == s1.arObjects[k];
        assert s1.arObjects[k].(targetPosition := s.arObjects[k].targetPosition) == s.arObjects[k];
      }
    }
  }

  /** The start-up checks of lines 75-130 in their order. Each failing check sets its
      error and ends the coroutine, leaving everything that later steps would change as
      it was: the compass and the service stay off when the location service is
      disabled, and the original coordinates are captured only once the service runs. */
  lemma StartupChecks(s: Session, st: Startup, p: Platform)
    requires Consistent(s) && s.coroutine == Active && s.locationError == "" && s.setOriginalValues
    requires |st.polls| == MaxWait + 1
    ensures var r := Initialised(s, st, p);
      var s1 := s.(setOriginalValues := false);
      var s2 := s1.(compassEnabled := true, locationStarted := true);
      var s3 := s2.(originalLatitude := st.origin.latitude, originalLongitude := st.origin.longitude);
      (!st.locationEnabled ==> r == Halted(s1, LocationDisabled)) &&
      (st.locationEnabled && (forall j :: 0 <= j < MaxWait ==> st.polls[j] == Initializing) ==>
         r == Halted(s2, TimedOut)) &&
      (st.locationEnabled && (exists j :: 0 <= j < MaxWait && st.polls[j] != Initializing) ==>
         var w := WaitsFrom(st.polls, 0);
         w < MaxWait && st.polls[w] != Initializing &&
         (st.polls[w] == Failed ==> r == Halted(s2, NoLocation)) &&
         (st.polls[w] != Failed ==>
            (st.response.Failure? ==> r == Halted(s3, st.response.error)) &&
            (st.response == Success("") ==> r == Halted(s3, EmptyText)) &&
            r.originalLatitude == st.origin.latitude && r.originalLongitude == st.origin.longitude &&
            r.compassEnabled && r.locationStarted))
  {
    TimeoutExactly(st.polls);
  }

  /** Start runs the coroutine up to its first suspension, so when the user has not
      enabled the location service the very first frame already shows an error: the
      disabled-location one when all three tags exist, otherwise the missing tag's. */
  lemma DisabledShownOnFirstFrame(s: Session, t: Tick, p: Platform)
    requires Consistent(s) && s.coroutine == Pending && s.locationError == "" && s.setOriginalValues
    requires WellFormed(t) && !t.startup.locationEnabled
    ensures var r := Resumed(Started(s), t, p);
      r.coroutine == Ended && r.locationError != "" &&
      ("distanceText" in s.scene.tags && "SceneAnchor" in s.scene.tags && "Wrapper" in s.scene.tags ==>
         r.locationError == LocationDisabled && r.compassEnabled == s.compassEnabled) &&
      Updated(r, p).infoText == ErrorText(r.locationError)
  {
    var s1 := Started(s);
    if s1.locationError == "" {
      var s2 := s1.(setOriginalValues := false);
      assert Initialised(s1, t.startup, p) == Halted(s2, LocationDisabled);
    }
  }

  /** When every check passed and the body is not empty, the coroutine keeps running
      exactly when every line passes, the objects are those of the accepted lines
      before the first failing one, in order, and the coroutine ends at that line. */
  lemma DescriptorLoaded(s: Session, st: Startup, p: Platform)
    requires Consistent(s) && s.coroutine == Active && s.locationError == "" && s.setOriginalValues
    requires |st.polls| == MaxWait + 1
    requires st.locationEnabled && WaitsFrom(st.polls, 0) < MaxWait && st.polls[WaitsFrom(st.polls, 0)] != Failed
    requires st.response.Success? && st.response.value != ""
    ensures var r := Initialised(s, st, p);
      var lines := Split(st.response.value, '\n');
      var k := FirstFailure(lines, s.scene.tags, s.scene.instantiable, s.wrapper.value, p.tryParse);
      (r.locationError == "" <==> k == |lines|) &&
      (r.coroutine == Ended <==> k < |lines|) &&
      |s.arObjects| <= |r.arObjects| && r.arObjects[..|s.arObjects|] == s.arObjects &&
      Placed(r.arObjects) == Placed(s.arObjects) +
        Placements(lines[..k], s.scene.tags, s.scene.instantiable, s.wrapper.value, p.tryParse)
  {
    var text := st.response.value;
    var start := Progress(s.scene, s.arObjects, "");
    LoadedRuns(s, st, p);
    RunFailFast(Split(text, '\n'), start, text, s.wrapper.value, s.sceneAnchor.value, p.tryParse);
  }

  /** Once the checks pass, the objects and the error are those the descriptor run
      leaves, and the coroutine ends exactly when there is an error. */
  lemma LoadedRuns(s: Session, st: Startup, p: Platform)
    requires Consistent(s) && s.coroutine == Active && s.locationError == "" && s.setOriginalValues
    requires |st.polls| == MaxWait + 1
    requires st.locationEnabled && WaitsFrom(st.polls, 0) < MaxWait && st.polls[WaitsFrom(st.polls, 0)] != Failed
    requires st.response.Success? && st.response.value != ""
    ensures var r := Initialised(s, st, p);
      var text := st.response.value;
      var q := Run(Split(text, '\n'), Progress(s.scene, s.arObjects, ""), text, s.wrapper.value, s.sceneAnchor.value, p.tryParse);
      r.arObjects == q.objects && r.locationError == q.error && (r.coroutine == Ended <==> q.error != "")
  {
  }

  /** The descriptor is processed only when every check passed and the body is not
      empty: otherwise the objects and the scene stay as they were. */
  lemma NothingLoadedUnlessReady(s: Session, st: Startup, p: Platform)
    requires Consistent(s) && s.coroutine == Active && s.locationError == "" && s.setOriginalValues
    requires |st.polls| == MaxWait + 1
    ensures var r := Initialised(s, st, p);
      r.arObjects != s.arObjects || r.scene != s.scene ==>
        st.locationEnabled && WaitsFrom(st.polls, 0) < MaxWait && st.polls[WaitsFrom(st.polls, 0)] != Failed &&
        st.response.Success? && st.response.value != ""
  {
  }

  /** With an error, a frame only shows it (lines 285-289). Otherwise the shown heading
      stays within [0, 360] and the anchor and every object's wrapper all get the yaw
      360 - shown heading (lines 310, 317), while the objects, the tags and the
      hierarchy stay as they were. */
  lemma UpdateOrients(s: Session, p: Platform)
    requires Consistent(s) && s.coroutine != Pending
    ensures var r := Updated(s, p);
      s.locationError != "" ==> r == s.(infoText := ErrorText(s.locationError))
    ensures var r := Updated(s, p);
      s.locationError == "" ==>
        var yaw := 360.0 - r.headingShown;
        0.0 <= r.headingShown <= 360.0 &&
        r.scene.nodes[s.sceneAnchor.value].yaw == yaw &&
        (forall k :: 0 <= k < |s.arObjects| ==> r.scene.nodes[s.arObjects[k].gameObject].yaw == yaw) &&
        r.arObjects == s.arObjects && r.locationError == "" && r.scene.tags == s.scene.tags &&
        |r.scene.nodes| == |s.scene.nodes| &&
        (forall h :: 0 <= h < |s.scene.nodes| ==>
           r.scene.nodes[h].name == s.scene.nodes[h].name && r.scene.nodes[h].parent == s.scene.nodes[h].parent)
  {
    if s.locationError == "" {
      var (c, h) := Heading.StepAsWritten(s.currentHeading, s.headingShown);
      Heading.StepAsWrittenInRange(s.currentHeading, s.headingShown);
      var yaw := 360.0 - h;
      var a := s.sceneAnchor.value;
      var turned := s.scene.Turn(a, yaw);
      GlideTurnsEveryObject(turned.nodes, s.arObjects, yaw);
      var r := Updated(s, p);
      assert r.scene.nodes == Glide(turned.nodes, s.arObjects, yaw);
      if forall k :: 0 <= k < |s.arObjects| ==> s.arObjects[k].gameObject != a {
        assert r.scene.nodes[a] == turned.nodes[a];
      } else {
        var k :| 0 <= k < |s.arObjects| && s.arObjects[k].gameObject == a;
        assert r.scene.nodes[s.arObjects[k].gameObject].yaw == yaw;
      }
    }
  }

  // ---------------------------------------------------------------- the script

  class AugmentedScript {
    var currentLongitude: real
    var currentLatitude: real
    var currentHeading: real
    var originalLatitude: real
    var originalLongitude: real
    var headingShown: real
    var sceneAnchor: Option<Handle>
    var infoTextObject: Option<Handle>
    var wrapper: Option<Handle>
    var locationError: string           // null and "" are both ""
    var setOriginalValues: bool
    var arObjects: seq<ArObject>
    // the engine state the script touches
    var scene: Scene
    var compassEnabled: bool
    var locationStarted: bool
    var coroutine: Coroutine
    var infoText: InfoText
    const platform: Platform

    function Snapshot(): Session
      reads this
    {
      Session(currentLongitude, currentLatitude, currentHeading, originalLatitude, originalLongitude, headingShown,
              sceneAnchor, infoTextObject, wrapper, locationError, setOriginalValues, arObjects,
              scene, compassEnabled, locationStarted, coroutine, infoText)
    }

    ghost predicate Valid()
      reads this
    {
      Consistent(Snapshot())
    }

    constructor (scene: Scene, platform: Platform)
      requires scene.Valid()
      ensures Snapshot() == Initial(scene) && this.platform == platform
      ensures Valid()
    {
      currentLongitude, currentLatitude, currentHeading := 0.0, 0.0, 0.0;
      originalLatitude, originalLongitude, headingShown := 0.0, 0.0, 0.0;
      sceneAnchor, infoTextObject, wrapper := None, None, None;
      locationError := "";
      setOriginalValues := true;
      arObjects := [];
      this.scene := scene;
      compassEnabled, locationStarted := false, false;
      coroutine := Pending;
      infoText := Blank;
      this.platform := platform;
    }

    /** Start (lines 257-280). StartCoroutine runs GetCoordinates at once, up to its
        first suspension, so Start ends with the coroutine's first resumption. */
    method Start(t: Tick)
      requires Valid() && coroutine == Pending && WellFormed(t)
      modifies this
      ensures Snapshot() == Resumed(Started(old(Snapshot())), t, platform)
      ensures Valid()
    {
      FindReferences();
      Launch();
      Resume(t);
    }

    /** StartCoroutine("GetCoordinates"): the coroutine is running. */
    method Launch()
      modifies this
      ensures Snapshot() == old(Snapshot()).(coroutine := Active)
    {
      coroutine := Active;
    }

    /** The three lookups of Start; each missing object sets its error. */
    method FindReferences()
      requires Valid() && coroutine == Pending
      modifies this`infoTextObject, this`sceneAnchor, this`wrapper, this`locationError
      ensures var r := Started(old(Snapshot()));
        infoTextObject == r.infoTextObject && sceneAnchor == r.sceneAnchor && wrapper == r.wrapper &&
        locationError == r.locationError
    {
      infoTextObject := scene.Find("distanceText");
      if infoTextObject.None? {
        locationError := NoInfoText;
      }
      sceneAnchor := scene.Find("SceneAnchor");
      if sceneAnchor.None? {
        locationError := NoSceneAnchor;
      }
      wrapper := scene.Find("Wrapper");
      if wrapper.None? {
        locationError := NoWrapper;
      }
    }

    /** Runs GetCoordinates from its last suspension to its next one. */
    method Resume(t: Tick)
      requires Valid() && coroutine != Pending && WellFormed(t)
      modifies this
      ensures Snapshot() == Resumed(old(Snapshot()), t, platform)
      ensures Valid()
    {
      if coroutine == Ended {
        return;
      }
      if locationError != "" {
        coroutine := Ended;
        return;
      }
      if setOriginalValues {
        Initialise(t.startup);
        if coroutine == Ended {
          return;
        }
      }
      Refresh(t.sample);
    }

    method Initialise(st: Startup)
      requires Valid() && coroutine == Active && locationError == "" && setOriginalValues
      requires |st.polls| == MaxWait + 1
      modifies this
      ensures Snapshot() == Initialised(old(Snapshot()), st, platform)
    {
      setOriginalValues := false;
      if !st.locationEnabled {
        locationError, coroutine := LocationDisabled, Ended;
      } else {
        LocateDevice(st);
      }
    }

    method LocateDevice(st: Startup)
      requires Valid() && coroutine == Active && locationError == ""
      requires |st.polls| == MaxWait + 1
      modifies this
      ensures Snapshot() == Located(old(Snapshot()), st, platform)
    {
      StartServices();
      var maxWait := MaxWait;
      while st.polls[MaxWait - maxWait] == Initializing && maxWait > 0
        invariant 0 <= maxWait <= MaxWait
        invariant WaitsFrom(st.polls, MaxWait - maxWait) == WaitsFrom(st.polls, 0)
      {
        maxWait := maxWait - 1;   // one `yield return new WaitForSeconds(1)`
      }
      if maxWait < 1 {
        Halt(TimedOut);
      } else if st.polls[MaxWait - maxWait] == Failed {
        Halt(NoLocation);
      } else {
        KeepOrigin(st.origin);
        LoadDescriptor(st.response);
      }
    }

    method LoadDescriptor(response: Result<string, string>)
      requires Valid() && coroutine == Active && locationError == ""
      modifies this
      ensures Snapshot() == Loaded(old(Snapshot()), response, platform)
    {
      match response {
        case Failure(e) =>
          locationError, coroutine := e, Ended;
        case Success(text) =>
          if text == "" {
            locationError, coroutine := EmptyText, Ended;
          } else {
            ProcessDescriptor(text);
            if locationError != "" {
              coroutine := Ended;
            }
          }
      }
    }

    /** The descriptor processing of lines 133-213 on the script's scene, object list
        and error. */
    method ProcessDescriptor(text: string)
      requires Valid() && coroutine == Active && locationError == ""
      modifies this
      ensures Snapshot() == Processed(old(Snapshot()), text, platform.tryParse)
    {
      ghost var s0 := Snapshot();
      var q := ProcessLines(Split(text, '\n'), Progress(scene, arObjects, ""), text, wrapper.value, sceneAnchor.value, platform.tryParse);
      scene, arObjects, locationError := q.scene, q.objects, q.error;
      ghost var r := Processed(s0, text, platform.tryParse);
      assert Snapshot() == r;
      assert Consistent(r);
    }

    method Refresh(sample: Sample)
      requires Valid() && 0.0 <= sample.heading < 360.0
      modifies this
      ensures Snapshot() == Refreshed(old(Snapshot()), sample, platform)
    {
      var objects := RetargetAll(arObjects, scene.nodes, sample.fix.latitude, sample.fix.longitude, platform);
      currentLatitude, currentLongitude, currentHeading, arObjects := sample.fix.latitude, sample.fix.longitude, sample.heading, objects;
    }

    /** `_locationError = message; yield break;` */
    method Halt(message: string)
      modifies this
      ensures Snapshot() == Halted(old(Snapshot()), message)
    {
      locationError, coroutine := message, Ended;
    }

    /** The location the session started from (lines 110-111). */
    method KeepOrigin(origin: Fix)
      modifies this
      ensures Snapshot() == old(Snapshot()).(originalLatitude := origin.latitude, originalLongitude := origin.longitude)
    {
      originalLatitude, originalLongitude := origin.latitude, origin.longitude;
    }

    /** `Input.compass.enabled = true; Input.location.Start(1f, .1f);` */
    method StartServices()
      modifies this
      ensures Snapshot() == old(Snapshot()).(compassEnabled := true, locationStarted := true)
    {
      compassEnabled, locationStarted := true, true;
    }

    method Update()
      requires Valid() && coroutine != Pending
      modifies this
      ensures Snapshot() == Updated(old(Snapshot()), platform)
      ensures Valid()
    {
      if locationError != "" {
        infoText := ErrorText(locationError);
        return;
      }
      SmoothHeading();
      Orient();
      infoText := Diagnostics(GroundDistance(platform, originalLatitude, originalLongitude, currentLatitude, currentLongitude),
                              |arObjects|, currentLatitude, currentLongitude,
                              if compassEnabled then Some(headingShown) else None);
    }

    /** The heading smoother of lines 292-308. */
    method SmoothHeading()
      requires Heading.InRange(currentHeading, headingShown)
      modifies this
      ensures Snapshot() == old(Snapshot()).(currentHeading := Heading.StepAsWritten(old(currentHeading), old(headingShown)).0,
                                            headingShown := Heading.StepAsWritten(old(currentHeading), old(headingShown)).1)
    {
      currentHeading, headingShown := Heading.SmoothStep(currentHeading, headingShown);
    }

    method Orient()
      requires sceneAnchor.Some? && sceneAnchor.value < |scene.nodes|
      requires forall k :: 0 <= k < |arObjects| ==> arObjects[k].gameObject < |scene.nodes|
      modifies this
      ensures var yaw := 360.0 - old(headingShown);
        var turned := old(scene).Turn(old(sceneAnchor).value, yaw);
        Snapshot() == old(Snapshot()).(scene := turned.(nodes := Glide(turned.nodes, old(arObjects), yaw)))
    {
      var yaw := 360.0 - headingShown;
      var turned := scene.Turn(sceneAnchor.value, yaw);
      var nodes := GlideAll(turned.nodes, arObjects, yaw);
      scene := turned.(nodes := nodes);
    }
  }
}
