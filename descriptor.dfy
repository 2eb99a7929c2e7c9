/** Processing of the object descriptor (lines 133-213 of Assets/AugmentedScript.cs):
    the text is split into lines and each line into comma-separated fields;
    an empty line is skipped, a one-field line schedules the destruction of the
    object with that tag, a four-field line `tag,name,lat,lon` places a copy of
    the tagged object inside a fresh wrapper, and anything else is fatal.
    Processing stops at the first line that fails. */
module Descriptor {
  import opened Wrappers
  import opened Text
  import opened SceneGraph

  /** class ArObject: the wrapper game object, the descriptor line it came from,
      its coordinates, and the position it glides towards. */
  datatype ArObject = ArObject(gameObject: Handle, text: string, latitude: real, longitude: real, targetPosition: Vec3)

  /** double.TryParse, as the platform supplies it. */
  type Parser = string -> Option<real>

  /** What the processing has done so far: the scene, the objects placed, and the
      error text ("" while there is none). */
  datatype Progress = Progress(scene: Scene, objects: seq<ArObject>, error: string)

  /** The scene is consistent and holds the wrapper template, the anchor and every placed wrapper. */
  ghost predicate Ready(p: Progress, wrapper: Handle, anchor: Handle) {
    p.scene.Valid() && p.scene.Has(wrapper) && p.scene.Has(anchor) &&
    forall k :: 0 <= k < |p.objects| ==> p.scene.Has(p.objects[k].gameObject)
  }

  function Fields(line: string): seq<string> {
    Split(line, ',')
  }

  function BadName(line: string, tag: string): string {
    "line '" + line + "', bad name: " + tag
  }

  function BadText(line: string, text: string): string {
    "line '" + line + "', bad text: " + text
  }

  function BadLat(line: string, field: string): string {
    "line '" + line + "', bad lat: " + field
  }

  function BadLon(line: string, field: string): string {
    "line '" + line + "', bad lon: " + field
  }

  const WrapperFailed: string := "Instantiate(_wrapper) failed"
  const CopyFailed: string := "Instantiate(gameObject) failed"

  /** A line without commas and not empty: it names the tag of an object to destroy,
      and it passes when that tag is known. */
  predicate Removal(line: string) {
    line != [] && ',' !in line
  }

  /** A four-field line whose tag is known and for which both Instantiate calls succeed. */
  predicate Instantiated(line: string, tags: map<string, Handle>, instantiable: set<Handle>, wrapper: Handle) {
    var f := Fields(line);
    |f| == 4 && f[0] in tags && wrapper in instantiable && tags[f[0]] in instantiable
  }

  /** A line that places an object: instantiated, and both coordinates parse. */
  predicate Accepted(line: string, tags: map<string, Handle>, instantiable: set<Handle>, wrapper: Handle, parse: Parser) {
    Instantiated(line, tags, instantiable, wrapper) &&
    parse(Fields(line)[2]).Some? && parse(Fields(line)[3]).Some?
  }

  /** A line that processing gets past: empty, a removal of a known tag, or accepted. */
  predicate Passes(line: string, tags: map<string, Handle>, instantiable: set<Handle>, wrapper: Handle, parse: Parser) {
    line == [] || (Removal(line) && line in tags) || Accepted(line, tags, instantiable, wrapper, parse)
  }

  /** One iteration of the foreach over the lines (lines 136-212). `text` is the whole
      descriptor, which the error for a wrong number of fields quotes. */
  function ApplyLine(p: Progress, line: string, text: string, wrapper: Handle, anchor: Handle, parse: Parser): (r: Progress)
    requires Ready(p, wrapper, anchor) && p.error == ""
    ensures Ready(r, wrapper, anchor)
    ensures r.scene.tags == p.scene.tags && r.scene.instantiable == p.scene.instantiable
    ensures |p.scene.nodes| <= |r.scene.nodes| && r.scene.nodes[..|p.scene.nodes|] == p.scene.nodes
    ensures |p.objects| <= |r.objects| && r.objects[..|p.objects|] == p.objects
    ensures r.error == "" <==> Passes(line, p.scene.tags, p.scene.instantiable, wrapper, parse)
  {
    SinglePiece(line, ',');
    if line == [] then p
    else
      var parts := Fields(line);
      if |parts| == 1 then
        if parts[0] !in p.scene.tags then p.(error := BadName(line, parts[0]))
        else p.(scene := p.scene.Destroy(p.scene.tags[parts[0]]))
      else if |parts| != 4 then p.(error := BadText(line, text))
      else if parts[0] !in p.scene.tags then p.(error := BadName(line, parts[0]))
      else Place(p, line, parts, wrapper, anchor, parse)
  }

  /** A four-field line with a known tag (lines 175-211): a wrapper is instantiated
      under the anchor, a copy of the tagged object under the wrapper and named after
      the second field, and the object is recorded once both coordinates parse. */
  function Place(p: Progress, line: string, parts: seq<string>, wrapper: Handle, anchor: Handle, parse: Parser): (r: Progress)
    requires Ready(p, wrapper, anchor) && p.error == "" && |parts| == 4 && parts[0] in p.scene.tags
    ensures Ready(r, wrapper, anchor)
    ensures r.scene.tags == p.scene.tags && r.scene.instantiable == p.scene.instantiable
    ensures |p.scene.nodes| <= |r.scene.nodes| && r.scene.nodes[..|p.scene.nodes|] == p.scene.nodes
    ensures |p.objects| <= |r.objects| && r.objects[..|p.objects|] == p.objects
    ensures r.error == "" <==>
      wrapper in p.scene.instantiable && p.scene.tags[parts[0]] in p.scene.instantiable &&
      parse(parts[2]).Some? && parse(parts[3]).Some?
  {
    var (s1, w) := p.scene.Instantiate(wrapper);
    if w.None? then p.(error := WrapperFailed)
    else
      var s2 := s1.SetParent(w.value, anchor);
      var (s3, copy) := s2.Instantiate(p.scene.tags[parts[0]]);
      if copy.None? then p.(scene := s3, error := CopyFailed)
      else
        var s4 := s3.SetParent(copy.value, w.value).SetName(copy.value, parts[1]);
        match parse(parts[2])
        case None => p.(scene := s4, error := BadLat(line, parts[2]))
        case Some(latitude) =>
          match parse(parts[3])
          case None => p.(scene := s4, error := BadLon(line, parts[3]))
          case Some(longitude) =>
            Progress(s4, p.objects + [ArObject(w.value, line, latitude, longitude, Origin)], "")
  }

  /** What an empty line and a one-field line do: an empty line nothing; a removal line
      schedules the tagged object's destruction, or fails on an unknown tag, and adds no
      object. */
  lemma {:induction false} RemovalEffects(p: Progress, line: string, text: string, wrapper: Handle, anchor: Handle, parse: Parser)
    requires Ready(p, wrapper, anchor) && p.error == ""
    ensures var r := ApplyLine(p, line, text, wrapper, anchor, parse);
      (line == [] ==> r == p) &&
      (Removal(line) ==>
         r.objects == p.objects &&
         r.error == (if line in p.scene.tags then "" else BadName(line, line)) &&
         r.scene == (if line in p.scene.tags then p.scene.Destroy(p.scene.tags[line]) else p.scene))
  {
    SinglePiece(line, ',');
  }

  /** What a line does to the objects and the hierarchy: an accepted line appends one
      object, whose wrapper is the first node it adds; an instantiated line adds the
      wrapper under the anchor and the named copy under the wrapper; and every other
      line leaves the objects alone. */
  lemma {:induction false} PlacementEffects(p: Progress, line: string, text: string, wrapper: Handle, anchor: Handle, parse: Parser)
    requires Ready(p, wrapper, anchor) && p.error == ""
    ensures var r := ApplyLine(p, line, text, wrapper, anchor, parse);
      (!Accepted(line, p.scene.tags, p.scene.instantiable, wrapper, parse) ==> r.objects == p.objects) &&
      (Accepted(line, p.scene.tags, p.scene.instantiable, wrapper, parse) ==>
         r.objects == p.objects + [ArObject(|p.scene.nodes|, line,
                                            parse(Fields(line)[2]).value, parse(Fields(line)[3]).value, Origin)]) &&
      (Instantiated(line, p.scene.tags, p.scene.instantiable, wrapper) ==>
         var h := |p.scene.nodes|;
         |r.scene.nodes| == h + 2 &&
         r.scene.nodes[h].parent == Some(anchor) &&
         r.scene.nodes[h + 1].parent == Some(h) && r.scene.nodes[h + 1].name == Fields(line)[1])
  {
    SinglePiece(line, ',');
    var parts := Fields(line);
    if line != [] && |parts| == 4 && parts[0] in p.scene.tags {
      PlaceObjects(p, line, parts, wrapper, anchor, parse);
      if wrapper in p.scene.instantiable && p.scene.tags[parts[0]] in p.scene.instantiable {
        PlaceNodes(p, line, parts, wrapper, anchor, parse);
      }
    }
  }

  /** Place records one object, whose wrapper is the first node it adds, exactly when
      both instantiations succeed and both coordinates parse. */
  lemma PlaceObjects(p: Progress, line: string, parts: seq<string>, wrapper: Handle, anchor: Handle, parse: Parser)
    requires Ready(p, wrapper, anchor) && p.error == "" && |parts| == 4 && parts[0] in p.scene.tags
    ensures var r := Place(p, line, parts, wrapper, anchor, parse);
      if wrapper in p.scene.instantiable && p.scene.tags[parts[0]] in p.scene.instantiable &&
         parse(parts[2]).Some? && parse(parts[3]).Some?
      then r.objects == p.objects + [ArObject(|p.scene.nodes|, line, parse(parts[2]).value, parse(parts[3]).value, Origin)]
      else r.objects == p.objects
  {
  }

  /** When both instantiations succeed, Place adds the wrapper under the anchor and the
      named copy under the wrapper. */
  lemma PlaceNodes(p: Progress, line: string, parts: seq<string>, wrapper: Handle, anchor: Handle, parse: Parser)
    requires Ready(p, wrapper, anchor) && p.error == "" && |parts| == 4 && parts[0] in p.scene.tags
    requires wrapper in p.scene.instantiable && p.scene.tags[parts[0]] in p.scene.instantiable
    ensures var r := Place(p, line, parts, wrapper, anchor, parse);
      var h := |p.scene.nodes|;
      |r.scene.nodes| == h + 2 &&
      r.scene.nodes[h].parent == Some(anchor) &&
      r.scene.nodes[h + 1].parent == Some(h) && r.scene.nodes[h + 1].name == parts[1]
  {
  }

  /** The foreach over the lines with its `yield break` on the first error. */
  function Run(lines: seq<string>, p: Progress, text: string, wrapper: Handle, anchor: Handle, parse: Parser): (r: Progress)
    requires Ready(p, wrapper, anchor)
    ensures Ready(r, wrapper, anchor)
    ensures r.scene.tags == p.scene.tags && r.scene.instantiable == p.scene.instantiable
    ensures |p.scene.nodes| <= |r.scene.nodes| && r.scene.nodes[..|p.scene.nodes|] == p.scene.nodes
    ensures |p.objects| <= |r.objects| && r.objects[..|p.objects|] == p.objects
    ensures p.error != "" ==> r == p
    decreases |lines|
  {
    if lines == [] || p.error != "" then p
    else
      var p1 := ApplyLine(p, lines[0], text, wrapper, anchor, parse);
      var r := Run(lines[1..], p1, text, wrapper, anchor, parse);
      assert r.scene.nodes[..|p.scene.nodes|] == r.scene.nodes[..|p1.scene.nodes|][..|p.scene.nodes|];
      assert r.objects[..|p.objects|] == r.objects[..|p1.objects|][..|p.objects|];
      r
  }

  /** The foreach over the lines (lines 134-213); its `yield break` on an error
      becomes the test of the error in the loop condition. */
  method ProcessLines(lines: seq<string>, start: Progress, text: string, wrapper: Handle, anchor: Handle, parse: Parser)
    returns (r: Progress)
    requires Ready(start, wrapper, anchor) && start.error == ""
    ensures r == Run(lines, start, text, wrapper, anchor, parse)
  {
    r := start;
    var i := 0;
    while i < |lines| && r.error == ""
      invariant 0 <= i <= |lines|
      invariant Ready(r, wrapper, anchor)
      invariant Run(lines[i..], r, text, wrapper, anchor, parse) == Run(lines, start, text, wrapper, anchor, parse)
    {
      assert lines[i..][1..] == lines[i + 1..];
      r := ProcessLine(r, lines[i], text, wrapper, anchor, parse);
      i := i + 1;
    }
  }

  /** The body of the foreach (lines 136-212) for one line. */
  method ProcessLine(p: Progress, line: string, text: string, wrapper: Handle, anchor: Handle, parse: Parser)
    returns (r: Progress)
    requires Ready(p, wrapper, anchor) && p.error == ""
    ensures r == ApplyLine(p, line, text, wrapper, anchor, parse)
  {
    r := p;
    if line == "" {
      return;
    }
    var parts := Split(line, ',');
    if |parts| == 1 {
      if parts[0] !in r.scene.tags {
        r := r.(error := BadName(line, parts[0]));
      } else {
        r := r.(scene := r.scene.Destroy(r.scene.tags[parts[0]]));
      }
      return;
    }
    if |parts| != 4 {
      r := r.(error := BadText(line, text));
      return;
    }
    if parts[0] !in r.scene.tags {
      r := r.(error := BadName(line, parts[0]));
      return;
    }
    var original := r.scene.tags[parts[0]];
    var (s1, wrapped) := r.scene.Instantiate(wrapper);
    if wrapped.None? {
      r := r.(error := WrapperFailed);
      return;
    }
    var scene := s1.SetParent(wrapped.value, anchor);
    var (s3, copy) := scene.Instantiate(original);
    scene := s3;
    if copy.None? {
      r := r.(scene := scene, error := CopyFailed);
      return;
    }
    scene := scene.SetParent(copy.value, wrapped.value).SetName(copy.value, parts[1]);
    var latitude := parse(parts[2]);
    if latitude.None? {
      r := r.(scene := scene, error := BadLat(line, parts[2]));
      return;
    }
    var longitude := parse(parts[3]);
    if longitude.None? {
      r := r.(scene := scene, error := BadLon(line, parts[3]));
      return;
    }
    r := Progress(scene, r.objects + [ArObject(wrapped.value, line, latitude.value, longitude.value, Origin)], "");
  }

  /** The index of the first line that does not pass, or the number of lines when all pass. */
  function FirstFailure(lines: seq<string>, tags: map<string, Handle>, instantiable: set<Handle>, wrapper: Handle, parse: Parser): (k: nat)
    ensures k <= |lines|
    ensures forall j :: 0 <= j < k ==> Passes(lines[j], tags, instantiable, wrapper, parse)
    ensures k < |lines| ==> !Passes(lines[k], tags, instantiable, wrapper, parse)
    decreases |lines|
  {
    if lines == [] || !Passes(lines[0], tags, instantiable, wrapper, parse) then 0
    else 1 + FirstFailure(lines[1..], tags, instantiable, wrapper, parse)
  }

  /** What a placed object records of its line. */
  datatype Placement = Placement(text: string, latitude: real, longitude: real)

  /** The placements the accepted lines among `lines` describe, in order. */
  function Placements(lines: seq<string>, tags: map<string, Handle>, instantiable: set<Handle>, wrapper: Handle, parse: Parser): seq<Placement>
    decreases |lines|
  {
    if lines == [] then []
    else
      Entry(lines[0], tags, instantiable, wrapper, parse) + Placements(lines[1..], tags, instantiable, wrapper, parse)
  }

  function Placed(objects: seq<ArObject>): (r: seq<Placement>)
    ensures |r| == |objects|
    ensures forall k :: 0 <= k < |r| ==> r[k] == Placement(objects[k].text, objects[k].latitude, objects[k].longitude)
  {
    seq(|objects|, k requires 0 <= k < |objects| => Placement(objects[k].text, objects[k].latitude, objects[k].longitude))
  }

  /** The conclusion of RunFailFast for one list of lines and one starting progress. */
  ghost predicate FailsFast(lines: seq<string>, p: Progress, text: string, wrapper: Handle, anchor: Handle, parse: Parser)
    requires Ready(p, wrapper, anchor)
  {
    var r := Run(lines, p, text, wrapper, anchor, parse);
    var k := FirstFailure(lines, p.scene.tags, p.scene.instantiable, wrapper, parse);
    (r.error == "" <==> k == |lines|) &&
    |p.objects| <= |r.objects| && r.objects[..|p.objects|] == p.objects &&
    Placed(r.objects) == Placed(p.objects) + Placements(lines[..k], p.scene.tags, p.scene.instantiable, wrapper, parse)
  }

  /** Fail-fast processing: the run ends without error exactly when every line passes;
      the objects already there are kept, and the ones added are exactly those of the
      accepted lines before the first failing line, in descriptor order. */
  lemma {:induction false} RunFailFast(lines: seq<string>, p: Progress, text: string, wrapper: Handle, anchor: Handle, parse: Parser)
    requires Ready(p, wrapper, anchor) && p.error == ""
    ensures FailsFast(lines, p, text, wrapper, anchor, parse)
    decreases |lines|
  {
    if lines != [] {
      var p1 := ApplyLine(p, lines[0], text, wrapper, anchor, parse);
      if p1.error == "" {
        RunFailFast(lines[1..], p1, text, wrapper, anchor, parse);
        FailFastPassingLine(lines, p, text, wrapper, anchor, parse);
      } else {
        FailFastFailingLine(lines, p, text, wrapper, anchor, parse);
      }
    }
  }

  /** The inductive step when the first line passes. */
  lemma FailFastPassingLine(lines: seq<string>, p: Progress, text: string, wrapper: Handle, anchor: Handle, parse: Parser)
    requires Ready(p, wrapper, anchor) && p.error == "" && lines != []
    requires ApplyLine(p, lines[0], text, wrapper, anchor, parse).error == ""
    requires FailsFast(lines[1..], ApplyLine(p, lines[0], text, wrapper, anchor, parse), text, wrapper, anchor, parse)
    ensures FailsFast(lines, p, text, wrapper, anchor, parse)
  {
    var tags, inst := p.scene.tags, p.scene.instantiable;
    var line := lines[0];
    var p1 := ApplyLine(p, line, text, wrapper, anchor, parse);
    var r := Run(lines, p, text, wrapper, anchor, parse);
    assert r == Run(lines[1..], p1, text, wrapper, anchor, parse);
    PlacedAfterLine(p, line, text, wrapper, anchor, parse);
    var k := FirstFailure(lines, tags, inst, wrapper, parse);
    var k1 := FirstFailure(lines[1..], tags, inst, wrapper, parse);
    assert k == 1 + k1;
    assert lines[..k] == [line] + lines[1..][..k1];
    PlacementsCons(line, lines[1..][..k1], tags, inst, wrapper, parse);
    var e := Entry(line, tags, inst, wrapper, parse);
    var rest := Placements(lines[1..][..k1], tags, inst, wrapper, parse);
    assert p1.scene.tags == tags && p1.scene.instantiable == inst;
    assert Placed(r.objects) == Placed(p1.objects) + rest;
    assert Placed(p1.objects) == Placed(p.objects) + e;
    ConcatAssociative(Placed(p.objects), e, rest);
    assert (r.error == "") == (k == |lines|);
    assert r.objects[..|p.objects|] == r.objects[..|p1.objects|][..|p.objects|];
  }

  lemma ConcatAssociative<T>(a: seq<T>, b: seq<T>, c: seq<T>)
    ensures (a + b) + c == a + (b + c)
  {
  }

  /** The step when the first line fails: processing stops there, having added nothing. */
  lemma FailFastFailingLine(lines: seq<string>, p: Progress, text: string, wrapper: Handle, anchor: Handle, parse: Parser)
    requires Ready(p, wrapper, anchor) && p.error == "" && lines != []
    requires ApplyLine(p, lines[0], text, wrapper, anchor, parse).error != ""
    ensures FailsFast(lines, p, text, wrapper, anchor, parse)
  {
    var p1 := ApplyLine(p, lines[0], text, wrapper, anchor, parse);
    assert Run(lines, p, text, wrapper, anchor, parse) == p1;
    PlacementEffects(p, lines[0], text, wrapper, anchor, parse);
    assert FirstFailure(lines, p.scene.tags, p.scene.instantiable, wrapper, parse) == 0;
    assert lines[..0] == [];
    assert p1.objects == p.objects;
  }

  /** The placement one line contributes: one entry when it is accepted, none otherwise. */
  function Entry(line: string, tags: map<string, Handle>, instantiable: set<Handle>, wrapper: Handle, parse: Parser): seq<Placement> {
    if Accepted(line, tags, instantiable, wrapper, parse)
    then [Placement(line, parse(Fields(line)[2]).value, parse(Fields(line)[3]).value)]
    else []
  }

  lemma PlacementsCons(line: string, rest: seq<string>, tags: map<string, Handle>, instantiable: set<Handle>, wrapper: Handle, parse: Parser)
    ensures Placements([line] + rest, tags, instantiable, wrapper, parse)
         == Entry(line, tags, instantiable, wrapper, parse) + Placements(rest, tags, instantiable, wrapper, parse)
  {
    assert ([line] + rest)[1..] == rest;
  }

  lemma PlacedAfterLine(p: Progress, line: string, text: string, wrapper: Handle, anchor: Handle, parse: Parser)
    requires Ready(p, wrapper, anchor) && p.error == ""
    ensures var p1 := ApplyLine(p, line, text, wrapper, anchor, parse);
            |p.objects| <= |p1.objects| && p1.objects[..|p.objects|] == p.objects &&
            Placed(p1.objects) == Placed(p.objects) + Entry(line, p.scene.tags, p.scene.instantiable, wrapper, parse)
  {
    var p1 := ApplyLine(p, line, text, wrapper, anchor, parse);
    PlacementEffects(p, line, text, wrapper, anchor, parse);
    var e := Entry(line, p.scene.tags, p.scene.instantiable, wrapper, parse);
    assert p1.objects[..|p.objects|] == p.objects;
    assert |Placed(p1.objects)| == |Placed(p.objects) + e|;
  }
}
