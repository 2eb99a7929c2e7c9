/** The part of the Unity scene the script touches, as a value: the game objects
    (by handle), the tag lookup table, which originals Instantiate can copy, and the
    objects scheduled for destruction. */
module SceneGraph {
  import opened Wrappers

  /** A reference to a game object: its index in the scene's object list. */
  type Handle = nat

  datatype Vec3 = Vec3(x: real, y: real, z: real)

  const Origin: Vec3 := Vec3(0.0, 0.0, 0.0)

  /** One game object: its name, the parent of its transform, and the world
      position and yaw (rotation about the vertical axis) last written to it. */
  datatype Node = Node(name: string, parent: Option<Handle>, position: Vec3, yaw: real)

  datatype Scene = Scene(
    nodes: seq<Node>,
    tags: map<string, Handle>,      // GameObject.FindGameObjectWithTag
    instantiable: set<Handle>,      // originals whose Instantiate returns a copy
    destroying: seq<Handle>)        // Destroy(obj, delay) calls, in order
  {
    ghost predicate Valid() {
      forall t :: t in tags ==> tags[t] < |nodes|
    }

    predicate Has(h: Handle) {
      h < |nodes|
    }

    /** FindGameObjectWithTag: the tagged object, or None (null). */
    function Find(tag: string): (r: Option<Handle>)
      requires Valid()
      ensures r.Some? <==> tag in tags
      ensures r.Some? ==> Has(r.value) && r.value == tags[tag]
    {
      if tag in tags then Some(tags[tag]) else None
    }

    /** Instantiate(original): a copy appended under a fresh handle, without a parent,
        or None when the engine gives no copy. */
    function Instantiate(original: Handle): (r: (Scene, Option<Handle>))
      requires Valid() && Has(original)
      ensures r.0.Valid()
      ensures r.1.Some? <==> original in instantiable
      ensures r.1.None? ==> r.0 == this
      ensures r.1.Some? ==> r.1.value == |nodes| && r.0.Has(r.1.value)
      ensures r.1.Some? ==> r.0.nodes[..|nodes|] == nodes && |r.0.nodes| == |nodes| + 1
      ensures r.0.tags == tags && r.0.instantiable == instantiable && r.0.destroying == destroying
    {
      if original in instantiable then
        var copy := nodes[original].(name := nodes[original].name + "(Clone)", parent := None);
        (this.(nodes := nodes + [copy]), Some(|nodes|))
      else (this, None)
    }

    /** child.transform.parent = parent.transform */
    function SetParent(child: Handle, parent: Handle): (r: Scene)
      requires Has(child)
      ensures |r.nodes| == |nodes| && r.tags == tags && r.instantiable == instantiable && r.destroying == destroying
      ensures r.nodes[child] == nodes[child].(parent := Some(parent))
      ensures forall h :: 0 <= h < |nodes| && h != child ==> r.nodes[h] == nodes[h]
    {
      this.(nodes := nodes[child := nodes[child].(parent := Some(parent))])
    }

    /** obj.name = name */
    function SetName(h: Handle, name: string): (r: Scene)
      requires Has(h)
      ensures |r.nodes| == |nodes| && r.tags == tags && r.instantiable == instantiable && r.destroying == destroying
      ensures r.nodes[h] == nodes[h].(name := name)
      ensures forall g :: 0 <= g < |nodes| && g != h ==> r.nodes[g] == nodes[g]
    {
      this.(nodes := nodes[h := nodes[h].(name := name)])
    }

    /** Destroy(obj, delay): the destruction is scheduled; the object stays in the scene
        (and findable by its tag) until the delay has passed. */
    function Destroy(h: Handle): (r: Scene)
      ensures r.nodes == nodes && r.tags == tags && r.destroying == destroying + [h]
    {
      this.(destroying := destroying + [h])
    }

    /** obj.transform.eulerAngles = (0, yaw, 0) */
    function Turn(h: Handle, yaw: real): (r: Scene)
      requires Has(h)
      ensures |r.nodes| == |nodes| && r.tags == tags && r.nodes[h].yaw == yaw
      ensures r.nodes[h].position == nodes[h].position
      ensures r.nodes[h].name == nodes[h].name && r.nodes[h].parent == nodes[h].parent
      ensures forall g :: 0 <= g < |nodes| && g != h ==> r.nodes[g] == nodes[g]
    {
      this.(nodes := nodes[h := nodes[h].(yaw := yaw)])
    }
  }
}
