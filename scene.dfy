/**
 * `sdg_engine/core/interfaces/blender/scene.py`: the state of a Blender scene
 * that the dataset sweep changes. It holds the pose of the first axis, camera
 * and light, the world background (solid colour, or the node chain
 * Environment Texture -> Background -> World Output), and the render settings.
 * The Blender data-block calls are foreign. The world's node tree is held as a
 * value. Each state change is specified by a pure function of the old state,
 * and its properties are proved about that function.
 */
module Scene {
  import opened Common
  import opened Vectors
  import opened Naming

  /** One point of the sweep: the snapshot identity and its pose parameters. */
  datatype Snapshot = Snapshot(id: Uuid, yaw: real, roll: real, cameraHeight: real, lightEnergy: real)

  /** An object's location and rotation. */
  datatype Pose = Pose(location: Vec3, rotation: Vec3)

  /**
   * `camera.data.view_frame(scene=...)`: the frame corners Blender computes
   * from the lens and the scene's render resolution `(x, y)`, whose aspect
   * shapes the frame. Moving the camera does not change them.
   */
  type ViewFrame = (int, int) -> seq<Vec3>

  /** A camera: its pose and its `view_frame` at each render resolution. */
  datatype Camera = Camera(pose: Pose, viewFrame: ViewFrame)

  /** The corners `view_frame` gives while the render resolution is `resolution`. */
  function ViewFrameAt(viewFrame: ViewFrame, resolution: (int, int)): seq<Vec3>
  {
    viewFrame(resolution.0, resolution.1)
  }

  /** A light: its pose and its energy. */
  datatype Light = Light(pose: Pose, energy: real)

  /** The world node types that `_setup_world_nodes_for_background` looks for. */
  datatype NodeKind = TexEnvironment | Background | OutputWorld | OtherNode

  /** A world shader node; only an Environment Texture node carries an image. */
  datatype Node = Node(id: nat, kind: NodeKind, image: Option<string>)

  /** A link from one node's output socket to another node's input socket. */
  datatype Link = Link(fromNode: nat, fromSocket: string, toNode: nat, toSocket: string)

  type Color = (real, real, real)

  /** A world data-block: node use, background colour and node tree. */
  datatype World = World(useNodes: bool, color: Color, nodes: seq<Node>, links: seq<Link>)

  /** The default of `set_solid_background_color`. */
  const DefaultColor: Color := (0.05, 0.05, 0.05)

  /** The world `bpy.data.worlds.new("World")` creates, as this model represents it. */
  const NewWorld: World := World(false, DefaultColor, [], [])

  /** The world the scene has, or the one created in its place when it has none. */
  function WorldOrNew(w: Option<World>): World
  {
    if w.Some? then w.value else NewWorld
  }

  // ----- finding the world nodes -----

  /** The position of the last node of `kind`, as the scan keeps the last match. */
  function LastOfKind(nodes: seq<Node>, kind: NodeKind): (r: Option<nat>)
    ensures r.Some? ==> (r.value < |nodes| && nodes[r.value].kind == kind &&
                         forall j :: r.value < j < |nodes| ==> nodes[j].kind != kind)
    ensures r.None? <==> forall j :: 0 <= j < |nodes| ==> nodes[j].kind != kind
  {
    if |nodes| == 0 then None
    else if nodes[|nodes| - 1].kind == kind then Some(|nodes| - 1)
    else LastOfKind(nodes[..|nodes| - 1], kind)
  }

  /** The scan over `world_nodes`: each type's variable holds the last node of that type. */
  method ScanWorldNodes(nodes: seq<Node>) returns (env: Option<nat>, bg: Option<nat>, out: Option<nat>)
    ensures env == LastOfKind(nodes, TexEnvironment)
    ensures bg == LastOfKind(nodes, Background)
    ensures out == LastOfKind(nodes, OutputWorld)
  {
    env, bg, out := None, None, None;
    for i := 0 to |nodes|
      invariant env == LastOfKind(nodes[..i], TexEnvironment)
      invariant bg == LastOfKind(nodes[..i], Background)
      invariant out == LastOfKind(nodes[..i], OutputWorld)
    {
      assert nodes[..i + 1][..i] == nodes[..i];
      match nodes[i].kind
      case TexEnvironment => env := Some(i);
      case Background => bg := Some(i);
      case OutputWorld => out := Some(i);
      case OtherNode =>
    }
    assert nodes[..|nodes|] == nodes;
  }

  /** Some required node type is missing, so the whole tree is rebuilt. */
  predicate Incomplete(nodes: seq<Node>)
  {
    LastOfKind(nodes, TexEnvironment).None? || LastOfKind(nodes, Background).None? ||
    LastOfKind(nodes, OutputWorld).None?
  }

  /** The link Environment Texture `Color` -> Background `Color`. */
  function ColorLink(env: Node, bg: Node): Link
  {
    Link(env.id, "Color", bg.id, "Color")
  }

  /** The link Background `Background` -> World Output `Surface`. */
  function SurfaceLink(bg: Node, out: Node): Link
  {
    Link(bg.id, "Background", out.id, "Surface")
  }

  /** The three nodes a rebuild creates, in creation order: Background, Environment Texture, World Output. */
  const FreshNodes: seq<Node> := [Node(0, Background, None), Node(1, TexEnvironment, None), Node(2, OutputWorld, None)]

  /** The two links a rebuild creates. */
  const FreshLinks: seq<Link> := [ColorLink(FreshNodes[1], FreshNodes[0]), SurfaceLink(FreshNodes[0], FreshNodes[2])]

  /** `links.new(l)` unless `links.find` already reports a link between those sockets. */
  function EnsureLink(links: seq<Link>, l: Link): (r: seq<Link>)
    ensures l in r
    ensures l in links ==> r == links
    ensures l !in links ==> r == links + [l]
  {
    if l in links then links else links + [l]
  }

  /** The state after `_setup_world_nodes_for_background`: the world and the positions it returns. */
  datatype Setup = Setup(world: World, env: nat, bg: nat)

  function SetupWorld(w: Option<World>): (r: Setup)
    ensures r.world.useNodes && r.world.color == WorldOrNew(w).color
    ensures Incomplete(WorldOrNew(w).nodes) ==> r.world.nodes == FreshNodes && r.world.links == FreshLinks
    ensures !Incomplete(WorldOrNew(w).nodes) ==> r.world.nodes == WorldOrNew(w).nodes
  {
    var w0 := WorldOrNew(w);
    var nodes := w0.nodes;
    if Incomplete(nodes) then
      Setup(w0.(useNodes := true, nodes := FreshNodes, links := FreshLinks), 1, 0)
    else
      var env := nodes[LastOfKind(nodes, TexEnvironment).value];
      var bg := nodes[LastOfKind(nodes, Background).value];
      var out := nodes[LastOfKind(nodes, OutputWorld).value];
      var links := EnsureLink(EnsureLink(w0.links, ColorLink(env, bg)), SurfaceLink(bg, out));
      Setup(w0.(useNodes := true, links := links),
            LastOfKind(nodes, TexEnvironment).value, LastOfKind(nodes, Background).value)
  }

  /**
   * A world wired for an image background: nodes are used, every required
   * type is present, and the last node of each type is linked in the chain.
   */
  predicate Wired(w: World)
  {
    w.useNodes && !Incomplete(w.nodes) &&
    var env := w.nodes[LastOfKind(w.nodes, TexEnvironment).value];
    var bg := w.nodes[LastOfKind(w.nodes, Background).value];
    var out := w.nodes[LastOfKind(w.nodes, OutputWorld).value];
    ColorLink(env, bg) in w.links && SurfaceLink(bg, out) in w.links
  }

  /**
   * Setup always leaves the world wired, and it returns the positions of the
   * Environment Texture and Background nodes that are linked.
   */
  lemma SetupWires(w: Option<World>)
    ensures var s := SetupWorld(w);
      Wired(s.world) &&
      s.env == LastOfKind(s.world.nodes, TexEnvironment).value &&
      s.bg == LastOfKind(s.world.nodes, Background).value &&
      s.world.nodes[s.env].kind == TexEnvironment && s.world.nodes[s.bg].kind == Background
  {
    var w0 := WorldOrNew(w);
    if Incomplete(w0.nodes) {
      assert LastOfKind(FreshNodes, TexEnvironment) == Some(1);
      assert LastOfKind(FreshNodes, Background) == Some(0);
      assert LastOfKind(FreshNodes, OutputWorld) == Some(2);
    }
  }

  /**
   * A missing node type (or a missing world) removes every node and link and
   * creates exactly three nodes, one of each type, and two links.
   */
  lemma SetupRebuilds(w: Option<World>)
    requires w.None? || Incomplete(w.value.nodes)
    ensures var s := SetupWorld(w).world;
      |s.nodes| == 3 && |s.links| == 2 && s.nodes == FreshNodes && s.links == FreshLinks &&
      s.nodes[0].kind == Background && s.nodes[1].kind == TexEnvironment && s.nodes[2].kind == OutputWorld &&
      forall i :: 0 <= i < 3 ==> s.nodes[i].image.None?
  {
  }

  /**
   * With every node type present, the nodes and the existing links are kept:
   * the old links are a prefix of the new ones, each of the two links the
   * chain needs is added exactly when it is missing, and nothing else is added.
   */
  lemma SetupKeeps(w: World)
    requires !Incomplete(w.nodes)
    ensures var s := SetupWorld(Some(w)).world;
      var env := w.nodes[LastOfKind(w.nodes, TexEnvironment).value];
      var bg := w.nodes[LastOfKind(w.nodes, Background).value];
      var out := w.nodes[LastOfKind(w.nodes, OutputWorld).value];
      var colorLink, surfaceLink := ColorLink(env, bg), SurfaceLink(bg, out);
      s.nodes == w.nodes && s.color == w.color && s.useNodes &&
      |s.links| == |w.links| + (if colorLink in w.links then 0 else 1) + (if surfaceLink in w.links then 0 else 1) &&
      s.links[..|w.links|] == w.links &&
      colorLink in s.links && surfaceLink in s.links &&
      (forall i :: |w.links| <= i < |s.links| ==>
        s.links[i] !in w.links && (s.links[i] == colorLink || s.links[i] == surfaceLink))
  {
    var env := w.nodes[LastOfKind(w.nodes, TexEnvironment).value];
    var bg := w.nodes[LastOfKind(w.nodes, Background).value];
    var out := w.nodes[LastOfKind(w.nodes, OutputWorld).value];
    var colorLink, surfaceLink := ColorLink(env, bg), SurfaceLink(bg, out);
    assert colorLink.fromSocket != surfaceLink.fromSocket;
    EnsureTwoLinks(w.links, colorLink, surfaceLink);
  }

  /** Ensuring two different links appends, in order, exactly those of them that are missing. */
  lemma EnsureTwoLinks(links: seq<Link>, a: Link, b: Link)
    requires a != b
    ensures var r := EnsureLink(EnsureLink(links, a), b);
      |r| == |links| + (if a in links then 0 else 1) + (if b in links then 0 else 1) &&
      r[..|links|] == links && a in r && b in r &&
      forall i :: |links| <= i < |r| ==> r[i] !in links && (r[i] == a || r[i] == b)
  {
    var l1 := EnsureLink(links, a);
    assert l1[..|links|] == links;
    var r := EnsureLink(l1, b);
    assert r[..|l1|] == l1;
    assert r[..|links|] == l1[..|links|];
  }

  /** A second setup changes nothing. */
  lemma SetupIdempotent(w: Option<World>)
    ensures SetupWorld(Some(SetupWorld(w).world)) == SetupWorld(w)
  {
    SetupWires(w);
  }

  // ----- background states -----

  /** The world after `set_solid_background_color(color)`. */
  function SolidWorld(w: Option<World>, color: Color): (r: World)
    ensures !r.useNodes && r.color == color
    ensures r.nodes == WorldOrNew(w).nodes && r.links == WorldOrNew(w).links
  {
    WorldOrNew(w).(useNodes := false, color := color)
  }

  /**
   * A solid background turns nodes off and sets the colour, keeps an existing
   * world's node tree, and a second call with the same colour changes nothing.
   */
  lemma SolidIdempotent(w: Option<World>, color: Color)
    ensures !SolidWorld(w, color).useNodes && SolidWorld(w, color).color == color
    ensures w.Some? ==> SolidWorld(w, color).nodes == w.value.nodes && SolidWorld(w, color).links == w.value.links
    ensures SolidWorld(Some(SolidWorld(w, color)), color) == SolidWorld(w, color)
  {
  }

  /** The world after `set_background_image(path)`; `loaded` is the image size, None when loading fails. */
  function BackgroundWorld(w: Option<World>, path: string, loaded: Option<(int, int)>): (r: World)
    ensures |r.nodes| == |SetupWorld(w).world.nodes|
    ensures loaded.Some? ==> r.useNodes && r.links == SetupWorld(w).world.links
    ensures loaded.None? ==> !r.useNodes && r.color == DefaultColor
  {
    var s := SetupWorld(w);
    SetupWires(w);
    if loaded.Some? then
      s.world.(nodes := s.world.nodes[s.env := s.world.nodes[s.env].(image := Some(path))])
    else
      SolidWorld(Some(s.world), DefaultColor)
  }

  /**
   * A loaded image sits in the linked Environment Texture node of a wired
   * world; a failed load leaves the rebuilt tree but falls back to the default
   * solid colour with nodes off.
   */
  lemma BackgroundImageApplied(w: Option<World>, path: string, loaded: Option<(int, int)>)
    ensures var b := BackgroundWorld(w, path, loaded);
      var s := SetupWorld(w);
      (loaded.Some? ==> (Wired(b) && 0 <= s.env < |b.nodes| && b.nodes[s.env].kind == TexEnvironment &&
                         b.nodes[s.env].image == Some(path) && b.links == s.world.links)) &&
      (loaded.None? ==> !b.useNodes && b.color == DefaultColor && b.nodes == s.world.nodes)
  {
    var s := SetupWorld(w);
    SetupWires(w);
    if loaded.Some? {
      var b := BackgroundWorld(w, path, loaded);
      var n := s.world.nodes;
      assert forall j :: 0 <= j < |n| ==> b.nodes[j].kind == n[j].kind && b.nodes[j].id == n[j].id;
      SameKindsLast(n, b.nodes, TexEnvironment);
      SameKindsLast(n, b.nodes, Background);
      SameKindsLast(n, b.nodes, OutputWorld);
    }
  }

  /** Two node lists with the same kinds at every position have the same last node of each kind. */
  lemma {:induction false} SameKindsLast(a: seq<Node>, b: seq<Node>, kind: NodeKind)
    requires |a| == |b| && forall j :: 0 <= j < |a| ==> a[j].kind == b[j].kind
    ensures LastOfKind(a, kind) == LastOfKind(b, kind)
  {
    if |a| > 0 {
      SameKindsLast(a[..|a| - 1], b[..|b| - 1], kind);
    }
  }

  /** One warning for each role that has more than one object. */
  function MultiplicityWarnings(axes: nat, cameras: nat, lights: nat): (n: nat)
    ensures n <= 3
    ensures n == 0 <==> axes <= 1 && cameras <= 1 && lights <= 1
  {
    (if axes > 1 then 1 else 0) + (if cameras > 1 then 1 else 0) + (if lights > 1 then 1 else 0)
  }

  /** The Blender scene as far as the sweep reads and writes it. */
  class BlenderScene {
    var resolutionX: int
    var resolutionY: int
    var resolutionPercentage: int
    var samples: int
    /** `render.filepath`. */
    var filepath: string
    var filmTransparent: bool
    var world: Option<World>
    var axes: seq<Pose>
    var cameras: seq<Camera>
    var lights: seq<Light>
    /** Warnings issued so far. */
    ghost var warnings: nat
    /** The file path of every still rendered so far, in order. */
    ghost var renderLog: seq<string>

    /** A scene as the opened `.blend` file provides it. */
    constructor(resolution: (int, int), percentage: int, samples: int, filepath: string,
                filmTransparent: bool, world: Option<World>,
                axes: seq<Pose>, cameras: seq<Camera>, lights: seq<Light>)
      ensures resolutionX == resolution.0 && resolutionY == resolution.1
      ensures resolutionPercentage == percentage && this.samples == samples && this.filepath == filepath
      ensures this.filmTransparent == filmTransparent && this.world == world
      ensures this.axes == axes && this.cameras == cameras && this.lights == lights
      ensures warnings == 0 && renderLog == []
    {
      resolutionX, resolutionY := resolution.0, resolution.1;
      resolutionPercentage := percentage;
      this.samples := samples;
      this.filepath := filepath;
      this.filmTransparent := filmTransparent;
      this.world := world;
      this.axes, this.cameras, this.lights := axes, cameras, lights;
      warnings, renderLog := 0, [];
    }

    /**
     * `prepare_from_snapshot`: warn once per role with several objects, then
     * put the first axis at the origin rotated by (yaw, roll, 0), lift the
     * first camera to the snapshot's height and set the first light's energy.
     */
    method PrepareFromSnapshot(snapshot: Snapshot)
      requires |axes| > 0 && |cameras| > 0 && |lights| > 0
      modifies this`axes, this`cameras, this`lights, this`warnings
      ensures axes == old(axes)[0 := Pose(Vec3(0.0, 0.0, 0.0), Vec3(snapshot.yaw, snapshot.roll, 0.0))]
      ensures cameras == old(cameras)[0 := old(cameras[0]).(pose := old(cameras[0].pose).(location := Vec3(0.0, 0.0, snapshot.cameraHeight)))]
      ensures lights == old(lights)[0 := old(lights[0]).(energy := snapshot.lightEnergy)]
      ensures warnings == old(warnings) + MultiplicityWarnings(|axes|, |cameras|, |lights|)
    {
      warnings := warnings + MultiplicityWarnings(|axes|, |cameras|, |lights|);
      axes := axes[0 := axes[0].(location := Vec3(0.0, 0.0, 0.0))];
      axes := axes[0 := axes[0].(rotation := Vec3(snapshot.yaw, snapshot.roll, 0.0))];
      cameras := cameras[0 := cameras[0].(pose := cameras[0].pose.(location := Vec3(0.0, 0.0, snapshot.cameraHeight)))];
      lights := lights[0 := lights[0].(energy := snapshot.lightEnergy)];
    }

    /**
     * `_setup_world_nodes_for_background`: create the world if absent, turn
     * nodes on, scan for the three node types, rebuild the tree when one is
     * missing or else add only the missing links, and make the film opaque.
     * Returns the positions of the Environment Texture and Background nodes.
     */
    method SetupWorldNodes() returns (env: nat, bg: nat)
      modifies this`world, this`filmTransparent, this`warnings
      ensures world == Some(SetupWorld(old(world)).world)
      ensures env == SetupWorld(old(world)).env && bg == SetupWorld(old(world)).bg
      ensures !filmTransparent
      ensures warnings == old(warnings) + (if Incomplete(WorldOrNew(old(world)).nodes) then 1 else 0)
    {
      var w := if world.Some? then world.value else NewWorld;
      w := w.(useNodes := true);
      var e, b, o := ScanWorldNodes(w.nodes);
      if e.None? || b.None? || o.None? {
        warnings := warnings + 1;
        w := w.(nodes := [], links := []);
        var bgNode := Node(0, Background, None);
        var envNode := Node(1, TexEnvironment, None);
        var outNode := Node(2, OutputWorld, None);
        w := w.(nodes := w.nodes + [bgNode] + [envNode] + [outNode]);
        w := w.(links := w.links + [ColorLink(envNode, bgNode)] + [SurfaceLink(bgNode, outNode)]);
        assert w.nodes == FreshNodes && w.links == FreshLinks;
        env, bg := 1, 0;
      } else {
        var envNode, bgNode, outNode := w.nodes[e.value], w.nodes[b.value], w.nodes[o.value];
        if ColorLink(envNode, bgNode) !in w.links {
          w := w.(links := w.links + [ColorLink(envNode, bgNode)]);
        }
        if SurfaceLink(bgNode, outNode) !in w.links {
          w := w.(links := w.links + [SurfaceLink(bgNode, outNode)]);
        }
        env, bg := e.value, b.value;
      }
      world := Some(w);
      filmTransparent := false;
    }

    /**
     * `set_solid_background_color`: create the world if absent, turn nodes
     * off, set the colour and make the film opaque.
     */
    method SetSolidBackgroundColor(color: Color := DefaultColor)
      modifies this`world, this`filmTransparent
      ensures world == Some(SolidWorld(old(world), color))
      ensures !filmTransparent
    {
      var w := if world.Some? then world.value else NewWorld;
      world := Some(w.(useNodes := false, color := color));
      filmTransparent := false;
    }

    /**
     * `set_background_image`: set up the world nodes, then either put the
     * loaded image in the Environment Texture node and take the image's size
     * as the resolution at 100%, or warn and fall back to the solid colour,
     * leaving the resolution as it was.
     */
    method SetBackgroundImage(path: string, loaded: Option<(int, int)>)
      modifies this`world, this`filmTransparent, this`warnings
      modifies this`resolutionX, this`resolutionY, this`resolutionPercentage
      ensures world == Some(BackgroundWorld(old(world), path, loaded))
      ensures !filmTransparent
      ensures loaded.Some? ==> resolutionX == loaded.value.0 && resolutionY == loaded.value.1 && resolutionPercentage == 100
      ensures loaded.None? ==> (resolutionX == old(resolutionX) && resolutionY == old(resolutionY) &&
                                resolutionPercentage == old(resolutionPercentage))
      ensures warnings == old(warnings) + (if Incomplete(WorldOrNew(old(world)).nodes) then 1 else 0) +
        (if loaded.None? then 1 else 0)
    {
      ghost var w0 := world;
      var env, _ := SetupWorldNodes();
      SetupWires(w0);
      if loaded.Some? {
        var w := world.value;
        world := Some(w.(nodes := w.nodes[env := w.nodes[env].(image := Some(path))]));
        resolutionX := loaded.value.0;
        resolutionY := loaded.value.1;
        resolutionPercentage := 100;
      } else {
        warnings := warnings + 1;
        SetSolidBackgroundColor();
      }
    }

    /** `bpy.ops.render.render(write_still=True)`: writes the still at `filepath`; no scene field changes. */
    method RenderStill()
      modifies this`renderLog
      ensures renderLog == old(renderLog) + [filepath]
    {
      renderLog := renderLog + [filepath];
    }
  }
}
