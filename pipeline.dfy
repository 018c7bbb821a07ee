/** The device-context side of a frame as abstract commands: which
    rasterizer, blend and depth-stencil states and which shader set are bound,
    which constant-buffer payloads are uploaded and which draws are issued, in
    order.  `DrawLog` replays a command list and reports, for every draw, the
    pipeline state it was issued under; the lemmas at the end compute that log
    for a whole frame. */
module Pipeline {
  import opened Structures

  datatype Rasterizer = SolidFill | Wireframe | NoCulling
  datatype BlendState = DefaultBlend | TransparencyBlend
  datatype Blend = Blend(state: BlendState, factor: seq<real>)
  datatype DepthState = DefaultDepth | SkyboxLessEqual
  datatype Shaders = SceneShaders | SkyboxShaders | HeightmapShaders
  datatype Drawable = Cube(n: nat) | Pyramid | Mesh(name: string) | TerrainGrid
  datatype MenuItem = StartItem | ExitItem | PlayVideoItem

  /** `m_blendfactor` and `m_transparencyBlendFactor` */
  const OpaqueFactor: seq<real> := [1.0, 1.0, 1.0, 1.0]
  const TransparencyFactor: seq<real> := [0.25, 0.25, 0.25, 1.0]

  /** `RenderOpaque` binds no blend state with the opaque factor;
      `RenderTransparent` binds the transparency state with its factor. */
  const Opaque := Blend(DefaultBlend, OpaqueFactor)
  const Transparent := Blend(TransparencyBlend, TransparencyFactor)

  /** The name that marks a scene object as transparent. */
  const GlassName := "Glass"

  datatype Command =
    | ClearTargets                       // bind and clear the frame and depth buffers
    | SetRasterizer(rasterizer: Rasterizer)
    | SetBlend(blend: Blend)
    | SetDepth(depth: DepthState)
    | UseShaders(shaders: Shaders)       // the shader set with its layout, buffers and samplers
    | BindTexture(texture: Option<Handle>)
    | BindMesh(mesh: MeshData)
    | Upload(buffer: ConstantBuffer)
    | DrawIndexed(what: Drawable, indexCount: int)
    | DrawOverlay(debugKeys: bool)       // the sprite-batch HUD
    | DrawMenu(highlighted: MenuItem)    // the sprite-batch main menu
    | Present

  /** The immediate context: the commands issued so far. */
  class DeviceContext {
    var commands: seq<Command>

    constructor ()
      ensures commands == []
    {
      commands := [];
    }

    method Emit(c: Command)
      modifies this
      ensures commands == old(commands) + [c]
    {
      commands := commands + [c];
    }
  }

  /** The rasterizer chosen by `UpdatePipelineVariables` and `RenderSkybox`. */
  function RasterizerFor(fill: bool, noCull: bool): (r: Rasterizer)
    ensures r == SolidFill <==> fill
    ensures r == Wireframe <==> !fill && !noCull
    ensures r == NoCulling <==> !fill && noCull
  {
    if fill then SolidFill
    else if !fill && !noCull then Wireframe
    else NoCulling
  }

  // ---------------------------------------------------------------------
  // Replaying a command list

  datatype PipeState = PipeState(rasterizer: Rasterizer, blend: Blend, depth: DepthState, shaders: Shaders)

  function Apply(p: PipeState, c: Command): PipeState
  {
    match c
    case SetRasterizer(r) => p.(rasterizer := r)
    case SetBlend(b) => p.(blend := b)
    case SetDepth(d) => p.(depth := d)
    case UseShaders(s) => p.(shaders := s)
    case _ => p
  }

  /** The pipeline state after issuing `cmds` from `p`. */
  function Run(p: PipeState, cmds: seq<Command>): PipeState
    decreases |cmds|
  {
    if |cmds| == 0 then p else Run(Apply(p, cmds[0]), cmds[1..])
  }

  datatype DrawRecord = DrawRecord(what: Drawable, state: PipeState)

  /** Every draw in `cmds`, in order, with the state it is issued under. */
  function DrawLog(p: PipeState, cmds: seq<Command>): seq<DrawRecord>
    decreases |cmds|
  {
    if |cmds| == 0 then []
    else
      (if cmds[0].DrawIndexed? then [DrawRecord(cmds[0].what, p)] else [])
      + DrawLog(Apply(p, cmds[0]), cmds[1..])
  }

  lemma {:induction false} RunAppend(p: PipeState, a: seq<Command>, b: seq<Command>)
    ensures Run(p, a + b) == Run(Run(p, a), b)
    decreases |a|
  {
    if |a| != 0 {
      assert (a + b)[0] == a[0] && (a + b)[1..] == a[1..] + b;
      RunAppend(Apply(p, a[0]), a[1..], b);
    } else {
      assert a + b == b;
    }
  }

  lemma {:induction false} DrawLogAppend(p: PipeState, a: seq<Command>, b: seq<Command>)
    ensures DrawLog(p, a + b) == DrawLog(p, a) + DrawLog(Run(p, a), b)
    decreases |a|
  {
    if |a| != 0 {
      assert (a + b)[0] == a[0] && (a + b)[1..] == a[1..] + b;
      DrawLogAppend(Apply(p, a[0]), a[1..], b);
    } else {
      assert a + b == b;
    }
  }

  /** One command on its own. */
  lemma Single(p: PipeState, c: Command)
    ensures Run(p, [c]) == Apply(p, c)
    ensures DrawLog(p, [c]) == if c.DrawIndexed? then [DrawRecord(c.what, p)] else []
  {
    assert [c][1..] == [];
  }

  /** Peels the first command off a list. */
  lemma Cons(p: PipeState, c: Command, rest: seq<Command>)
    ensures Run(p, [c] + rest) == Run(Apply(p, c), rest)
    ensures DrawLog(p, [c] + rest) == DrawLog(p, [c]) + DrawLog(Apply(p, c), rest)
  {
    Single(p, c);
    RunAppend(p, [c], rest);
    DrawLogAppend(p, [c], rest);
  }

  // ---------------------------------------------------------------------
  // The pieces of a frame

  /** What a game object's `Draw` reads of it. */
  datatype ObjectView = ObjectView(
    name: string, texture: Option<Handle>, mesh: MeshData,
    position: Vec3, rotation: Vec3, scale: Vec3)

  /** The world matrix `GameObject::Draw` builds: scale, then rotate about
      X, Y and Z, then translate. */
  function DrawWorld(position: Vec3, rotation: Vec3, scale: Vec3): Matrix
  {
    Product([Scaling(scale), RotateX(rotation.x), RotateY(rotation.y), RotateZ(rotation.z), Translate(position)])
  }

  /** `GameObject::Draw(cbData, ...)`: the payload is the caller's record with
      only the world matrix replaced. */
  function ObjectCommands(v: ObjectView, cb: ConstantBuffer): seq<Command>
  {
    [ BindTexture(v.texture),
      Upload(cb.(world := Transposed(DrawWorld(v.position, v.rotation, v.scale)))),
      BindMesh(v.mesh),
      DrawIndexed(Mesh(v.name), v.mesh.indexCount) ]
  }

  /** One iteration of the game-object loop in `Draw`. */
  function ObjectPass(v: ObjectView, cb: ConstantBuffer): seq<Command>
  {
    if v.name == GlassName then [SetBlend(Transparent)] + ObjectCommands(v, cb) + [SetBlend(Opaque)]
    else ObjectCommands(v, cb)
  }

  /** The whole game-object loop, in vector order. */
  function ObjectsPass(vs: seq<ObjectView>, cb: ConstantBuffer): seq<Command>
    decreases |vs|
  {
    if |vs| == 0 then [] else ObjectsPass(vs[..|vs| - 1], cb) + ObjectPass(vs[|vs| - 1], cb)
  }

  /** The loop's commands grow by one object's pass per iteration. */
  lemma ObjectsPassGrows(before: seq<Command>, vs: seq<ObjectView>, i: nat, cb: ConstantBuffer)
    requires i < |vs|
    ensures before + ObjectsPass(vs[..i + 1], cb) == before + ObjectsPass(vs[..i], cb) + ObjectPass(vs[i], cb)
  {
    assert vs[..i + 1][..i] == vs[..i];
  }

  /** The rasterizer, shader and default blend/depth binds that close both
      `UpdatePipelineVariables` and `RenderSkybox`. */
  function RestoreCommands(r: Rasterizer): seq<Command>
  {
    [SetRasterizer(r), UseShaders(SceneShaders), SetBlend(Opaque), SetDepth(DefaultDepth)]
  }

  /** `UpdatePipelineVariables` */
  function SetupCommands(r: Rasterizer): seq<Command>
  {
    [ClearTargets] + RestoreCommands(r)
  }

  /** `RenderSkybox` */
  function SkyboxCommands(skyboxTexture: Option<Handle>, sky: ObjectView, cb: ConstantBuffer, r: Rasterizer): seq<Command>
  {
    [UseShaders(SkyboxShaders), SetDepth(SkyboxLessEqual), BindTexture(skyboxTexture)]
    + ObjectCommands(sky, cb) + RestoreCommands(r)
  }

  /** The three cubes and the pyramid, each drawn after the shared payload's
      world matrix is overwritten and re-uploaded. */
  function PrimitiveCommands(cb: ConstantBuffer, world1: Matrix, world2: Matrix, world3: Matrix, pyramid: Matrix): seq<Command>
  {
    [ Upload(cb.(world := Transposed(world1))), DrawIndexed(Cube(1), 36),
      Upload(cb.(world := Transposed(world2))), DrawIndexed(Cube(2), 36),
      Upload(cb.(world := Transposed(world3))), DrawIndexed(Cube(3), 36),
      Upload(cb.(world := Transposed(pyramid))), DrawIndexed(Pyramid, 18) ]
  }

  /** The primitive draws appended pair by pair are the whole pass appended. */
  lemma PrimitivesSplit(before: seq<Command>, cb: ConstantBuffer, world1: Matrix, world2: Matrix, world3: Matrix, pyramid: Matrix)
    ensures before + PrimitiveCommands(cb, world1, world2, world3, pyramid)
      == before + [Upload(cb.(world := Transposed(world1))), DrawIndexed(Cube(1), 36)]
         + [Upload(cb.(world := Transposed(world2))), DrawIndexed(Cube(2), 36)]
         + [Upload(cb.(world := Transposed(world3))), DrawIndexed(Cube(3), 36)]
         + [Upload(cb.(world := Transposed(pyramid))), DrawIndexed(Pyramid, 18)]
  {
  }

  /** `RenderTerrain` */
  function TerrainCommands(cb: ConstantBuffer, terrain: Matrix, indexCount: int): seq<Command>
  {
    [Upload(cb.(world := Transposed(terrain))), UseShaders(HeightmapShaders), DrawIndexed(TerrainGrid, indexCount)]
  }

  /** The terrain pass replaces the payload's world matrix, so whatever
      world matrix the payload held before does not matter. */
  lemma TerrainIgnoresWorld(cb: ConstantBuffer, w: Matrix, terrain: Matrix, indexCount: int)
    ensures TerrainCommands(cb.(world := w), terrain, indexCount) == TerrainCommands(cb, terrain, indexCount)
  {
  }

  /** `DrawUI`: the HUD is drawn only while text rendering is on; the
      key indicators are only drawn for the debug camera. */
  function OverlayCommands(text: bool, slot: int): seq<Command>
  {
    if text then [DrawOverlay(slot == 0)] else []
  }

  /** The menu branch of `Draw`: the spinning menu object under the
      transparency blend, then `DrawMainMenu`. */
  function MenuCommands(menuObject: ObjectView, cb: ConstantBuffer, item: MenuItem): seq<Command>
  {
    [SetBlend(Transparent)] + ObjectCommands(menuObject, cb) + [SetBlend(Opaque), DrawMenu(item)]
  }

  /** Everything `Draw` reads to build one frame.  `skyboxBuffer` is the
      payload after `UpdatePipelineVariables`, `buffer` the one after
      `RenderSkybox`. */
  datatype Frame = Frame(
    rasterizer: Rasterizer, skyboxTexture: Option<Handle>, skybox: ObjectView,
    skyboxBuffer: ConstantBuffer, buffer: ConstantBuffer, mainMenu: bool,
    world1: Matrix, world2: Matrix, world3: Matrix, pyramid: Matrix,
    objects: seq<ObjectView>, terrain: Matrix, terrainIndexCount: int,
    text: bool, slot: int, menuObject: ObjectView, item: MenuItem)

  /** The scene branch of `Draw`. */
  function SceneCommands(f: Frame): seq<Command>
  {
    PrimitiveCommands(f.buffer, f.world1, f.world2, f.world3, f.pyramid)
    + ObjectsPass(f.objects, f.buffer.(world := Transposed(f.pyramid)))
    + TerrainCommands(f.buffer, f.terrain, f.terrainIndexCount)
    + OverlayCommands(f.text, f.slot)
  }

  /** The branch of `Draw` the menu flag selects. */
  function BranchCommands(f: Frame): seq<Command>
  {
    if f.mainMenu then MenuCommands(f.menuObject, f.buffer, f.item) else SceneCommands(f)
  }

  /** `Draw`: every command of one frame, in order. */
  function FrameTrace(f: Frame): seq<Command>
  {
    SetupCommands(f.rasterizer)
    + SkyboxCommands(f.skyboxTexture, f.skybox, f.skyboxBuffer, f.rasterizer)
    + BranchCommands(f)
    + [Present]
  }

  /** The scene branch appended piece by piece is the whole branch appended. */
  lemma SceneSplits(before: seq<Command>, f: Frame)
    ensures before + SceneCommands(f)
      == before + PrimitiveCommands(f.buffer, f.world1, f.world2, f.world3, f.pyramid)
         + ObjectsPass(f.objects, f.buffer.(world := Transposed(f.pyramid)))
         + TerrainCommands(f.buffer, f.terrain, f.terrainIndexCount)
         + OverlayCommands(f.text, f.slot)
  {
  }

  /** A frame's trace appended piece by piece is the whole trace appended. */
  lemma TraceSplits(before: seq<Command>, f: Frame)
    ensures before + FrameTrace(f)
      == before + SetupCommands(f.rasterizer) + SkyboxCommands(f.skyboxTexture, f.skybox, f.skyboxBuffer, f.rasterizer)
         + BranchCommands(f) + [Present]
  {
  }

  // ---------------------------------------------------------------------
  // What each draw is issued under

  /** The state a scene object is drawn under: the transparency blend for
      an object named "Glass", the opaque one for every other. */
  function ObjectsLog(vs: seq<ObjectView>, base: PipeState): (log: seq<DrawRecord>)
    ensures |log| == |vs|
    ensures forall k :: 0 <= k < |vs| ==>
      log[k] == DrawRecord(Mesh(vs[k].name), base.(blend := if vs[k].name == GlassName then Transparent else Opaque))
    decreases |vs|
  {
    if |vs| == 0 then []
    else
      var v := vs[|vs| - 1];
      ObjectsLog(vs[..|vs| - 1], base)
      + [DrawRecord(Mesh(v.name), base.(blend := if v.name == GlassName then Transparent else Opaque))]
  }

  /** The state the frame's draws are issued under, whatever the previous
      frame left bound. */
  function ExpectedDraws(f: Frame): seq<DrawRecord>
  {
    var base := PipeState(f.rasterizer, Opaque, DefaultDepth, SceneShaders);
    [DrawRecord(Mesh(f.skybox.name), base.(depth := SkyboxLessEqual, shaders := SkyboxShaders))]
    + if f.mainMenu then
        [DrawRecord(Mesh(f.menuObject.name), base.(blend := Transparent))]
      else
        [ DrawRecord(Cube(1), base), DrawRecord(Cube(2), base),
          DrawRecord(Cube(3), base), DrawRecord(Pyramid, base) ]
        + ObjectsLog(f.objects, base)
        + [DrawRecord(TerrainGrid, base.(shaders := HeightmapShaders))]
  }

  lemma ObjectCommandsEffect(p: PipeState, v: ObjectView, cb: ConstantBuffer)
    ensures Run(p, ObjectCommands(v, cb)) == p
    ensures DrawLog(p, ObjectCommands(v, cb)) == [DrawRecord(Mesh(v.name), p)]
  {
    var c := ObjectCommands(v, cb);
    assert c == [c[0]] + ([c[1]] + ([c[2]] + [c[3]]));
    Cons(p, c[0], [c[1]] + ([c[2]] + [c[3]]));
    Cons(p, c[1], [c[2]] + [c[3]]);
    Cons(p, c[2], [c[3]]);
    Single(p, c[3]);
  }

  /** One loop iteration: a "Glass" object is drawn under the transparency
      blend, which is then put back; any other object under the opaque one. */
  lemma ObjectPassEffect(p: PipeState, v: ObjectView, cb: ConstantBuffer)
    requires p.blend == Opaque
    ensures Run(p, ObjectPass(v, cb)) == p
    ensures DrawLog(p, ObjectPass(v, cb))
      == [DrawRecord(Mesh(v.name), p.(blend := if v.name == GlassName then Transparent else Opaque))]
  {
    if v.name == GlassName {
      var t := p.(blend := Transparent);
      var tail := ObjectCommands(v, cb) + [SetBlend(Opaque)];
      Cons(p, SetBlend(Transparent), tail);
      Single(p, SetBlend(Transparent));
      ObjectCommandsEffect(t, v, cb);
      RunAppend(t, ObjectCommands(v, cb), [SetBlend(Opaque)]);
      DrawLogAppend(t, ObjectCommands(v, cb), [SetBlend(Opaque)]);
      Single(t, SetBlend(Opaque));
      assert ObjectPass(v, cb) == [SetBlend(Transparent)] + tail;
    } else {
      ObjectCommandsEffect(p, v, cb);
    }
  }

  /** The object loop leaves the opaque state it starts from, and draws the
      objects in vector order, each "Glass" object under transparency. */
  lemma {:induction false} ObjectsPassEffect(p: PipeState, vs: seq<ObjectView>, cb: ConstantBuffer)
    requires p.blend == Opaque
    ensures Run(p, ObjectsPass(vs, cb)) == p
    ensures DrawLog(p, ObjectsPass(vs, cb)) == ObjectsLog(vs, p)
    decreases |vs|
  {
    if |vs| != 0 {
      var init, v := vs[..|vs| - 1], vs[|vs| - 1];
      ObjectsPassEffect(p, init, cb);
      ObjectPassEffect(p, v, cb);
      RunAppend(p, ObjectsPass(init, cb), ObjectPass(v, cb));
      DrawLogAppend(p, ObjectsPass(init, cb), ObjectPass(v, cb));
    }
  }

  lemma RestoreEffect(p: PipeState, r: Rasterizer)
    ensures Run(p, RestoreCommands(r)) == PipeState(r, Opaque, DefaultDepth, SceneShaders)
    ensures DrawLog(p, RestoreCommands(r)) == []
  {
    var c := RestoreCommands(r);
    var p1 := Apply(p, c[0]);
    var p2 := Apply(p1, c[1]);
    var p3 := Apply(p2, c[2]);
    assert c == [c[0]] + ([c[1]] + ([c[2]] + [c[3]]));
    Cons(p, c[0], [c[1]] + ([c[2]] + [c[3]]));
    Cons(p1, c[1], [c[2]] + [c[3]]);
    Cons(p2, c[2], [c[3]]);
    Single(p3, c[3]);
  }

  lemma SetupEffect(p: PipeState, r: Rasterizer)
    ensures Run(p, SetupCommands(r)) == PipeState(r, Opaque, DefaultDepth, SceneShaders)
    ensures DrawLog(p, SetupCommands(r)) == []
  {
    Cons(p, ClearTargets, RestoreCommands(r));
    RestoreEffect(p, r);
  }

  lemma SkyboxEffect(p: PipeState, tex: Option<Handle>, sky: ObjectView, cb: ConstantBuffer, r: Rasterizer)
    requires p == PipeState(r, Opaque, DefaultDepth, SceneShaders)
    ensures Run(p, SkyboxCommands(tex, sky, cb, r)) == p
    ensures DrawLog(p, SkyboxCommands(tex, sky, cb, r))
      == [DrawRecord(Mesh(sky.name), p.(depth := SkyboxLessEqual, shaders := SkyboxShaders))]
  {
    var head := [UseShaders(SkyboxShaders), SetDepth(SkyboxLessEqual), BindTexture(tex)];
    var q := p.(depth := SkyboxLessEqual, shaders := SkyboxShaders);
    var p1 := Apply(p, head[0]);
    var p2 := Apply(p1, head[1]);
    assert head == [head[0]] + ([head[1]] + [head[2]]);
    Cons(p, head[0], [head[1]] + [head[2]]);
    Cons(p1, head[1], [head[2]]);
    Single(p2, head[2]);
    assert Run(p, head) == q && DrawLog(p, head) == [];
    ObjectCommandsEffect(q, sky, cb);
    RestoreEffect(q, r);
    RunAppend(p, head, ObjectCommands(sky, cb));
    DrawLogAppend(p, head, ObjectCommands(sky, cb));
    RunAppend(p, head + ObjectCommands(sky, cb), RestoreCommands(r));
    DrawLogAppend(p, head + ObjectCommands(sky, cb), RestoreCommands(r));
  }

  lemma MenuEffect(p: PipeState, v: ObjectView, cb: ConstantBuffer, item: MenuItem)
    requires p.blend == Opaque
    ensures DrawLog(p, MenuCommands(v, cb, item)) == [DrawRecord(Mesh(v.name), p.(blend := Transparent))]
  {
    var t := p.(blend := Transparent);
    Cons(p, SetBlend(Transparent), ObjectCommands(v, cb) + [SetBlend(Opaque), DrawMenu(item)]);
    Single(p, SetBlend(Transparent));
    ObjectCommandsEffect(t, v, cb);
    DrawLogAppend(t, ObjectCommands(v, cb), [SetBlend(Opaque), DrawMenu(item)]);
    Cons(t, SetBlend(Opaque), [DrawMenu(item)]);
    Single(t, SetBlend(Opaque));
    Single(Apply(t, SetBlend(Opaque)), DrawMenu(item));
    assert MenuCommands(v, cb, item) == [SetBlend(Transparent)] + (ObjectCommands(v, cb) + [SetBlend(Opaque), DrawMenu(item)]);
    assert [SetBlend(Opaque), DrawMenu(item)] == [SetBlend(Opaque)] + [DrawMenu(item)];
  }

  /** An upload followed by a draw changes no state and logs that draw. */
  lemma PairEffect(p: PipeState, cb: ConstantBuffer, what: Drawable, n: int)
    ensures Run(p, [Upload(cb), DrawIndexed(what, n)]) == p
    ensures DrawLog(p, [Upload(cb), DrawIndexed(what, n)]) == [DrawRecord(what, p)]
  {
    Cons(p, Upload(cb), [DrawIndexed(what, n)]);
    Single(p, Upload(cb));
    Single(p, DrawIndexed(what, n));
    assert [Upload(cb), DrawIndexed(what, n)] == [Upload(cb)] + [DrawIndexed(what, n)];
  }

  lemma PrimitivesEffect(p: PipeState, cb: ConstantBuffer, w1: Matrix, w2: Matrix, w3: Matrix, pyr: Matrix)
    ensures Run(p, PrimitiveCommands(cb, w1, w2, w3, pyr)) == p
    ensures DrawLog(p, PrimitiveCommands(cb, w1, w2, w3, pyr))
      == [DrawRecord(Cube(1), p), DrawRecord(Cube(2), p), DrawRecord(Cube(3), p), DrawRecord(Pyramid, p)]
  {
    var a := [Upload(cb.(world := Transposed(w1))), DrawIndexed(Cube(1), 36)];
    var b := [Upload(cb.(world := Transposed(w2))), DrawIndexed(Cube(2), 36)];
    var c := [Upload(cb.(world := Transposed(w3))), DrawIndexed(Cube(3), 36)];
    var d := [Upload(cb.(world := Transposed(pyr))), DrawIndexed(Pyramid, 18)];
    PairEffect(p, cb.(world := Transposed(w1)), Cube(1), 36);
    PairEffect(p, cb.(world := Transposed(w2)), Cube(2), 36);
    PairEffect(p, cb.(world := Transposed(w3)), Cube(3), 36);
    PairEffect(p, cb.(world := Transposed(pyr)), Pyramid, 18);
    RunAppend(p, a, b);
    DrawLogAppend(p, a, b);
    RunAppend(p, a + b, c);
    DrawLogAppend(p, a + b, c);
    RunAppend(p, a + b + c, d);
    DrawLogAppend(p, a + b + c, d);
    assert PrimitiveCommands(cb, w1, w2, w3, pyr) == a + b + c + d;
  }

  lemma TerrainEffect(p: PipeState, cb: ConstantBuffer, m: Matrix, n: int)
    ensures Run(p, TerrainCommands(cb, m, n)) == p.(shaders := HeightmapShaders)
    ensures DrawLog(p, TerrainCommands(cb, m, n)) == [DrawRecord(TerrainGrid, p.(shaders := HeightmapShaders))]
  {
    var c := TerrainCommands(cb, m, n);
    assert c == [c[0]] + ([c[1]] + [c[2]]);
    Cons(p, c[0], [c[1]] + [c[2]]);
    Cons(p, c[1], [c[2]]);
    Single(p.(shaders := HeightmapShaders), c[2]);
  }

  lemma OverlayEffect(p: PipeState, text: bool, slot: int)
    ensures DrawLog(p, OverlayCommands(text, slot)) == []
  {
    if text {
      Single(p, DrawOverlay(slot == 0));
    }
  }

  /** The draws of the scene branch, from the state the skybox pass leaves. */
  lemma SceneEffect(base: PipeState, f: Frame)
    requires base.blend == Opaque
    ensures DrawLog(base, SceneCommands(f))
      == [DrawRecord(Cube(1), base), DrawRecord(Cube(2), base), DrawRecord(Cube(3), base), DrawRecord(Pyramid, base)]
         + ObjectsLog(f.objects, base)
         + [DrawRecord(TerrainGrid, base.(shaders := HeightmapShaders))]
  {
    var prims := PrimitiveCommands(f.buffer, f.world1, f.world2, f.world3, f.pyramid);
    var objs := ObjectsPass(f.objects, f.buffer.(world := Transposed(f.pyramid)));
    var terr := TerrainCommands(f.buffer, f.terrain, f.terrainIndexCount);
    var ui := OverlayCommands(f.text, f.slot);
    PrimitivesEffect(base, f.buffer, f.world1, f.world2, f.world3, f.pyramid);
    ObjectsPassEffect(base, f.objects, f.buffer.(world := Transposed(f.pyramid)));
    TerrainEffect(base, f.buffer, f.terrain, f.terrainIndexCount);
    OverlayEffect(base.(shaders := HeightmapShaders), f.text, f.slot);
    RunAppend(base, prims, objs);
    DrawLogAppend(base, prims, objs);
    RunAppend(base, prims + objs, terr);
    DrawLogAppend(base, prims + objs, terr);
    DrawLogAppend(base, prims + objs + terr, ui);
  }

  /** `UpdatePipelineVariables` and `RenderSkybox` together: from any state
      they leave the frame's base state and draw only the skybox. */
  lemma PreludeEffect(f: Frame, p0: PipeState)
    ensures Run(p0, SetupCommands(f.rasterizer) + SkyboxCommands(f.skyboxTexture, f.skybox, f.skyboxBuffer, f.rasterizer))
      == PipeState(f.rasterizer, Opaque, DefaultDepth, SceneShaders)
    ensures DrawLog(p0, SetupCommands(f.rasterizer) + SkyboxCommands(f.skyboxTexture, f.skybox, f.skyboxBuffer, f.rasterizer))
      == [DrawRecord(Mesh(f.skybox.name), PipeState(f.rasterizer, Opaque, SkyboxLessEqual, SkyboxShaders))]
  {
    var r := f.rasterizer;
    var base := PipeState(r, Opaque, DefaultDepth, SceneShaders);
    var setup := SetupCommands(r);
    var sky := SkyboxCommands(f.skyboxTexture, f.skybox, f.skyboxBuffer, r);
    SetupEffect(p0, r);
    SkyboxEffect(base, f.skyboxTexture, f.skybox, f.skyboxBuffer, r);
    RunAppend(p0, setup, sky);
    DrawLogAppend(p0, setup, sky);
  }

  /** Whatever state the previous frame left bound, every draw of a frame is
      issued under the frame's rasterizer; the skybox is drawn first, under
      the less-equal depth test with the skybox shaders; every later draw
      uses the default depth state; in the scene the cubes, the pyramid, the
      game objects in vector order and the terrain follow, each "Glass"
      object under the transparency blend and everything else opaque; in the
      menu the menu object follows under the transparency blend. */
  lemma FrameDrawOrder(f: Frame, p0: PipeState)
    ensures DrawLog(p0, FrameTrace(f)) == ExpectedDraws(f)
  {
    var r := f.rasterizer;
    var base := PipeState(r, Opaque, DefaultDepth, SceneShaders);
    var prelude := SetupCommands(r) + SkyboxCommands(f.skyboxTexture, f.skybox, f.skyboxBuffer, r);
    var body := BranchCommands(f);
    PreludeEffect(f, p0);
    DrawLogAppend(p0, prelude, body);
    DrawLogAppend(p0, prelude + body, [Present]);
    Single(Run(p0, prelude + body), Present);
    if f.mainMenu {
      MenuEffect(base, f.menuObject, f.buffer, f.item);
    } else {
      SceneEffect(base, f);
    }
    assert FrameTrace(f) == prelude + body + [Present];
  }
}
