/** The `DX11Framework` class: the mutable mode flags, the shared
    constant-buffer record, the debug and preset cameras and the scene
    objects, with `Update` (input handling and animation, once per frame)
    and `Draw` (the command sequence of one frame).  The mouse globals that
    the window procedure writes and mouse look reads are held here too, and
    the window procedure's mouse messages are methods. */
module Framework {
  import opened Structures
  import opened Pipeline
  import opened Entities
  import opened SceneLogic
  import Terrain

  /** The terrain is moved far out of view every frame. */
  const TerrainOffset := Vec3(666.0, 666.0, 666.0)

  /** The skybox turns this many degrees per second about each axis. */
  const SkyboxSpin := 0.1

  /** The main menu object's fixed pitch. */
  const MenuPitch := 90.0

  /** The menu object's rotation at animation angle `angle`: the fixed
      pitch, and turned by -angle about the other two axes. */
  function MenuRotation(angle: real): Vec3
  {
    Vec3(MenuPitch, -angle, -angle)
  }

  /** How far the skybox turns in `dt` seconds: `SkyboxSpin` per second
      about each axis. */
  function SkyboxTurn(dt: real): Vec3
  {
    Vec3(SkyboxSpin * dt, SkyboxSpin * dt, SkyboxSpin * dt)
  }

  /** Seconds since the previous frame from two tick counts in
      milliseconds; the first frame has none. */
  function DeltaTime(frameStart: Option<int>, now: int): (dt: real)
    requires frameStart.Some? ==> frameStart.value <= now
    ensures dt >= 0.0
    ensures frameStart.None? ==> dt == 0.0
    ensures frameStart.Some? ==> dt * 1000.0 == (now - frameStart.value) as real
  {
    if frameStart.None? then 0.0 else (now - frameStart.value) as real / 1000.0
  }

  /** The eye position the shaders get: the starting position while the
      debug camera is in front of the origin, its own position while it is
      behind, unchanged when it is exactly level with it. */
  function ShaderEye(current: Vec3, debug: Vec3, start: Vec3): (eye: Vec3)
    ensures debug.z > 0.0 ==> eye == start
    ensures debug.z < 0.0 ==> eye == debug
    ensures debug.z == 0.0 ==> eye == current
  {
    if debug.z > 0.0 then start else if debug.z < 0.0 then debug else current
  }


  /** The debug camera and the view and projection after the slot switch. */
  datatype CameraChoice = CameraChoice(debug: Camera, view: Matrix, projection: Matrix)

  /** The slot switch of `UpdatePipelineVariables`: slot 0 views through the
      debug camera; slots 1-9 copy their preset's position and rotation into
      the debug camera and view through the preset; any other slot keeps
      the previous matrices. */
  function ActiveCamera(slot: int, debug: Camera, presets: seq<Camera>, view: Matrix, projection: Matrix): (r: CameraChoice)
    requires |presets| == SlotCount - 1
    ensures slot == 0 ==>
      r == CameraChoice(debug, ViewOf(debug.position, debug.rotation), ProjectionOf(debug.projection))
    ensures 1 <= slot < SlotCount ==>
      var p := presets[slot - 1];
      r.debug == debug.(position := p.position, rotation := p.rotation) &&
      r.view == ViewOf(p.position, p.rotation) && r.projection == ProjectionOf(p.projection)
    ensures !(0 <= slot < SlotCount) ==> r == CameraChoice(debug, view, projection)
    ensures r.debug.projection == debug.projection
  {
    if slot == 0 then
      CameraChoice(debug, ViewOf(debug.position, debug.rotation), ProjectionOf(debug.projection))
    else if 1 <= slot < SlotCount then
      var p := presets[slot - 1];
      CameraChoice(debug.(position := p.position, rotation := p.rotation),
                   ViewOf(p.position, p.rotation), ProjectionOf(p.projection))
    else
      CameraChoice(debug, view, projection)
  }

  /** The eye rule runs twice in a frame: before the slot switch, with the
      debug camera as it was, and after the skybox is drawn, with the debug
      camera the switch left. Where the switch keeps the debug camera the
      second run changes nothing; wherever the final camera is off the
      z = 0 plane, the eye is the one that camera alone selects. */
  lemma FrameEye(current: Vec3, slot: int, debug: Camera, presets: seq<Camera>, view: Matrix, projection: Matrix, start: Vec3)
    requires |presets| == SlotCount - 1
    ensures var cam := ActiveCamera(slot, debug, presets, view, projection).debug;
            var eye := ShaderEye(ShaderEye(current, debug.position, start), cam.position, start);
            (!(1 <= slot < SlotCount) ==> eye == ShaderEye(current, debug.position, start)) &&
            (cam.position.z != 0.0 ==> eye == ShaderEye(current, cam.position, start))
  {
  }

  /** In every slot the view matrix is taken from where the debug camera now
      is, so returning to slot 0 continues from the preset's viewpoint; and
      re-copying the preset on the next frame changes nothing. */
  lemma ActiveCameraFollows(slot: int, debug: Camera, presets: seq<Camera>, view: Matrix, projection: Matrix)
    requires |presets| == SlotCount - 1 && 0 <= slot < SlotCount
    ensures var r := ActiveCamera(slot, debug, presets, view, projection);
            r.view == ViewOf(r.debug.position, r.debug.rotation) &&
            ActiveCamera(slot, r.debug, presets, r.view, r.projection) == r
  {
  }

  /** The scene objects' views, in vector order. */
  ghost function Views(objs: seq<GameObject>): (vs: seq<ObjectView>)
    reads set o | o in objs
    ensures |vs| == |objs|
    ensures forall k :: 0 <= k < |objs| ==> vs[k] == objs[k].View()
  {
    seq(|objs|, k requires 0 <= k < |objs| reads set o | o in objs => objs[k].View())
  }

  /** Every object's stored world matrix is the one `GameObject::Draw`
      computes from its current transform. */
  ghost predicate WorldsCurrent(objs: seq<GameObject>)
    reads objs`worldMatrix, objs`position, objs`rotation, objs`scale
  {
    forall k :: 0 <= k < |objs| ==>
      objs[k].worldMatrix == DrawWorld(objs[k].position, objs[k].rotation, objs[k].scale)
  }

  /** The scene objects after the rotation rule of `Update`: each takes
      `ObjectRotation` of its name, and nothing else about it changes. */
  function Animate(vs: seq<ObjectView>, angle: real, rotate: bool): (ws: seq<ObjectView>)
    ensures |ws| == |vs|
    ensures forall k :: 0 <= k < |vs| ==>
      ws[k] == vs[k].(rotation := ObjectRotation(vs[k].name, vs[k].rotation, angle, rotate))
  {
    seq(|vs|, k requires 0 <= k < |vs| => vs[k].(rotation := ObjectRotation(vs[k].name, vs[k].rotation, angle, rotate)))
  }

  /** The class's mode flags and its camera slot (`_fill`, `_noCull`,
      `_rotate`, `_text`, `_mainMenu`, `_start`, `_playVideo`, `_mouseMode`,
      `_cameraNumber`), held as one record so that each handler replaces it
      once. */
  datatype Modes = Modes(fill: bool, noCull: bool, rotate: bool, text: bool, mainMenu: bool,
                         start: bool, playVideo: bool, mouseMode: bool, slot: int)

  class DX11Framework {
    var modes: Modes
    var cbData: ConstantBuffer
    var debugCamera: Camera
    var keys: Indicators
    var view: Matrix
    var projection: Matrix
    var world1: Matrix
    var world2: Matrix
    var world3: Matrix
    var pyramid: Matrix
    var angle: real                 // the static `_angle` of `Update`
    var timeRunning: real
    var frameStart: Option<int>     // the static tick count of `Update`
    var mouse: Mouse                // the window procedure's mouse globals
    const startingCameraPosition: Vec3
    const presets: seq<Camera>      // cameras 1-9
    const basis: Basis              // the cameras' direction vectors
    const gameObjects: seq<GameObject>
    const skybox: GameObject
    const mainMenuObject: GameObject
    const skyboxTexture: Option<Handle>
    const terrain: Terrain.Terrain
    const ctx: DeviceContext

    /** The part of the state the input handlers work on. */
    function State(): Scene
      reads this`modes, this`cbData, this`debugCamera, this`keys, this`mouse
    {
      var m := modes;
      Scene(m.fill, m.noCull, m.rotate, m.text, m.mainMenu, m.start, m.playVideo, m.mouseMode, m.slot,
            cbData.shading, debugCamera, keys, mouse)
    }

    ghost predicate Valid()
      reads this`modes, this`cbData, this`debugCamera, this`keys, this`mouse
    {
      |presets| == SlotCount - 1 &&
      (forall i, j :: 0 <= i < j < |gameObjects| ==> gameObjects[i] != gameObjects[j]) &&
      skybox !in gameObjects && mainMenuObject !in gameObjects && skybox != mainMenuObject &&
      Steady(State())
    }

    /** The header initialisers and the start-up assignments: the menu is
        up with Start selected, solid fill, text on, the debug camera
        active, lighting and texturing on and the pixelation amount 20.
        `startingCameraPosition` is the debug camera's loaded position.
        The four world matrices keep the header's zero initialisers (the
        menu branch of `Update` never sets them); the view and projection
        are the debug camera's. */
    constructor (debug: Camera, presets: seq<Camera>, basis: Basis,
                 gameObjects: seq<GameObject>, skybox: GameObject, mainMenuObject: GameObject,
                 skyboxTexture: Option<Handle>, terrain: Terrain.Terrain,
                 ctx: DeviceContext)
      requires |presets| == SlotCount - 1
      requires forall i, j :: 0 <= i < j < |gameObjects| ==> gameObjects[i] != gameObjects[j]
      requires skybox !in gameObjects && mainMenuObject !in gameObjects && skybox != mainMenuObject
      ensures Valid()
      ensures State() == Initial(debug, Mouse(0, 0, 0, 0, false, false))
      ensures cbData == ZeroBuffer.(shading := DefaultShading, pixelationAmount := 20.0)
      ensures startingCameraPosition == debug.position
      ensures angle == 0.0 && timeRunning == 0.0 && frameStart.None?
      ensures world1 == world2 == world3 == pyramid == ZeroMatrix
      ensures view == ViewOf(debug.position, debug.rotation) && projection == ProjectionOf(debug.projection)
      ensures this.presets == presets && this.basis == basis && this.gameObjects == gameObjects
      ensures this.skybox == skybox && this.mainMenuObject == mainMenuObject && this.skyboxTexture == skyboxTexture
      ensures this.terrain == terrain && this.ctx == ctx
    {
      modes := Modes(true, false, false, true, true, true, false, false, 0);
      cbData := ZeroBuffer.(shading := DefaultShading, pixelationAmount := 20.0);
      debugCamera := debug;
      keys := AllUp;
      view, projection := ViewOf(debug.position, debug.rotation), ProjectionOf(debug.projection);
      world1, world2, world3, pyramid := ZeroMatrix, ZeroMatrix, ZeroMatrix, ZeroMatrix;
      angle, timeRunning, frameStart := 0.0, 0.0, None;
      mouse := Mouse(0, 0, 0, 0, false, false);
      startingCameraPosition := debug.position;
      this.presets := presets;
      this.basis := basis;
      this.gameObjects := gameObjects;
      this.skybox := skybox;
      this.mainMenuObject := mainMenuObject;
      this.skyboxTexture := skyboxTexture;
      this.terrain := terrain;
      this.ctx := ctx;
    }

    // -------------------------------------------------------------------
    // The window procedure's mouse messages

    /** `WM_MOUSEMOVE`: remember the cursor position. */
    method OnMouseMove(px: int, py: int)
      modifies this`mouse
      ensures State() == old(State()).(mouse := old(mouse).(x := px, y := py))
    {
      mouse := mouse.(x := px, y := py);
    }

    /** `WM_MOUSEWHEEL`: a positive delta leaves exactly the up notch
        pending, any other delta exactly the down notch. */
    method OnMouseWheel(delta: int)
      modifies this`mouse
      ensures mouse.wheelUp <==> delta > 0
      ensures mouse.wheelDown <==> delta <= 0
      ensures State() == old(State()).(mouse := old(mouse).(wheelUp := mouse.wheelUp, wheelDown := mouse.wheelDown))
    {
      if delta > 0 {
        mouse := mouse.(wheelUp := true, wheelDown := false);
      } else {
        mouse := mouse.(wheelDown := true, wheelUp := false);
      }
    }

    // -------------------------------------------------------------------
    // The scene branch of `Update`, handler by handler

    /** F3: toggle solid fill; turning it on turns no-cull off. */
    method ToggleFill()
      modifies this`modes
      ensures State() == OnF3(old(State()))
    {
      if modes.fill {
        modes := modes.(fill := false);
      } else {
        modes := modes.(fill := true, noCull := false);
      }
    }

    /** F6: toggle no-cull; turning it on turns solid fill off. */
    method ToggleNoCull()
      modifies this`modes
      ensures State() == OnF6(old(State()))
    {
      if modes.noCull {
        modes := modes.(noCull := false);
      } else {
        modes := modes.(noCull := true, fill := false);
      }
    }

    /** F3 and F6. */
    method RasterKeys(pressed: set<VKey>)
      modifies this`modes
      ensures State() == SceneLogic.RasterKeys(old(State()), pressed)
    {
      if F3 in pressed {
        ToggleFill();
      }
      if F6 in pressed {
        ToggleNoCull();
      }
    }

    /** F7, F8 and Tab on a copy of the buffer's flags. */
    method FilterKeys(m0: Shading, pressed: set<VKey>) returns (m: Shading)
      ensures m == SceneLogic.FilterKeys(m0, pressed)
    {
      m := m0;
      if F7 in pressed {
        if m.waveFilter == 1 { m := m.(waveFilter := 0); } else if m.waveFilter == 0 { m := m.(waveFilter := 1); }
      }
      if F8 in pressed {
        if m.waveFilterX == 1 { m := m.(waveFilterX := 0); } else if m.waveFilterX == 0 { m := m.(waveFilterX := 1); }
      }
      if Tab in pressed {
        if m.pixelateFilter == 1 { m := m.(pixelateFilter := 0); } else if m.pixelateFilter == 0 { m := m.(pixelateFilter := 1); }
      }
    }

    /** F11, F2 and F1 on a copy of the buffer's flags. */
    method LightingKeys(m0: Shading, pressed: set<VKey>) returns (m: Shading)
      ensures m == SceneLogic.LightingKeys(m0, pressed)
    {
      m := m0;
      if F11 in pressed {
        if m.goochShading == 1 {
          m := m.(goochShading := 0, lightOn := 1, hasTexture := 1);
        } else if m.goochShading == 0 {
          m := m.(goochShading := 1, lightOn := 0, hasTexture := 0);
        }
      }
      if F2 in pressed {
        if m.lightOn == 1 { m := m.(lightOn := 0); } else if m.lightOn == 0 { m := m.(lightOn := 1); }
      }
      if F1 in pressed {
        if m.hasTexture == 1 { m := m.(hasTexture := 0); } else { m := m.(hasTexture := 1); }
      }
    }

    /** F7, F8, Tab, F11, F2 and F1 on the constant buffer's flags. */
    method ShadingKeys(pressed: set<VKey>)
      modifies this`cbData
      ensures cbData == old(cbData).(shading := SceneLogic.ShadingKeys(old(cbData.shading), pressed))
    {
      var m := FilterKeys(cbData.shading, pressed);
      m := LightingKeys(m, pressed);
      cbData := cbData.(shading := m);
    }

    /** The edge-triggered keys of the scene: F3 to F11, Tab, F5 and F4. */
    method SceneKeys(pressed: set<VKey>)
      modifies this`modes, this`cbData, this`debugCamera
      ensures State() == SceneLogic.SceneKeys(old(State()), pressed, startingCameraPosition)
      ensures cbData == old(cbData).(shading := cbData.shading)
    {
      RasterKeys(pressed);
      ShadingKeys(pressed);
      DisplayKeys(pressed);
    }

    /** F5 toggles the text overlay; F4 toggles rotation and resets the
        camera and the raster flags. */
    method DisplayKeys(pressed: set<VKey>)
      modifies this`modes, this`debugCamera
      ensures State() == SceneLogic.DisplayKeys(old(State()), pressed, startingCameraPosition)
    {
      var m := modes;
      if F5 in pressed {
        m := m.(text := !m.text);
      }
      if F4 in pressed {
        m := m.(noCull := false, fill := true, rotate := !m.rotate);
        debugCamera := debugCamera.(position := startingCameraPosition, rotation := Origin);
      }
      modes := m;
    }

    /** The world matrices of the three cubes and the pyramid. */
    method SetWorlds()
      modifies this`world1, this`world2, this`world3, this`pyramid
      ensures Worlds(world1, world2, world3, pyramid) == CubeWorlds(modes.rotate, angle)
    {
      var two := Vec3(2.0, 2.0, 2.0);
      var small := Vec3(0.45, 0.45, 0.45);
      if modes.rotate {
        world1 := Product([RotateY(angle), Scaling(two)]);
        world2 := Product([RotateY(-angle), Translate(Cube2Offset), RotateY(-angle)]);
        world3 := Product([RotateY(-angle), RotateX(-angle), Translate(Cube2Offset), Translate(Vec3(2.0, 0.0, 0.0)),
                           RotateY(-angle), Scaling(small)] + world2.factors);
      } else {
        world1 := Product([Scaling(two)]);
        world2 := Product([Translate(Cube2Offset)]);
        world3 := Product([Translate(Cube2Offset), Translate(Vec3(2.0, 0.0, 0.0)), Scaling(small)] + world2.factors);
      }
      pyramid := Product([Translate(Vec3(10.0, 0.0, 2.0))] + world2.factors);
    }

    /** The name-based rotation rule over the scene objects. */
    method AnimateObjects()
      requires forall i, j :: 0 <= i < j < |gameObjects| ==> gameObjects[i] != gameObjects[j]
      modifies set o | o in gameObjects
      ensures forall k :: 0 <= k < |gameObjects| ==>
        gameObjects[k].rotation == ObjectRotation(gameObjects[k].name, old(gameObjects[k].rotation), angle, modes.rotate)
      ensures forall k :: 0 <= k < |gameObjects| ==>
        gameObjects[k].View() == old(gameObjects[k].View()).(rotation := gameObjects[k].rotation)
      ensures Views(gameObjects) == Animate(old(Views(gameObjects)), angle, modes.rotate)
    {
      ghost var vs := Views(gameObjects);
      var rotate := modes.rotate;
      var i := 0;
      while i < |gameObjects|
        invariant 0 <= i <= |gameObjects|
        invariant forall k :: 0 <= k < i ==>
          gameObjects[k].rotation == ObjectRotation(gameObjects[k].name, old(gameObjects[k].rotation), angle, rotate)
        invariant forall k :: i <= k < |gameObjects| ==> gameObjects[k].rotation == old(gameObjects[k].rotation)
        invariant forall k :: 0 <= k < |gameObjects| ==>
          gameObjects[k].View() == old(gameObjects[k].View()).(rotation := gameObjects[k].rotation)
      {
        var o := gameObjects[i];
        if o.name == "Airplane" {
          o.SetRotation(if rotate then Vec3(0.0, -angle, 0.0) else Vec3(0.0, 0.0, 0.0));
        } else if o.name == "Car" {
          o.SetRotation(Vec3(-angle, -angle, 0.0));
        }
        i := i + 1;
      }
      assert forall k :: 0 <= k < |gameObjects| ==> Views(gameObjects)[k] == Animate(vs, angle, rotate)[k];
    }

    /** Escape: back to the main menu with the camera and flags reset. */
    method ReturnToMenu()
      modifies this`modes, this`debugCamera, this`cbData
      ensures State() == OnEscape(old(State()), startingCameraPosition)
      ensures cbData == old(cbData).(shading := cbData.shading)
    {
      var m := modes.(mainMenu := true);
      var c := debugCamera.(position := startingCameraPosition, rotation := Origin);
      var sh := cbData.shading.(pixelateFilter := 0, goochShading := 0, waveFilterX := 0, waveFilter := 0);
      m := m.(noCull := false, fill := true, slot := 0);
      sh := sh.(lightOn := 1, hasTexture := 1);
      m := m.(rotate := false, text := true);
      modes, debugCamera, cbData := m, c, cbData.(shading := sh);
    }

    /** One branch of the preset chain: camera slot `n` with its raster
        flag and its filter flags. */
    method UsePreset(n: nat)
      requires 1 <= n < SlotCount
      modifies this`modes, this`cbData
      ensures State() == ApplyPreset(old(State()), n)
      ensures cbData == old(cbData).(shading := cbData.shading)
    {
      var b := PresetBundle(n);
      var m := cbData.shading.(waveFilter := b.waveFilter, waveFilterX := b.waveFilterX,
                               goochShading := b.gooch, pixelateFilter := b.pixelate);
      modes, cbData := modes.(slot := n, fill := b.fill, noCull := b.noCull), cbData.(shading := m);
    }

    /** The preset chain: the first held numpad key in the order 0, 1, 3,
        2, 4-9 picks the camera slot and its flags. */
    method SelectCamera(held: set<VKey>)
      modifies this`modes, this`cbData
      ensures State() == CameraChain(old(State()), held)
      ensures cbData == old(cbData).(shading := cbData.shading)
    {
      if Numpad(0) in held {
        modes := modes.(slot := 0);
      } else if Numpad(1) in held {
        UsePreset(1);
      } else if Numpad(3) in held {
        UsePreset(2);
      } else if Numpad(2) in held {
        UsePreset(3);
      } else if Numpad(4) in held {
        UsePreset(4);
      } else if Numpad(5) in held {
        UsePreset(5);
      } else if Numpad(6) in held {
        UsePreset(6);
      } else if Numpad(7) in held {
        UsePreset(7);
      } else if Numpad(8) in held {
        UsePreset(8);
      } else if Numpad(9) in held {
        UsePreset(9);
      }
    }

    // -------------------------------------------------------------------
    // `HandleDebugMovement`

    /** The debug camera and indicators after W, S, A and D. */
    method PlanarMoved(c0: Camera, k0: Indicators, held: set<VKey>, dt: real) returns (c: Camera, k: Indicators)
      ensures Rig(c, k) == PlanarKeys(Rig(c0, k0), held, dt, basis)
    {
      c, k := c0, k0;
      ghost var r0 := Rig(c, k);
      var d := Scale(Scale(basis(Forward, c), CameraSpeed), dt);
      if KeyW in held {
        k := k.(w := KeyDown);
        c := Offset(c, d);
      }
      ghost var r1 := Rig(c, k);
      assert r1 == Move(r0, KeyW, held, d);
      d := Scale(Scale(basis(Back, c), CameraSpeed), dt);
      if KeyS in held {
        k := k.(s := KeyDown);
        c := Offset(c, d);
      }
      ghost var r2 := Rig(c, k);
      assert r2 == Move(r1, KeyS, held, d);
      d := Scale(Scale(basis(Leftward, c), CameraSpeed), dt);
      if KeyA in held {
        k := k.(a := KeyDown);
        c := Offset(c, d);
      }
      ghost var r3 := Rig(c, k);
      assert r3 == Move(r2, KeyA, held, d);
      d := Scale(Scale(basis(Rightward, c), CameraSpeed), dt);
      if KeyD in held {
        k := k.(d := KeyDown);
        c := Offset(c, d);
      }
      assert Rig(c, k) == Move(r3, KeyD, held, d);
    }

    /** The debug camera and indicators after Q and E. */
    method VerticalMoved(c0: Camera, k0: Indicators, held: set<VKey>, dt: real) returns (c: Camera, k: Indicators)
      ensures Rig(c, k) == VerticalKeys(Rig(c0, k0), held, dt)
    {
      c, k := c0, k0;
      ghost var r4 := Rig(c, k);
      var d := Vec3(0.0, CameraSpeed * dt, 0.0);
      if KeyQ in held {
        k := k.(q := KeyDown);
        c := Offset(c, d);
      }
      ghost var r5 := Rig(c, k);
      assert r5 == Move(r4, KeyQ, held, d);
      d := Vec3(0.0, -CameraSpeed * dt, 0.0);
      if KeyE in held {
        k := k.(e := KeyDown);
        c := Offset(c, d);
      }
      assert Rig(c, k) == Move(r5, KeyE, held, d);
    }

    /** W, S, A, D, Q and E while held: each moves the camera along its own
        direction as the previous key left it. */
    method MoveCamera(held: set<VKey>, dt: real)
      modifies this`debugCamera, this`keys
      ensures State() == MoveStep(old(State()), held, dt, basis)
    {
      var c, k := PlanarMoved(debugCamera, keys, held, dt);
      c, k := VerticalMoved(c, k, held, dt);
      debugCamera, keys := c, k;
    }

    /** R while held: reset the view. */
    method ResetView()
      modifies this`modes, this`cbData, this`debugCamera
      ensures State() == OnR(old(State()), startingCameraPosition)
      ensures cbData == old(cbData).(shading := cbData.shading)
    {
      var sh := cbData.shading.(waveFilter := 0, lightOn := 1, hasTexture := 1);
      var m := modes.(noCull := false, fill := true, slot := 0, rotate := false, text := true);
      var c := debugCamera.(position := startingCameraPosition, rotation := Origin);
      modes, cbData, debugCamera := m, cbData.(shading := sh), c;
    }

    /** The debug camera and indicators after the arrow keys. */
    method Turned(held: set<VKey>, dt: real) returns (c: Camera, k: Indicators)
      ensures Rig(c, k) == ArrowKeys(Rig(debugCamera, keys), held, dt)
    {
      c, k := debugCamera, keys;
      ghost var r0 := Rig(c, k);
      if UpArrow in held {
        k := k.(up := KeyDown);
        c := Turn(c, Vec3(-RotationSpeed * dt, 0.0, 0.0));
      }
      ghost var r1 := Rig(c, k);
      assert r1 == Spin(r0, UpArrow, held, Vec3(-RotationSpeed * dt, 0.0, 0.0));
      if DownArrow in held {
        k := k.(down := KeyDown);
        c := Turn(c, Vec3(RotationSpeed * dt, 0.0, 0.0));
      }
      ghost var r2 := Rig(c, k);
      assert r2 == Spin(r1, DownArrow, held, Vec3(RotationSpeed * dt, 0.0, 0.0));
      if LeftArrow in held {
        k := k.(left := KeyDown);
        c := Turn(c, Vec3(0.0, -RotationSpeed * dt, 0.0));
      }
      ghost var r3 := Rig(c, k);
      assert r3 == Spin(r2, LeftArrow, held, Vec3(0.0, -RotationSpeed * dt, 0.0));
      if RightArrow in held {
        k := k.(right := KeyDown);
        c := Turn(c, Vec3(0.0, RotationSpeed * dt, 0.0));
      }
      assert Rig(c, k) == Spin(r3, RightArrow, held, Vec3(0.0, RotationSpeed * dt, 0.0));
    }

    /** The arrow keys while held. */
    method TurnCamera(held: set<VKey>, dt: real)
      modifies this`debugCamera, this`keys
      ensures State() == TurnStep(old(State()), held, dt)
    {
      var c, k := Turned(held, dt);
      debugCamera, keys := c, k;
    }

    /** Mouse mode: turn with the mouse outside the dead zone, step along a
        pending wheel notch. */
    method MouseLook(dt: real) returns (effects: seq<Effect>)
      modifies this`debugCamera, this`mouse
      ensures Look(debugCamera, mouse, effects) == SceneLogic.MouseLook(old(debugCamera), old(mouse), dt, basis)
      ensures Step(State(), effects) == LookStep(old(State()), dt, basis)
    {
      var c, ms := debugCamera, mouse;
      effects := [];
      var dx := (ms.x - ms.lastX) as real * (MouseSensitivity * dt);
      var dy := (ms.y - ms.lastY) as real * (MouseSensitivity * dt);
      if Abs(ms.x - ms.lastX) > DeadZone || Abs(ms.y - ms.lastY) > DeadZone {
        c := Turn(c, Vec3(dy, dx, 0.0));
        ms := ms.(lastX := CentreX, lastY := CentreY);
        effects := [CursorCentred];
      }
      if ms.wheelUp {
        c := Offset(c, basis(Forward, c));
        ms := ms.(wheelUp := false);
      }
      if ms.wheelDown {
        c := Offset(c, basis(Back, c));
        ms := ms.(wheelDown := false);
      }
      debugCamera, mouse := c, ms;
    }

    /** The movement keys, then R while held. */
    method MoveAndReset(held: set<VKey>, dt: real)
      modifies this`debugCamera, this`keys, this`cbData, this`modes
      ensures cbData == old(cbData).(shading := cbData.shading)
      ensures State() == SceneLogic.MoveAndReset(old(State()), held, dt, startingCameraPosition, basis)
    {
      MoveCamera(held, dt);
      if KeyR in held {
        ResetView();
      }
    }

    /** The keyboard part of `HandleDebugMovement`. */
    method KeyboardMovement(input: FrameInput, dt: real)
      modifies this`debugCamera, this`keys, this`cbData, this`modes
      ensures cbData == old(cbData).(shading := cbData.shading)
      ensures State() == SceneLogic.KeyboardMovement(old(State()), input, dt, startingCameraPosition, basis)
    {
      MoveAndReset(input.held, dt);
      TurnCamera(input.held, dt);
      if F9 in input.pressed {
        modes := modes.(mouseMode := !modes.mouseMode);
      }
    }

    /** Free movement of the debug camera for one frame. */
    method HandleDebugMovement(input: FrameInput, dt: real) returns (effects: seq<Effect>)
      modifies this`debugCamera, this`keys, this`cbData, this`modes, this`mouse
      ensures Step(State(), effects) == DebugMovement(old(State()), input, dt, startingCameraPosition, basis)
      ensures cbData == old(cbData).(shading := cbData.shading)
    {
      KeyboardMovement(input, dt);
      effects := [];
      if modes.mouseMode {
        effects := MouseLook(dt);
      }
    }

    // -------------------------------------------------------------------
    // The menu branch of `Update`

    /** Left arrow in the menu. */
    method MenuLeft()
      modifies this`modes
      ensures State() == OnMenuLeft(old(State()))
    {
      var m := modes;
      if !m.start && !m.playVideo {
        m := m.(start := true);
      }
      if !m.start && m.playVideo {
        m := m.(playVideo := false);
      }
      modes := m;
    }

    /** Right arrow in the menu. */
    method MenuRight()
      modifies this`modes, this`keys
      ensures State() == OnMenuRight(old(State()))
    {
      var m := modes;
      if !m.start && !m.playVideo {
        m := m.(playVideo := true);
      }
      if m.start && !m.playVideo {
        keys := keys.(left := KeyDown);
        m := m.(start := false);
      }
      modes := m;
    }

    /** Enter in the menu. */
    method MenuEnter() returns (effects: seq<Effect>)
      modifies this`cbData, this`modes
      ensures Step(State(), effects) == OnMenuEnter(old(State()))
      ensures cbData == old(cbData).(shading := cbData.shading)
    {
      effects := [];
      if modes.start {
        cbData := cbData.(shading := cbData.shading.(waveFilter := 0, lightOn := 1, hasTexture := 1));
        modes := modes.(rotate := false, fill := true, text := true, mainMenu := false);
      } else if modes.playVideo {
        effects := [TutorialVideoStarted];
      } else {
        effects := [QuitPosted];
      }
    }

    /** Left and right move the selection, Enter confirms it, Escape quits. */
    method MainMenuControls(pressed: set<VKey>) returns (effects: seq<Effect>)
      modifies this`modes, this`keys, this`cbData
      ensures Step(State(), effects) == MenuFrame(old(State()), pressed)
      ensures cbData == old(cbData).(shading := cbData.shading)
    {
      effects := [];
      if LeftArrow in pressed {
        MenuLeft();
      }
      if RightArrow in pressed {
        MenuRight();
      }
      if Return in pressed {
        effects := MenuEnter();
      }
      if Escape in pressed {
        effects := effects + [QuitPosted];
      }
    }

    // -------------------------------------------------------------------
    // `Update`

    /** The menu object, the skybox and the terrain, moved every frame
        whatever the mode. */
    method AnimateBackdrop(dt: real)
      requires skybox != mainMenuObject
      modifies mainMenuObject`rotation, skybox`position, skybox`rotation, terrain`matrix
      ensures mainMenuObject.rotation == MenuRotation(angle)
      ensures skybox.position == debugCamera.position
      ensures skybox.rotation == Add(old(skybox.rotation), SkyboxTurn(dt))
      ensures terrain.matrix == Product([Translate(TerrainOffset)])
    {
      mainMenuObject.SetRotation(MenuRotation(angle));
      skybox.SetPosition(debugCamera.position);
      var r := skybox.rotation;
      skybox.SetRotation(Vec3(r.x + SkyboxSpin * dt, r.y + SkyboxSpin * dt, r.z + SkyboxSpin * dt));
      terrain.matrix := Product([Translate(TerrainOffset)]);
    }

    /** The frame timer: the seconds since the previous frame (none on the
        first) are added to the animation angle and the running time, and
        the angle is copied into the buffer's `count`. */
    method Tick(now: int) returns (dt: real)
      requires frameStart.Some? ==> frameStart.value <= now
      modifies this`frameStart, this`angle, this`timeRunning, this`cbData
      ensures dt == DeltaTime(old(frameStart), now)
      ensures frameStart == Some(now)
      ensures angle == old(angle) + dt && timeRunning == old(timeRunning) + dt
      ensures cbData == old(cbData).(count := angle)
    {
      dt := DeltaTime(frameStart, now);
      frameStart := Some(now);
      angle := angle + dt;
      timeRunning := timeRunning + dt;
      cbData := cbData.(count := angle);
    }

    /** The part of `Update` that runs whatever the mode: the timer, then
        the backdrop.  The scene state is left alone. */
    method Advance(now: int) returns (dt: real)
      requires frameStart.Some? ==> frameStart.value <= now
      requires skybox !in gameObjects && mainMenuObject !in gameObjects && skybox != mainMenuObject
      modifies this`frameStart, this`angle, this`timeRunning, this`cbData,
               mainMenuObject`rotation, skybox`position, skybox`rotation, terrain`matrix
      ensures dt == DeltaTime(old(frameStart), now)
      ensures frameStart == Some(now)
      ensures angle == old(angle) + dt && timeRunning == old(timeRunning) + dt
      ensures cbData == old(cbData).(count := angle)
      ensures State() == old(State())
      ensures mainMenuObject.rotation == MenuRotation(angle)
      ensures skybox.position == debugCamera.position
      ensures skybox.rotation == Add(old(skybox.rotation), SkyboxTurn(dt))
      ensures terrain.matrix == Product([Translate(TerrainOffset)])
      ensures Views(gameObjects) == old(Views(gameObjects))
    {
      dt := Tick(now);
      AnimateBackdrop(dt);
    }

    /** The toggles, then the world matrices and the object rotations with
        the rotation flag the toggles left. */
    method ToggleAndAnimate(pressed: set<VKey>)
      requires forall i, j :: 0 <= i < j < |gameObjects| ==> gameObjects[i] != gameObjects[j]
      modifies this`modes, this`cbData, this`debugCamera, this`world1, this`world2, this`world3, this`pyramid,
               set o | o in gameObjects
      ensures State() == SceneLogic.SceneKeys(old(State()), pressed, startingCameraPosition)
      ensures cbData == old(cbData).(shading := cbData.shading)
      ensures Worlds(world1, world2, world3, pyramid) == CubeWorlds(modes.rotate, angle)
      ensures Views(gameObjects) == Animate(old(Views(gameObjects)), angle, modes.rotate)
    {
      SceneKeys(pressed);
      SetWorlds();
      AnimateObjects();
    }

    /** Escape back to the menu, then the preset chain. */
    method EscapeAndPresets(input: FrameInput)
      modifies this`modes, this`cbData, this`debugCamera
      ensures State() == CameraChain(if Escape in input.pressed then OnEscape(old(State()), startingCameraPosition)
                                     else old(State()), input.held)
      ensures cbData == old(cbData).(shading := cbData.shading)
    {
      if Escape in input.pressed {
        ReturnToMenu();
      }
      SelectCamera(input.held);
    }

    /** The scene branch of `Update`: the toggles and the animation, then
        Escape, the preset chain and free movement. */
    method SceneUpdate(input: FrameInput, dt: real) returns (effects: seq<Effect>)
      requires forall i, j :: 0 <= i < j < |gameObjects| ==> gameObjects[i] != gameObjects[j]
      modifies this`modes, this`cbData, this`debugCamera, this`keys, this`mouse,
               this`world1, this`world2, this`world3, this`pyramid, set o | o in gameObjects
      ensures Step(State(), effects) == SceneFrame(old(State()), input, dt, startingCameraPosition, basis)
      ensures cbData == old(cbData).(shading := cbData.shading)
      ensures Worlds(world1, world2, world3, pyramid)
        == CubeWorlds(FrameRotate(old(State()), input.pressed, startingCameraPosition), angle)
      ensures Views(gameObjects)
        == Animate(old(Views(gameObjects)), angle, FrameRotate(old(State()), input.pressed, startingCameraPosition))
    {
      ToggleAndAnimate(input.pressed);
      effects := EscapeAndMove(input, dt);
    }

    /** The scene branch after the toggles and the animation: Escape, the
        preset chain, then free movement while the debug camera is
        active. */
    method EscapeAndMove(input: FrameInput, dt: real) returns (effects: seq<Effect>)
      modifies this`modes, this`cbData, this`debugCamera, this`keys, this`mouse
      ensures Step(State(), effects)
        == MoveIfActive(CameraChain(if Escape in input.pressed then OnEscape(old(State()), startingCameraPosition)
                                    else old(State()), input.held), input, dt, startingCameraPosition, basis)
      ensures cbData == old(cbData).(shading := cbData.shading)
    {
      EscapeAndPresets(input);
      effects := [];
      if modes.slot == 0 {
        effects := HandleDebugMovement(input, dt);
      }
    }

    /** `Update`: the timer and the backdrop every frame, then the scene
        branch or the menu branch.  Keyboard state arrives as `input`, the
        tick count as `now`; the calls into the system come back as
        `effects`. */
    method Update(now: int, input: FrameInput) returns (effects: seq<Effect>)
      requires Valid()
      requires frameStart.Some? ==> frameStart.value <= now
      modifies this`frameStart, this`angle, this`timeRunning, this`cbData, this`modes, this`debugCamera,
               this`keys, this`mouse, this`world1, this`world2, this`world3, this`pyramid,
               mainMenuObject`rotation, skybox`position, skybox`rotation, terrain`matrix, set o | o in gameObjects
      ensures Valid()
      ensures Step(State(), effects)
        == UpdateScene(old(State()), input, DeltaTime(old(frameStart), now), startingCameraPosition, basis)
      ensures frameStart == Some(now)
      ensures angle == old(angle) + DeltaTime(old(frameStart), now)
      ensures timeRunning == old(timeRunning) + DeltaTime(old(frameStart), now)
      ensures cbData == old(cbData).(count := angle, shading := cbData.shading)
      // the backdrop, placed before the input is handled
      ensures mainMenuObject.rotation == MenuRotation(angle)
      ensures skybox.position == old(debugCamera.position)
      ensures skybox.rotation == Add(old(skybox.rotation), SkyboxTurn(DeltaTime(old(frameStart), now)))
      ensures terrain.matrix == Product([Translate(TerrainOffset)])
      // the cubes and the scene objects are animated only in the scene
      ensures Worlds(world1, world2, world3, pyramid)
        == if old(modes.mainMenu) then old(Worlds(world1, world2, world3, pyramid))
           else CubeWorlds(FrameRotate(old(State()), input.pressed, startingCameraPosition), angle)
      ensures Views(gameObjects)
        == if old(modes.mainMenu) then old(Views(gameObjects))
           else Animate(old(Views(gameObjects)), angle, FrameRotate(old(State()), input.pressed, startingCameraPosition))
    {
      ghost var s0 := State();
      var dt := Advance(now);
      effects := Respond(input, dt);
      UpdateKeepsSteady(s0, input, dt, startingCameraPosition, basis);
    }

    /** The input half of `Update`: the scene branch or the menu branch. */
    method Respond(input: FrameInput, dt: real) returns (effects: seq<Effect>)
      requires forall i, j :: 0 <= i < j < |gameObjects| ==> gameObjects[i] != gameObjects[j]
      requires skybox !in gameObjects && mainMenuObject !in gameObjects
      modifies this`modes, this`cbData, this`debugCamera, this`keys, this`mouse,
               this`world1, this`world2, this`world3, this`pyramid, set o | o in gameObjects
      ensures Step(State(), effects)
        == UpdateScene(old(State()), input, dt, startingCameraPosition, basis)
      ensures cbData == old(cbData).(shading := cbData.shading)
      ensures Worlds(world1, world2, world3, pyramid)
        == if old(modes.mainMenu) then old(Worlds(world1, world2, world3, pyramid))
           else CubeWorlds(FrameRotate(old(State()), input.pressed, startingCameraPosition), angle)
      ensures Views(gameObjects)
        == if old(modes.mainMenu) then old(Views(gameObjects))
           else Animate(old(Views(gameObjects)), angle, FrameRotate(old(State()), input.pressed, startingCameraPosition))
      ensures mainMenuObject.rotation == old(mainMenuObject.rotation) && skybox.View() == old(skybox.View())
    {
      if !modes.mainMenu {
        effects := SceneUpdate(input, dt);
      } else {
        effects := MainMenuControls(input.pressed);
      }
    }

    // -------------------------------------------------------------------
    // `Draw`

    /** Everything one frame's commands are computed from, read before
        `Draw` starts: the payload the skybox is drawn with is the one after
        the eye and camera updates of `UpdatePipelineVariables`, the payload
        of the rest of the frame the one after `RenderSkybox` has moved the
        eye again with the debug camera the slot switch left. */
    ghost function Plan(): Frame
      requires |presets| == SlotCount - 1
      reads this, skybox, mainMenuObject, terrain, set o | o in gameObjects
    {
      var cam := ActiveCamera(modes.slot, debugCamera, presets, view, projection);
      var skyboxBuffer := cbData.(cameraPosition := ShaderEye(cbData.cameraPosition, debugCamera.position, startingCameraPosition),
                                  view := Transposed(cam.view), projection := Transposed(cam.projection));
      var buffer := skyboxBuffer.(cameraPosition := ShaderEye(skyboxBuffer.cameraPosition, cam.debug.position, startingCameraPosition));
      Frame(RasterizerFor(modes.fill, modes.noCull), skyboxTexture, skybox.View(), skyboxBuffer, buffer, modes.mainMenu,
            world1, world2, world3, pyramid, Views(gameObjects), terrain.matrix, |terrain.indices|,
            modes.text, modes.slot, mainMenuObject.View(), Highlight(State()))
    }

    /** `RenderTransparent` */
    method RenderTransparent()
      modifies ctx
      ensures ctx.commands == old(ctx.commands) + [SetBlend(Transparent)]
    {
      ctx.Emit(SetBlend(Transparent));
    }

    /** `RenderOpaque` */
    method RenderOpaque()
      modifies ctx
      ensures ctx.commands == old(ctx.commands) + [SetBlend(Opaque)]
    {
      ctx.Emit(SetBlend(Opaque));
    }

    /** The closing binds of `UpdatePipelineVariables` and `RenderSkybox`:
        the rasterizer the flags select, the scene shaders with their
        buffers, the opaque blend and the default depth state. */
    method RestorePipeline()
      modifies ctx
      ensures ctx.commands == old(ctx.commands) + RestoreCommands(RasterizerFor(modes.fill, modes.noCull))
    {
      var r;
      if modes.fill {
        r := SolidFill;
      } else if !modes.noCull {
        r := Wireframe;
      } else {
        r := NoCulling;
      }
      ctx.Emit(SetRasterizer(r));
      ctx.Emit(UseShaders(SceneShaders));
      RenderOpaque();
      ctx.Emit(SetDepth(DefaultDepth));
    }

    /** `UpdatePipelineVariables`: clear the targets, move the shader eye,
        switch to the active camera (copying a preset's placement into the
        debug camera), upload its transposed matrices into the payload and
        restore the scene pipeline. */
    method UpdatePipelineVariables()
      requires |presets| == SlotCount - 1
      modifies ctx, this`cbData, this`debugCamera, this`view, this`projection
      ensures var cam := ActiveCamera(modes.slot, old(debugCamera), presets, old(view), old(projection));
              debugCamera == cam.debug && view == cam.view && projection == cam.projection &&
              cbData == old(cbData).(cameraPosition := ShaderEye(old(cbData.cameraPosition), old(debugCamera.position), startingCameraPosition),
                                     view := Transposed(cam.view), projection := Transposed(cam.projection))
      ensures ctx.commands == old(ctx.commands) + SetupCommands(RasterizerFor(modes.fill, modes.noCull))
    {
      ctx.Emit(ClearTargets);
      var eye := ShaderEye(cbData.cameraPosition, debugCamera.position, startingCameraPosition);
      var cam := ActiveCamera(modes.slot, debugCamera, presets, view, projection);
      debugCamera, view, projection := cam.debug, cam.view, cam.projection;
      cbData := cbData.(cameraPosition := eye, view := Transposed(view), projection := Transposed(projection));
      RestorePipeline();
    }

    /** `RenderSkybox`: the skybox is drawn with the skybox shaders, the
        less-equal depth test and its cube texture, with the payload as it
        stands; then the eye follows the debug camera again, the view and
        projection are reassigned in the payload (uploaded only by the next
        draw) and the scene pipeline restored. */
    method RenderSkybox()
      modifies ctx, this`cbData, skybox`worldMatrix
      ensures ctx.commands
        == old(ctx.commands) + SkyboxCommands(skyboxTexture, skybox.View(), old(cbData), RasterizerFor(modes.fill, modes.noCull))
      ensures cbData == old(cbData).(cameraPosition := ShaderEye(old(cbData.cameraPosition), debugCamera.position, startingCameraPosition),
                                     view := Transposed(view), projection := Transposed(projection))
      ensures skybox.worldMatrix == DrawWorld(skybox.position, skybox.rotation, skybox.scale)
    {
      ctx.Emit(UseShaders(SkyboxShaders));
      ctx.Emit(SetDepth(SkyboxLessEqual));
      ctx.Emit(BindTexture(skyboxTexture));
      skybox.Draw(cbData, ctx);
      var eye := ShaderEye(cbData.cameraPosition, debugCamera.position, startingCameraPosition);
      cbData := cbData.(cameraPosition := eye, view := Transposed(view), projection := Transposed(projection));
      RestorePipeline();
    }

    /** One of the primitive draws: overwrite the payload's world matrix,
        upload the payload and draw `indexCount` indices. */
    method DrawWithWorld(world: Matrix, what: Drawable, indexCount: int)
      modifies ctx, this`cbData
      ensures ctx.commands == old(ctx.commands) + [Upload(old(cbData).(world := Transposed(world))), DrawIndexed(what, indexCount)]
      ensures cbData == old(cbData).(world := Transposed(world))
    {
      cbData := cbData.(world := Transposed(world));
      ctx.Emit(Upload(cbData));
      ctx.Emit(DrawIndexed(what, indexCount));
    }

    /** The three cubes (36 indices each) and the pyramid (18). */
    method DrawPrimitives()
      modifies ctx, this`cbData
      ensures ctx.commands == old(ctx.commands) + PrimitiveCommands(old(cbData), world1, world2, world3, pyramid)
      ensures cbData == old(cbData).(world := Transposed(pyramid))
    {
      ghost var before := ctx.commands;
      var cb := cbData;
      DrawWithWorld(world1, Cube(1), 36);
      DrawWithWorld(world2, Cube(2), 36);
      DrawWithWorld(world3, Cube(3), 36);
      DrawWithWorld(pyramid, Pyramid, 18);
      PrimitivesSplit(before, cb, world1, world2, world3, pyramid);
    }

    /** One pass of the game-object loop: an object named "Glass" is drawn
        between the transparency blend and the opaque one. */
    method DrawObject(o: GameObject, cb: ConstantBuffer)
      modifies ctx, o`worldMatrix
      ensures ctx.commands == old(ctx.commands) + ObjectPass(o.View(), cb)
      ensures o.worldMatrix == DrawWorld(o.position, o.rotation, o.scale)
    {
      if o.name == GlassName {
        RenderTransparent();
        o.Draw(cb, ctx);
        RenderOpaque();
      } else {
        o.Draw(cb, ctx);
      }
    }

    /** The game-object loop of `Draw`: every object in vector order, with
        the payload as it stands. */
    method DrawGameObjects()
      modifies ctx, set o | o in gameObjects
      ensures ctx.commands == old(ctx.commands) + ObjectsPass(old(Views(gameObjects)), cbData)
      ensures Views(gameObjects) == old(Views(gameObjects))
      ensures WorldsCurrent(gameObjects)
    {
      ghost var vs := Views(gameObjects);
      ghost var before := ctx.commands;
      var cb := cbData;
      var i := 0;
      while i < |gameObjects|
        invariant 0 <= i <= |gameObjects|
        invariant forall k :: 0 <= k < |gameObjects| ==> gameObjects[k].View() == vs[k]
        invariant ctx.commands == before + ObjectsPass(vs[..i], cb)
        invariant forall k :: 0 <= k < i ==>
          gameObjects[k].worldMatrix == DrawWorld(gameObjects[k].position, gameObjects[k].rotation, gameObjects[k].scale)
      {
        DrawPass(gameObjects[i], i, vs, before, cb);
        i := i + 1;
      }
      assert vs[..i] == vs;
    }

    /** One iteration of the game-object loop: the transforms stay as they
        were, the commands grow by the object's pass, and one more object
        has its world matrix recomputed. */
    method DrawPass(o: GameObject, i: nat, ghost vs: seq<ObjectView>, ghost before: seq<Command>, cb: ConstantBuffer)
      requires i < |gameObjects| == |vs| && o == gameObjects[i]
      requires forall k :: 0 <= k < |gameObjects| ==> gameObjects[k].View() == vs[k]
      requires ctx.commands == before + ObjectsPass(vs[..i], cb)
      requires forall k :: 0 <= k < i ==>
        gameObjects[k].worldMatrix == DrawWorld(gameObjects[k].position, gameObjects[k].rotation, gameObjects[k].scale)
      modifies ctx, o`worldMatrix
      ensures forall k :: 0 <= k < |gameObjects| ==> gameObjects[k].View() == vs[k]
      ensures ctx.commands == before + ObjectsPass(vs[..i + 1], cb)
      ensures forall k :: 0 <= k < i + 1 ==>
        gameObjects[k].worldMatrix == DrawWorld(gameObjects[k].position, gameObjects[k].rotation, gameObjects[k].scale)
    {
      DrawObject(o, cb);
      forall k | 0 <= k < |gameObjects|
        ensures gameObjects[k].View() == vs[k]
      {
        assert gameObjects[k].View() == old(gameObjects[k].View());
      }
      // an object listed twice is drawn again from the same transform
      forall k | 0 <= k < i + 1
        ensures gameObjects[k].worldMatrix == DrawWorld(gameObjects[k].position, gameObjects[k].rotation, gameObjects[k].scale)
      {
        if gameObjects[k] == o {
          assert o.worldMatrix == DrawWorld(o.position, o.rotation, o.scale);
        } else {
          assert gameObjects[k].worldMatrix == old(gameObjects[k].worldMatrix);
        }
      }
      ObjectsPassGrows(before, vs, i, cb);
    }

    /** `RenderTerrain`: upload the terrain matrix, switch to the heightmap
        shaders and draw every index of the grid. */
    method RenderTerrain()
      modifies ctx, this`cbData
      ensures ctx.commands == old(ctx.commands) + TerrainCommands(old(cbData), terrain.matrix, |terrain.indices|)
      ensures cbData == old(cbData).(world := Transposed(terrain.matrix))
    {
      cbData := cbData.(world := Transposed(terrain.matrix));
      ctx.Emit(Upload(cbData));
      ctx.Emit(UseShaders(HeightmapShaders));
      ctx.Emit(DrawIndexed(TerrainGrid, |terrain.indices|));
    }

    /** `DrawUI`: with text rendering on, the HUD (with the key indicators
        only for the debug camera) and then every indicator back to up;
        with it off, nothing. */
    method DrawUI()
      modifies ctx, this`keys
      ensures ctx.commands == old(ctx.commands) + OverlayCommands(modes.text, modes.slot)
      ensures keys == if modes.text then AllUp else old(keys)
    {
      if modes.text {
        ctx.Emit(DrawOverlay(modes.slot == 0));
        keys := AllUp;
      }
    }

    /** `DrawMainMenu`: the entry the flags select is drawn highlighted. */
    method DrawMainMenu()
      modifies ctx
      ensures ctx.commands == old(ctx.commands) + [DrawMenu(Highlight(State()))]
    {
      var item;
      if modes.playVideo {
        item := PlayVideoItem;
      } else if modes.start {
        item := StartItem;
      } else {
        item := ExitItem;
      }
      ctx.Emit(DrawMenu(item));
    }

    /** The state the branch of `Draw` starts in agrees with what the
        frame `f` records for the branch. */
    ghost predicate BranchReady(f: Frame)
      reads this`modes, this`cbData, this`debugCamera, this`keys, this`mouse,
            this`world1, this`world2, this`world3, this`pyramid,
            mainMenuObject, terrain`matrix, terrain`indices, set o | o in gameObjects
    {
      f.mainMenu == modes.mainMenu && f.buffer == cbData &&
      f.world1 == world1 && f.world2 == world2 && f.world3 == world3 && f.pyramid == pyramid &&
      f.objects == Views(gameObjects) && f.terrain == terrain.matrix && f.terrainIndexCount == |terrain.indices| &&
      f.text == modes.text && f.slot == modes.slot &&
      f.menuObject == mainMenuObject.View() && f.item == Highlight(State())
    }

    /** The scene branch of `Draw`: the primitives, the game objects, the
        terrain and the HUD, all with the payload as it stands. */
    method DrawScene()
      modifies ctx, this`cbData, this`keys, set o | o in gameObjects
      ensures ctx.commands == old(ctx.commands)
        + PrimitiveCommands(old(cbData), world1, world2, world3, pyramid)
        + ObjectsPass(old(Views(gameObjects)), old(cbData).(world := Transposed(pyramid)))
        + TerrainCommands(old(cbData), terrain.matrix, |terrain.indices|)
        + OverlayCommands(modes.text, modes.slot)
      ensures keys == if modes.text then AllUp else old(keys)
      ensures cbData.shading == old(cbData.shading)
      ensures Views(gameObjects) == old(Views(gameObjects))
      ensures WorldsCurrent(gameObjects)
    {
      var cb := cbData;
      DrawPrimitives();
      DrawGameObjects();
      DrawTerrainAndHud();
      TerrainIgnoresWorld(cb, Transposed(pyramid), terrain.matrix, |terrain.indices|);
    }

    /** The end of the scene branch: the terrain, then the HUD. */
    method DrawTerrainAndHud()
      modifies ctx, this`cbData, this`keys
      ensures ctx.commands == old(ctx.commands)
        + TerrainCommands(old(cbData), terrain.matrix, |terrain.indices|)
        + OverlayCommands(modes.text, modes.slot)
      ensures keys == if modes.text then AllUp else old(keys)
      ensures cbData.shading == old(cbData.shading)
    {
      RenderTerrain();
      DrawUI();
    }

    /** The menu branch of `Draw`: the menu object under the transparency
        blend, then the menu entries. */
    method DrawMenuScreen(ghost f: Frame)
      requires BranchReady(f)
      requires mainMenuObject !in gameObjects
      modifies ctx, mainMenuObject`worldMatrix
      ensures ctx.commands == old(ctx.commands) + MenuCommands(f.menuObject, f.buffer, f.item)
      ensures mainMenuObject.worldMatrix == DrawWorld(mainMenuObject.position, mainMenuObject.rotation, mainMenuObject.scale)
    {
      RenderTransparent();
      mainMenuObject.Draw(cbData, ctx);
      RenderOpaque();
      DrawMainMenu();
    }

    /** The part of `Draw` before the branch: `UpdatePipelineVariables`,
        then `RenderSkybox`. */
    method DrawPrelude(ghost f: Frame)
      requires |presets| == SlotCount - 1 && f == Plan()
      requires skybox !in gameObjects && skybox != mainMenuObject
      modifies ctx, this`cbData, this`debugCamera, this`view, this`projection, skybox`worldMatrix
      ensures ctx.commands == old(ctx.commands) + SetupCommands(f.rasterizer)
                + SkyboxCommands(f.skyboxTexture, f.skybox, f.skyboxBuffer, f.rasterizer)
      ensures BranchReady(f)
      ensures debugCamera == ActiveCamera(modes.slot, old(debugCamera), presets, old(view), old(projection)).debug
      ensures cbData.shading == old(cbData.shading)
      ensures skybox.worldMatrix == DrawWorld(skybox.position, skybox.rotation, skybox.scale)
    {
      UpdatePipelineVariables();
      RenderSkybox();
    }

    /** `Draw`: one frame's commands, from clearing the targets to the
        present, are those `FrameTrace` computes from the state the frame
        starts in.  Drawing leaves the input state alone except that the
        debug camera takes the active preset's placement and, when the HUD
        was drawn, every key indicator is back to up. */
    method Draw()
      requires |presets| == SlotCount - 1
      requires skybox !in gameObjects && mainMenuObject !in gameObjects && skybox != mainMenuObject
      modifies ctx, this`cbData, this`debugCamera, this`view, this`projection, this`keys,
               skybox`worldMatrix, mainMenuObject`worldMatrix, set o | o in gameObjects
      ensures ctx.commands == old(ctx.commands) + FrameTrace(old(Plan()))
      ensures debugCamera == ActiveCamera(modes.slot, old(debugCamera), presets, old(view), old(projection)).debug
      ensures keys == if !modes.mainMenu && modes.text then AllUp else old(keys)
      ensures cbData.shading == old(cbData.shading)
      // no object moves; the world matrices of the objects drawn are recomputed
      ensures Views(gameObjects) == old(Views(gameObjects))
      ensures skybox.View() == old(skybox.View()) && mainMenuObject.View() == old(mainMenuObject.View())
      ensures skybox.worldMatrix == DrawWorld(skybox.position, skybox.rotation, skybox.scale)
      ensures if modes.mainMenu then
                mainMenuObject.worldMatrix == DrawWorld(mainMenuObject.position, mainMenuObject.rotation, mainMenuObject.scale) &&
                forall k :: 0 <= k < |gameObjects| ==> gameObjects[k].worldMatrix == old(gameObjects[k].worldMatrix)
              else WorldsCurrent(gameObjects)
    {
      ghost var f := Plan();
      ghost var before := ctx.commands;
      DrawPrelude(f);
      DrawBranch(f);
      ctx.Emit(Present);
      TraceSplits(before, f);
    }

    /** The branch of `Draw` the menu flag selects. */
    method DrawBranch(ghost f: Frame)
      requires BranchReady(f)
      requires mainMenuObject !in gameObjects
      modifies ctx, this`cbData, this`keys, mainMenuObject`worldMatrix, set o | o in gameObjects
      ensures ctx.commands == old(ctx.commands) + BranchCommands(f)
      ensures keys == if !modes.mainMenu && modes.text then AllUp else old(keys)
      ensures cbData.shading == old(cbData.shading)
      ensures Views(gameObjects) == old(Views(gameObjects))
      ensures if modes.mainMenu then
                mainMenuObject.worldMatrix == DrawWorld(mainMenuObject.position, mainMenuObject.rotation, mainMenuObject.scale) &&
                forall k :: 0 <= k < |gameObjects| ==> gameObjects[k].worldMatrix == old(gameObjects[k].worldMatrix)
              else WorldsCurrent(gameObjects)
    {
      if !modes.mainMenu {
        ghost var before := ctx.commands;
        DrawScene();
        SceneSplits(before, f);
      } else {
        DrawMenuScreen(f);
      }
    }
  }
}
