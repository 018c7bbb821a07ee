/** The per-frame input handling of the framework as functions on a value:
    the mode flags, the shading flags of the constant buffer, the active
    camera slot, the debug camera, the key indicators and the mouse globals.

    Keys are read through `GetAsyncKeyState`: a key tested with `& 0x0001`
    (the "pressed since the last query" bit) is in `pressed`, a key tested
    with `& 0xFFFF` (any bit, so also "held down") is in `held`. */
module SceneLogic {
  import opened Structures
  import opened Pipeline

  /** `m_cameraSpeed`, `m_rotationSpeed`, `m_deadZone` */
  const CameraSpeed := 20.0
  const RotationSpeed := 1.0
  const DeadZone := 50

  /** Where mouse look puts the cursor back: the centre of 1920 x 1080. */
  const CentreX := 960
  const CentreY := 540

  /** Mouse-look degrees per pixel per second. */
  const MouseSensitivity := 0.1

  /** The ten camera slots: 0 is the free debug camera, 1-9 the presets. */
  const SlotCount := 10

  datatype VKey =
    | F1 | F2 | F3 | F4 | F5 | F6 | F7 | F8 | F9 | F11
    | Tab | Escape | Return
    | LeftArrow | RightArrow | UpArrow | DownArrow
    | KeyW | KeyA | KeyS | KeyD | KeyQ | KeyE | KeyR
    | Numpad(digit: nat)

  datatype FrameInput = FrameInput(pressed: set<VKey>, held: set<VKey>)

  /** The mouse globals written by the window procedure and mouse look. */
  datatype Mouse = Mouse(x: int, y: int, lastX: int, lastY: int, wheelUp: bool, wheelDown: bool)

  /** Requests a frame makes of the operating system. */
  datatype Effect = QuitPosted | TutorialVideoStarted | CursorCentred

  datatype Scene = Scene(
    fill: bool, noCull: bool, rotate: bool, text: bool,
    mainMenu: bool, start: bool, playVideo: bool, mouseMode: bool,
    slot: int, shading: Shading, camera: Camera, keys: Indicators, mouse: Mouse)

  datatype Step = Step(scene: Scene, effects: seq<Effect>)

  /** The four directions the debug camera can move in. */
  datatype Heading = Forward | Back | Leftward | Rightward

  /** A camera's direction vectors (the camera class is not part of this
      model, so they are a parameter). */
  type Basis = (Heading, Camera) -> Vec3

  /** Solid fill and disabled back-face culling are never on together. */
  predicate Exclusive(s: Scene)
  {
    !(s.fill && s.noCull)
  }

  /** At most one of the two non-exit menu entries is selected. */
  predicate MenuExclusive(s: Scene)
  {
    !(s.start && s.playVideo)
  }

  predicate SlotInRange(s: Scene)
  {
    0 <= s.slot < SlotCount
  }

  /** The invariants every frame keeps: a valid camera slot, at most one
      menu entry selected, 0/1 shading flags and at most one pending wheel
      notch. */
  predicate Steady(s: Scene)
  {
    SlotInRange(s) && MenuExclusive(s) && Binary(s.shading) &&
    !(s.mouse.wheelUp && s.mouse.wheelDown)
  }

  /** `Steady`, and solid fill and no-cull not both on. */
  predicate Consistent(s: Scene)
  {
    Steady(s) && Exclusive(s)
  }

  /** The state the header initialisers and start-up code establish. */
  function Initial(camera: Camera, mouse: Mouse): (s: Scene)
    requires !(mouse.wheelUp && mouse.wheelDown)
    ensures Consistent(s)
    ensures s.mainMenu && s.start && !s.playVideo && s.slot == 0
    ensures s.shading.lightOn == 1 && s.shading.hasTexture == 1
  {
    Scene(true, false, false, true, true, true, false, false, 0,
          Shading(1, 0, 1, 0, 0, 0), camera, AllUp, mouse)
  }

  /** The shading a full reset restores: lit, textured, no filter. */
  const DefaultShading := Shading(1, 0, 1, 0, 0, 0)

  function ResetCamera(c: Camera, start: Vec3): (r: Camera)
    ensures r.position == start && r.rotation == Origin && r.projection == c.projection
  {
    c.(position := start, rotation := Origin)
  }

  // ---------------------------------------------------------------------
  // Scene keys

  /** A 0/1 flag flipped; any other value is left as it is. */
  function Toggle01(v: u32): (r: u32)
    ensures v == 0 ==> r == 1
    ensures v == 1 ==> r == 0
    ensures v > 1 ==> r == v
  {
    if v == 1 then 0 else if v == 0 then 1 else v
  }

  lemma Toggle01Involutive(v: u32)
    ensures Toggle01(Toggle01(v)) == v
  {
  }

  /** F3: toggle solid fill; turning it on also turns no-cull off. */
  function OnF3(s: Scene): (r: Scene)
    ensures r.fill == !s.fill
    ensures r.noCull == (s.noCull && s.fill)
    ensures Exclusive(r)
    ensures r == s.(fill := r.fill, noCull := r.noCull)
  {
    if s.fill then s.(fill := false) else s.(fill := true, noCull := false)
  }

  /** F6: toggle no-cull; turning it on also turns solid fill off. */
  function OnF6(s: Scene): (r: Scene)
    ensures r.noCull == !s.noCull
    ensures r.fill == (s.fill && s.noCull)
    ensures Exclusive(r)
    ensures r == s.(fill := r.fill, noCull := r.noCull)
  {
    if s.noCull then s.(noCull := false) else s.(noCull := true, fill := false)
  }

  /** F11: Gooch shading on turns lighting and texturing off, and off turns
      them back on; a value other than 0 or 1 disables the key. */
  function OnF11(m: Shading): (r: Shading)
    ensures m.goochShading == 1 ==> r == m.(goochShading := 0, lightOn := 1, hasTexture := 1)
    ensures m.goochShading == 0 ==> r == m.(goochShading := 1, lightOn := 0, hasTexture := 0)
    ensures m.goochShading > 1 ==> r == m
    ensures r.lightOn == m.lightOn || r.lightOn == 1 - r.goochShading
  {
    if m.goochShading == 1 then m.(goochShading := 0, lightOn := 1, hasTexture := 1)
    else if m.goochShading == 0 then m.(goochShading := 1, lightOn := 0, hasTexture := 0)
    else m
  }

  /** F1: texturing off when it was exactly 1, otherwise on. */
  function OnF1(m: Shading): (r: Shading)
    ensures r.hasTexture <= 1
    ensures r.hasTexture == 0 <==> m.hasTexture == 1
    ensures r == m.(hasTexture := r.hasTexture)
  {
    if m.hasTexture == 1 then m.(hasTexture := 0) else m.(hasTexture := 1)
  }

  /** F4: toggle rotation and put the debug camera back at its start, with
      solid fill on and no-cull off. */
  function OnF4(s: Scene, start: Vec3): (r: Scene)
    ensures r.rotate == !s.rotate
    ensures r.fill && !r.noCull
    ensures r.camera == ResetCamera(s.camera, start)
    ensures r == s.(rotate := r.rotate, fill := true, noCull := false, camera := r.camera)
  {
    if s.rotate then
      s.(noCull := false, fill := true, rotate := false, camera := ResetCamera(s.camera, start))
    else
      s.(noCull := false, fill := true, rotate := true, camera := ResetCamera(s.camera, start))
  }

  /** The filter keys F7 (wave), F8 (wave along X) and Tab (pixelate). */
  function FilterKeys(m: Shading, pressed: set<VKey>): (r: Shading)
    ensures r.waveFilter == (if F7 in pressed then Toggle01(m.waveFilter) else m.waveFilter)
    ensures r.waveFilterX == (if F8 in pressed then Toggle01(m.waveFilterX) else m.waveFilterX)
    ensures r.pixelateFilter == (if Tab in pressed then Toggle01(m.pixelateFilter) else m.pixelateFilter)
    ensures r == m.(waveFilter := r.waveFilter, waveFilterX := r.waveFilterX, pixelateFilter := r.pixelateFilter)
  {
    var m1 := if F7 in pressed then m.(waveFilter := Toggle01(m.waveFilter)) else m;
    var m2 := if F8 in pressed then m1.(waveFilterX := Toggle01(m1.waveFilterX)) else m1;
    if Tab in pressed then m2.(pixelateFilter := Toggle01(m2.pixelateFilter)) else m2
  }

  /** The lighting keys F11 (Gooch), F2 (lighting) and F1 (texturing). */
  function LightingKeys(m: Shading, pressed: set<VKey>): (r: Shading)
    ensures Binary(m) ==> Binary(r)
    ensures r.goochShading == (if F11 in pressed then OnF11(m).goochShading else m.goochShading)
    ensures F11 !in pressed && F2 !in pressed && F1 !in pressed ==> r == m
    ensures r == m.(goochShading := r.goochShading, lightOn := r.lightOn, hasTexture := r.hasTexture)
  {
    var m1 := if F11 in pressed then OnF11(m) else m;
    var m2 := if F2 in pressed then m1.(lightOn := Toggle01(m1.lightOn)) else m1;
    if F1 in pressed then OnF1(m2) else m2
  }

  /** All shading keys, in the order `Update` tests them. */
  function ShadingKeys(m: Shading, pressed: set<VKey>): (r: Shading)
    ensures Binary(m) ==> Binary(r)
  {
    LightingKeys(FilterKeys(m, pressed), pressed)
  }

  /** The raster-state keys F3 and F6. */
  function RasterKeys(s: Scene, pressed: set<VKey>): (r: Scene)
    ensures Exclusive(s) ==> Exclusive(r)
    ensures F3 in pressed || F6 in pressed ==> Exclusive(r)
    ensures r == s.(fill := r.fill, noCull := r.noCull)
  {
    var s1 := if F3 in pressed then OnF3(s) else s;
    if F6 in pressed then OnF6(s1) else s1
  }

  /** F5 (text) and then F4 (rotation). */
  function DisplayKeys(s: Scene, pressed: set<VKey>, start: Vec3): (r: Scene)
    ensures Exclusive(s) ==> Exclusive(r)
    ensures r.text == (if F5 in pressed then !s.text else s.text)
    ensures r.rotate == (if F4 in pressed then !s.rotate else s.rotate)
    ensures F4 !in pressed ==> r.camera == s.camera
    ensures r == s.(text := r.text, rotate := r.rotate, fill := r.fill, noCull := r.noCull, camera := r.camera)
  {
    var s1 := if F5 in pressed then s.(text := !s.text) else s;
    if F4 in pressed then OnF4(s1, start) else s1
  }

  /** The edge-triggered scene keys, in the order `Update` tests them. */
  function SceneKeys(s: Scene, pressed: set<VKey>, start: Vec3): (r: Scene)
    ensures Exclusive(s) ==> Exclusive(r)
    ensures Binary(s.shading) ==> Binary(r.shading)
    ensures r.shading == ShadingKeys(s.shading, pressed)
    ensures r.mainMenu == s.mainMenu && r.start == s.start && r.playVideo == s.playVideo
    ensures r.slot == s.slot && r.keys == s.keys && r.mouse == s.mouse && r.mouseMode == s.mouseMode
    ensures r.text == (if F5 in pressed then !s.text else s.text)
    ensures r.rotate == (if F4 in pressed then !s.rotate else s.rotate)
    ensures F4 !in pressed ==> r.camera == s.camera
  {
    var s1 := RasterKeys(s, pressed);
    DisplayKeys(s1.(shading := ShadingKeys(s1.shading, pressed)), pressed, start)
  }

  /** Escape: back to the main menu with everything reset. */
  function OnEscape(s: Scene, start: Vec3): (r: Scene)
    ensures r.mainMenu && r.slot == 0
    ensures r.fill && !r.noCull && !r.rotate && r.text
    ensures r.shading == DefaultShading
    ensures r.camera == ResetCamera(s.camera, start)
    ensures r.start == s.start && r.playVideo == s.playVideo && r.mouseMode == s.mouseMode
    ensures r.keys == s.keys && r.mouse == s.mouse
  {
    s.(mainMenu := true, camera := ResetCamera(s.camera, start),
       shading := s.shading.(pixelateFilter := 0, goochShading := 0, waveFilterX := 0, waveFilter := 0, lightOn := 1, hasTexture := 1),
       noCull := false, fill := true, slot := 0, rotate := false, text := true)
  }

  // ---------------------------------------------------------------------
  // Camera presets

  /** The numpad key that selects `slot`: slots 2 and 3 are on keys 3 and 2. */
  function PresetKey(slot: nat): VKey
  {
    if slot == 2 then Numpad(3) else if slot == 3 then Numpad(2) else Numpad(slot)
  }

  /** The held-key chain: the first preset key found held, tested in the
      order 0, 1, 3, 2, 4, 5, 6, 7, 8, 9, decides the slot. */
  function SelectedSlot(held: set<VKey>): (r: Option<nat>)
    ensures r.Some? ==> r.value < SlotCount && PresetKey(r.value) in held
    ensures r.Some? ==> forall n :: 0 <= n < r.value ==> PresetKey(n) !in held
    ensures r.None? <==> forall n :: 0 <= n < SlotCount ==> PresetKey(n) !in held
  {
    if Numpad(0) in held then Some(0)
    else if Numpad(1) in held then Some(1)
    else if Numpad(3) in held then Some(2)
    else if Numpad(2) in held then Some(3)
    else if Numpad(4) in held then Some(4)
    else if Numpad(5) in held then Some(5)
    else if Numpad(6) in held then Some(6)
    else if Numpad(7) in held then Some(7)
    else if Numpad(8) in held then Some(8)
    else if Numpad(9) in held then Some(9)
    else None
  }

  /** What a preset sets besides the slot. */
  datatype Bundle = Bundle(fill: bool, noCull: bool, waveFilter: u32, waveFilterX: u32, gooch: u32, pixelate: u32)

  /** The preset table: fill or no-cull and one filter per slot. */
  function PresetBundle(slot: nat): Bundle
    requires 1 <= slot < SlotCount
  {
    match slot
    case 1 => Bundle(true, false, 0, 0, 0, 0)
    case 2 => Bundle(false, true, 1, 0, 0, 0)
    case 3 => Bundle(true, false, 0, 1, 0, 0)
    case 4 => Bundle(false, true, 0, 0, 1, 0)
    case 5 => Bundle(true, false, 0, 0, 0, 0)
    case 6 => Bundle(false, true, 0, 0, 0, 0)
    case 7 => Bundle(true, false, 0, 0, 0, 0)
    case 8 => Bundle(true, false, 0, 0, 0, 1)
    case 9 => Bundle(false, false, 0, 0, 0, 0)
  }

  /** Every preset turns at most one of fill and no-cull on and sets 0/1
      filter flags. */
  lemma PresetBundleSound(n: nat)
    requires 1 <= n < SlotCount
    ensures var b := PresetBundle(n);
            !(b.fill && b.noCull) && b.waveFilter <= 1 && b.waveFilterX <= 1 && b.gooch <= 1 && b.pixelate <= 1
  {
  }

  /** One branch of the preset chain: slot 0 only selects the debug
      camera; slots 1-9 also set their raster flags and filter flags from
      the preset table, leaving lighting and texturing alone. */
  function ApplyPreset(s: Scene, n: nat): (r: Scene)
    requires n < SlotCount
    ensures r.slot == n
    ensures r == s.(slot := n, fill := r.fill, noCull := r.noCull, shading := r.shading)
    ensures r.shading.lightOn == s.shading.lightOn && r.shading.hasTexture == s.shading.hasTexture
  {
    if n == 0 then s.(slot := 0)
    else
      var b := PresetBundle(n);
      s.(slot := n, fill := b.fill, noCull := b.noCull,
         shading := s.shading.(waveFilter := b.waveFilter, waveFilterX := b.waveFilterX,
                               goochShading := b.gooch, pixelateFilter := b.pixelate))
  }

  /** The whole chain: no preset key held leaves the scene alone. */
  function CameraChain(s: Scene, held: set<VKey>): (r: Scene)
    ensures SelectedSlot(held).None? ==> r == s
    ensures SelectedSlot(held).Some? ==> r == ApplyPreset(s, SelectedSlot(held).value)
    ensures r == s.(slot := r.slot, fill := r.fill, noCull := r.noCull, shading := r.shading)
  {
    match SelectedSlot(held)
    case None => s
    case Some(n) => ApplyPreset(s, n)
  }

  // ---------------------------------------------------------------------
  // Debug camera movement (slot 0 only)

  /** The keys that have an on-screen indicator. */
  const IndicatorKeys := {KeyW, KeyA, KeyS, KeyD, KeyQ, KeyE, UpArrow, LeftArrow, DownArrow, RightArrow}
  const PlanarKeySet := {KeyW, KeyS, KeyA, KeyD}
  const VerticalKeySet := {KeyQ, KeyE}
  const MoveKeySet := PlanarKeySet + VerticalKeySet
  const ArrowKeySet := {UpArrow, DownArrow, LeftArrow, RightArrow}

  /** The indicator of `key` shows it pressed. */
  predicate Lit(k: Indicators, key: VKey)
  {
    match key
    case KeyW => k.w == KeyDown
    case KeyA => k.a == KeyDown
    case KeyS => k.s == KeyDown
    case KeyD => k.d == KeyDown
    case KeyQ => k.q == KeyDown
    case KeyE => k.e == KeyDown
    case UpArrow => k.up == KeyDown
    case LeftArrow => k.left == KeyDown
    case DownArrow => k.down == KeyDown
    case RightArrow => k.right == KeyDown
    case _ => false
  }

  /** The movement indicators are what `Lit` says about them. */
  lemma MoveLitDetermines(k1: Indicators, k2: Indicators)
    requires forall key :: Lit(k1, key) <==> Lit(k2, key)
    ensures k1.w == k2.w && k1.a == k2.a && k1.s == k2.s && k1.d == k2.d && k1.q == k2.q && k1.e == k2.e
  {
    assert Lit(k1, KeyW) == Lit(k2, KeyW);
    assert Lit(k1, KeyA) == Lit(k2, KeyA);
    assert Lit(k1, KeyS) == Lit(k2, KeyS);
    assert Lit(k1, KeyD) == Lit(k2, KeyD);
    assert Lit(k1, KeyQ) == Lit(k2, KeyQ);
    assert Lit(k1, KeyE) == Lit(k2, KeyE);
  }

  /** The indicators are exactly what `Lit` says about them. */
  lemma LitDetermines(k1: Indicators, k2: Indicators)
    requires forall key :: Lit(k1, key) <==> Lit(k2, key)
    ensures k1 == k2
  {
    MoveLitDetermines(k1, k2);
    assert Lit(k1, UpArrow) == Lit(k2, UpArrow);
    assert Lit(k1, LeftArrow) == Lit(k2, LeftArrow);
    assert Lit(k1, DownArrow) == Lit(k2, DownArrow);
    assert Lit(k1, RightArrow) == Lit(k2, RightArrow);
  }

  /** Light the indicator of `key`. */
  function Light(k: Indicators, key: VKey): (r: Indicators)
    requires key in IndicatorKeys
    ensures forall j :: Lit(r, j) <==> Lit(k, j) || j == key
  {
    match key
    case KeyW => k.(w := KeyDown)
    case KeyA => k.(a := KeyDown)
    case KeyS => k.(s := KeyDown)
    case KeyD => k.(d := KeyDown)
    case KeyQ => k.(q := KeyDown)
    case KeyE => k.(e := KeyDown)
    case UpArrow => k.(up := KeyDown)
    case LeftArrow => k.(left := KeyDown)
    case DownArrow => k.(down := KeyDown)
    case RightArrow => k.(right := KeyDown)
  }

  function Offset(c: Camera, delta: Vec3): Camera
  {
    c.(position := Add(c.position, delta))
  }

  function Turn(c: Camera, delta: Vec3): Camera
  {
    c.(rotation := Add(c.rotation, delta))
  }

  /** The debug camera together with the key indicators. */
  datatype Rig = Rig(camera: Camera, keys: Indicators)

  /** One held movement key: translate by `delta` and light the indicator. */
  function Move(r: Rig, key: VKey, held: set<VKey>, delta: Vec3): (o: Rig)
    requires key in MoveKeySet
    ensures o.camera.rotation == r.camera.rotation && o.camera.projection == r.camera.projection
    ensures forall j :: Lit(o.keys, j) <==> Lit(r.keys, j) || (j == key && key in held)
    ensures key !in held ==> o == r
  {
    if key in held then Rig(Offset(r.camera, delta), Light(r.keys, key)) else r
  }

  /** W, S, A and D along the camera's own axes, each from where the
      previous key left the camera. */
  function PlanarKeys(r: Rig, held: set<VKey>, dt: real, basis: Basis): (o: Rig)
    ensures o.camera.rotation == r.camera.rotation && o.camera.projection == r.camera.projection
    ensures forall j {:trigger Lit(o.keys, j)} {:trigger Lit(r.keys, j)} :: Lit(o.keys, j) <==> Lit(r.keys, j) || (j in PlanarKeySet && j in held)
    ensures held !! PlanarKeySet ==> o == r
  {
    var r1 := Move(r, KeyW, held, Scale(Scale(basis(Forward, r.camera), CameraSpeed), dt));
    var r2 := Move(r1, KeyS, held, Scale(Scale(basis(Back, r1.camera), CameraSpeed), dt));
    var r3 := Move(r2, KeyA, held, Scale(Scale(basis(Leftward, r2.camera), CameraSpeed), dt));
    Move(r3, KeyD, held, Scale(Scale(basis(Rightward, r3.camera), CameraSpeed), dt))
  }

  /** Q and E straight up and down. */
  function VerticalKeys(r: Rig, held: set<VKey>, dt: real): (o: Rig)
    ensures o.camera.rotation == r.camera.rotation && o.camera.projection == r.camera.projection
    ensures forall j {:trigger Lit(o.keys, j)} {:trigger Lit(r.keys, j)} :: Lit(o.keys, j) <==> Lit(r.keys, j) || (j in VerticalKeySet && j in held)
    ensures held !! VerticalKeySet ==> o == r
  {
    var r5 := Move(r, KeyQ, held, Vec3(0.0, CameraSpeed * dt, 0.0));
    Move(r5, KeyE, held, Vec3(0.0, -CameraSpeed * dt, 0.0))
  }

  /** W, S, A, D along the camera's own axes and Q, E straight up and down,
      at `CameraSpeed` units per second. */
  function MoveKeys(r: Rig, held: set<VKey>, dt: real, basis: Basis): (o: Rig)
    ensures o.camera.rotation == r.camera.rotation && o.camera.projection == r.camera.projection
    ensures forall j {:trigger Lit(o.keys, j)} {:trigger Lit(r.keys, j)} :: Lit(o.keys, j) <==> Lit(r.keys, j) || (j in MoveKeySet && j in held)
    ensures held !! MoveKeySet ==> o == r
  {
    VerticalKeys(PlanarKeys(r, held, dt, basis), held, dt)
  }

  /** 1 when `k` is held, else 0. */
  function Held(k: VKey, held: set<VKey>): real
  {
    if k in held then 1.0 else 0.0
  }

  /** One held arrow key: turn by `delta` and light the indicator. */
  function Spin(r: Rig, key: VKey, held: set<VKey>, delta: Vec3): (o: Rig)
    requires key in ArrowKeySet
    ensures o.camera.rotation == Add(r.camera.rotation, Scale(delta, Held(key, held)))
    ensures o.camera.position == r.camera.position && o.camera.projection == r.camera.projection
    ensures forall j :: Lit(o.keys, j) <==> Lit(r.keys, j) || (j == key && key in held)
  {
    if key in held then Rig(Turn(r.camera, delta), Light(r.keys, key)) else r
  }

  /** The arrow keys: pitch with up/down, yaw with left/right, at
      `RotationSpeed` per second.  The net turn is the sum of the held
      keys' contributions. */
  function ArrowKeys(r: Rig, held: set<VKey>, dt: real): (o: Rig)
    ensures o.camera.rotation == Add(r.camera.rotation,
      Vec3((Held(DownArrow, held) - Held(UpArrow, held)) * RotationSpeed * dt,
           (Held(RightArrow, held) - Held(LeftArrow, held)) * RotationSpeed * dt,
           0.0))
    ensures o.camera.position == r.camera.position && o.camera.projection == r.camera.projection
    ensures forall j {:trigger Lit(o.keys, j)} {:trigger Lit(r.keys, j)} :: Lit(o.keys, j) <==> Lit(r.keys, j) || (j in ArrowKeySet && j in held)
  {
    var r1 := Spin(r, UpArrow, held, Vec3(-RotationSpeed * dt, 0.0, 0.0));
    var r2 := Spin(r1, DownArrow, held, Vec3(RotationSpeed * dt, 0.0, 0.0));
    var r3 := Spin(r2, LeftArrow, held, Vec3(0.0, -RotationSpeed * dt, 0.0));
    Spin(r3, RightArrow, held, Vec3(0.0, RotationSpeed * dt, 0.0))
  }

  /** R: reset the view (the wave filter, lighting and texturing, but not
      the other filters). */
  function OnR(s: Scene, start: Vec3): (r: Scene)
    ensures r.fill && !r.noCull && !r.rotate && r.text && r.slot == 0
    ensures r.shading == s.shading.(waveFilter := 0, lightOn := 1, hasTexture := 1)
    ensures r.camera == ResetCamera(s.camera, start)
    ensures r == s.(fill := true, noCull := false, rotate := false, text := true, slot := 0,
                    shading := r.shading, camera := r.camera)
  {
    s.(shading := s.shading.(waveFilter := 0, lightOn := 1, hasTexture := 1),
       noCull := false, fill := true, slot := 0, rotate := false, text := true,
       camera := ResetCamera(s.camera, start))
  }

  function Abs(x: int): nat
  {
    if x < 0 then -x else x
  }

  /** The mouse has left the dead zone around the last recorded position. */
  predicate OutsideDeadZone(m: Mouse)
  {
    Abs(m.x - m.lastX) > DeadZone || Abs(m.y - m.lastY) > DeadZone
  }

  /** The debug camera and the mouse globals after mouse look. */
  datatype Look = Look(camera: Camera, mouse: Mouse, effects: seq<Effect>)

  /** Mouse mode: turn by the mouse's displacement once it leaves the dead
      zone and re-centre the cursor, then step one unit along a pending
      wheel notch and consume it. */
  function MouseLook(c: Camera, m: Mouse, dt: real, basis: Basis): (r: Look)
    ensures !r.mouse.wheelUp && !r.mouse.wheelDown
    ensures r.mouse.x == m.x && r.mouse.y == m.y
    ensures r.effects == if OutsideDeadZone(m) then [CursorCentred] else []
    ensures OutsideDeadZone(m) ==>
      r.mouse.lastX == CentreX && r.mouse.lastY == CentreY &&
      r.camera.rotation == Add(c.rotation, Vec3((m.y - m.lastY) as real * (MouseSensitivity * dt),
                                                (m.x - m.lastX) as real * (MouseSensitivity * dt), 0.0))
    ensures !OutsideDeadZone(m) ==>
      r.mouse.lastX == m.lastX && r.mouse.lastY == m.lastY && r.camera.rotation == c.rotation
    ensures !m.wheelUp && !m.wheelDown ==> r.camera.position == c.position
    ensures r.camera.projection == c.projection
  {
    var outside := OutsideDeadZone(m);
    var c1 := if outside then
      Turn(c, Vec3((m.y - m.lastY) as real * (MouseSensitivity * dt), (m.x - m.lastX) as real * (MouseSensitivity * dt), 0.0))
      else c;
    var m1 := if outside then m.(lastX := CentreX, lastY := CentreY) else m;
    var c2 := if m1.wheelUp then Offset(c1, basis(Forward, c1)) else c1;
    var c3 := if m1.wheelDown then Offset(c2, basis(Back, c2)) else c2;
    Look(c3, m1.(wheelUp := false, wheelDown := false), if outside then [CursorCentred] else [])
  }

  /** The scene after the movement keys (camera and indicators only). */
  function MoveStep(s: Scene, held: set<VKey>, dt: real, basis: Basis): (r: Scene)
    ensures r.keys == MoveKeys(Rig(s.camera, s.keys), held, dt, basis).keys
    ensures r.camera.projection == s.camera.projection
    ensures r == s.(camera := r.camera, keys := r.keys)
  {
    var rig := MoveKeys(Rig(s.camera, s.keys), held, dt, basis);
    s.(camera := rig.camera, keys := rig.keys)
  }

  /** The scene after the arrow keys (camera and indicators only). */
  function TurnStep(s: Scene, held: set<VKey>, dt: real): (r: Scene)
    ensures r.keys == ArrowKeys(Rig(s.camera, s.keys), held, dt).keys
    ensures r.camera.projection == s.camera.projection
    ensures r == s.(camera := r.camera, keys := r.keys)
  {
    var rig := ArrowKeys(Rig(s.camera, s.keys), held, dt);
    s.(camera := rig.camera, keys := rig.keys)
  }

  /** F9: toggle mouse mode. */
  function ToggleMouseMode(s: Scene, pressed: set<VKey>): (r: Scene)
    ensures r.mouseMode == ((F9 in pressed) != s.mouseMode)
    ensures r == s.(mouseMode := r.mouseMode)
  {
    s.(mouseMode := (F9 in pressed) != s.mouseMode)
  }

  /** The movement keys, then R while held. */
  function MoveAndReset(s: Scene, held: set<VKey>, dt: real, start: Vec3, basis: Basis): (r: Scene)
    ensures r.keys == MoveStep(s, held, dt, basis).keys
    ensures r.mainMenu == s.mainMenu && r.start == s.start && r.playVideo == s.playVideo
    ensures r.mouse == s.mouse && r.mouseMode == s.mouseMode
    ensures r.camera.projection == s.camera.projection
    ensures KeyR in held ==>
      r.fill && !r.noCull && !r.rotate && r.text && r.slot == 0 &&
      r.shading == s.shading.(waveFilter := 0, lightOn := 1, hasTexture := 1)
    ensures KeyR !in held ==>
      r.fill == s.fill && r.noCull == s.noCull && r.rotate == s.rotate &&
      r.text == s.text && r.slot == s.slot && r.shading == s.shading
  {
    var s1 := MoveStep(s, held, dt, basis);
    if KeyR in held then OnR(s1, start) else s1
  }

  /** The keyboard part of `HandleDebugMovement`: movement keys, R, arrows
      and the F9 mouse-mode toggle. */
  function KeyboardMovement(s: Scene, input: FrameInput, dt: real, start: Vec3, basis: Basis): (r: Scene)
    ensures r.mainMenu == s.mainMenu && r.start == s.start && r.playVideo == s.playVideo
    ensures r.mouse == s.mouse
    ensures r.mouseMode == ((F9 in input.pressed) != s.mouseMode)
    ensures r.camera.projection == s.camera.projection
    ensures KeyR in input.held ==>
      r.fill && !r.noCull && !r.rotate && r.text && r.slot == 0 &&
      r.shading == s.shading.(waveFilter := 0, lightOn := 1, hasTexture := 1)
    ensures KeyR !in input.held ==>
      r.fill == s.fill && r.noCull == s.noCull && r.rotate == s.rotate &&
      r.text == s.text && r.slot == s.slot && r.shading == s.shading
  {
    ToggleMouseMode(TurnStep(MoveAndReset(s, input.held, dt, start, basis), input.held, dt), input.pressed)
  }

  /** After the keyboard part exactly the indicators of the held movement
      and arrow keys are lit, besides those already lit. */
  lemma KeyboardLightsHeldKeys(s: Scene, input: FrameInput, dt: real, start: Vec3, basis: Basis)
    ensures var r := KeyboardMovement(s, input, dt, start, basis);
            forall j {:trigger Lit(r.keys, j)} :: Lit(r.keys, j) <==> Lit(s.keys, j) || (j in IndicatorKeys && j in input.held)
  {
    var s2 := MoveAndReset(s, input.held, dt, start, basis);
    var rig3 := ArrowKeys(Rig(s2.camera, s2.keys), input.held, dt);
    assert KeyboardMovement(s, input, dt, start, basis).keys == rig3.keys;
  }

  /** Mouse look applied to a scene's debug camera and mouse state. */
  function LookStep(s: Scene, dt: real, basis: Basis): (r: Step)
    ensures r.scene == s.(camera := r.scene.camera, mouse := r.scene.mouse)
    ensures r.scene.camera.projection == s.camera.projection
    ensures !r.scene.mouse.wheelUp && !r.scene.mouse.wheelDown
  {
    var look := MouseLook(s.camera, s.mouse, dt, basis);
    Step(s.(camera := look.camera, mouse := look.mouse), look.effects)
  }

  /** `HandleDebugMovement`: the keyboard, then mouse look in mouse mode. */
  function DebugMovement(s: Scene, input: FrameInput, dt: real, start: Vec3, basis: Basis): (r: Step)
    ensures var k := KeyboardMovement(s, input, dt, start, basis);
            r.scene == k.(camera := r.scene.camera, mouse := r.scene.mouse)
    ensures r.scene.camera.projection == s.camera.projection
    ensures r.scene.mouseMode ==> !r.scene.mouse.wheelUp && !r.scene.mouse.wheelDown
    ensures !r.scene.mouseMode ==> r.scene.mouse == s.mouse && r.effects == []
  {
    var k := KeyboardMovement(s, input, dt, start, basis);
    if k.mouseMode then LookStep(k, dt, basis) else Step(k, [])
  }

  // ---------------------------------------------------------------------
  // Main menu

  /** The entry `DrawMainMenu` highlights. */
  function Highlight(s: Scene): MenuItem
  {
    if s.playVideo then PlayVideoItem else if s.start then StartItem else ExitItem
  }

  /** The menu entries sit in a row: Start, Exit, Play Tutorial Video. */
  function LeftOf(item: MenuItem): MenuItem
  {
    match item
    case StartItem => StartItem
    case ExitItem => StartItem
    case PlayVideoItem => ExitItem
  }

  function RightOf(item: MenuItem): MenuItem
  {
    match item
    case StartItem => ExitItem
    case ExitItem => PlayVideoItem
    case PlayVideoItem => PlayVideoItem
  }

  /** Left arrow: move the selection one entry to the left. */
  function OnMenuLeft(s: Scene): (r: Scene)
    ensures MenuExclusive(s) ==> MenuExclusive(r) && Highlight(r) == LeftOf(Highlight(s))
    ensures r == s.(start := r.start, playVideo := r.playVideo)
  {
    var s1 := if !s.start && !s.playVideo then s.(start := true) else s;
    if !s1.start && s1.playVideo then s1.(playVideo := false) else s1
  }

  /** Right arrow: move the selection one entry to the right; leaving Start
      also lights the left-arrow indicator. */
  function OnMenuRight(s: Scene): (r: Scene)
    ensures MenuExclusive(s) ==> MenuExclusive(r) && Highlight(r) == RightOf(Highlight(s))
    ensures forall j :: Lit(r.keys, j) <==> Lit(s.keys, j) || (j == LeftArrow && s.start && !s.playVideo)
    ensures r == s.(start := r.start, playVideo := r.playVideo, keys := r.keys)
  {
    var s1 := if !s.start && !s.playVideo then s.(playVideo := true) else s;
    if s1.start && !s1.playVideo then s1.(keys := s1.keys.(left := KeyDown), start := false) else s1
  }

  /** Enter: start the scene, launch the tutorial video, or quit. */
  function OnMenuEnter(s: Scene): (r: Step)
    ensures s.start ==>
      (r.effects == [] && !r.scene.mainMenu &&
       r.scene.fill && !r.scene.rotate && r.scene.text && r.scene.noCull == s.noCull &&
       r.scene.shading == s.shading.(waveFilter := 0, lightOn := 1, hasTexture := 1))
    ensures !s.start && s.playVideo ==> r == Step(s, [TutorialVideoStarted])
    ensures !s.start && !s.playVideo ==> r == Step(s, [QuitPosted])
    ensures r.scene.camera == s.camera && r.scene.slot == s.slot && r.scene.keys == s.keys
    ensures r.scene.mouse == s.mouse && r.scene.mouseMode == s.mouseMode
    ensures r.scene.start == s.start && r.scene.playVideo == s.playVideo
    ensures r.scene.noCull == s.noCull
    ensures Binary(s.shading) ==> Binary(r.scene.shading)
  {
    if s.start then
      Step(s.(shading := s.shading.(waveFilter := 0, lightOn := 1, hasTexture := 1),
              rotate := false, fill := true, text := true, mainMenu := false), [])
    else if s.playVideo then Step(s, [TutorialVideoStarted])
    else Step(s, [QuitPosted])
  }

  /** The left and then the right arrow in the menu. */
  function MenuArrows(s: Scene, pressed: set<VKey>): (r: Scene)
    ensures MenuExclusive(s) ==> MenuExclusive(r)
    ensures r == s.(start := r.start, playVideo := r.playVideo, keys := r.keys)
  {
    var s1 := if LeftArrow in pressed then OnMenuLeft(s) else s;
    if RightArrow in pressed then OnMenuRight(s1) else s1
  }

  /** The menu branch of `Update`. */
  function MenuFrame(s: Scene, pressed: set<VKey>): (r: Step)
    ensures Escape in pressed ==> QuitPosted in r.effects
    ensures r.scene.camera == s.camera && r.scene.slot == s.slot && r.scene.mouse == s.mouse
    ensures r.scene.mouseMode == s.mouseMode && r.scene.noCull == s.noCull
    ensures MenuExclusive(s) ==> MenuExclusive(r.scene)
    ensures Binary(s.shading) ==> Binary(r.scene.shading)
    ensures Return !in pressed ==> r.scene.mainMenu == s.mainMenu
  {
    var s2 := MenuArrows(s, pressed);
    var step := if Return in pressed then OnMenuEnter(s2) else Step(s2, []);
    if Escape in pressed then Step(step.scene, step.effects + [QuitPosted]) else step
  }

  // ---------------------------------------------------------------------
  // One frame

  /** The scene branch of `Update`: the toggles, Escape, the preset chain
      (which runs even after Escape has switched to the menu), then movement
      if the debug camera is active. */
  function SceneFrame(s: Scene, input: FrameInput, dt: real, start: Vec3, basis: Basis): Step
  {
    MoveIfActive(KeysAndPresets(s, input, start), input, dt, start, basis)
  }

  /** The end of the scene branch: the movement handler runs only while the
      debug camera is active. */
  function MoveIfActive(s: Scene, input: FrameInput, dt: real, start: Vec3, basis: Basis): Step
  {
    if s.slot == 0 then DebugMovement(s, input, dt, start, basis) else Step(s, [])
  }

  /** The scene branch up to the movement handler. */
  function KeysAndPresets(s: Scene, input: FrameInput, start: Vec3): (r: Scene)
    ensures r.keys == s.keys && r.mouse == s.mouse && r.mouseMode == s.mouseMode
  {
    var s1 := SceneKeys(s, input.pressed, start);
    var s2 := if Escape in input.pressed then OnEscape(s1, start) else s1;
    CameraChain(s2, input.held)
  }

  /** `Update`'s effect on the scene state. */
  function UpdateScene(s: Scene, input: FrameInput, dt: real, start: Vec3, basis: Basis): Step
  {
    if s.mainMenu then MenuFrame(s, input.pressed) else SceneFrame(s, input, dt, start, basis)
  }

  /** The rotation flag the frame's world matrices and object rotations use:
      the one after the toggles, before Escape. */
  function FrameRotate(s: Scene, pressed: set<VKey>, start: Vec3): bool
  {
    SceneKeys(s, pressed, start).rotate
  }

  // ---------------------------------------------------------------------
  // Frame-level properties

  /** A scene frame keeps `Steady`, and keeps `Exclusive` too. */
  lemma SceneFrameConsistent(s: Scene, input: FrameInput, dt: real, start: Vec3, basis: Basis)
    requires Steady(s) && !s.mainMenu
    ensures Steady(UpdateScene(s, input, dt, start, basis).scene)
    ensures Exclusive(s) ==> Exclusive(UpdateScene(s, input, dt, start, basis).scene)
  {
    var s3 := KeysAndPresets(s, input, start);
    KeysAndPresetsConsistent(s, input, start);
    if s3.slot == 0 {
      MovementConsistent(s3, input, dt, start, basis);
    }
  }

  lemma KeysAndPresetsConsistent(s: Scene, input: FrameInput, start: Vec3)
    requires Steady(s)
    ensures Steady(KeysAndPresets(s, input, start))
    ensures Exclusive(s) ==> Exclusive(KeysAndPresets(s, input, start))
  {
    var s1 := SceneKeys(s, input.pressed, start);
    SceneKeysConsistent(s, input.pressed, start);
    if Escape in input.pressed {
      EscapeConsistent(s1, start);
      CameraChainConsistent(OnEscape(s1, start), input.held);
    } else {
      CameraChainConsistent(s1, input.held);
    }
  }

  lemma SceneKeysConsistent(s: Scene, pressed: set<VKey>, start: Vec3)
    requires Steady(s)
    ensures Steady(SceneKeys(s, pressed, start))
    ensures Exclusive(s) ==> Exclusive(SceneKeys(s, pressed, start))
  {
  }

  lemma EscapeConsistent(s: Scene, start: Vec3)
    requires Steady(s)
    ensures Consistent(OnEscape(s, start))
  {
  }

  lemma CameraChainConsistent(s: Scene, held: set<VKey>)
    requires Steady(s)
    ensures Steady(CameraChain(s, held))
    ensures Exclusive(s) ==> Exclusive(CameraChain(s, held))
  {
    if SelectedSlot(held).Some? {
      ApplyPresetConsistent(s, SelectedSlot(held).value);
    }
  }

  /** One preset keeps the invariants. */
  lemma ApplyPresetConsistent(s: Scene, n: nat)
    requires Steady(s) && n < SlotCount
    ensures Steady(ApplyPreset(s, n))
    ensures Exclusive(s) ==> Exclusive(ApplyPreset(s, n))
  {
    if n != 0 {
      PresetBundleSound(n);
    }
  }

  /** Debug movement keeps the invariants. */
  lemma MovementConsistent(s: Scene, input: FrameInput, dt: real, start: Vec3, basis: Basis)
    requires Steady(s)
    ensures Steady(DebugMovement(s, input, dt, start, basis).scene)
    ensures Exclusive(s) ==> Exclusive(DebugMovement(s, input, dt, start, basis).scene)
  {
    var k := KeyboardMovement(s, input, dt, start, basis);
    assert Steady(k);
  }

  /** A menu frame keeps `Steady`. */
  lemma MenuFrameSteady(s: Scene, input: FrameInput, dt: real, start: Vec3, basis: Basis)
    requires Steady(s) && s.mainMenu
    ensures Steady(UpdateScene(s, input, dt, start, basis).scene)
  {
    assert UpdateScene(s, input, dt, start, basis) == MenuFrame(s, input.pressed);
  }

  /** Every frame keeps `Steady`. */
  lemma UpdateKeepsSteady(s: Scene, input: FrameInput, dt: real, start: Vec3, basis: Basis)
    requires Steady(s)
    ensures Steady(UpdateScene(s, input, dt, start, basis).scene)
  {
    if s.mainMenu {
      MenuFrameSteady(s, input, dt, start, basis);
    } else {
      SceneFrameConsistent(s, input, dt, start, basis);
    }
  }

  /** A menu frame with no-cull off keeps every invariant, and no-cull stays
      off: only Enter on Start changes the raster flags, and it turns fill on. */
  lemma MenuFrameConsistent(s: Scene, input: FrameInput, dt: real, start: Vec3, basis: Basis)
    requires Consistent(s) && s.mainMenu && !s.noCull
    ensures var r := UpdateScene(s, input, dt, start, basis).scene;
            Consistent(r) && !r.noCull
  {
    MenuFrameSteady(s, input, dt, start, basis);
  }

  /** The menu is always entered with no-cull off, except in a frame that
      presses Escape while holding a preset key whose bundle turns no-cull
      on. */
  lemma MenuEnteredWithCullingOn(s: Scene, input: FrameInput, dt: real, start: Vec3, basis: Basis)
    requires !s.mainMenu && Escape in input.pressed
    ensures var r := UpdateScene(s, input, dt, start, basis).scene;
            r.mainMenu &&
            r.noCull == (SelectedSlot(input.held).Some? && SelectedSlot(input.held).value != 0 &&
                         PresetBundle(SelectedSlot(input.held).value).noCull)
  {
    var s2 := OnEscape(SceneKeys(s, input.pressed, start), start);
    var s3 := CameraChain(s2, input.held);
    assert KeysAndPresets(s, input, start) == s3;
    if s3.slot == 0 {
      var k := KeyboardMovement(s3, input, dt, start, basis);
      assert UpdateScene(s, input, dt, start, basis).scene.noCull == k.noCull;
    }
  }

  /** A concrete frame pair that ends with solid fill and no-cull both on:
      Escape pressed with numpad 4 held enters the menu with no-cull on,
      and Enter on Start then turns fill on without clearing no-cull. */
  lemma EscapeWithPresetThenStart(s: Scene, dt: real, start: Vec3, basis: Basis)
    requires !s.mainMenu && s.start
    ensures var f1 := UpdateScene(s, FrameInput({Escape}, {Numpad(4)}), dt, start, basis).scene;
            var f2 := UpdateScene(f1, FrameInput({Return}, {}), dt, start, basis).scene;
            f1.mainMenu && f1.noCull && f1.slot == 4 &&
            !f2.mainMenu && f2.fill && f2.noCull
  {
    var input := FrameInput({Escape}, {Numpad(4)});
    var s2 := OnEscape(SceneKeys(s, input.pressed, start), start);
    assert SelectedSlot(input.held) == Some(4);
    var s3 := ApplyPreset(s2, 4);
    assert KeysAndPresets(s, input, start) == s3;
    assert s3.mainMenu && s3.start && s3.noCull && s3.slot == 4;
    assert UpdateScene(s, input, dt, start, basis).scene == s3;
    var f2 := OnMenuEnter(s3).scene;
    assert UpdateScene(s3, FrameInput({Return}, {}), dt, start, basis).scene == f2;
  }

  /** While a preset camera is active nothing moves the debug camera by
      keyboard or mouse: the indicators, the mouse globals and mouse mode
      stay as they were. */
  lemma PresetFreezesMovement(s: Scene, input: FrameInput, dt: real, start: Vec3, basis: Basis)
    requires !s.mainMenu
    requires UpdateScene(s, input, dt, start, basis).scene.slot != 0
    ensures var r := UpdateScene(s, input, dt, start, basis);
            r.scene.keys == s.keys && r.scene.mouse == s.mouse &&
            r.scene.mouseMode == s.mouseMode && r.effects == []
  {
    var s3 := KeysAndPresets(s, input, start);
    assert UpdateScene(s, input, dt, start, basis) == Step(s3, []);
  }

  /** Holding numpad 0 always selects the debug camera, whatever else is held. */
  lemma NumpadZeroWins(s: Scene, input: FrameInput, dt: real, start: Vec3, basis: Basis)
    requires !s.mainMenu && Numpad(0) in input.held
    ensures UpdateScene(s, input, dt, start, basis).scene.slot == 0
  {
  }

  /** Escape in the menu always asks the system to quit; Enter quits only
      from the Exit entry. */
  lemma MenuQuits(s: Scene, input: FrameInput, dt: real, start: Vec3, basis: Basis)
    requires s.mainMenu && MenuExclusive(s)
    requires LeftArrow !in input.pressed && RightArrow !in input.pressed && Escape !in input.pressed
    requires Return in input.pressed
    ensures var r := UpdateScene(s, input, dt, start, basis);
            (QuitPosted in r.effects <==> Highlight(s) == ExitItem) &&
            (TutorialVideoStarted in r.effects <==> Highlight(s) == PlayVideoItem) &&
            (!r.scene.mainMenu <==> Highlight(s) == StartItem)
  {
  }

  // ---------------------------------------------------------------------
  // Animation

  /** The rotation `Update` gives a scene object: the airplane spins only
      while rotation is on, the car always tumbles, everything else keeps
      its rotation. */
  function ObjectRotation(name: string, current: Vec3, angle: real, rotate: bool): (r: Vec3)
    ensures name == "Airplane" ==> r == (if rotate then Vec3(0.0, -angle, 0.0) else Origin)
    ensures name == "Car" ==> r == Vec3(-angle, -angle, 0.0)
    ensures name != "Airplane" && name != "Car" ==> r == current
  {
    if name == "Airplane" then (if rotate then Vec3(0.0, -angle, 0.0) else Vec3(0.0, 0.0, 0.0))
    else if name == "Car" then Vec3(-angle, -angle, 0.0)
    else current
  }

  datatype Worlds = Worlds(world1: Matrix, world2: Matrix, world3: Matrix, pyramid: Matrix)

  const Cube2Offset := Vec3(6.0, 0.0, 2.0)

  /** The cube and pyramid world matrices for a frame. */
  function CubeWorlds(rotate: bool, angle: real): (w: Worlds)
    ensures w.world1.Product? && w.world2.Product? && w.world3.Product? && w.pyramid.Product?
    // cube 3 and the pyramid are placed in cube 2's frame
    ensures |w.world3.factors| >= |w.world2.factors| && |w.pyramid.factors| >= |w.world2.factors|
    ensures w.world3.factors[|w.world3.factors| - |w.world2.factors|..] == w.world2.factors
    ensures w.pyramid.factors[|w.pyramid.factors| - |w.world2.factors|..] == w.world2.factors
    ensures w.pyramid.factors[..|w.pyramid.factors| - |w.world2.factors|] == [Translate(Vec3(10.0, 0.0, 2.0))]
  {
    var two := Vec3(2.0, 2.0, 2.0);
    var small := Vec3(0.45, 0.45, 0.45);
    var cube2 := if rotate then [RotateY(-angle), Translate(Cube2Offset), RotateY(-angle)] else [Translate(Cube2Offset)];
    var cube3 := if rotate
      then [RotateY(-angle), RotateX(-angle), Translate(Cube2Offset), Translate(Vec3(2.0, 0.0, 0.0)), RotateY(-angle), Scaling(small)]
      else [Translate(Cube2Offset), Translate(Vec3(2.0, 0.0, 0.0)), Scaling(small)];
    Worlds(
      Product(if rotate then [RotateY(angle), Scaling(two)] else [Scaling(two)]),
      Product(cube2),
      Product(cube3 + cube2),
      Product([Translate(Vec3(10.0, 0.0, 2.0))] + cube2))
  }

  /** Without rotation the world matrices do not depend on time. */
  lemma StillWorldsIgnoreTime(a: real, b: real)
    ensures CubeWorlds(false, a) == CubeWorlds(false, b)
  {
  }
}
