# DX11Framework: a verified model of the renderer's frame logic

This project models the discrete logic of the DirectX 11 renderer: everything that sits
around the Direct3D calls. It covers:

- the `DX11Framework` class:
  - its mode flags, shading flags, camera slot, key indicators and mouse globals;
  - `Update`, which runs the key handlers, animation, Escape, the numpad preset chain and
    debug-camera movement once per frame;
  - `Draw`, which emits the command sequence of one frame;
- the process-wide `ResourceManager` texture and mesh cache;
- the `GameObject` entity with its `"NULL"` path sentinel;
- the `Terrain` heightmap, vertex grid and index buffer;
- the byte-wise `SimpleVertex` ordering.

The model has one module per source component:

| module | file | models |
|---|---|---|
| `Structures` | `structures.dfy` | `Structures.h`: the constant-buffer record, mesh data, `KeyState`, `SimpleVertex::operator<` |
| `Resources` | `resource_manager.dfy` | `ResourceManager`: the lookup-or-append cache, as a specification function and a class |
| `Pipeline` | `pipeline.dfy` | the device context as a list of abstract commands, and a replay that tells which state each draw is issued under |
| `Entities` | `game_object.dfy` | `GameObject` |
| `Terrain` | `terrain.dfy` | `Terrain` |
| `SceneLogic` | `scene_logic.dfy` | every input handler of `Update` as a function on a `Scene` value, and the frame invariants |
| `Framework` | `framework.dfy` | the `DX11Framework` class, whose methods are proved against the `SceneLogic` and `Pipeline` functions |

The class follows the source's form. `Update` and its handlers are methods that update the
class's fields in place. Each one ensures that the new state is the corresponding
`SceneLogic` function of the old state. `Draw` and its helpers append commands to a
`DeviceContext`. `Draw` ensures that the commands it appends are `FrameTrace` of the state
the frame starts in. `FrameDrawOrder` then computes, for every draw of a frame, the
rasterizer, blend, depth and shader state it is issued under. That result holds whatever
state the previous frame left bound.

The main properties proved:

- Every frame keeps these invariants: a valid camera slot, at most one menu entry selected,
  0/1 shading flags, and at most one pending wheel notch.
- Solid fill and no-cull are never both on after any handler, with one exception that the
  code allows (see below).
- The numpad chain applies at most one preset: the first held key in the order 0, 1, 3, 2,
  4-9, so numpad 0 wins.
- The menu arrows step and saturate.
- Enter and Escape in the menu quit exactly as the code says.
- The resource cache hands back the first match and never stores a path twice.
- Loading the same path twice does not run the loader again, and a failed texture load is
  retried.
- The terrain index list has 6 entries per cell. The entries of cell (i, j) are found at
  offset 6·(i·(cols−1)+j), and every index is in range.
- `SimpleVertex::operator<` is a strict total order on byte images.

Behaviours of the code worth noting:

- Numpad 9 leaves both solid fill and no-cull off.
- Numpad 4 turns Gooch shading on but leaves lighting and texturing as they were.
- `GameObject::Draw` binds the object's texture even when it is null.
- In the menu, the right arrow from Start lights the LEFT-arrow indicator.
- The preset chain runs in the same frame as Escape, after Escape has switched to the menu.
  So Escape pressed while a no-cull preset key is held enters the menu with no-cull on.
  Enter on Start then turns solid fill on without clearing no-cull, and both flags end up
  on (`SceneLogic.EscapeWithPresetThenStart`).

## Model

| member | source | states |
|---|---|---|
| Structures.MemCmp | DX11Framework/Structures.h:69-72 | the `memcmp` result of two equal-length byte images lies in [−255, 255] |
| Structures.MemCmpZeroIffEqual | DX11Framework/Structures.h:69-72 | `memcmp` is zero exactly when the two images are equal |
| Structures.MemCmpAntisymmetric | DX11Framework/Structures.h:69-72 | swapping the operands negates the comparison |
| Structures.MemCmpTransitive | DX11Framework/Structures.h:69-72 | a positive comparison is transitive |
| Structures.VertexLessIrreflexive | DX11Framework/Structures.h:69-72 | no vertex is less than itself |
| Structures.VertexLessAsymmetric | DX11Framework/Structures.h:69-72 | of two vertices at most one is less than the other |
| Structures.VertexLessTransitive | DX11Framework/Structures.h:69-72 | the vertex order is transitive |
| Structures.VertexLessConnected | DX11Framework/Structures.h:69-72 | two distinct byte images are always ordered one way or the other, so the order is a strict total order |
| Resources.Find | DX11Framework/ResourceManager.cpp:7-13 | the scan finds a path iff it is stored, and stops at the first index holding it |
| Resources.Load | DX11Framework/ResourceManager.cpp:4-43 | a hit returns the value at the first match, does not run the loader and leaves the cache alone; a miss runs the loader; a successful load appends exactly one path and one value; a failed one returns null and leaves the cache alone; the two vectors keep equal length |
| Resources.LoadKeepsWellFormed | DX11Framework/ResourceManager.cpp:7-23 | appending only after a full scan misses keeps the lists equal in length and free of duplicate paths |
| Resources.FindAppended | DX11Framework/ResourceManager.cpp:20-21 | a path just appended is found at the end of the list |
| Resources.LoadIsIdempotent | DX11Framework/ResourceManager.cpp:4-43 | loading a path again after a load that produced a value returns the same value, does not run the loader and leaves the cache alone, whatever the loader would now produce |
| Resources.FailedLoadIsRetried | DX11Framework/ResourceManager.cpp:17-18 | a failed texture load leaves the cache alone, so the next request for the path runs the loader again |
| Resources.ResourceManager.constructor | DX11Framework/ResourceManager.h:45-50 | the four vectors start empty and well formed |
| Resources.ResourceManager.LoadTexture | DX11Framework/ResourceManager.cpp:4-24 | the scan loop returns and updates the texture cache exactly as `Load` says, runs the DDS loader only on a miss, keeps the cache well formed and leaves the mesh cache alone |
| Resources.ResourceManager.LoadMesh | DX11Framework/ResourceManager.cpp:26-43 | the scan loop returns and updates the mesh cache exactly as `Load` with an always-successful loader says, keeps it well formed and leaves the texture cache alone |
| Pipeline.RasterizerFor | DX11Framework/DX11Framework.cpp:1738-1749 | the rasterizer is solid iff fill is on, wireframe iff fill and no-cull are both off, no-cull iff only no-cull is on: exactly one state is chosen |
| Pipeline.ObjectsLog | DX11Framework/DX11Framework.cpp:1389-1402 | the scene objects are drawn in vector order, each "Glass" object under the transparency blend and every other under the opaque one |
| Pipeline.ObjectCommandsEffect | DX11Framework/GameObject.cpp:85-107 | drawing a game object changes no bound state and issues exactly one draw, of its mesh |
| Pipeline.ObjectPassEffect | DX11Framework/DX11Framework.cpp:1389-1402 | one loop iteration restores the opaque blend it starts from and draws a "Glass" object under the transparency blend |
| Pipeline.ObjectsPassEffect | DX11Framework/DX11Framework.cpp:1389-1402 | the whole object loop leaves the pipeline state as it found it and logs the draws `ObjectsLog` describes |
| Pipeline.RestoreEffect | DX11Framework/DX11Framework.cpp:1483-1510 | the closing binds leave the selected rasterizer, the opaque blend, the default depth state and the scene shaders bound, and draw nothing |
| Pipeline.SetupEffect | DX11Framework/DX11Framework.cpp:1630-1768 | `UpdatePipelineVariables` leaves the same state from any starting state, and draws nothing |
| Pipeline.SkyboxEffect | DX11Framework/DX11Framework.cpp:1459-1511 | the skybox is drawn under the less-equal depth state and the skybox shaders, and the default state is restored afterwards |
| Pipeline.MenuEffect | DX11Framework/DX11Framework.cpp:1413-1425 | the menu object is drawn under the transparency blend |
| Pipeline.PairEffect | DX11Framework/DX11Framework.cpp:1355-1360 | an upload followed by a draw changes no state and logs that one draw |
| Pipeline.PrimitivesEffect | DX11Framework/DX11Framework.cpp:1354-1386 | the three cubes and then the pyramid are drawn, in that order, all under the state they start from |
| Pipeline.TerrainEffect | DX11Framework/DX11Framework.cpp:1432-1456 | the terrain is drawn under the heightmap shaders, and they stay bound |
| Pipeline.TerrainIgnoresWorld | DX11Framework/DX11Framework.cpp:1436 | the terrain pass overwrites the payload's world matrix, so the world matrix left by earlier draws does not reach it |
| Pipeline.OverlayEffect | DX11Framework/DX11Framework.cpp:1039-1300 | the HUD issues no indexed draw |
| Pipeline.SceneEffect | DX11Framework/DX11Framework.cpp:1352-1412 | the scene branch draws cubes 1-3, the pyramid, the objects in vector order with "Glass" transparent, then the terrain under the heightmap shaders |
| Pipeline.PreludeEffect | DX11Framework/DX11Framework.cpp:1346-1350 | from any state, the prelude draws only the skybox, under its own depth and shaders, and leaves the default scene state bound |
| Pipeline.FrameDrawOrder | DX11Framework/DX11Framework.cpp:1340-1429 | whatever the previous frame left bound, a frame's draws are: the skybox under less-equal depth; then either the menu object under the transparency blend, or the cubes, the pyramid, the objects (each "Glass" under transparency) and the terrain, all under the selected rasterizer with the default depth state |
| Entities.ConstructionSwapsEnds | DX11Framework/GameObject.cpp:20-23 | the constructor's world matrix has the factors `Draw` uses with translation and scaling swapped |
| Entities.GameObject.constructor | DX11Framework/GameObject.cpp:6-32 | position, rotation, scale, id, name and paths are stored as passed; a "NULL" texture path leaves the texture null and the texture cache untouched; a "NULL" mesh path leaves the mesh at its default; any other path goes through the cache as `Load` says |
| Entities.GameObject.LoadTexture | DX11Framework/GameObject.cpp:59-68 | a "NULL" path returns without touching the cache; any other path takes whatever the cache hands back, possibly null |
| Entities.GameObject.LoadMesh | DX11Framework/GameObject.cpp:71-80 | a "NULL" path leaves the mesh data as it was; any other path takes the cached mesh |
| Entities.GameObject.Draw | DX11Framework/GameObject.cpp:85-107 | the world matrix is recomputed as scale, rotate, translate; the texture is bound even when null; the caller's record is uploaded with only its world matrix replaced (it is passed by value); the mesh's indices are drawn |
| Entities.GameObject.SetPosition | DX11Framework/GameObject.cpp:112-115 | only the position changes, and `GetPosition` returns the value set |
| Entities.GameObject.SetRotation | DX11Framework/GameObject.cpp:118-121 | only the rotation changes, and `GetRotation` returns the value set |
| Entities.GameObject.SetScale | DX11Framework/GameObject.cpp:124-127 | only the scale changes |
| Entities.GameObject.SetWorldMatrix | DX11Framework/GameObject.h:34 | only the world matrix changes |
| Entities.GameObject.SetShaderResource | DX11Framework/GameObject.h:37 | only the texture changes |
| Entities.GameObject.SetMeshData | DX11Framework/GameObject.h:40 | only the mesh data changes |
| Terrain.RawSample | DX11Framework/Terrain.cpp:50-59 | sample k is byte k of the file when the file opened and holds that byte, and 0 when the file did not open |
| Terrain.Height | DX11Framework/Terrain.cpp:63-67 | a height lies in [0, 10]; it is 0 exactly for byte 0 and 10 exactly for byte 255 |
| Terrain.HeightMonotone | DX11Framework/Terrain.cpp:67 | a brighter sample is never lower |
| Terrain.CellSplitsOnDiagonal | DX11Framework/Terrain.cpp:153-164 | a cell's two triangles use exactly its four corners and share the top-right/bottom-left diagonal |
| Terrain.GridIndicesLength | DX11Framework/Terrain.cpp:149-166 | the index list has 6·rows·(cols−1) entries for `rows` rows of cells |
| Terrain.TerrainIndexCount | DX11Framework/Terrain.cpp:149-166 | the 400×400 grid has 6·399·399 = 955206 indices |
| Terrain.GridIndicesAt | DX11Framework/Terrain.cpp:149-164 | cell (i, j) emits top-right, bottom-left, bottom-right, top-left, bottom-left, top-right at offset 6·(i·(cols−1)+j): row-major order |
| Terrain.GridIndicesInRange | DX11Framework/Terrain.cpp:153-156 | every index of r rows of cells names a vertex of the r+1 vertex rows: it lies in [0, (r+1)·cols) |
| Terrain.PatchSpacing | DX11Framework/Terrain.cpp:116-117 | the corrected column spacing: `verts − 1` gaps cover the heightmap's size exactly |
| Terrain.AsWrittenGridFallsShort | DX11Framework/Terrain.cpp:113-127 | with the integer division as written, the spacing is 1 and the last column sits at x = 142.5 rather than 256.5 |
| Terrain.GridSpansHeightmap | DX11Framework/Terrain.cpp:113-127 | with the corrected spacing, the first column is at −size/2 and the last at +size/2 (the intended grid; the class builds the one as written) |
| Terrain.GridCornersSpanTexture | DX11Framework/Terrain.cpp:113-131 | in the intended grid (real spacing) the corners carry texture coordinates (0, 0) and (1, 1), and the far corner sits at (width/2, 0, depth/2) |
| Terrain.AsWrittenCorners | DX11Framework/Terrain.cpp:113-131 | the grid the program builds starts where the intended one does, with texture (0, 0); its far corner has texture (1, 1) but sits at (142.5, 0, 142.5) |
| Terrain.Terrain.constructor | DX11Framework/Terrain.cpp:9-20 | the heightmap is 513×513 with one height per byte; the grid has rows·cols vertices, vertex (i, j) in slot i·cols+j is the as-written grid point, with spacing 513 / 399 truncated to 1; the indices are the full grid list; the matrix is the identity |
| Terrain.Terrain.LoadHeightmap | DX11Framework/Terrain.cpp:44-69 | the height data has width·height entries, entry k being the scaled byte k |
| Terrain.Terrain.BuildFlatGridVB | DX11Framework/Terrain.cpp:108-133 | every one of the rows·cols slots holds the grid point (i, j) at index i·cols+j: position (−width/2 + j·patchWidth, 0, i·patchDepth − depth/2) with the integer-divided spacings, texture (j/(cols−1), i/(rows−1)) |
| Terrain.Terrain.BuildFlatGridIB | DX11Framework/Terrain.cpp:146-166 | the nested loops append exactly the grid index list to `m_indices` |
| SceneLogic.Initial | DX11Framework/DX11Framework.h:118-132 | the initial state is the main menu with Start highlighted and Play Video not, slot 0, lighting and texturing on, and it satisfies every frame invariant, fill/no-cull exclusivity included |
| SceneLogic.ResetCamera | DX11Framework/DX11Framework.cpp:2011-2013 | the debug camera goes back to the start position with zero rotation and keeps its projection |
| SceneLogic.Toggle01 | DX11Framework/DX11Framework.cpp:1827-1863 | a 0/1 flag is flipped; any other value is left alone |
| SceneLogic.Toggle01Involutive | DX11Framework/DX11Framework.cpp:1827-1863 | flipping twice restores the flag |
| SceneLogic.OnF3 | DX11Framework/DX11Framework.cpp:1800-1811 | F3 toggles fill; turning it on turns no-cull off; afterwards fill and no-cull are not both on; nothing else changes |
| SceneLogic.OnF6 | DX11Framework/DX11Framework.cpp:1813-1825 | F6 toggles no-cull; turning it on turns fill off; afterwards they are not both on; nothing else changes |
| SceneLogic.OnF11 | DX11Framework/DX11Framework.cpp:1865-1880 | Gooch on forces lighting and texturing to 0, Gooch off forces them to 1, any other value disables the key |
| SceneLogic.OnF1 | DX11Framework/DX11Framework.cpp:1895-1905 | F1 turns texturing off iff it was exactly 1, otherwise sets it to 1 |
| SceneLogic.OnF4 | DX11Framework/DX11Framework.cpp:1920-1940 | F4 toggles rotation, resets the debug camera, turns fill on and no-cull off |
| SceneLogic.FilterKeys | DX11Framework/DX11Framework.cpp:1827-1863 | F7, F8 and Tab each flip their own 0/1 filter flag and change nothing else |
| SceneLogic.LightingKeys | DX11Framework/DX11Framework.cpp:1865-1905 | F11, F2 and F1 keep the flags 0/1, change only Gooch, lighting and texturing, and change nothing when none is pressed |
| SceneLogic.ShadingKeys | DX11Framework/DX11Framework.cpp:1827-1905 | the six shading keys keep every flag 0/1 |
| SceneLogic.RasterKeys | DX11Framework/DX11Framework.cpp:1800-1825 | F3 and F6 keep fill and no-cull exclusive, and restore exclusivity whenever either is pressed |
| SceneLogic.DisplayKeys | DX11Framework/DX11Framework.cpp:1907-1940 | F5 toggles the text overlay and F4 rotation; without F4 the camera stays put; exclusivity is kept |
| SceneLogic.SceneKeys | DX11Framework/DX11Framework.cpp:1800-1940 | the edge-triggered keys keep exclusivity and 0/1 shading, never touch the menu flags, slot, indicators or mouse, and toggle text and rotation exactly when F5 and F4 are pressed |
| SceneLogic.OnEscape | DX11Framework/DX11Framework.cpp:2008-2026 | Escape enters the menu on slot 0 with fill and text on, no-cull and rotation off, every filter and Gooch cleared, lighting and texturing on, and the camera reset |
| SceneLogic.SelectedSlot | DX11Framework/DX11Framework.cpp:2029-2122 | the first held numpad key in the order 0, 1, 3, 2, 4-9 decides the slot; no preset key held means no change |
| SceneLogic.PresetBundleSound | DX11Framework/DX11Framework.cpp:2033-2122 | every preset turns on at most one of fill and no-cull and sets 0/1 filter flags |
| SceneLogic.ApplyPreset | DX11Framework/DX11Framework.cpp:2029-2122 | a preset writes only the slot, fill, no-cull and the filter and Gooch flags; lighting and texturing are left alone |
| SceneLogic.CameraChain | DX11Framework/DX11Framework.cpp:2029-2122 | the chain applies at most one preset per frame, the one `SelectedSlot` picks |
| SceneLogic.Light | DX11Framework/DX11Framework.cpp:1520-1585 | lighting a key's indicator adds exactly that key to the lit ones and leaves the others as they were |
| SceneLogic.Move | DX11Framework/DX11Framework.cpp:1520-1548 | a held movement key translates the camera and lights its indicator; an unheld one changes nothing |
| SceneLogic.PlanarKeys | DX11Framework/DX11Framework.cpp:1520-1538 | W, S, A and D move the camera along its own axes, light exactly the held ones, and never turn it |
| SceneLogic.VerticalKeys | DX11Framework/DX11Framework.cpp:1540-1548 | Q and E move the camera vertically and light exactly the held ones |
| SceneLogic.MoveKeys | DX11Framework/DX11Framework.cpp:1520-1548 | the six movement keys light exactly the held ones and leave rotation and projection alone |
| SceneLogic.Spin | DX11Framework/DX11Framework.cpp:1566-1585 | a held arrow turns the camera by its step and lights its indicator |
| SceneLogic.ArrowKeys | DX11Framework/DX11Framework.cpp:1566-1585 | the net turn is (down − up, right − left)·speed·dt, the position is kept, and exactly the held arrows are lit |
| SceneLogic.OnR | DX11Framework/DX11Framework.cpp:1550-1563 | R restores fill, text, slot 0, lighting and texturing, clears only the wave filter, and resets the camera |
| SceneLogic.MouseLook | DX11Framework/DX11Framework.cpp:1600-1627 | outside the 50-pixel dead zone the camera turns by the displacement and the cursor is re-centred to (960, 540); inside it nothing turns; a pending wheel notch moves the camera and is consumed |
| SceneLogic.MoveStep | DX11Framework/DX11Framework.cpp:1520-1548 | only the camera and the indicators change |
| SceneLogic.TurnStep | DX11Framework/DX11Framework.cpp:1566-1585 | only the camera and the indicators change |
| SceneLogic.ToggleMouseMode | DX11Framework/DX11Framework.cpp:1588-1596 | F9 flips mouse mode and nothing else |
| SceneLogic.MoveAndReset | DX11Framework/DX11Framework.cpp:1520-1563 | with R held the reset flags hold afterwards; without it the flags, slot and shading are untouched |
| SceneLogic.KeyboardMovement | DX11Framework/DX11Framework.cpp:1520-1596 | the keyboard part keeps the menu flags and mouse, flips mouse mode on F9, and applies the R reset exactly when R is held |
| SceneLogic.KeyboardLightsHeldKeys | DX11Framework/DX11Framework.cpp:1520-1585 | afterwards exactly the held movement and arrow keys are lit, besides those already lit |
| SceneLogic.LookStep | DX11Framework/DX11Framework.cpp:1600-1627 | mouse look changes only the camera and the mouse globals, and clears both wheel flags |
| SceneLogic.DebugMovement | DX11Framework/DX11Framework.cpp:1517-1628 | mouse look runs only in mouse mode; otherwise the mouse globals are untouched and nothing is asked of the system |
| SceneLogic.OnMenuLeft | DX11Framework/DX11Framework.cpp:2134-2143 | the left arrow moves the highlight one entry left and saturates at Start, keeping Start and Play Video exclusive |
| SceneLogic.OnMenuRight | DX11Framework/DX11Framework.cpp:2145-2155 | the right arrow moves the highlight one entry right and saturates at Play Video; leaving Start lights the left-arrow indicator |
| SceneLogic.OnMenuEnter | DX11Framework/DX11Framework.cpp:2157-2178 | Enter on Start leaves the menu with fill and text on, rotation off, wave filter 0 and lighting and texturing on; on Play Video it starts the video; on Exit it posts quit |
| SceneLogic.MenuArrows | DX11Framework/DX11Framework.cpp:2134-2155 | the arrows keep Start and Play Video exclusive and change only the menu flags and indicators |
| SceneLogic.MenuFrame | DX11Framework/DX11Framework.cpp:2132-2183 | Escape in the menu always posts quit; the camera, slot, mouse and no-cull are untouched; exclusivity and 0/1 shading are kept |
| SceneLogic.KeysAndPresets | DX11Framework/DX11Framework.cpp:1800-2122 | the scene branch before movement never touches the indicators, mouse or mouse mode |
| SceneLogic.SceneFrameConsistent | DX11Framework/DX11Framework.cpp:1797-2130 | a scene frame keeps the frame invariants, and keeps fill and no-cull exclusive |
| SceneLogic.KeysAndPresetsConsistent | DX11Framework/DX11Framework.cpp:1800-2122 | the handlers before movement keep the invariants and exclusivity |
| SceneLogic.SceneKeysConsistent | DX11Framework/DX11Framework.cpp:1800-1940 | the toggles keep the invariants and exclusivity |
| SceneLogic.EscapeConsistent | DX11Framework/DX11Framework.cpp:2008-2026 | Escape establishes every invariant |
| SceneLogic.CameraChainConsistent | DX11Framework/DX11Framework.cpp:2029-2122 | the preset chain keeps the invariants and exclusivity |
| SceneLogic.ApplyPresetConsistent | DX11Framework/DX11Framework.cpp:2029-2122 | one preset keeps the invariants and exclusivity |
| SceneLogic.MovementConsistent | DX11Framework/DX11Framework.cpp:1517-1628 | debug movement keeps the invariants and exclusivity |
| SceneLogic.MenuFrameSteady | DX11Framework/DX11Framework.cpp:2132-2183 | a menu frame keeps the invariants |
| SceneLogic.UpdateKeepsSteady | DX11Framework/DX11Framework.cpp:1770-2185 | every frame keeps the invariants |
| SceneLogic.MenuFrameConsistent | DX11Framework/DX11Framework.cpp:2132-2183 | a menu frame entered with no-cull off keeps exclusivity, and no-cull stays off |
| SceneLogic.MenuEnteredWithCullingOn | DX11Framework/DX11Framework.cpp:2008-2122 | Escape enters the menu, with no-cull on exactly when the held preset key's preset turns it on |
| SceneLogic.EscapeWithPresetThenStart | DX11Framework/DX11Framework.cpp:2008-2178 | Escape with numpad 4 held, then Enter on Start, ends in the scene with fill and no-cull both on |
| SceneLogic.PresetFreezesMovement | DX11Framework/DX11Framework.cpp:2124-2129 | while a preset camera is active, the indicators, mouse and mouse mode do not change and nothing is asked of the system |
| SceneLogic.NumpadZeroWins | DX11Framework/DX11Framework.cpp:2029-2032 | holding numpad 0 always selects the debug camera |
| SceneLogic.MenuQuits | DX11Framework/DX11Framework.cpp:2157-2178 | Enter quits iff Exit is highlighted, starts the video iff Play Video is, and leaves the menu iff Start is |
| SceneLogic.ObjectRotation | DX11Framework/DX11Framework.cpp:1954-1964 | "Airplane" spins to (0, −angle, 0) while rotating and (0, 0, 0) otherwise, "Car" always tumbles to (−angle, −angle, 0), every other object keeps its rotation |
| SceneLogic.CubeWorlds | DX11Framework/DX11Framework.cpp:1942-2005 | cube 3 and the pyramid are placed in cube 2's frame, the pyramid offset by (10, 0, 2) |
| SceneLogic.StillWorldsIgnoreTime | DX11Framework/DX11Framework.cpp:1976-2005 | without rotation the world matrices do not depend on the angle |
| Framework.DeltaTime | DX11Framework/DX11Framework.cpp:1773-1778 | the frame time is the tick difference in seconds, and 0 on the first frame |
| Framework.ShaderEye | DX11Framework/DX11Framework.cpp:1638-1645 | the shader eye is the start position when the debug camera is in front of the origin, its own position when behind, unchanged when level |
| Framework.FrameEye | DX11Framework/DX11Framework.cpp:1471-1478 | of the two eye updates in a frame (before the slot switch and after the skybox), the second changes nothing when the switch keeps the debug camera, and decides alone whenever the final camera is off the z = 0 plane |
| Framework.ActiveCamera | DX11Framework/DX11Framework.cpp:1648-1731 | slot 0 views through the debug camera; slots 1-9 copy their preset's position and rotation into the debug camera and use its view and projection; the debug camera's projection is never overwritten |
| Framework.ActiveCameraFollows | DX11Framework/DX11Framework.cpp:1648-1731 | the view always matches the debug camera's placement, and re-copying the preset next frame changes nothing |
| Framework.DX11Framework.constructor | DX11Framework/DX11Framework.h:118-276 | the fields start as the header initialisers and start-up code set them: the menu flags, the zeroed payload with the default shading and pixelation 20, the four world matrices zero (never set before the first scene frame), the view and projection taken from the debug camera as DX11Framework.cpp:881-883 stores them; the class invariant holds |
| Framework.DX11Framework.OnMouseMove | DX11Framework/DX11Framework.cpp:32-42 | only the cursor position changes |
| Framework.DX11Framework.OnMouseWheel | DX11Framework/DX11Framework.cpp:44-62 | a positive delta leaves exactly the up notch pending, any other delta exactly the down notch |
| Framework.DX11Framework.ToggleFill | DX11Framework/DX11Framework.cpp:1800-1811 | the new state is `OnF3` of the old |
| Framework.DX11Framework.ToggleNoCull | DX11Framework/DX11Framework.cpp:1813-1825 | the new state is `OnF6` of the old |
| Framework.DX11Framework.RasterKeys | DX11Framework/DX11Framework.cpp:1800-1825 | the new state is `SceneLogic.RasterKeys` of the old |
| Framework.DX11Framework.FilterKeys | DX11Framework/DX11Framework.cpp:1827-1863 | the flags computed are `SceneLogic.FilterKeys` of the old |
| Framework.DX11Framework.LightingKeys | DX11Framework/DX11Framework.cpp:1865-1905 | the flags computed are `SceneLogic.LightingKeys` of the old |
| Framework.DX11Framework.ShadingKeys | DX11Framework/DX11Framework.cpp:1827-1905 | only the buffer's shading flags change, as `SceneLogic.ShadingKeys` says |
| Framework.DX11Framework.SceneKeys | DX11Framework/DX11Framework.cpp:1800-1940 | the new state is `SceneLogic.SceneKeys` of the old |
| Framework.DX11Framework.DisplayKeys | DX11Framework/DX11Framework.cpp:1907-1940 | the new state is `SceneLogic.DisplayKeys` of the old |
| Framework.DX11Framework.SetWorlds | DX11Framework/DX11Framework.cpp:1942-2005 | the four world matrices are `CubeWorlds` of the rotation flag and angle |
| Framework.DX11Framework.AnimateObjects | DX11Framework/DX11Framework.cpp:1954-1996 | every scene object's rotation becomes `ObjectRotation` of its name, and nothing else about it changes |
| Framework.DX11Framework.ReturnToMenu | DX11Framework/DX11Framework.cpp:2008-2026 | the new state is `OnEscape` of the old |
| Framework.DX11Framework.UsePreset | DX11Framework/DX11Framework.cpp:2033-2122 | the new state is `ApplyPreset` of the old |
| Framework.DX11Framework.SelectCamera | DX11Framework/DX11Framework.cpp:2029-2122 | the new state is `CameraChain` of the old |
| Framework.DX11Framework.PlanarMoved | DX11Framework/DX11Framework.cpp:1520-1538 | the camera and indicators returned are `PlanarKeys` of those given |
| Framework.DX11Framework.VerticalMoved | DX11Framework/DX11Framework.cpp:1540-1548 | the camera and indicators returned are `VerticalKeys` of those given |
| Framework.DX11Framework.MoveCamera | DX11Framework/DX11Framework.cpp:1520-1548 | the new state is `MoveStep` of the old |
| Framework.DX11Framework.ResetView | DX11Framework/DX11Framework.cpp:1550-1563 | the new state is `OnR` of the old |
| Framework.DX11Framework.Turned | DX11Framework/DX11Framework.cpp:1566-1585 | the camera and indicators returned are `ArrowKeys` of the current ones |
| Framework.DX11Framework.TurnCamera | DX11Framework/DX11Framework.cpp:1566-1585 | the new state is `TurnStep` of the old |
| Framework.DX11Framework.MouseLook | DX11Framework/DX11Framework.cpp:1600-1627 | the camera, mouse globals and requests are `SceneLogic.MouseLook` of the old ones |
| Framework.DX11Framework.MoveAndReset | DX11Framework/DX11Framework.cpp:1520-1563 | the new state is `SceneLogic.MoveAndReset` of the old |
| Framework.DX11Framework.KeyboardMovement | DX11Framework/DX11Framework.cpp:1520-1596 | the new state is `SceneLogic.KeyboardMovement` of the old |
| Framework.DX11Framework.HandleDebugMovement | DX11Framework/DX11Framework.cpp:1517-1628 | the new state and requests are `DebugMovement` of the old state |
| Framework.DX11Framework.MenuLeft | DX11Framework/DX11Framework.cpp:2134-2143 | the new state is `OnMenuLeft` of the old |
| Framework.DX11Framework.MenuRight | DX11Framework/DX11Framework.cpp:2145-2155 | the new state is `OnMenuRight` of the old |
| Framework.DX11Framework.MenuEnter | DX11Framework/DX11Framework.cpp:2157-2178 | the new state and requests are `OnMenuEnter` of the old |
| Framework.DX11Framework.MainMenuControls | DX11Framework/DX11Framework.cpp:2132-2183 | the new state and requests are `MenuFrame` of the old |
| Framework.DX11Framework.AnimateBackdrop | DX11Framework/DX11Framework.cpp:1786-1795 | the menu object is pitched 90 and turned by −angle; the skybox is moved to the debug camera and its rotation grows by 0.1·dt on each axis; the terrain matrix becomes the translation to (666, 666, 666); the frame names only those four fields, so no scene object changes |
| Framework.DX11Framework.Tick | DX11Framework/DX11Framework.cpp:1773-1784 | the angle and running time grow by the frame time, and the angle is copied into the buffer's `count` |
| Framework.DX11Framework.Advance | DX11Framework/DX11Framework.cpp:1773-1795 | the timer advances (frame start, angle, running time and the buffer's count); the four backdrop placements of `AnimateBackdrop` hold; the input state is unchanged and no scene object changes |
| Framework.DX11Framework.ToggleAndAnimate | DX11Framework/DX11Framework.cpp:1800-2005 | the new state is `SceneLogic.SceneKeys` of the old; only the shading flags of the payload change; the cube worlds and the scene objects are those the new rotation flag selects (`CubeWorlds`, `Animate`) |
| Framework.DX11Framework.EscapeAndPresets | DX11Framework/DX11Framework.cpp:2008-2122 | the new state is the preset chain applied after Escape, if pressed |
| Framework.DX11Framework.EscapeAndMove | DX11Framework/DX11Framework.cpp:2008-2129 | the new state and requests are the preset chain after Escape, then `DebugMovement` only when the slot after the chain is 0 (the debug camera); only the shading flags of the payload change |
| Framework.DX11Framework.SceneUpdate | DX11Framework/DX11Framework.cpp:1797-2130 | the new state and requests are `SceneFrame` of the old state; only the shading flags of the payload change; the cube worlds and scene objects are `CubeWorlds` and `Animate` with the rotation flag the toggles left |
| Framework.DX11Framework.Update | DX11Framework/DX11Framework.cpp:1770-2185 | the new state and requests are `UpdateScene` of the old state and the frame time; the class invariant is kept; the timer advances and the buffer's count is the new angle; the menu object, skybox and terrain take their backdrop placements (the skybox at the debug camera's position before the input moved it); in the menu the cube worlds and scene objects are unchanged, in the scene they are `CubeWorlds` and `Animate` with the frame's rotation flag |
| Framework.DX11Framework.Respond | DX11Framework/DX11Framework.cpp:1797-2184 | the new state and requests are `UpdateScene` of the old state; only the shading flags of the payload change; in the menu the cube worlds and scene objects are unchanged, in the scene they are `CubeWorlds` and `Animate` with the frame's rotation flag |
| Framework.DX11Framework.RenderTransparent | DX11Framework/DX11Framework.cpp:1027-1031 | binds the transparency blend with factor (0.25, 0.25, 0.25, 1) |
| Framework.DX11Framework.RenderOpaque | DX11Framework/DX11Framework.cpp:1033-1037 | binds the default blend with factor (1, 1, 1, 1) |
| Framework.DX11Framework.RestorePipeline | DX11Framework/DX11Framework.cpp:1483-1510 | appends the rasterizer the flags select, the scene shaders, the opaque blend and the default depth state |
| Framework.DX11Framework.UpdatePipelineVariables | DX11Framework/DX11Framework.cpp:1630-1768 | the debug camera, view and projection become `ActiveCamera` of the slot; the payload's eye, view and projection are updated; the setup commands are appended |
| Framework.DX11Framework.RenderSkybox | DX11Framework/DX11Framework.cpp:1459-1511 | the skybox is drawn with the payload as it stands and its world matrix is recomputed from its transform; then the eye follows the debug camera and the view and projection are reassigned in the payload |
| Framework.DX11Framework.DrawWithWorld | DX11Framework/DX11Framework.cpp:1355-1360 | the payload's world matrix is overwritten, uploaded and drawn with |
| Framework.DX11Framework.DrawPrimitives | DX11Framework/DX11Framework.cpp:1354-1386 | the four primitive draws are appended, and the payload is left holding the pyramid's matrix |
| Framework.DX11Framework.DrawObject | DX11Framework/DX11Framework.cpp:1390-1401 | a "Glass" object is drawn between the transparency and opaque blends, every other object directly; the object's world matrix becomes the one computed from its transform |
| Framework.DX11Framework.DrawGameObjects | DX11Framework/DX11Framework.cpp:1389-1402 | every scene object is drawn in vector order with the same payload; no object's transform or name changes, and every object's world matrix is the one computed from its transform |
| Framework.DX11Framework.DrawPass | DX11Framework/DX11Framework.cpp:1389-1401 | one pass of the object loop keeps every transform, appends exactly the object's pass, and leaves one more object with its world matrix recomputed, even when an object is listed twice |
| Framework.DX11Framework.RenderTerrain | DX11Framework/DX11Framework.cpp:1432-1456 | the terrain matrix is uploaded and every grid index drawn under the heightmap shaders |
| Framework.DX11Framework.DrawTerrainAndHud | DX11Framework/DX11Framework.cpp:1404-1411 | the terrain commands, then the HUD commands; the indicators are reset exactly when the debug text is on; the shading flags are untouched |
| Framework.DX11Framework.DrawUI | DX11Framework/DX11Framework.cpp:1039-1300 | the HUD is drawn only with text on, and only then are all ten indicators reset to up |
| Framework.DX11Framework.DrawMainMenu | DX11Framework/DX11Framework.cpp:1302-1338 | the entry `Highlight` selects is drawn highlighted |
| Framework.DX11Framework.DrawScene | DX11Framework/DX11Framework.cpp:1352-1412 | the primitives, the objects, the terrain and the HUD are appended in that order; the indicators are reset exactly when the debug text is on; no scene object moves and each one's world matrix is recomputed |
| Framework.DX11Framework.DrawMenuScreen | DX11Framework/DX11Framework.cpp:1413-1425 | the menu object is drawn under the transparency blend, then the menu; its world matrix is recomputed from its transform |
| Framework.DX11Framework.DrawPrelude | DX11Framework/DX11Framework.cpp:1346-1350 | `UpdatePipelineVariables` then `RenderSkybox` append the setup and skybox commands and leave the state the branch needs; the debug camera is the one the slot switch left; the skybox's world matrix is recomputed |
| Framework.DX11Framework.DrawBranch | DX11Framework/DX11Framework.cpp:1352-1425 | the branch the menu flag selects is appended; no scene object moves; in the scene every object's world matrix is recomputed, in the menu only the menu object's is and the scene objects' are untouched |
| Framework.DX11Framework.Draw | DX11Framework/DX11Framework.cpp:1340-1429 | the frame's commands are `FrameTrace` of the starting state; the indicators are reset only when the scene HUD is drawn; the shading flags are untouched; no object moves (scene objects, skybox, menu object); the skybox's world matrix and those of the objects drawn (the scene objects, or the menu object in the menu) are recomputed from their transforms, and in the menu the scene objects' are untouched |

## Left out

- Floating point: positions, angles, heights and times are reals, so rounding is not modelled.
- DirectXMath: matrices are symbolic products of translate, rotate and scale factors. The
  view and projection of a camera are symbolic too.
- `Camera.h` is not part of this model. A camera is a value holding position, rotation and
  projection parameters. Its forward, back, left and right vectors are the `basis` parameter.
- The debug camera's right-arrow and other movement math (`GetForwardVector` and the like)
  goes only through that parameter.
- Window creation, device and swap-chain creation, shader compilation, and buffer, state and
  sampler creation are left out. So are the viewport and the `WndProc` paint and destroy
  messages.
- Map/Unmap/memcpy are left out: an upload is a single `Upload` command. `RenderSkybox`'s
  extra `Map` before the skybox draw is not modelled.
- The vertex, index and texture binds of the cubes and pyramid are left out, as are the
  crate and logo textures bound at the end of `RenderSkybox`. The heightmap texture and
  sampler binds of `RenderTerrain` are left out too. Shader sets are one `UseShaders`
  command.
- The sprite-batch HUD and menu drawing are one command each. Only which entry is highlighted,
  whether the debug keys are shown, and the indicator reset are kept.
- JSON loading is left out. The scene cameras and game-object lists are constructor
  parameters. The light variables read from JSON are left out altogether, and so are the
  light, material and fog fields of the constant buffer: the payload keeps only the
  matrices, the time, the eye position, the shading flags and the pixelation amount.
  `LoadGameObject` is not modelled.
- The DDS and OBJ loaders are function parameters. The raw heightmap read is an optional byte
  sequence.
- `BuildHeightMaps` is left out. It only creates a GPU texture from the height data.
- Threads: the start-up fork-join loads run sequentially. The two threads of the
  `GameObject` and `Terrain` constructors touch disjoint fields. The cache is not thread-safe
  under concurrent loads, and that race is not modelled.
- `GetTickCount64` is the `now` parameter.
- `system`, `PostQuitMessage` and `SetCursorPos` are `Effect` values that `Update` returns.
- `GetAsyncKeyState` is the `FrameInput` record: the keys pressed since the last query, and
  the keys held.
- Framework.DeltaTime: requires the tick count not to go backwards. The source subtracts
  unsigned 64-bit tick counts, which would wrap, but `GetTickCount64` is monotonic.
- The first frame's `deltaTime` is 0 in the model. In the source it is the few milliseconds
  between the two calls to `GetTickCount64`.
- Framework.DX11Framework.Draw: requires three aliasing facts (the skybox and menu object are
  not scene objects and are distinct) rather than the whole class invariant. It does not
  restate the invariant afterwards; it states only that the shading flags are untouched.
- Destructors and `Main.cpp` (the message loop) are left out.
- The mouse globals are a field of the framework class rather than globals. The eight mode
  flags and the slot are grouped into one `Modes` record.
- Terrain.Terrain.BuildFlatGridVB: vertex normals are left at zero, as the source leaves them.
  Float rounding of the positions and texture coordinates is not modelled: the spacing is the
  truncated integer quotient, turned into an exact real.

## Findings

| source | as written | input that shows it | evidently intended | confidence | as-written member | corrected member |
|---|---|---|---|---|---|---|
| DX11Framework/Terrain.cpp:116-117 | `patchWidth = m_HeightmapWidth / (m_NumPatchVertCols - 1)` divides two `int`s, so the spacing is truncated before it is stored in a float | a 513-wide heightmap with 400 columns: 513 / 399 = 1, so the last column is at x = −256.5 + 399 = 142.5 | the grid spans the heightmap from −256.5 to +256.5, with spacing 513/399 | not executed | Terrain.AsWrittenCorners | Terrain.GridCornersSpanTexture |
