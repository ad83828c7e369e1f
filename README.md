# OnionEngine input, asset and model core, in Dafny

This project models three parts of the OnionEngine renderer and proves properties of them.

**Input sampling** (`inputs_manager.hpp` / `inputs_manager.cpp`):
- `KeyInputControl` turns "is the key down now" and the clock into two per-frame signals:
  - *pressed*: on the initial press, again after the repeat delay, then once every repeat interval;
  - *double-pressed*: two up→down edges inside the double-press window, after which the pair is consumed.
- `InputsManager` samples the window once per frame and drives five such controls: left and right mouse button, Plus, Minus and Space.
- It copies eight keys without repeat logic: W, S, A, D, Space, Escape, LShift and LCtrl.
- It tracks the cursor delta while the mouse is captured, with Y inverted and the baseline re-armed whenever capture starts.
- It keeps the framebuffer size and the scroll offsets written by window callbacks. Each has a one-shot "changed" flag that only the matching getter clears.
- It assembles the `InputsSnapshot` handed to the camera and UI stage.

**Asset caches** (`asset_manager.hpp` / `asset_manager.cpp`):
- `AssetManager` owns every texture, keyed by file path, and every material, keyed by name.
- Both lookups are get-or-insert.
- A texture that fails to load is reported and not cached.
- `FreeAllAssets` deletes the GPU side of every cached texture and of every texture a cached material points at, then empties both caches.

**Model flattening** (`model.cpp`):
- `Model` walks the imported scene's node tree in pre-order.
- Each node contributes the meshes it references, in its own order, before its children contribute theirs.
- Each mesh keeps its vertices in order: position, normal, and the UV from texture-coordinate set 0, or (0, 0) without one.
- Each mesh keeps the indices of all its faces, face after face.
- `SetMaterial` gives every mesh the same material.

Files and modules:
- `wrappers.dfy` (`Wrappers`): `Option`, `Result` (a C++ `throw` becomes `Err`) and `Outcome`.
- `key_input_control.dfy` (`KeyRepeat`): the pure one-frame step `Step` over a `ControlState` value, and the class `KeyInputControl` whose `Update` rewrites its fields in place. `Update` is proved equal to `Step`.
- `key_repeat_traces.dfy` (`KeyRepeatTraces`): `Run`, which folds `Step` over a sequence of samples, and properties of whole histories. These include the default-timing hold schedule and the pairing of quick taps.
- `inputs_manager.dfy` (`Inputs`): the class `InputsManager`, the snapshot record and the raw window state read in one poll.
- `inputs_scenarios.dfy` (`InputsScenarios`): frame-loop usage of the manager.
- `asset_manager.dfy` (`Assets`): `Texture`, `Material` and `AssetManager`.
- `asset_scenarios.dfy` (`AssetScenarios`): cache behaviour as callers see it.
- `model.dfy` (`Models`):
  - the importer's scene as datatypes (`AiScene`, `AiNode`, `AiMesh`, `AiFace`);
  - the reference functions `MeshOf` and `Flatten`;
  - the class `Model`, whose methods are proved against those functions.
- `model_scenarios.dfy` (`ModelScenarios`): loading and material assignment as callers see it.

Parameters stand for what the model cannot see:
- The clock reading (`glfwGetTime`) is `now`.
- The polled key and button states (`glfwGetKey`, `glfwGetMouseButton`) are a `RawInputs` record.
- The cursor position (`glfwGetCursorPos`) is `cursorX` and `cursorY`.
- The GL name a texture upload produced is `uploadedId`. It is 0 when the image could not be decoded, so "loaded" means a name other than 0.
- The importer's result is an `Option<AiScene>` plus its error string.
- Cursor-mode changes (`glfwSetInputMode`) are appended to the log `cursorModeRequests`.

What the code does, and the model with it:
- The five repeat controls are fixed members, and their timing is never reassigned after construction, so the timing fields are `const` here.
- With capture disabled, `PoolMouseMovement` returns at once, and the previous offsets stay in the snapshot (`InputsScenarios.FreeCursorKeepsLastDelta`).
- The snapshot carries the resized and scroll-changed flags, not the size or the scroll values.
- Only `GetFramebufferSize` and `GetMouseScrollOffset` clear those flags; taking a snapshot leaves them set.

## Model

| member | source | states |
|---|---|---|
| KeyRepeat.Step | src/onion/renderer/inputs_manager/inputs_manager.cpp:215-272 | The new raw state is remembered. Pressed implies the key is down. An up→down edge sets pressed and held, re-arms the first delay and stamps the time. A held key fires exactly when the current wait (delay, then interval) has elapsed; firing clears the first delay and re-stamps. Release clears pressed and held, re-arms and zeroes the time. Double-pressed holds iff there is an edge within the window of a non-zero candidate. Detection resets the candidate to 0, another edge makes `now` the candidate, and no edge keeps it. `Inv` is preserved. |
| KeyRepeat.KeyInputControl.constructor | src/onion/renderer/inputs_manager/inputs_manager.hpp:70-86 | The timing is 0.6 / 0.4 / 0.5 and the state is idle: not down, pressed, held or double-pressed, first delay armed, both times 0. |
| KeyRepeat.KeyInputControl.Update | src/onion/renderer/inputs_manager/inputs_manager.cpp:215-272 | The in-place field updates leave exactly the state `Step` gives for the old state, the key state and `now`. |
| KeyRepeatTraces.HeldFollowsLastSample | src/onion/renderer/inputs_manager/inputs_manager.cpp:219-255 | After any history from a reachable state, the state is reachable again and held equals the last sample's key state. |
| KeyRepeatTraces.DoublePressConsumesPair | src/onion/renderer/inputs_manager/inputs_manager.cpp:258-269 | Twice the number of double presses plus the pending candidate never exceeds the number of edges plus the candidate at the start: each detection uses up two edges of its own. |
| KeyRepeatTraces.DoublePressesFromIdle | src/onion/renderer/inputs_manager/inputs_manager.cpp:258-269 | From a new control, double presses are at most half of the edges. |
| KeyRepeatTraces.HoldRepeatsOnSchedule | src/onion/renderer/inputs_manager/inputs_manager.cpp:219-255 | With default timing, a key held from 0.0 to 1.5 in 0.1 s frames fires at exactly 0.0, 0.6, 1.0 and 1.4. It is held through 1.5 and not after the release at 1.6. |
| KeyRepeatTraces.TapsPairUpOnce | src/onion/renderer/inputs_manager/inputs_manager.cpp:258-269 | Taps 0.2 s apart: the second completes a double press. The third does not, because the pair consumed the second tap. The fourth completes the next pair. |
| KeyRepeatTraces.PressAtTimeZeroNeverPairs | src/onion/renderer/inputs_manager/inputs_manager.cpp:262 | A press stamped exactly 0.0 is indistinguishable from "no candidate", so it never becomes the first half of a double press. |
| Inputs.InputsManager.constructor | src/onion/renderer/inputs_manager/inputs_manager.hpp:95-127 | Capture is on with the baseline pending. The cursor offsets, the last cursor position and the scroll offsets are 0, no notifications are pending, and the size is 800×600. There are five distinct idle controls with default timing, and the snapshot equals the default `InputsSnapshot`. |
| Inputs.InputsManager.PoolInputs | src/onion/renderer/inputs_manager/inputs_manager.cpp:14-20 | It records the clock, moves the cursor state as `MovedCursor` says, steps both mouse controls and polls the keyboard. The controls stay distinct and reachable. |
| Inputs.InputsManager.PoolMouseMovement | src/onion/renderer/inputs_manager/inputs_manager.cpp:22-45 | With capture off nothing changes. Otherwise a pending baseline is taken from the current position, so the delta is (0, 0). The offsets are (x − lastX, lastY − y), the position is stored and the baseline is no longer pending. |
| Inputs.InputsManager.PoolMouseInputs | src/onion/renderer/inputs_manager/inputs_manager.cpp:47-50 | The right and left button controls each take one `Step` with their button state. |
| Inputs.InputsManager.PollPlainKeys | src/onion/renderer/inputs_manager/inputs_manager.cpp:54-108 | The eight plain keys equal the polled state; either Control key sets LCtrl. |
| Inputs.InputsManager.PollKeyboardInputs | src/onion/renderer/inputs_manager/inputs_manager.cpp:52-118 | The plain keys follow the poll. The Plus control steps with `=` or keypad +, Minus with `-` or keypad −, and Space with Space. |
| Inputs.InputsManager.GetInputsSnapshot | src/onion/renderer/inputs_manager/inputs_manager.cpp:120-151 | A reported button, Plus or Minus is held down. A Space double press is also a Space press. The resized and scroll flags are reported as they stand (not consumed). |
| Inputs.InputsManager.FramebufferSizeCallback | src/onion/renderer/inputs_manager/inputs_manager.cpp:169-174 | It stores the size and sets the resized flag. |
| Inputs.InputsManager.MouseScrollCallback | src/onion/renderer/inputs_manager/inputs_manager.cpp:176-181 | It stores the scroll offsets and sets the changed flag. |
| Inputs.InputsManager.SetMouseCaptureEnabled | src/onion/renderer/inputs_manager/inputs_manager.cpp:183-196 | Enabling always requests a locked cursor and re-arms the baseline only when capture was off. Disabling requests a normal cursor only when capture was on. |
| Inputs.InputsManager.GetFramebufferSize | src/onion/renderer/inputs_manager/inputs_manager.cpp:202-207 | It returns the stored size and clears the resized flag. |
| Inputs.InputsManager.GetMouseScrollOffset | src/onion/renderer/inputs_manager/inputs_manager.cpp:209-213 | It returns the stored offsets and clears the changed flag. |
| InputsScenarios.Frame | src/onion/renderer/inputs_manager/inputs_manager.cpp:120-151 | After a poll the snapshot echoes the plain keys. A reported button or repeat key is down. A button, Plus or Minus that just went down is reported on that frame. The offsets are the cursor state's. |
| InputsScenarios.ResizeReportedUntilFetched | src/onion/renderer/inputs_manager/inputs_manager.cpp:202-207 | A resize shows in the snapshot until the size is fetched, and the fetch returns the callback's size. |
| InputsScenarios.ScrollReportedUntilFetched | src/onion/renderer/inputs_manager/inputs_manager.cpp:209-213 | A scroll shows in the snapshot until the offsets are fetched, and the fetch returns the callback's offsets. |
| InputsScenarios.ScrollBeforeCallbackIsZero | src/onion/renderer/inputs_manager/inputs_manager.hpp:103-105 | Fetching the scroll offsets of a new manager returns (0, 0), and the changed flag stays clear. |
| InputsScenarios.RecaptureStartsAtRest | src/onion/renderer/inputs_manager/inputs_manager.cpp:183-196 | The first frame and the first frame after release-and-recapture report no motion. The window was asked to release, then lock. |
| InputsScenarios.FreeCursorKeepsLastDelta | src/onion/renderer/inputs_manager/inputs_manager.cpp:22-25 | Captured motion gives (x1 − x0, y0 − y1). With capture off, the next frame keeps those offsets. |
| Assets.Texture.constructor | src/onion/renderer/texture/texture.hpp:29-30 | A new texture remembers its path and has GL name 0. |
| Assets.Texture.Bind | src/onion/renderer/texture/texture.cpp:72-80 | After the upload, the texture's GL name is the one produced. |
| Assets.Texture.Delete | src/onion/renderer/texture/texture.cpp:86-89 | The GL name becomes 0, so the texture no longer counts as loaded. |
| Assets.Material.constructor | src/onion/renderer/material/material.hpp:14-16 | All three slots are empty. |
| Assets.AssetManager.constructor | src/onion/renderer/asset_manager/asset_manager.hpp:54-55 | Both caches are empty. |
| Assets.AssetManager.LoadTexture | src/onion/renderer/asset_manager/asset_manager.cpp:7-23 | A cached path returns its texture with the cache unchanged. A miss that did not load fails with "Failed to load texture: " + path and caches nothing. Otherwise a fresh loaded texture for the path is cached under it and returned. Every entry stays under its own path. |
| Assets.AssetManager.CreateMaterial | src/onion/renderer/asset_manager/asset_manager.cpp:25-40 | A known name returns its material with the cache unchanged. Otherwise a fresh material with empty slots is added under the name, and no other entry changes. |
| Assets.AssetManager.FreeAllAssets | src/onion/renderer/asset_manager/asset_manager.cpp:42-67 | Every texture that was cached and every texture a cached material's slot pointed at has GL name 0, and both caches are empty. |
| Assets.DeleteTextures | src/onion/renderer/asset_manager/asset_manager.cpp:44-47 | After the first loop, every cached texture is deleted. |
| Assets.DeleteMaterialSlots | src/onion/renderer/asset_manager/asset_manager.cpp:50-64 | After the second loop, every slot texture of every material is deleted, and textures already deleted stay deleted. |
| Assets.DeleteSlots | src/onion/renderer/asset_manager/asset_manager.cpp:53-63 | Each non-empty slot of one material is deleted. |
| AssetScenarios.LoadTwice | src/onion/renderer/asset_manager/asset_manager.cpp:9-22 | After a successful load, loading the same path again returns the same texture. After a failed load nothing was cached, and the second load succeeds iff its upload does. |
| AssetScenarios.DistinctPaths | src/onion/renderer/asset_manager/asset_manager.cpp:14-22 | Two paths give two distinct textures, each with its own path, and two cache entries. |
| AssetScenarios.MaterialsByName | src/onion/renderer/asset_manager/asset_manager.cpp:25-40 | The same name gives the same material. Different names give different materials, and there is one entry per distinct name. |
| AssetScenarios.TeardownDeletesCached | src/onion/renderer/asset_manager/asset_manager.cpp:42-48 | A cached texture is deleted by the teardown, and both caches end empty. |
| AssetScenarios.TeardownDeletesSlotTexture | src/onion/renderer/asset_manager/asset_manager.cpp:50-65 | A texture reachable only through a material slot is deleted too. |
| Models.MeshOfContents | src/onion/renderer/model/model.cpp:66-101 | Vertex i has position i, normal i, and the UV of set 0 or (0, 0). The indices are the faces' indices in face order, their count is the faces' total, and no material is set. |
| Models.FaceIndicesLength | src/onion/renderer/model/model.cpp:96-101 | The index list is exactly as long as the sum of the face sizes. |
| Models.FaceIndicesAppend | src/onion/renderer/model/model.cpp:96-101 | Collecting the indices of two runs of faces is the concatenation of the two. |
| Models.OwnMeshesInOrder | src/onion/renderer/model/model.cpp:52-56 | A node contributes one mesh per reference, the i-th being built from the referenced scene mesh. |
| Models.OwnMeshesFirst | src/onion/renderer/model/model.cpp:52-56 | A node's own meshes open its flattened list, in the order it references them. |
| Models.ChildSubtreeInPlace | src/onion/renderer/model/model.cpp:58-59 | Child k's whole subtree appears contiguously right after the node's own meshes and the subtrees of children 0..k−1. |
| Models.FlattenChildrenPrefix | src/onion/renderer/model/model.cpp:58-59 | The subtrees of the first m children start the subtrees of the first n ≥ m children. |
| Models.FlattenCount | src/onion/renderer/model/model.cpp:50-60 | The flattened list has one mesh per mesh reference in the whole tree. |
| Models.FlattenChildrenCount | src/onion/renderer/model/model.cpp:58-59 | The first n children's subtrees hold as many meshes as they have references. |
| Models.ProcessMesh | src/onion/renderer/model/model.cpp:62-104 | The vertex and face loops build exactly `MeshOf(m)`. Its contents are stated by `MeshOfContents`. |
| Models.Model.constructor | src/onion/renderer/model/model.hpp:25-26 | A new model has no meshes and no material. |
| Models.Model.Load | src/onion/renderer/model/model.cpp:33-48 | A missing scene or root fails with the importer's message and adds nothing. Otherwise the tree's meshes are appended in pre-order. |
| Models.Model.ProcessNode | src/onion/renderer/model/model.cpp:50-60 | The existing meshes are kept, and `Flatten` of the node's tree is appended. |
| Models.Model.SetMaterial | src/onion/renderer/model/model.cpp:20-26 | The model remembers the material. Every mesh now uses it, and nothing else about any mesh changes. |
| ModelScenarios.LoadNew | src/onion/renderer/model/model.cpp:33-48 | On a new model, a failed import leaves it empty. A successful one gives the pre-order list with one mesh per reference. |
| ModelScenarios.MaterialReachesEveryMesh | src/onion/renderer/model/model.cpp:20-31 | `GetMaterial` returns what `SetMaterial` stored. Every mesh uses it, with vertices and indices unchanged. |
| ModelScenarios.TriQuadIndices | src/onion/renderer/model/model.cpp:96-101 | The faces [0,1,2] and [2,1,3,4] give the indices [0,1,2,2,1,3,4]. |
| ModelScenarios.ParentBeforeChild | src/onion/renderer/model/model.cpp:50-60 | A root referencing mesh 1 with a child referencing mesh 0 flattens to [mesh 1, mesh 0]. |

## Left out

- Threads and locks: the two `shared_mutex`es and the render thread are not modelled. Every operation is one atomic step, so the inconsistent locking (`GetMouseScrollOffset` takes none, and the snapshot reads the scroll flag under the framebuffer lock) is not examined.
- `Init` and `InitCallbacks`: the window user pointer, the callback registration and the initial `glfwGetFramebufferSize`, which overwrites 800×600 with the real size, are not modelled.
- Clock reads: in the C++, `PoolInputs` and each control's `Update` read `glfwGetTime` separately. The model uses one reading, `now`, per frame.
- KeyRepeat.Step: times are exact reals, and the defaults are exactly 0.6, 0.4 and 0.5. The C++ stores the float literals 0.6f, 0.4f and 0.5f in doubles. 0.5f is exactly 0.5, so the double-press window is the same. 0.6f and 0.4f are slightly larger than 0.6 and 0.4, so a repeat due exactly at 0.6 s in the model fires one frame later in the C++.
- Float narrowing: cursor positions and offsets are exact reals. The C++ narrows them to `float`, as it does the scroll offsets.
- Plain keys: the eight `bool` members `m_KeyW` … `m_KeyLCtrl` are held as one record field, `keys`, with the same eight booleans.
- Texture decoding and upload (stb_image, GL calls) are reduced to the parameter `uploadedId`.
- Assets.Texture.Bind: the "upload only once" guard (texture.cpp:74-76) is not modelled; every call stores `uploadedId`. `LoadTexture`, the only caller in the core, binds each new texture exactly once.
- FreeAllAssets: the C++ destroys the cached textures at `m_Textures.clear()` and may then call `Delete` through material slots that point at them, a use after free. The model treats textures as handles that outlive the cache, so that hazard is not captured.
- The inline `LoadTexture` and `CreateMaterial` in asset_manager.hpp repeat the .cpp definitions line for line. Each is modelled once.
- Meshes: the C++ `Mesh` uploads its data to GPU buffers and keeps only `indexCount`. The model keeps the vertex and index lists, and `IndexCount()` is their length. The 32-bit index type is `nat`.
- The importer: the `ReadFile` call and its flags are outside the model. `SceneWellFormed` states what the importer guarantees and the C++ relies on: a normal and, with set 0, a texture coordinate for every vertex, and mesh references within the scene.
- `Model::Draw`, the `Model(path)` constructor (modelled as `Model()` followed by `Load`), texture_manager.hpp, camera, renderer, skybox, opengl_helper.h and Engine.cpp are not part of this model.
- Getters without a contract of their own (`IsPressed`, `IsDoublePressed`, `IsMouseCaptureEnabled`, `HasBeenLoaded`, `GetMaterial`) are modelled as plain reads. The scenarios above state what they return.
