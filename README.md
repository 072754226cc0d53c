# Koi character: render cache, tables and lifecycle

This project models the Koi character of a PlayStation rhythm-game engine
(`src/character/koi.c`). It covers three things:

- **The render cache.** The instance keeps two bytes, `frame` (the frame shown)
  and `tex_id` (the container whose texture is loaded). New sets both to the
  sentinel `0xFF`. The frame callback `Char_Koi_SetFrame` records a new frame
  and uploads a texture only when the new frame's container differs from the
  one loaded.
- **The constant tables.** There are 12 frames (container, source rectangle,
  anchor) and one animation script per animation id.
- **The lifecycle.** `Char_Koi_New` allocates the instance, resolves one
  archive entry per container in enum order and sets the sentinels.
  `Char_Koi_Tick` runs idle → animate → draw. `Char_Koi_SetAnim` sets the
  animation and then checks for singing. `Char_Koi_Free` frees the archive.

Layout:

- `KoiTables.dfy` holds the container ids, the frame table, the animation
  table (script bytes as tokens) and the entry-name list, with their
  well-formedness lemmas.
- `RenderCache.dfy` gives the cache as values. `Step` is one callback call
  and `Run` is a sequence of them. The lemmas show that the loads are exactly
  the changes of container along the frames shown (`Changes`), so no texture
  is uploaded twice in a row.
- `KoiChar.dfy` holds the class `Koi`, with the source's fields. Its methods
  change those fields in place and are proved against `Step`/`Run`. Every
  call into the rest of the engine, except the allocation and the error
  report, is appended to the instance's `trace`: archive reads, texture
  uploads, drawing, freeing, the animation interpreter and the shared
  idle/sing hooks. The trace is how ordering and gating are
  stated.

Collaborators and inputs:

- `IO_Read(path)` is `Blob(path)`.
- `Archive_Find(arc, name)` is the opaque handle `Entry(arc, name)`.
- `Gfx_LoadTex(&tex, data, 0)` sets `tex` to `Loaded(data)` and records `LoadTex(data)`.
- The outcome of `Mem_Alloc` is the parameter `obtained` of `New`.
- The director's `pad_held` is the parameter `padHeld` of `Tick`.
- What `Animatable_Animate` reports through the frame callback during a tick
  is the parameter `shown` of `Tick`.

## Model

| member | source | states |
|---|---|---|
| `KoiTables.Container` | src/character/koi.c:41-58 | every frame is drawn from an existing container, below `Koi_Arc_Max` |
| `KoiTables.TableTex` | src/character/koi.c:41-58 | the `tex` field of the table entry for frame `f` is `Container(f)`: frames come two per container, in container order |
| `KoiTables.FrameTableWellFormed` | src/character/koi.c:41-58 | the frame table has 12 entries and each names an existing container (0..5), the one `Container` gives |
| `KoiTables.AltEntriesFallBack` | src/character/koi.c:63-69 | each Alt entry is the single change-animation `ASCR_CHGANI, CharAnim_Idle` |
| `KoiTables.AnimFramesFromOwnContainers` | src/character/koi.c:47-68 | Left, Down, Up and Right show only frames of their own container |
| `KoiTables.AnimTableWellFormed` | src/character/koi.c:60-70 | the animation table has one entry per animation id (9), and every frame-index byte of every script is below 12 |
| `KoiTables.EntryName` | src/character/koi.c:146-154 | the name list holds a name at each container index, in enum order |
| `KoiTables.PathListTerminated` | src/character/koi.c:146-154 | the name list has exactly `Koi_Arc_Max` names before its NULL terminator |
| `RenderCache.Step` | src/character/koi.c:73-85 | the cached frame becomes `f`; the same frame changes nothing; a load happens iff `f` differs from the cached frame and its container differs from `tex_id`, and then `tex_id` becomes that container |
| `RenderCache.StepKeepsInv` | src/character/koi.c:78-84 | the cache invariant (sentinel, or a valid frame whose container is `tex_id`) is preserved; under it a load happens iff the container changes |
| `RenderCache.FirstStepLoads` | src/character/koi.c:160 | from the sentinel set at creation, the first frame always loads its container |
| `RenderCache.SharedContainerNoReload` | src/character/koi.c:42-43 | frames 0 then 1 (both Idle0) cause no load on the second |
| `RenderCache.Run` | src/character/koi.c:73-85 | a sequence of callback calls leaves the last frame shown and loads at most once per frame |
| `RenderCache.Changes` | src/character/koi.c:82-83 | the changes of container along a sequence never repeat the previous one |
| `RenderCache.RunLoadsChanges` | src/character/koi.c:78-84 | from any state satisfying the invariant, the loads are exactly the changes of container along the frames shown; the invariant holds after and `tex_id` is the last frame's container |
| `RenderCache.NoRedundantLoads` | src/character/koi.c:82-83 | no container is loaded twice in a row, and the first load replaces a different container |
| `RenderCache.OneContainerLoadsOnce` | src/character/koi.c:82-83 | frames sharing one container load it at most once, and not at all if it is loaded already |
| `RenderCache.DirectionalLoopLoadsOnce` | src/character/koi.c:60-70 | any frames of a directional animation load that direction's texture at most once |
| `RenderCache.IdleLoopLoads` | src/character/koi.c:42-45 | the Idle frames 0..3 from the sentinel load Idle0 and then Idle1, nothing more |
| `KoiChar.ArcEntries` | src/character/koi.c:146-157 | the entries New resolves are one per container, looked up by that container's name in the Koi archive |
| `KoiChar.Koi.SetFrame` | src/character/koi.c:73-85 | the fields change as `Step` says; `tex` is uploaded from `arc_ptr[tex_id]` exactly when a load happens; nothing else changes |
| `KoiChar.Koi.ShowFrames` | src/character/koi.c:73-85 | successive calls of the frame callback take the cache as `Run` does, record exactly `Run`'s uploads in order, and leave the bound texture alone when nothing is uploaded |
| `KoiChar.Koi.ReportFrames` | src/character/koi.c:96 | the interpreter's callback calls take the cache as `Run` does and record exactly `Run`'s loads, in order; with no load the bound texture is unchanged |
| `KoiChar.Koi.Tick` | src/character/koi.c:87-98 | the idle routine is called iff no direction is held; the order is idle, animate, uploads, draw; the drawn texture is always the one of the drawn frame's container |
| `KoiChar.Koi.SetAnim` | src/character/koi.c:100-105 | `Animatable_SetAnim(anim)` is called, then `Character_CheckStartSing` |
| `KoiChar.Koi.Free` | src/character/koi.c:107-113 | the archive `arc_main` is freed |
| `KoiChar.FindEntries` | src/character/koi.c:146-157 | the loop over the NULL-terminated name list fills `arc_ptr` with one lookup per container in enum order and makes exactly those lookups |
| `KoiChar.Koi.constructor` | src/character/koi.c:126-160 | Animatable_Init, Character_Init, the archive read and the six entry lookups happen in that order; `arc_ptr[i]` is the entry named by the i-th path; spec 0, health icon 11, the focus literals; sentinels 0xFF |
| `KoiChar.New` | src/character/koi.c:115-163 | returns NULL iff allocation fails; otherwise a fresh instance with the constructor's calls, sentinels, entries, spec, health icon, focus literals and no texture |

## Left out

- The animation interpreter (`Animatable_Init`, `Animatable_Animate`, `Animatable_SetAnim`) is defined outside `koi.c`, and so are the opcode values `ASCR_BACK`/`ASCR_CHGANI`. Scripts are kept as tokens. The byte after an opcode is kept as an opaque operand. The leading field of each `Animation` entry is kept uninterpreted. Looping, jumps and animation changes are not modelled.
- `KoiChar.Koi.Tick`: the frames the interpreter reports in a tick are a parameter. Tick requires that a frame has been reported before the first draw: otherwise the source reads `char_koi_frame[0xFF]`, out of bounds. Whether the interpreter guarantees this cannot be seen in `koi.c`.
- `KoiChar.Koi.Tick`: `Character_PerformIdle` may itself call `set_anim`. The model records only the call, not what it does.
- Archive and file I/O, texture upload, drawing and memory are opaque events or handles. `Archive_Find` is assumed to find every named entry (the source does not check). The third argument of `Gfx_LoadTex` (always 0) is not recorded.
- The error report on allocation failure (`sprintf` into `error_msg`, `ErrorLock`) is a global side effect and is not modelled. New returns null.
- `FIXED_DEC` is defined outside `koi.c`. The focus values are kept as the literal arguments `FixedDec(65, 1)` etc. The position `x, y` is only passed on to `Character_Init`.
- The hook pointers `tick`, `set_anim` and `free` stored in the instance are the class's methods. They are not stored as values.
- `CharAnim_Max` and the `INPUT_*` bits are defined in headers that are not part of this model. The animation count is taken as 9, the number of initialisers in the table. Held buttons are a set of named buttons.
- Use after `Free` is excluded by a precondition (a ghost `freed` flag), since the source has undefined behaviour there.
- `Char_Koi_SetAnim` does not validate the animation id; the model passes it on unchecked.
- `Char_Koi_New` does not check that archive entries exist; the model records each lookup as a handle.
- `KoiChar.Koi.SetFrame`, `RenderCache.Step`: frame bytes of 12 or more are excluded by a precondition (unless equal to the cached frame), since the source then reads past `char_koi_frame`, which is undefined behaviour. Every frame byte of every script is below 12 (`AnimTableWellFormed`).
- `KoiChar.Koi.constructor`: the source leaves the `tex` field uninitialised until the first upload; the model starts it as `NoTexture`.
