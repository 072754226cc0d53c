/** The Koi character instance: its render state, the frame callback that keeps
    the loaded texture in step with the shown frame, and the per-tick, set-animation,
    free and creation sequences. Every call into the engine (archive reader,
    texture upload, drawing, memory, the animation interpreter and the shared
    character hooks) is recorded as an event on the instance's trace. */
module KoiChar {
  import opened KoiTables
  import opened RenderCache

  /** What IO_Read returns: an opaque blob, identified by the path it was read from. */
  datatype Blob = Blob(path: string)

  /** What Archive_Find returns: an opaque handle on a named entry of an archive. */
  datatype Entry = Entry(archive: Blob, name: string)

  /** The bound texture: none yet, or the one uploaded from an archive entry. */
  datatype Texture = NoTexture | Loaded(data: Entry)

  /** A held pad button; the four directions and any other button. */
  datatype Button = PadLeft | PadDown | PadUp | PadRight | PadOther(id: nat)

  /** A FIXED_DEC(whole, unit) literal, kept as written. */
  datatype FixedDec = FixedDec(whole: int, unit: int)

  /** The calls the instance makes into the rest of the engine. */
  datatype Event =
    | AnimatableInit                     // Animatable_Init with the animation table
    | CharacterInit(x: int, y: int)      // Character_Init
    | IoRead(path: string)               // IO_Read
    | ArchiveFind(archive: Blob, name: string)
    | PerformIdle                        // Character_PerformIdle
    | Animate                            // Animatable_Animate
    | LoadTex(data: Entry)               // Gfx_LoadTex
    | Draw(tex: Texture, cframe: CharFrame)
    | SetAnimatable(anim: u8)            // Animatable_SetAnim
    | CheckStartSing                     // Character_CheckStartSing
    | MemFree(blob: Blob)               // Mem_Free

  const Directions: set<Button> := {PadLeft, PadDown, PadUp, PadRight}

  /** The idle dance may run: no directional button is held. */
  predicate IdleAllowed(padHeld: set<Button>) {
    padHeld !! Directions
  }

  /** The upload events for a list of loaded containers, given the entry of each container. */
  function LoadEvents(ptrs: seq<Entry>, loads: seq<ContainerId>): (r: seq<Event>)
    requires |ptrs| == ArcMax as int
    ensures |r| == |loads|
  {
    if loads == [] then [] else [LoadTex(ptrs[loads[0]])] + LoadEvents(ptrs, loads[1..])
  }

  /** Upload events of two lists of loads in a row are those of the joined list. */
  lemma {:induction false} LoadEventsAppend(ptrs: seq<Entry>, a: seq<ContainerId>, b: seq<ContainerId>)
    requires |ptrs| == ArcMax as int
    ensures LoadEvents(ptrs, a + b) == LoadEvents(ptrs, a) + LoadEvents(ptrs, b)
    decreases |a|
  {
    if a == [] {
      assert a + b == b;
    } else {
      assert (a + b)[1..] == a[1..] + b;
      LoadEventsAppend(ptrs, a[1..], b);
      var h := [LoadTex(ptrs[a[0]])];
      assert h + LoadEvents(ptrs, a[1..]) + LoadEvents(ptrs, b) == h + (LoadEvents(ptrs, a[1..]) + LoadEvents(ptrs, b));
    }
  }

  /** A trace that logged the uploads of `done` and then those of `step` has
      logged the uploads of `done + step`. */
  lemma TraceExtend(t0: seq<Event>, ptrs: seq<Entry>, done: seq<ContainerId>, step: seq<ContainerId>, tr: seq<Event>)
    requires |ptrs| == ArcMax as int
    requires tr == t0 + LoadEvents(ptrs, done) + LoadEvents(ptrs, step)
    ensures tr == t0 + LoadEvents(ptrs, done + step)
  {
    LoadEventsAppend(ptrs, done, step);
    var a, b := LoadEvents(ptrs, done), LoadEvents(ptrs, step);
    assert t0 + a + b == t0 + (a + b);
  }

  /** The archive entries New resolves, one per container in enum order. */
  function ArcEntries(arc: Blob): (r: seq<Entry>)
    ensures |r| == ArcMax as int
    ensures forall i :: 0 <= i < ArcMax as int ==> r[i] == Entry(arc, EntryName(i))
  {
    seq(ArcMax as int, i requires 0 <= i < ArcMax as int => Entry(arc, EntryName(i)))
  }

  /** The lookups of the first `n` entry names in `arc`. */
  function FindEvents(arc: Blob, n: int): (r: seq<Event>)
    requires 0 <= n <= ArcMax as int
    ensures |r| == n
    ensures forall i :: 0 <= i < n ==> r[i] == ArchiveFind(arc, EntryName(i))
  {
    seq(n, i requires 0 <= i < n => ArchiveFind(arc, EntryName(i)))
  }

  /** The calls New makes, in order. */
  function NewTrace(x: int, y: int): seq<Event> {
    [AnimatableInit, CharacterInit(x, y), IoRead(ArcPath)] + FindEvents(Blob(ArcPath), ArcMax as int)
  }

  /** The lookup loop of New: walk the NULL-terminated name list and store the
      entry found in `arc` for each name at the next slot of `arcPtr`. Returns
      the lookups made, in order. */
  method FindEntries(arc: Blob, arcPtr: array<Entry>) returns (calls: seq<Event>)
    requires arcPtr.Length == ArcMax as int
    modifies arcPtr
    ensures arcPtr[..] == ArcEntries(arc)
    ensures calls == FindEvents(arc, ArcMax as int)
  {
    calls := [];
    PathListTerminated();
    var i := 0;
    while PathList[i].Some?
      invariant 0 <= i <= ArcMax as int
      invariant forall k :: 0 <= k < i ==> arcPtr[k] == Entry(arc, EntryName(k))
      invariant calls == FindEvents(arc, i)
      decreases ArcMax as int - i
    {
      arcPtr[i] := Entry(arc, PathList[i].value);
      calls := calls + [ArchiveFind(arc, PathList[i].value)];
      i := i + 1;
    }
  }

  class Koi {
    // Character information.
    var spec: int
    var healthI: int
    var focusX: FixedDec
    var focusY: FixedDec
    var focusZoom: FixedDec

    // Render data and state.
    var arcMain: Blob
    const arcPtr: array<Entry>
    var tex: Texture
    var frame: u8
    var texId: u8

    /** The calls made so far, oldest first. */
    var trace: seq<Event>
    /** Free has released the archive. */
    ghost var freed: bool

    function CacheOf(): Cache
      reads this
    {
      Cache(frame, texId)
    }

    /** One entry per container; the render cache keeps its invariant and the
        bound texture is the one uploaded from the cached container's entry. */
    ghost predicate Valid()
      reads this, arcPtr
    {
      arcPtr.Length == ArcMax as int &&
      CacheInv(CacheOf()) &&
      (texId != Invalid ==> tex == Loaded(arcPtr[texId]))
    }

    /** The initialisation New performs once the instance is allocated. */
    constructor (x: int, y: int)
      ensures Valid() && !freed && fresh(arcPtr)
      ensures CacheOf() == Sentinel && tex == NoTexture
      ensures spec == 0 && healthI == 11
      ensures focusX == FixedDec(65, 1) && focusY == FixedDec(-85, 1) && focusZoom == FixedDec(1, 1)
      ensures arcMain == Blob(ArcPath) && arcPtr[..] == ArcEntries(arcMain)
      ensures trace == NewTrace(x, y)
    {
      trace := [AnimatableInit, CharacterInit(x, y)];
      spec := 0;
      healthI := 11;
      focusX := FixedDec(65, 1);
      focusY := FixedDec(-85, 1);
      focusZoom := FixedDec(1, 1);
      arcMain := Blob(ArcPath);
      trace := trace + [IoRead(ArcPath)];
      arcPtr := new Entry[ArcMax];
      tex := NoTexture;
      freed := false;
      new;
      var calls := FindEntries(arcMain, arcPtr);
      trace := trace + calls;
      frame := Invalid;
      texId := Invalid;
    }

    /** The frame callback: show frame `f`, uploading its container's texture
        only when that container is not the one already loaded. */
    method SetFrame(f: u8)
      requires Valid() && !freed
      requires f == frame || f < FrameCount
      modifies this`frame, this`texId, this`tex, this`trace
      ensures Valid()
      ensures CacheOf() == Step(old(CacheOf()), f).cache
      ensures tex == match Step(old(CacheOf()), f).load
                     case Some(t) => Loaded(arcPtr[t])
                     case None => old(tex)
      ensures trace == old(trace) + LoadEvents(arcPtr[..], LoadList(Step(old(CacheOf()), f).load))
    {
      if f != frame {
        frame := f;
        var cframe := FrameTable[f];
        TableTex(f);
        if cframe.tex != texId {
          texId := cframe.tex;
          tex := Loaded(arcPtr[texId]);
          trace := trace + [LoadTex(arcPtr[texId])];
        }
      }
    }

    /** The animation step as the instance sees it: the interpreter calls the
        frame callback once for each frame of `shown`, in order. */
    method ReportFrames(shown: seq<u8>)
      requires Valid() && !freed
      requires AllFrames(shown)
      modifies this`frame, this`texId, this`tex, this`trace
      ensures Valid()
      ensures CacheOf() == Run(old(CacheOf()), shown).cache
      ensures trace == old(trace) + [Animate] + LoadEvents(arcPtr[..], Run(old(CacheOf()), shown).loads)
      ensures Run(old(CacheOf()), shown).loads == [] ==> tex == old(tex)
    {
      trace := trace + [Animate];
      ShowFrames(shown);
    }

    /** The frame callback called once for each frame of `shown`, in order. */
    method ShowFrames(shown: seq<u8>)
      requires Valid() && !freed
      requires AllFrames(shown)
      modifies this`frame, this`texId, this`tex, this`trace
      ensures Valid()
      ensures CacheOf() == Run(old(CacheOf()), shown).cache
      ensures trace == old(trace) + LoadEvents(arcPtr[..], Run(old(CacheOf()), shown).loads)
      ensures Run(old(CacheOf()), shown).loads == [] ==> tex == old(tex)
    {
      ghost var c0 := CacheOf();
      ghost var t0 := trace;
      ghost var ptrs := arcPtr[..];
      ghost var tex0 := tex;
      ghost var done: seq<ContainerId> := [];
      var i := 0;
      while i < |shown|
        invariant 0 <= i <= |shown|
        invariant Valid() && arcPtr[..] == ptrs
        invariant Run(c0, shown).cache == Run(CacheOf(), shown[i..]).cache
        invariant Run(c0, shown).loads == done + Run(CacheOf(), shown[i..]).loads
        invariant trace == t0 + LoadEvents(ptrs, done)
        invariant done == [] ==> tex == tex0
      {
        ghost var before := CacheOf();
        RunAdvance(c0, shown, i, before, done);
        SetFrame(shown[i]);
        ghost var step := LoadList(Step(before, shown[i]).load);
        assert arcPtr[..] == ptrs;
        TraceExtend(t0, ptrs, done, step, trace);
        done := done + step;
        i := i + 1;
      }
      assert shown[i..] == [];
      assert done + [] == done;
    }

    /** One tick: the idle dance when no direction is held, then the animation
        step, which reports the frames in `shown` through the frame callback,
        then the draw of the current frame with the bound texture. */
    method Tick(padHeld: set<Button>, shown: seq<u8>)
      requires Valid() && !freed
      requires AllFrames(shown)
      requires frame != Invalid || shown != []
      modifies this`frame, this`texId, this`tex, this`trace
      ensures Valid()
      ensures CacheOf() == Run(old(CacheOf()), shown).cache
      ensures frame < FrameCount && tex == Loaded(arcPtr[Container(frame)])
      ensures trace == old(trace)
                       + (if IdleAllowed(padHeld) then [PerformIdle] else [])
                       + [Animate]
                       + LoadEvents(arcPtr[..], Run(old(CacheOf()), shown).loads)
                       + [Draw(tex, FrameTable[frame])]
    {
      if padHeld !! Directions {
        trace := trace + [PerformIdle];
      }
      ReportFrames(shown);
      trace := trace + [Draw(tex, FrameTable[frame])];
    }

    /** Set the animation, then let the shared hook decide whether singing starts. */
    method SetAnim(anim: u8)
      requires !freed
      modifies this`trace
      ensures trace == old(trace) + [SetAnimatable(anim), CheckStartSing]
    {
      trace := trace + [SetAnimatable(anim)];
      trace := trace + [CheckStartSing];
    }

    /** Release the archive that holds every container. */
    method Free()
      requires !freed
      modifies this`trace, this`freed
      ensures freed
      ensures trace == old(trace) + [MemFree(arcMain)]
    {
      trace := trace + [MemFree(arcMain)];
      freed := true;
    }
  }

  /** Create a Koi instance at (x, y); `obtained` is whether memory for it was
      obtained. Without it there is no instance and nothing else is done. */
  method New(x: int, y: int, obtained: bool) returns (c: Koi?)
    ensures c != null <==> obtained
    ensures c != null ==> fresh(c) && fresh(c.arcPtr) && c.Valid() && !c.freed
    ensures c != null ==> c.CacheOf() == Sentinel && c.trace == NewTrace(x, y)
    ensures c != null ==> c.arcMain == Blob(ArcPath) && c.arcPtr[..] == ArcEntries(c.arcMain)
    ensures c != null ==> c.spec == 0 && c.healthI == 11
    ensures c != null ==> c.focusX == FixedDec(65, 1) && c.focusY == FixedDec(-85, 1) && c.focusZoom == FixedDec(1, 1)
    ensures c != null ==> c.tex == NoTexture
  {
    if !obtained {
      return null;
    }
    c := new Koi(x, y);
  }
}
