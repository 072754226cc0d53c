/** The render cache of the Koi character as values: the shown frame and the id of
    the container whose texture is loaded, and the texture loads that a sequence of
    frame changes causes. */
module RenderCache {
  import opened KoiTables

  datatype Cache = Cache(frame: u8, texId: u8)

  /** The state New leaves the cache in, so that the first frame always loads. */
  const Sentinel: Cache := Cache(Invalid, Invalid)

  /** Either nothing has been shown yet, or a valid frame is shown and the loaded
      texture is the one its container holds. */
  predicate CacheInv(c: Cache) {
    c == Sentinel || (c.frame < FrameCount && c.texId == Container(c.frame))
  }

  /** The cache after one frame change and the container loaded by it, if any. */
  datatype StepResult = StepResult(cache: Cache, load: Option<ContainerId>)

  /** One call of the frame callback with frame `f`. */
  function Step(c: Cache, f: u8): (r: StepResult)
    requires f == c.frame || f < FrameCount
    ensures r.cache.frame == f
    ensures f == c.frame ==> r.cache == c && r.load == None
    ensures r.load.Some? <==> f != c.frame && Container(f) != c.texId
    ensures r.load.Some? ==> r.load.value == Container(f) && r.cache.texId == Container(f)
    ensures r.load.None? ==> r.cache.texId == c.texId
  {
    if f == c.frame then StepResult(c, None)
    else if Container(f) != c.texId then StepResult(Cache(f, Container(f)), Some(Container(f)))
    else StepResult(Cache(f, c.texId), None)
  }

  /** Under the invariant a frame change loads a texture exactly when the new
      frame's container differs from the loaded one, and leaves the loaded
      container equal to the new frame's. */
  lemma StepKeepsInv(c: Cache, f: u8)
    requires CacheInv(c) && f < FrameCount
    ensures CacheInv(Step(c, f).cache)
    ensures Step(c, f).load.Some? <==> Container(f) != c.texId
    ensures Step(c, f).cache.texId == Container(f)
  {
    if c == Sentinel {
      assert Container(f) != c.texId;
    }
  }

  /** From the sentinel, the first frame change always loads its container. */
  lemma FirstStepLoads(f: u8)
    requires f < FrameCount
    ensures Step(Sentinel, f).load == Some(Container(f))
  {
  }

  /** Frames 0 and 1 share Idle0: after showing 0, showing 1 loads nothing. */
  lemma SharedContainerNoReload(c: Cache)
    requires CacheInv(c)
    ensures Step(Step(c, 0).cache, 1).load == None
  {
    StepKeepsInv(c, 0);
    assert Container(1) == Container(0);
  }

  /** The container a step loads, as a list of zero or one element. */
  function LoadList(load: Option<ContainerId>): seq<ContainerId> {
    if load.Some? then [load.value] else []
  }

  predicate AllFrames(fs: seq<u8>) {
    forall i :: 0 <= i < |fs| ==> fs[i] < FrameCount
  }

  /** The cache after a sequence of frame changes and the containers loaded on the way. */
  datatype RunResult = RunResult(cache: Cache, loads: seq<ContainerId>)

  /** The frame callback called once per element of `fs`, in order. */
  function Run(c: Cache, fs: seq<u8>): (r: RunResult)
    requires AllFrames(fs)
    ensures |r.loads| <= |fs|
    ensures r.cache.frame == if fs == [] then c.frame else fs[|fs| - 1]
    decreases |fs|
  {
    if fs == [] then RunResult(c, [])
    else
      var s := Step(c, fs[0]);
      var rest := Run(s.cache, fs[1..]);
      RunResult(rest.cache, LoadList(s.load) + rest.loads)
  }

  /** Advancing a run by one frame: if the frames before `i` turned `c0` into `cur`
      with loads `done`, the frames up to `i` turn it into the step's cache. */
  lemma RunAdvance(c0: Cache, fs: seq<u8>, i: int, cur: Cache, done: seq<ContainerId>)
    requires AllFrames(fs) && 0 <= i < |fs|
    requires Run(c0, fs).cache == Run(cur, fs[i..]).cache
    requires Run(c0, fs).loads == done + Run(cur, fs[i..]).loads
    ensures Run(c0, fs).cache == Run(Step(cur, fs[i]).cache, fs[i + 1..]).cache
    ensures Run(c0, fs).loads == (done + LoadList(Step(cur, fs[i]).load)) + Run(Step(cur, fs[i]).cache, fs[i + 1..]).loads
  {
    var tail := fs[i..];
    assert tail[0] == fs[i] && tail[1..] == fs[i + 1..];
    var s := Step(cur, fs[i]);
    var rest := Run(s.cache, fs[i + 1..]);
    assert Run(cur, tail) == RunResult(rest.cache, LoadList(s.load) + rest.loads);
    assert done + (LoadList(s.load) + rest.loads) == (done + LoadList(s.load)) + rest.loads;
  }

  /** The container of each frame of `fs`. */
  function Containers(fs: seq<u8>): (r: seq<u8>)
    requires AllFrames(fs)
    ensures |r| == |fs|
    ensures forall i :: 0 <= i < |fs| ==> r[i] == Container(fs[i])
  {
    if fs == [] then [] else [Container(fs[0])] + Containers(fs[1..])
  }

  /** No element repeats the one before it, and the first is not `prev`. */
  predicate NoRepeats(prev: u8, ts: seq<u8>) {
    (|ts| > 0 ==> ts[0] != prev) &&
    forall i :: 0 < i < |ts| ==> ts[i] != ts[i - 1]
  }

  /** The elements of `ts` at which the value changes, starting from `prev`:
      the loads that keep the loaded container equal to the shown frame's. */
  function Changes(prev: u8, ts: seq<u8>): (r: seq<u8>)
    ensures |r| <= |ts|
    ensures NoRepeats(prev, r)
    ensures forall i :: 0 <= i < |r| ==> r[i] in ts
    decreases |ts|
  {
    if ts == [] then []
    else if ts[0] == prev then Changes(prev, ts[1..])
    else [ts[0]] + Changes(ts[0], ts[1..])
  }

  /** Starting from a cache that satisfies the invariant, the textures loaded by a
      sequence of frame changes are exactly the changes of container along the
      sequence; the invariant holds at the end and the loaded container is the
      last frame's. */
  lemma {:induction false} RunLoadsChanges(c: Cache, fs: seq<u8>)
    requires CacheInv(c) && AllFrames(fs)
    ensures Run(c, fs).loads == Changes(c.texId, Containers(fs))
    ensures CacheInv(Run(c, fs).cache)
    ensures Run(c, fs).cache.texId == if fs == [] then c.texId else Container(fs[|fs| - 1])
    decreases |fs|
  {
    if fs != [] {
      StepKeepsInv(c, fs[0]);
      var s := Step(c, fs[0]);
      var rest := Run(s.cache, fs[1..]);
      RunLoadsChanges(s.cache, fs[1..]);
      assert Run(c, fs) == RunResult(rest.cache, LoadList(s.load) + rest.loads);
      var ts := Containers(fs);
      assert ts[0] == Container(fs[0]) && ts[1..] == Containers(fs[1..]);
      if ts[0] == c.texId {
        assert Changes(c.texId, ts) == Changes(s.cache.texId, ts[1..]);
      } else {
        assert Changes(c.texId, ts) == [ts[0]] + Changes(s.cache.texId, ts[1..]);
      }
      assert fs[1..] != [] ==> fs[1..][|fs[1..]| - 1] == fs[|fs| - 1];
    }
  }

  /** No texture is ever loaded twice in a row, and the first load replaces a
      different container. */
  lemma NoRedundantLoads(c: Cache, fs: seq<u8>)
    requires CacheInv(c) && AllFrames(fs)
    ensures NoRepeats(c.texId, Run(c, fs).loads)
  {
    RunLoadsChanges(c, fs);
  }

  /** Frames that all come from one container `t` load at most that container,
      once, and nothing at all if it is already loaded. */
  lemma OneContainerLoadsOnce(c: Cache, fs: seq<u8>, t: u8)
    requires CacheInv(c) && AllFrames(fs)
    requires forall i :: 0 <= i < |fs| ==> Container(fs[i]) == t
    ensures Run(c, fs).loads == if fs == [] || c.texId == t then [] else [t]
  {
    RunLoadsChanges(c, fs);
    ChangesOfConstant(c.texId, Containers(fs), t);
  }

  /** The changes along a constant sequence: its value, once, unless it is `prev`. */
  lemma {:induction false} ChangesOfConstant(prev: u8, ts: seq<u8>, t: u8)
    requires forall i :: 0 <= i < |ts| ==> ts[i] == t
    ensures Changes(prev, ts) == if ts == [] || prev == t then [] else [t]
    decreases |ts|
  {
    if ts != [] {
      ChangesOfConstant(t, ts[1..], t);
      if prev == t {
        ChangesOfConstant(prev, ts[1..], t);
      }
    }
  }

  /** Showing the Idle loop 0, 1, 2, 3 from the sentinel loads Idle0, then Idle1. */
  lemma IdleLoopLoads()
    ensures Run(Sentinel, [0, 1, 2, 3]).loads == [ArcMainIdle0, ArcMainIdle1]
  {
    RunLoadsChanges(Sentinel, [0, 1, 2, 3]);
    IdleLoopContainers();
    var ts: seq<u8> := [0, 0, 1, 1];
    assert ts[1..] == [0, 1, 1] && ts[1..][1..] == [1, 1] && ts[1..][1..][1..] == [1];
    assert Changes(1, [1]) == [];
    assert Changes(0, [1, 1]) == [1];
  }

  lemma IdleLoopContainers()
    ensures Containers([0, 1, 2, 3]) == [ArcMainIdle0, ArcMainIdle0, ArcMainIdle1, ArcMainIdle1]
  {
    var r := Containers([0, 1, 2, 3]);
    assert r[0] == Container(0) == ArcMainIdle0;
    assert r[1] == Container(1) == ArcMainIdle0;
    assert r[2] == Container(2) == ArcMainIdle1;
    assert r[3] == Container(3) == ArcMainIdle1;
  }

  /** Showing any frames of a directional animation, in any order and any number
      of times, loads that direction's texture at most once. */
  lemma DirectionalLoopLoadsOnce(c: Cache, anim: u8, t: u8, fs: seq<u8>)
    requires CacheInv(c)
    requires (anim, t) in {(AnimLeft, ArcMainLeft), (AnimDown, ArcMainDown), (AnimUp, ArcMainUp), (AnimRight, ArcMainRight)}
    requires forall i :: 0 <= i < |fs| ==> Frame(fs[i]) in AnimTable[anim].script
    ensures AllFrames(fs)
    ensures Run(c, fs).loads == if fs == [] || c.texId == t then [] else [t]
  {
    AnimFramesFromOwnContainers();
    var a := AnimTable[anim];
    assert FramesFrom(a, t);
    forall i | 0 <= i < |fs| ensures fs[i] < FrameCount && Container(fs[i]) == t {
      var k :| 0 <= k < |a.script| && a.script[k] == Frame(fs[i]);
    }
    OneContainerLoadsOnce(c, fs, t);
  }
}
