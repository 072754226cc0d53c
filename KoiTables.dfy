/** Constant data of the Koi character: texture-container ids, the frame table,
    the animation table and the names of the archive entries loaded at creation. */
module KoiTables {

  /** An unsigned 8-bit value, the type of `frame`, `tex_id` and script bytes. */
  newtype u8 = x: int | 0 <= x < 256

  datatype Option<+T> = None | Some(value: T)

  /** The render-cache sentinel: never a valid frame index nor a container id. */
  const Invalid: u8 := 0xFF

  // Texture-container ids, in enum order.
  const ArcMainIdle0: u8 := 0
  const ArcMainIdle1: u8 := 1
  const ArcMainLeft: u8 := 2
  const ArcMainDown: u8 := 3
  const ArcMainUp: u8 := 4
  const ArcMainRight: u8 := 5
  /** Number of texture containers (Koi_Arc_Max). */
  const ArcMax: u8 := 6

  /** The id of an existing texture container. */
  type ContainerId = t: u8 | t < ArcMax

  datatype Rect = Rect(x: int, y: int, w: int, h: int)
  datatype Anchor = Anchor(x: int, y: int)

  /** One frame: the container its pixels come from, the source rectangle in
      that texture and the anchor offset applied when drawing. */
  datatype CharFrame = CharFrame(tex: u8, src: Rect, off: Anchor)

  const FrameTable: seq<CharFrame> := [
    CharFrame(ArcMainIdle0, Rect(0, 0, 78, 186), Anchor(44, 179)),   // 0 idle 1
    CharFrame(ArcMainIdle0, Rect(89, 0, 79, 186), Anchor(45, 179)),  // 1 idle 2
    CharFrame(ArcMainIdle1, Rect(0, 0, 80, 185), Anchor(46, 178)),   // 2 idle 3
    CharFrame(ArcMainIdle1, Rect(81, 0, 79, 184), Anchor(45, 177)),  // 3 idle 4
    CharFrame(ArcMainLeft, Rect(0, 0, 85, 188), Anchor(54, 184)),    // 4 left 1
    CharFrame(ArcMainLeft, Rect(97, 0, 83, 188), Anchor(51, 184)),   // 5 left 2
    CharFrame(ArcMainDown, Rect(0, 0, 87, 174), Anchor(45, 169)),    // 6 down 1
    CharFrame(ArcMainDown, Rect(119, 0, 85, 174), Anchor(48, 168)),  // 7 down 2
    CharFrame(ArcMainUp, Rect(0, 0, 83, 199), Anchor(50, 185)),      // 8 up 1
    CharFrame(ArcMainUp, Rect(97, 0, 83, 199), Anchor(50, 185)),     // 9 up 2
    CharFrame(ArcMainRight, Rect(0, 0, 76, 186), Anchor(39, 179)),   // 10 right 1
    CharFrame(ArcMainRight, Rect(83, 0, 77, 186), Anchor(42, 178))   // 11 right 2
  ]

  /** Number of frames in the frame table. */
  const FrameCount: u8 := 12

  /** The texture container that frame `f` is drawn from: the frames come in
      runs of two per container, in container order. */
  function Container(f: u8): (t: u8)
    requires f < FrameCount
    ensures t < ArcMax
  {
    if f < 2 then ArcMainIdle0
    else if f < 4 then ArcMainIdle1
    else if f < 6 then ArcMainLeft
    else if f < 8 then ArcMainDown
    else if f < 10 then ArcMainUp
    else ArcMainRight
  }

  /** The `tex` field of frame `f` in the frame table is its container. */
  lemma TableTex(f: u8)
    requires f < FrameCount
    ensures FrameTable[f].tex == Container(f)
  {
    if f < 6 {
      if f < 2 {} else if f < 4 {} else {}
    } else {
      if f < 8 {} else if f < 10 {} else {}
    }
  }

  /** The frame table has one entry per frame and every entry names an existing
      container, the one `Container` gives. */
  lemma FrameTableWellFormed()
    ensures |FrameTable| == FrameCount as int
    ensures forall i :: 0 <= i < |FrameTable| ==> FrameTable[i].tex < ArcMax && FrameTable[i].tex == Container(i as u8)
  {
    forall i | 0 <= i < |FrameTable| ensures FrameTable[i].tex < ArcMax && FrameTable[i].tex == Container(i as u8) {
      TableTex(i as u8);
    }
  }

  /** The bytes of an animation script. Frame-index bytes and the two opcodes
      are told apart; the byte following an opcode is kept as an opaque
      operand. How the interpreter executes the opcodes is not modelled. */
  datatype ScriptToken = Frame(index: u8) | OpBack | OpChgAni | Operand(value: u8)

  /** One animation table entry: its leading byte (kept uninterpreted) and its script. */
  datatype Animation = Animation(lead: u8, script: seq<ScriptToken>)

  // Animation ids, in the order of the animation table.
  const AnimIdle: u8 := 0
  const AnimLeft: u8 := 1
  const AnimLeftAlt: u8 := 2
  const AnimDown: u8 := 3
  const AnimDownAlt: u8 := 4
  const AnimUp: u8 := 5
  const AnimUpAlt: u8 := 6
  const AnimRight: u8 := 7
  const AnimRightAlt: u8 := 8
  /** Number of animation ids (CharAnim_Max). */
  const AnimMax: u8 := 9

  const AnimTable: seq<Animation> := [
    Animation(2, [Frame(0), Frame(1), Frame(2), Frame(3), OpBack, Operand(1)]),  // Idle
    Animation(2, [Frame(4), Frame(5), OpBack, Operand(1)]),                      // Left
    Animation(0, [OpChgAni, Operand(AnimIdle)]),                                 // LeftAlt
    Animation(2, [Frame(6), Frame(7), OpBack, Operand(1)]),                      // Down
    Animation(0, [OpChgAni, Operand(AnimIdle)]),                                 // DownAlt
    Animation(2, [Frame(8), Frame(9), OpBack, Operand(1)]),                      // Up
    Animation(0, [OpChgAni, Operand(AnimIdle)]),                                 // UpAlt
    Animation(2, [Frame(10), Frame(11), OpBack, Operand(1)]),                    // Right
    Animation(0, [OpChgAni, Operand(AnimIdle)])                                  // RightAlt
  ]

  /** An "alt" animation: a single change-animation back to Idle. */
  predicate FallsBackToIdle(a: Animation) {
    a.script == [OpChgAni, Operand(AnimIdle)]
  }

  /** Every frame-index byte of the script names a frame of the frame table. */
  predicate FramesInRange(a: Animation) {
    forall k :: 0 <= k < |a.script| && a.script[k].Frame? ==> a.script[k].index < FrameCount
  }

  /** Every frame-index byte of the script names a frame drawn from container `t`. */
  predicate FramesFrom(a: Animation, t: u8) {
    forall k :: 0 <= k < |a.script| && a.script[k].Frame? ==>
      a.script[k].index < FrameCount && Container(a.script[k].index) == t
  }

  /** The script of a directional animation: two frames looped by `BACK, 1`. */
  function LoopScript(a: u8, b: u8): seq<ScriptToken> {
    [Frame(a), Frame(b), OpBack, Operand(1)]
  }

  /** The script of the Idle animation: frames 0 to 3 looped by `BACK, 1`. */
  function IdleScript(): seq<ScriptToken> {
    [Frame(0), Frame(1), Frame(2), Frame(3), OpBack, Operand(1)]
  }

  /** The shape of each non-alt entry of the animation table. */
  lemma AnimEntries()
    ensures AnimTable[AnimIdle] == Animation(2, IdleScript())
    ensures AnimTable[AnimLeft] == Animation(2, LoopScript(4, 5))
    ensures AnimTable[AnimDown] == Animation(2, LoopScript(6, 7))
    ensures AnimTable[AnimUp] == Animation(2, LoopScript(8, 9))
    ensures AnimTable[AnimRight] == Animation(2, LoopScript(10, 11))
  {
  }

  /** Each Alt entry is a single change-animation to Idle. */
  lemma AltEntriesFallBack()
    ensures FallsBackToIdle(AnimTable[AnimLeftAlt]) && FallsBackToIdle(AnimTable[AnimDownAlt])
    ensures FallsBackToIdle(AnimTable[AnimUpAlt]) && FallsBackToIdle(AnimTable[AnimRightAlt])
  {
  }

  /** A loop over two frames of container `t` draws only from `t`. */
  lemma LoopFramesFrom(a: u8, b: u8, t: u8)
    requires a < FrameCount && b < FrameCount && Container(a) == t && Container(b) == t
    ensures FramesFrom(Animation(2, LoopScript(a, b)), t)
  {
  }

  /** Each directional animation draws only from its own container, so looping
      it needs one texture load at most. */
  lemma AnimFramesFromOwnContainers()
    ensures FramesFrom(AnimTable[AnimLeft], ArcMainLeft)
    ensures FramesFrom(AnimTable[AnimDown], ArcMainDown)
    ensures FramesFrom(AnimTable[AnimUp], ArcMainUp)
    ensures FramesFrom(AnimTable[AnimRight], ArcMainRight)
  {
    AnimEntries();
    LoopFramesFrom(4, 5, ArcMainLeft);
    LoopFramesFrom(6, 7, ArcMainDown);
    LoopFramesFrom(8, 9, ArcMainUp);
    LoopFramesFrom(10, 11, ArcMainRight);
  }

  /** The animation table has one entry per id and every frame-index byte of
      every script names a frame of the frame table. */
  lemma AnimTableWellFormed()
    ensures |AnimTable| == AnimMax as int
    ensures forall a :: 0 <= a < |AnimTable| ==> FramesInRange(AnimTable[a])
  {
    AnimEntries();
    AltEntriesFallBack();
    AnimFramesFromOwnContainers();
    forall a | 0 <= a < |AnimTable| ensures FramesInRange(AnimTable[a]) {
      var s := AnimTable[a].script;
      if a == AnimIdle as int {
        assert s == IdleScript();
      } else if a % 2 == 1 {
        assert exists t :: FramesFrom(AnimTable[a], t);
      } else {
        assert s == [OpChgAni, Operand(AnimIdle)];
      }
    }
  }

  /** The archive read at creation. */
  const ArcPath: string := "\\CHAR\\KOI.ARC;1"

  /** The NULL-terminated list of entry names, one per container in enum order. */
  const PathList: seq<Option<string>> := [
    Some("idle0.tim"),  // ArcMainIdle0
    Some("idle1.tim"),  // ArcMainIdle1
    Some("left.tim"),   // ArcMainLeft
    Some("down.tim"),   // ArcMainDown
    Some("up.tim"),     // ArcMainUp
    Some("right.tim"),  // ArcMainRight
    None
  ]

  /** The name of the archive entry that holds container `i`. */
  function EntryName(i: int): (n: string)
    requires 0 <= i < ArcMax as int
    ensures PathList[i] == Some(n)
  {
    PathListTerminated();
    PathList[i].value
  }

  /** The name list holds exactly one name per container before its terminator. */
  lemma PathListTerminated()
    ensures |PathList| == ArcMax as int + 1
    ensures PathList[ArcMax] == None
    ensures forall i :: 0 <= i < ArcMax as int ==> PathList[i].Some?
  {
  }
}
