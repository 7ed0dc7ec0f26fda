/**
 * The "walk the dog" game of src/game.rs: the `WalkTheDog` game object that
 * moves a sprite with the arrow keys and cycles its run animation, the sprite
 * key its draw step looks up, and the Red Hat Boy player state machine.
 */
module Game {
  import opened Wrappers
  import opened RustInts
  import opened Engine
  import RedHatBoyStates

  // ---------------------------------------------------------------------------
  // Sprite sheet data (deserialised from "rhb.json")

  datatype SheetRect = SheetRect(x: u16, y: u16, w: u16, h: u16)

  datatype Cell = Cell(frame: SheetRect)

  /** Sprite cells by key, such as "Run (3).png". */
  datatype Sheet = Sheet(frames: map<string, Cell>)

  /** An error of the asynchronous asset loading, carried up by `?`. */
  datatype LoadError = LoadError(message: string)

  // ---------------------------------------------------------------------------
  // Constants of the update and draw steps

  /** The highest value of the animation frame counter; it then wraps to 0. */
  const LastFrame: u8 := 23

  /** Number of counter values in one animation cycle. */
  const FrameCycle: nat := LastFrame as nat + 1

  /** Pixels moved per tick by one held arrow key. */
  const Speed: int := 3

  /** Engine ticks per displayed animation frame. */
  const TicksPerSprite: u8 := 3

  /** The canvas area cleared before each draw. */
  const Canvas: Rect := Rect(0, 0, 600, 600)

  // ---------------------------------------------------------------------------
  // Movement

  /**
   * Velocity along one axis when the key for the positive direction and the
   * key for the negative direction may be held: opposite keys cancel.
   */
  function Axis(positive: bool, negative: bool): (d: int)
    ensures d == Speed <==> positive && !negative
    ensures d == -Speed <==> negative && !positive
    ensures d == 0 <==> positive == negative
  {
    (if positive then Speed else 0) - (if negative then Speed else 0)
  }

  /** The velocity the held arrow keys give for one tick (y grows downwards). */
  function KeyVelocity(keystate: KeyState): (v: Point)
    ensures v.x in {-Speed, 0, Speed} && v.y in {-Speed, 0, Speed}
    ensures v.x > 0 <==> keystate.IsPressed("ArrowRight") && !keystate.IsPressed("ArrowLeft")
    ensures v.x < 0 <==> keystate.IsPressed("ArrowLeft") && !keystate.IsPressed("ArrowRight")
    ensures v.y > 0 <==> keystate.IsPressed("ArrowDown") && !keystate.IsPressed("ArrowUp")
    ensures v.y < 0 <==> keystate.IsPressed("ArrowUp") && !keystate.IsPressed("ArrowDown")
  {
    Point(Axis(keystate.IsPressed("ArrowRight"), keystate.IsPressed("ArrowLeft")),
          Axis(keystate.IsPressed("ArrowDown"), keystate.IsPressed("ArrowUp")))
  }

  // ---------------------------------------------------------------------------
  // Animation frame counter

  /** The frame counter after one update: it counts up to `LastFrame` and wraps to 0. */
  function NextFrame(frame: u8): (next: u8)
    ensures next <= LastFrame
    ensures frame <= LastFrame ==> next as nat == (frame as nat + 1) % FrameCycle
    ensures frame >= LastFrame ==> next == 0
  {
    if frame < LastFrame then frame + 1 else 0
  }

  /** The frame counter after `n` updates. */
  function Ticks(frame: u8, n: nat): u8
    decreases n
  {
    if n == 0 then frame else Ticks(NextFrame(frame), n - 1)
  }

  /** From a counter in range, `n` updates advance it by `n` modulo the cycle length. */
  lemma {:induction false} TicksCycle(frame: u8, n: nat)
    requires frame <= LastFrame
    ensures Ticks(frame, n) as nat == (frame as nat + n) % FrameCycle
    decreases n
  {
    if n > 0 {
      var next := NextFrame(frame);
      TicksCycle(next, n - 1);
    }
  }

  /** Whatever the counter holds, the first update brings it into range and the cycle starts there. */
  lemma {:induction false} TicksFromAnyFrame(frame: u8, n: nat)
    ensures Ticks(frame, n + 1) <= LastFrame
    ensures frame > LastFrame ==> Ticks(frame, n + 1) as nat == n % FrameCycle
  {
    var next := NextFrame(frame);
    assert Ticks(frame, n + 1) == Ticks(next, n);
    TicksCycle(next, n);
  }

  /** The animation repeats with period exactly `FrameCycle`. */
  lemma {:induction false} FramePeriod(frame: u8)
    requires frame <= LastFrame
    ensures Ticks(frame, FrameCycle) == frame
    ensures forall n :: 0 < n < FrameCycle ==> Ticks(frame, n) != frame
  {
    TicksCycle(frame, FrameCycle);
    assert (frame as nat + FrameCycle) % FrameCycle == frame as nat;
    forall n | 0 < n < FrameCycle
      ensures Ticks(frame, n) != frame
    {
      TicksCycle(frame, n);
      var sum := frame as nat + n;
      // the sum stays below two cycles, so its remainder is either itself or one cycle less
      assert sum % FrameCycle == if sum < FrameCycle then sum else sum - FrameCycle;
    }
  }

  // ---------------------------------------------------------------------------
  // Sprite key arithmetic of the draw step

  /** The 1-based run sprite shown for a frame counter value: three ticks per sprite. */
  function SpriteNumber(frame: u8): (sprite: u8)
    ensures TicksPerSprite as int * (sprite as int - 1) <= frame as int < TicksPerSprite as int * sprite as int
    ensures frame <= LastFrame ==> 1 <= sprite <= 8
  {
    frame / TicksPerSprite + 1
  }

  /** Sprite `n` is shown for exactly the three consecutive counter values 3(n-1), 3(n-1)+1, 3(n-1)+2. */
  lemma SpriteCoversThreeFrames(frame: u8, n: int)
    ensures SpriteNumber(frame) as int == n <==> 3 * (n - 1) <= frame as int < 3 * n
  {
  }

  /** Decimal digit character of `d`. */
  function DigitChar(d: nat): (c: char)
    requires d < 10
    ensures '0' <= c <= '9'
  {
    ('0' as int + d) as char
  }

  /** Value of the decimal digit character `c`. */
  function DigitValue(c: char): (d: nat)
    requires '0' <= c <= '9'
    ensures d < 10
  {
    c as int - '0' as int
  }

  /** Decimal notation of `n`, without leading zeros, as Rust's `{}` formatting writes it. */
  function DecimalString(n: nat): (s: string)
    ensures |s| >= 1 && (|s| > 1 ==> s[0] != '0')
    ensures forall i :: 0 <= i < |s| ==> '0' <= s[i] <= '9'
  {
    if n < 10 then [DigitChar(n)] else DecimalString(n / 10) + [DigitChar(n % 10)]
  }

  /** Reads a non-empty string of decimal digits; anything else is `None`. */
  function ParseDecimal(s: string): Option<nat>
  {
    if s == [] || !('0' <= s[|s| - 1] <= '9') then None
    else if |s| == 1 then Some(DigitValue(s[0]))
    else match ParseDecimal(s[..|s| - 1])
      case None => None
      case Some(high) => Some(10 * high + DigitValue(s[|s| - 1]))
  }

  /** Reading back the decimal notation of `n` gives `n`. */
  lemma {:induction false} DecimalRoundTrip(n: nat)
    ensures ParseDecimal(DecimalString(n)) == Some(n)
  {
    if n >= 10 {
      var s := DecimalString(n);
      assert s[..|s| - 1] == DecimalString(n / 10);
      DecimalRoundTrip(n / 10);
    }
  }

  const FramePrefix: string := "Run ("
  const FrameSuffix: string := ").png"

  /** Reads the sprite number back out of a sprite key "Run (<n>).png". */
  function ParseFrameName(name: string): Option<nat>
  {
    if |name| < |FramePrefix| + |FrameSuffix|
       || name[..|FramePrefix|] != FramePrefix
       || name[|name| - |FrameSuffix|..] != FrameSuffix
    then None
    else ParseDecimal(name[|FramePrefix|..|name| - |FrameSuffix|])
  }

  /** The sprite-sheet key of run sprite `sprite`; the sprite number can be read back from it. */
  function FrameName(sprite: u8): (name: string)
    ensures ParseFrameName(name) == Some(sprite as nat)
  {
    var digits := DecimalString(sprite as nat);
    var name := FramePrefix + digits + FrameSuffix;
    assert name[..|FramePrefix|] == FramePrefix;
    assert name[|name| - |FrameSuffix|..] == FrameSuffix;
    assert name[|FramePrefix|..|name| - |FrameSuffix|] == digits;
    DecimalRoundTrip(sprite as nat);
    name
  }

  /** Two counter values look up the same key exactly when they show the same sprite. */
  lemma FrameNamesDistinguishSprites(f: u8, g: u8)
    ensures FrameName(SpriteNumber(f)) == FrameName(SpriteNumber(g)) <==> SpriteNumber(f) == SpriteNumber(g)
  {
  }

  /** The eight run sprites of the sheet. */
  const RunCellNames: set<string> := {
    "Run (1).png", "Run (2).png", "Run (3).png", "Run (4).png",
    "Run (5).png", "Run (6).png", "Run (7).png", "Run (8).png"
  }

  /** For a counter in range the key looked up is one of the eight run sprites. */
  lemma FrameNameIsRunCell(frame: u8)
    requires frame <= LastFrame
    ensures FrameName(SpriteNumber(frame)) in RunCellNames
  {
    var sprite := SpriteNumber(frame);
    assert DecimalString(sprite as nat) == [DigitChar(sprite as nat)];
    var name := FrameName(sprite);
    if sprite == 1 { assert name == "Run (1).png"; }
    else if sprite == 2 { assert name == "Run (2).png"; }
    else if sprite == 3 { assert name == "Run (3).png"; }
    else if sprite == 4 { assert name == "Run (4).png"; }
    else if sprite == 5 { assert name == "Run (5).png"; }
    else if sprite == 6 { assert name == "Run (6).png"; }
    else if sprite == 7 { assert name == "Run (7).png"; }
    else { assert name == "Run (8).png"; }
  }

  // ---------------------------------------------------------------------------
  // Draw step, as the calls it makes on the renderer

  /** A call the draw step makes on the renderer. */
  datatype DrawCall =
    | Clear(rect: Rect)
    | DrawImage(image: HtmlImageElement, source: Rect, destination: Rect)

  /** The draw step stops on this (`expect("Cell not found")`) before drawing anything. */
  datatype DrawError = CellNotFound

  // ---------------------------------------------------------------------------
  // The game object

  class WalkTheDog {
    var image: Option<HtmlImageElement>
    var sheet: Option<Sheet>
    var frame: u8
    var position: Point

    /** The frame counter is in its animation cycle. */
    predicate Valid()
      reads this
    {
      frame <= LastFrame
    }

    /** A game with no assets loaded yet, at the origin and at the first frame. */
    constructor ()
      ensures Valid()
      ensures image == None && sheet == None
      ensures frame == 0 && position == Point(0, 0)
    {
      image := None;
      sheet := None;
      frame := 0;
      position := Point(0, 0);
    }

    /** A game built from its four fields. */
    constructor Loaded(image: Option<HtmlImageElement>, sheet: Option<Sheet>, frame: u8, position: Point)
      ensures this.image == image && this.sheet == sheet
      ensures this.frame == frame && this.position == position
    {
      this.image := image;
      this.sheet := sheet;
      this.frame := frame;
      this.position := position;
    }

    /**
     * Loads the image and then the sprite sheet, and builds a new game from
     * them and this game's frame and position. The two loads are foreign
     * calls: their outcomes are parameters, the sheet's in two layers (the
     * fetch, then the decoding of its JSON). The first failure is returned
     * and nothing after it is done.
     */
    method Initialize(loadedImage: Result<HtmlImageElement, LoadError>,
                      fetchedSheet: Result<Result<Sheet, LoadError>, LoadError>)
      returns (r: Result<WalkTheDog, LoadError>)
      ensures loadedImage.Err? ==> r == Err(loadedImage.error)
      ensures loadedImage.Ok? && fetchedSheet.Err? ==> r == Err(fetchedSheet.error)
      ensures loadedImage.Ok? && fetchedSheet.Ok? && fetchedSheet.value.Err? ==> r == Err(fetchedSheet.value.error)
      ensures r.Ok? <==> loadedImage.Ok? && fetchedSheet.Ok? && fetchedSheet.value.Ok?
      ensures r.Ok? ==> fresh(r.value)
                        && r.value.image == Some(loadedImage.value)
                        && r.value.sheet == Some(fetchedSheet.value.value)
                        && r.value.frame == frame && r.value.position == position
    {
      if loadedImage.Err? {
        return Err(loadedImage.error);
      }
      var image := Some(loadedImage.value);
      if fetchedSheet.Err? {
        return Err(fetchedSheet.error);
      }
      if fetchedSheet.value.Err? {
        return Err(fetchedSheet.value.error);
      }
      var sheet := Some(fetchedSheet.value.value);
      var game := new WalkTheDog.Loaded(image, sheet, frame, position);
      r := Ok(game);
    }

    /**
     * One tick: every held arrow key adds its step to the velocity, the
     * position moves by it, and the frame counter advances with wrap-around.
     * Nothing else changes.
     */
    method Update(keystate: KeyState)
      modifies this
      ensures Valid()
      ensures frame == NextFrame(old(frame))
      ensures old(frame) < LastFrame ==> frame == old(frame) + 1
      ensures old(frame) >= LastFrame ==> frame == 0
      ensures position == Point(old(position).x + KeyVelocity(keystate).x,
                                old(position).y + KeyVelocity(keystate).y)
      ensures position.x == old(position).x
                            + (if keystate.IsPressed("ArrowRight") then Speed else 0)
                            - (if keystate.IsPressed("ArrowLeft") then Speed else 0)
      ensures position.y == old(position).y
                            + (if keystate.IsPressed("ArrowDown") then Speed else 0)
                            - (if keystate.IsPressed("ArrowUp") then Speed else 0)
      ensures image == old(image) && sheet == old(sheet)
    {
      var velocity := Point(0, 0);

      if keystate.IsPressed("ArrowDown") {
        velocity := velocity.(y := velocity.y + Speed);
      }

      if keystate.IsPressed("ArrowUp") {
        velocity := velocity.(y := velocity.y - Speed);
      }

      if keystate.IsPressed("ArrowRight") {
        velocity := velocity.(x := velocity.x + Speed);
      }

      if keystate.IsPressed("ArrowLeft") {
        velocity := velocity.(x := velocity.x - Speed);
      }

      position := position.(x := position.x + velocity.x);
      position := position.(y := position.y + velocity.y);

      if frame < LastFrame {
        frame := frame + 1;
      } else {
        frame := 0;
      }
    }

    /**
     * The renderer calls of one draw: the sprite for the current frame is
     * looked up first (a missing sheet or key stops the draw), then the
     * canvas is cleared, then, if the image is loaded, that sprite is drawn
     * at the current position at its own size.
     */
    function Draw(): (r: Result<seq<DrawCall>, DrawError>)
      reads this
      ensures r.Err? <==> sheet.None? || FrameName(SpriteNumber(frame)) !in sheet.value.frames
      ensures r.Ok? ==> |r.value| == (if image.Some? then 2 else 1) && r.value[0] == Clear(Canvas)
      ensures r.Ok? && image.Some? ==>
                var cell := sheet.value.frames[FrameName(SpriteNumber(frame))].frame;
                r.value[1] == DrawImage(image.value,
                                        Rect(cell.x as int, cell.y as int, cell.w as int, cell.h as int),
                                        Rect(position.x, position.y, cell.w as int, cell.h as int))
    {
      var frameName := FrameName(SpriteNumber(frame));
      if sheet.None? || frameName !in sheet.value.frames then
        Err(CellNotFound)
      else
        var sprite := sheet.value.frames[frameName].frame;
        var drawSprite := match image
          case None => []
          case Some(img) =>
            [DrawImage(img,
                       Rect(sprite.x as int, sprite.y as int, sprite.w as int, sprite.h as int),
                       Rect(position.x, position.y, sprite.w as int, sprite.h as int))];
        Ok([Clear(Canvas)] + drawSprite)
    }
  }

  /** With the eight run sprites in the sheet, drawing a game whose counter is in range never stops. */
  lemma DrawFindsRunCell(game: WalkTheDog)
    requires game.Valid() && game.sheet.Some?
    requires RunCellNames <= game.sheet.value.frames.Keys
    ensures game.Draw().Ok?
  {
    FrameNameIsRunCell(game.frame);
  }

  // ---------------------------------------------------------------------------
  // Red Hat Boy state machine

  /** The events the player reacts to. */
  datatype Event = Run

  /** The player's current state, tagged by kind. */
  datatype RedHatBoyStateMachine =
    | Idle(idle: RedHatBoyStates.RedHatBoyState<RedHatBoyStates.Idle>)
    | Running(running: RedHatBoyStates.RedHatBoyState<RedHatBoyStates.Running>)
  {
    /** The context carried by whichever state is current. */
    function Context(): RedHatBoyStates.RedHatBoyContext
    {
      match this
      case Idle(state) => state.context
      case Running(state) => state.context
    }
  }

  /**
   * Reacts to an event: `Run` takes an idle player to running with the same
   * context; every other pair leaves the machine as it is.
   */
  function Transition(machine: RedHatBoyStateMachine, event: Event): (next: RedHatBoyStateMachine)
    ensures next.Running?
    ensures next.Context() == machine.Context()
    ensures machine.Running? ==> next == machine
  {
    match (machine, event)
    case (Idle(state), Run) => Running(RedHatBoyStates.Run(state))
    case _ => machine
  }

  /** The machine after reacting to each event in turn. */
  function Transitions(machine: RedHatBoyStateMachine, events: seq<Event>): RedHatBoyStateMachine
    decreases |events|
  {
    if events == [] then machine else Transitions(Transition(machine, events[0]), events[1..])
  }

  /** Any run of events settles after its first: later events are no-ops. */
  lemma {:induction false} TransitionsSettle(machine: RedHatBoyStateMachine, events: seq<Event>)
    ensures events != [] ==> Transitions(machine, events) == Transition(machine, events[0])
    ensures Transitions(machine, events).Context() == machine.Context()
    decreases |events|
  {
    if events != [] {
      TransitionsSettle(Transition(machine, events[0]), events[1..]);
    }
  }
}
