/**
 * The play scene (GameScene): it places the notes and the enemies of a level,
 * keeps the score and the countdown, reacts to the three gameplay events and
 * steers the player from the keyboard every frame.
 *
 * Phaser.Math.Between draws from a tape of raw numbers (`tape: seq<nat>`);
 * each placement returns what is left of the tape. The model's tape is finite,
 * so a placement can run out of draws, which the engine's generator never does.
 */
module GameScene {
  import opened Optional
  import opened Js
  import opened Config
  import opened Payloads
  import opened Systems
  import Session

  /** `this.playerSpeed` and `this.enemySpeed`, set in the constructor. */
  const PlayerSpeed: int := 180
  const EnemySpeed: int := 70

  /** Minimum spawn distance of an enemy from the screen centre. */
  const SafeZoneRadius: int := 200

  /** Horizontal scroll of the background texture per frame. */
  const ScrollStep: int := 3

  const GameMusic: string := "game_music"
  const NoteSound: string := "note_sound"
  const WinSound: string := "win_sound"
  const GameOverSound: string := "game_over_sound"

  datatype Point = Point(x: int, y: int)

  /** An enemy as created: where it spawned and its initial velocity. */
  datatype Enemy = Enemy(pos: Point, vx: int, vy: int)

  /** The animation the player sprite runs; none until the first frame. */
  datatype Anim = NoAnim | PlayerFly | PlayerIdle

  datatype Player = Player(pos: Point, vx: int, vy: int, flipX: bool, anim: Anim)

  /** Which direction keys of one key set (arrow keys, or W A S D) are down. */
  datatype Held = Held(left: bool, right: bool, up: bool, down: bool)

  /** `Phaser.Math.Between(lo, hi)`: an integer in `[lo, hi]`, both ends included, from one raw draw. */
  function Between(lo: int, hi: int, raw: nat): (r: int)
    requires lo <= hi
    ensures lo <= r <= hi
  {
    lo + raw % (hi - lo + 1)
  }

  /** Every value of the range is drawn by some raw number. */
  lemma BetweenCoversRange(lo: int, hi: int, v: int)
    requires lo <= v <= hi
    ensures Between(lo, hi, (v - lo) as nat) == v
  {
  }

  /** Where notes may appear: 40 from the sides and bottom, 60 from the top. */
  predicate InNoteArea(p: Point) {
    40 <= p.x <= Width - 40 && 60 <= p.y <= Height - 40
  }

  /** Where enemies may appear: 20 from the sides and bottom, 40 from the top. */
  predicate InEnemyArea(p: Point) {
    20 <= p.x <= Width - 20 && 40 <= p.y <= Height - 20
  }

  /**
   * `n * n`, written as the sum of the first `n` odd numbers so that it
   * unfolds one step at a time; `SquareIsProduct` connects the two.
   */
  function Square(n: nat): nat
    decreases n
  {
    if n == 0 then 0 else Square(n - 1) + 2 * n - 1
  }

  lemma {:induction false} SquareIsProduct(n: nat)
    ensures Square(n) == n * n
    decreases n
  {
    if n > 0 {
      SquareIsProduct(n - 1);
      assert n * n == (n - 1) * (n - 1) + 2 * n - 1;
    }
  }

  lemma {:induction false} SquareMonotone(a: nat, b: nat)
    requires a <= b
    ensures Square(a) <= Square(b)
    decreases b - a
  {
    if a < b {
      SquareMonotone(a, b - 1);
    }
  }

  function Abs(d: int): nat {
    if d < 0 then -d else d
  }

  /** The squared distance from the screen centre, where the player starts. */
  function DistanceSquared(p: Point): nat {
    Square(Abs(p.x - CentreX)) + Square(Abs(p.y - CentreY))
  }

  /**
   * At least `SafeZoneRadius` from the centre. For integer coordinates this is
   * the negation of the source's `Distance.Between(...) < safeZoneRadius`.
   */
  predicate OutsideSafeZone(p: Point)
    ensures OutsideSafeZone(p) ==> p != Point(CentreX, CentreY)
  {
    DistanceSquared(p) >= SafeZoneRadius * SafeZoneRadius
  }

  /**
   * The shape of the safe zone: a point 200 or more from the centre along
   * either axis is outside it, and a point outside it is more than 141 from
   * the centre along some axis (141 * 141 * 2 < 200 * 200).
   */
  lemma SafeZoneShape(p: Point)
    ensures (Abs(p.x - CentreX) >= SafeZoneRadius || Abs(p.y - CentreY) >= SafeZoneRadius) ==> OutsideSafeZone(p)
    ensures OutsideSafeZone(p) ==> Abs(p.x - CentreX) > 141 || Abs(p.y - CentreY) > 141
  {
    var a, b := Abs(p.x - CentreX), Abs(p.y - CentreY);
    SquareIsProduct(SafeZoneRadius);
    SquareIsProduct(141);
    if a >= SafeZoneRadius {
      SquareMonotone(SafeZoneRadius, a);
    }
    if b >= SafeZoneRadius {
      SquareMonotone(SafeZoneRadius, b);
    }
    if a <= 141 && b <= 141 {
      SquareMonotone(a, 141);
      SquareMonotone(b, 141);
    }
  }

  /** What every spawned enemy satisfies: inside its area, out of the safe zone, speed within the limit. */
  predicate WellSpawned(e: Enemy) {
    InEnemyArea(e.pos) && OutsideSafeZone(e.pos)
    && -EnemySpeed <= e.vx <= EnemySpeed && -EnemySpeed <= e.vy <= EnemySpeed
  }

  /** The `k`-th note position drawn from a tape: x from draw `2k`, y from draw `2k + 1`. */
  function NoteAt(tape: seq<nat>, k: nat): (p: Point)
    requires 2 * k + 1 < |tape|
    ensures InNoteArea(p)
  {
    Point(Between(40, Width - 40, tape[2 * k]), Between(60, Height - 40, tape[2 * k + 1]))
  }

  /** The `k`-th candidate enemy position drawn from a tape. */
  function CandidateAt(tape: seq<nat>, k: nat): (p: Point)
    requires 2 * k + 1 < |tape|
    ensures InEnemyArea(p)
  {
    Point(Between(20, Width - 20, tape[2 * k]), Between(40, Height - 20, tape[2 * k + 1]))
  }

  /** The note loop of `create`: `count` notes, each drawn as an x then a y. */
  method PlaceNotes(count: int, tape: seq<nat>) returns (notes: Option<seq<Point>>, rest: seq<nat>)
    ensures notes.Some? <==> 2 * Session.Iterations(count) <= |tape|
    ensures notes.Some? ==>
      |notes.value| == Session.Iterations(count)
      && rest == tape[2 * |notes.value|..]
      && (forall k :: 0 <= k < |notes.value| ==> notes.value[k] == NoteAt(tape, k))
      && (forall p :: p in notes.value ==> InNoteArea(p))
    ensures notes.None? ==> rest == []
  {
    var placed: seq<Point> := [];
    rest := tape;
    var i := 0;
    while i < count
      invariant 0 <= i <= Session.Iterations(count)
      invariant |placed| == i && 2 * i <= |tape| && rest == tape[2 * i..]
      invariant forall k :: 0 <= k < i ==> placed[k] == NoteAt(tape, k)
      invariant forall p :: p in placed ==> InNoteArea(p)
    {
      if |rest| < 2 {
        return None, [];
      }
      var x := Between(40, Width - 40, rest[0]);
      var y := Between(60, Height - 40, rest[1]);
      placed := placed + [Point(x, y)];
      rest := rest[2..];
      i := i + 1;
    }
    notes := Some(placed);
  }

  /** What a draw from a tape gives: a value, or None when the tape ran out, and the draws left. */
  datatype Drawn<T> = Drawn(value: Option<T>, rest: seq<nat>)

  /**
   * The first candidate of a tape outside the safe zone, and the draws after
   * it; None when the tape runs out first.
   */
  function SpawnFrom(tape: seq<nat>): (d: Drawn<Point>)
    ensures d.value.Some? ==> InEnemyArea(d.value.value) && OutsideSafeZone(d.value.value)
    ensures d.value.None? ==> d.rest == []
    ensures |d.rest| <= |tape|
    decreases |tape|
  {
    if |tape| < 2 then Drawn(None, [])
    else if OutsideSafeZone(CandidateAt(tape, 0)) then Drawn(Some(CandidateAt(tape, 0)), tape[2..])
    else SpawnFrom(tape[2..])
  }

  /** A spawn fails only by running out of draws: exactly when every candidate of the tape is inside the safe zone. */
  lemma {:induction false} SpawnFailsOnlyWhenAllRejected(tape: seq<nat>)
    ensures SpawnFrom(tape).value.None?
      <==> forall k :: 0 <= k && 2 * k + 1 < |tape| ==> !OutsideSafeZone(CandidateAt(tape, k))
    decreases |tape|
  {
    if |tape| < 2 {
      assert SpawnFrom(tape).value.None?;
    } else if OutsideSafeZone(CandidateAt(tape, 0)) {
      assert SpawnFrom(tape).value.Some?;
    } else {
      var tail := tape[2..];
      assert SpawnFrom(tape) == SpawnFrom(tail);
      SpawnFailsOnlyWhenAllRejected(tail);
      if SpawnFrom(tail).value.None? {
        forall k | 0 <= k && 2 * k + 1 < |tape|
          ensures !OutsideSafeZone(CandidateAt(tape, k))
        {
          if k > 0 {
            assert CandidateAt(tape, k) == CandidateAt(tail, k - 1);
          }
        }
      } else {
        var j :| 0 <= j && 2 * j + 1 < |tail| && OutsideSafeZone(CandidateAt(tail, j));
        assert CandidateAt(tail, j) == CandidateAt(tape, j + 1);
      }
    }
  }

  /**
   * The do-while of `create`: draw a candidate, and draw again while it lies
   * inside the safe zone. Reports how many candidates were rejected; every one
   * of them was inside the safe zone, and the accepted one is the next candidate.
   */
  method SpawnPosition(tape: seq<nat>) returns (pos: Option<Point>, rejected: nat, rest: seq<nat>)
    ensures Drawn(pos, rest) == SpawnFrom(tape)
    ensures 2 * rejected <= |tape|
    ensures forall k :: 0 <= k < rejected ==> !OutsideSafeZone(CandidateAt(tape, k))
    ensures pos.Some? ==>
      2 * rejected + 2 <= |tape|
      && pos.value == CandidateAt(tape, rejected)
      && OutsideSafeZone(pos.value)
      && rest == tape[2 * rejected + 2..]
    ensures pos.None? ==> |tape| < 2 * rejected + 2 && rest == []
  {
    rejected, rest := 0, tape;
    while true
      invariant 2 * rejected <= |tape| && rest == tape[2 * rejected..]
      invariant forall k :: 0 <= k < rejected ==> !OutsideSafeZone(CandidateAt(tape, k))
      invariant SpawnFrom(rest) == SpawnFrom(tape)
      decreases |rest|
    {
      if |rest| < 2 {
        return None, rejected, [];
      }
      var x := Between(20, Width - 20, rest[0]);
      var y := Between(40, Height - 20, rest[1]);
      assert Point(x, y) == CandidateAt(rest, 0) == CandidateAt(tape, rejected);
      if OutsideSafeZone(Point(x, y)) {
        return Some(Point(x, y)), rejected, rest[2..];
      }
      rejected, rest := rejected + 1, rest[2..];
    }
  }

  /** Every note lies in the note area. */
  predicate NotesPlaced(notes: seq<Point>) {
    forall p :: p in notes ==> InNoteArea(p)
  }

  /** Every enemy is inside its area, out of the safe zone and within the speed limit. */
  predicate EnemiesPlaced(enemies: seq<Enemy>) {
    forall e :: e in enemies ==> WellSpawned(e)
  }

  /** One enemy a tape gives: a safe position, then an x and a y velocity draw. */
  function EnemyFrom(tape: seq<nat>): (d: Drawn<Enemy>)
    ensures d.value.Some? ==> WellSpawned(d.value.value)
    ensures d.value.None? ==> d.rest == []
    ensures |d.rest| <= |tape|
  {
    var s := SpawnFrom(tape);
    if s.value.None? || |s.rest| < 2 then Drawn(None, [])
    else
      var vx := Between(-EnemySpeed, EnemySpeed, s.rest[0]);
      var vy := Between(-EnemySpeed, EnemySpeed, s.rest[1]);
      Drawn(Some(Enemy(s.value.value, vx, vy)), s.rest[2..])
  }

  /**
   * The enemy loop of `create` from some enemies already `placed` on: `count`
   * more enemies, one after another, and the draws left after the last one.
   */
  function PlaceFrom(placed: seq<Enemy>, count: int, tape: seq<nat>): (d: Drawn<seq<Enemy>>)
    ensures d.value.Some? ==> |d.value.value| == |placed| + Session.Iterations(count)
    ensures d.value.None? ==> d.rest == []
    ensures |d.rest| <= |tape|
    decreases Session.Iterations(count)
  {
    if count <= 0 then Drawn(Some(placed), tape)
    else
      var first := EnemyFrom(tape);
      if first.value.None? then Drawn(None, [])
      else PlaceFrom(placed + [first.value.value], count - 1, first.rest)
  }

  /** The `count` enemies a tape gives, and the draws left after the last one. */
  function EnemiesFrom(count: int, tape: seq<nat>): (d: Drawn<seq<Enemy>>)
    ensures d.value.Some? ==> |d.value.value| == Session.Iterations(count)
    ensures d.value.None? ==> d.rest == []
    ensures |d.rest| <= |tape|
  {
    PlaceFrom([], count, tape)
  }

  /** Placing more enemies keeps every placed enemy well spawned. */
  lemma {:induction false} PlaceFromPlaced(placed: seq<Enemy>, count: int, tape: seq<nat>)
    requires EnemiesPlaced(placed)
    ensures PlaceFrom(placed, count, tape).value.Some? ==> EnemiesPlaced(PlaceFrom(placed, count, tape).value.value)
    decreases Session.Iterations(count)
  {
    if count > 0 {
      var first := EnemyFrom(tape);
      if first.value.Some? {
        assert EnemiesPlaced(placed + [first.value.value]);
        PlaceFromPlaced(placed + [first.value.value], count - 1, first.rest);
      }
    }
  }

  /** The body of the enemy loop of `create`: a safe position, then a velocity x and y in `[-EnemySpeed, EnemySpeed]`. */
  method SpawnEnemy(tape: seq<nat>) returns (enemy: Option<Enemy>, rest: seq<nat>)
    ensures Drawn(enemy, rest) == EnemyFrom(tape)
  {
    var pos, rejected, after := SpawnPosition(tape);
    if pos.None? || |after| < 2 {
      return None, [];
    }
    var vx := Between(-EnemySpeed, EnemySpeed, after[0]);
    var vy := Between(-EnemySpeed, EnemySpeed, after[1]);
    enemy, rest := Some(Enemy(pos.value, vx, vy)), after[2..];
  }

  /** The enemy loop of `create`: `count` enemies, each spawned as `SpawnEnemy` does. */
  method PlaceEnemies(count: int, tape: seq<nat>) returns (enemies: Option<seq<Enemy>>, rest: seq<nat>)
    ensures Drawn(enemies, rest) == EnemiesFrom(count, tape)
    ensures enemies.Some? ==> |enemies.value| == Session.Iterations(count) && EnemiesPlaced(enemies.value)
    ensures enemies.None? ==> rest == []
  {
    PlaceFromPlaced([], count, tape);
    var placed: seq<Enemy> := [];
    rest := tape;
    var i := 0;
    while i < count
      invariant 0 <= i <= Session.Iterations(count)
      invariant PlaceFrom(placed, count - i, rest) == EnemiesFrom(count, tape)
    {
      var e, after := SpawnEnemy(rest);
      if e.None? {
        return None, [];
      }
      placed := placed + [e.value];
      rest := after;
      i := i + 1;
    }
    enemies := Some(placed);
  }

  /** A tape whose every draw is 0. */
  predicate AllZero(tape: seq<nat>) {
    forall i :: 0 <= i < |tape| ==> tape[i] == 0
  }

  /** The enemy four zero draws give: the area's top-left corner, moving up-left at full speed. */
  const CornerEnemy: Enemy := Enemy(Point(20, 40), -EnemySpeed, -EnemySpeed)

  /** Two zero draws give the candidate (20, 40), which lies outside the safe zone. */
  lemma SpawnFromZeros(tape: seq<nat>)
    requires AllZero(tape) && |tape| >= 2
    ensures SpawnFrom(tape) == Drawn(Some(Point(20, 40)), tape[2..])
  {
    assert CandidateAt(tape, 0) == Point(20, 40);
    SafeZoneShape(Point(20, 40));
  }

  /** Four zero draws give the corner enemy. */
  lemma EnemyFromZeros(tape: seq<nat>)
    requires AllZero(tape) && |tape| >= 4
    ensures EnemyFrom(tape) == Drawn(Some(CornerEnemy), tape[4..])
  {
    SpawnFromZeros(tape);
    var after := tape[2..];
    assert after[0] == tape[2] == 0 && after[1] == tape[3] == 0;
    assert Between(-EnemySpeed, EnemySpeed, 0) == -EnemySpeed;
    assert after[2..] == tape[4..];
  }

  /**
   * Four zero draws per enemy always suffice: every enemy spawns at the first
   * candidate, (20, 40), which lies outside the safe zone.
   */
  lemma {:induction false} PlaceFromZeros(placed: seq<Enemy>, count: int, tape: seq<nat>)
    requires AllZero(tape) && 4 * Session.Iterations(count) <= |tape|
    ensures PlaceFrom(placed, count, tape).value.Some?
    ensures PlaceFrom(placed, count, tape).rest == tape[4 * Session.Iterations(count)..]
    decreases Session.Iterations(count)
  {
    var n := Session.Iterations(count);
    if count > 0 {
      EnemyFromZeros(tape);
      PlaceFromZeros(placed + [CornerEnemy], count - 1, tape[4..]);
      assert tape[4..][4 * (n - 1)..] == tape[4 * n..];
    }
  }

  /**
   * One axis of the player's velocity: the negative direction is checked
   * first, so holding both keys of an axis moves in the negative direction.
   */
  function AxisVelocity(negative: bool, positive: bool): (v: int)
    ensures v == -PlayerSpeed || v == 0 || v == PlayerSpeed
    ensures v < 0 <==> negative
    ensures v > 0 <==> !negative && positive
  {
    if negative then -PlayerSpeed else if positive then PlayerSpeed else 0
  }

  /** The `vx`, `vy` chains of `update`; an arrow key and its WASD twin are the same direction. */
  method Steer(cursors: Held, wasd: Held) returns (vx: int, vy: int)
    ensures vx == AxisVelocity(cursors.left || wasd.left, cursors.right || wasd.right)
    ensures vy == AxisVelocity(cursors.up || wasd.up, cursors.down || wasd.down)
  {
    vx, vy := 0, 0;
    if cursors.left || wasd.left {
      vx := -PlayerSpeed;
    } else if cursors.right || wasd.right {
      vx := PlayerSpeed;
    }
    if cursors.up || wasd.up {
      vy := -PlayerSpeed;
    } else if cursors.down || wasd.down {
      vy := PlayerSpeed;
    }
  }

  /** The player flies while moving on either axis and idles otherwise. */
  function AnimationFor(vx: int, vy: int): (a: Anim)
    ensures a == PlayerFly <==> vx != 0 || vy != 0
    ensures a == PlayerIdle <==> vx == 0 && vy == 0
  {
    if vx != 0 || vy != 0 then PlayerFly else PlayerIdle
  }

  /** The sprite faces left when moving left, right when moving right, and keeps its facing otherwise. */
  function Facing(flipped: bool, vx: int): (f: bool)
    ensures vx < 0 ==> f
    ensures vx > 0 ==> !f
    ensures vx == 0 ==> f == flipped
  {
    if vx < 0 then true else if vx > 0 then false else flipped
  }

  /** The score and time texts of the HUD. */
  function ScoreLabel(score: int): string {
    Label("Notas: ", score)
  }

  function TimeLabel(timeLeft: int): string {
    Label("Tempo: ", timeLeft)
  }

  /**
   * The engine calls `endLevel` makes, in order: stop the level music, play
   * the win or the loss cue, pause physics, start GameOverScene with the outcome.
   * None when the level does not end.
   */
  function Ending(outcome: Option<Outcome>): (fx: seq<Effect>)
    ensures outcome.None? <==> fx == []
    ensures outcome.Some? ==> |fx| == 4 && fx[3] == StartScene(ToGameOver(Handover(outcome.value)))
  {
    match outcome
    case None => []
    case Some(o) =>
      [ StopSound(GameMusic),
        PlaySound(if o.success then WinSound else GameOverSound, false, 100),
        PausePhysics,
        StartScene(ToGameOver(Handover(o))) ]
  }

  /**
   * Ending a level stops the music before the cue, plays the win cue exactly
   * on success, and ends by handing GameOverScene exactly the outcome.
   */
  lemma EndingHandsOverOutcome(o: Outcome)
    requires o.level != 0
    ensures var fx := Ending(Some(o));
      |fx| == 4 && fx[0] == StopSound(GameMusic)
      && fx[1].PlaySound? && !fx[1].loop && fx[1].volumePercent == 100
      && (fx[1].key == WinSound <==> o.success) && (fx[1].key == GameOverSound <==> !o.success)
      && fx[2] == PausePhysics
      && fx[3].StartScene? && fx[3].target.ToGameOver?
      && Receive(fx[3].target.outcome) == Shown(Flag(o.success), o.score, o.level)
  {
    HandoverRoundTrip(o);
  }

  /** Taking a note off the field leaves every other note where it was placed. */
  lemma RemovalKeepsNotesPlaced(notes: seq<Point>, i: nat)
    requires NotesPlaced(notes) && i < |notes|
    ensures NotesPlaced(notes[..i] + notes[i + 1..])
  {
    forall p | p in notes[..i] + notes[i + 1..]
      ensures InNoteArea(p)
    {
      assert p in notes[..i] || p in notes[i + 1..];
    }
  }

  /** Whether one tape supplies a level's notes and then all of its enemies. */
  predicate Populates(level: int, tape: seq<nat>) {
    var n := Session.Iterations(Session.NoteCount(level));
    2 * n <= |tape| && EnemiesFrom(Session.EnemyCount(level), tape[2 * n..]).value.Some?
  }

  /** Every level can be populated: two zero draws per note and four per enemy suffice. */
  lemma ZeroTapePopulates(level: int, tape: seq<nat>)
    requires AllZero(tape)
    requires 2 * Session.Iterations(Session.NoteCount(level)) + 4 * Session.Iterations(Session.EnemyCount(level)) <= |tape|
    ensures Populates(level, tape)
  {
    var n := Session.Iterations(Session.NoteCount(level));
    PlaceFromZeros([], Session.EnemyCount(level), tape[2 * n..]);
  }

  class GameScene {
    /** The engine's managers, shared with the other scenes. */
    const sys: Systems

    var level: int
    var score: int
    var timeLeft: int
    /** The notes still on the field (`countActive(true)` is its length). */
    var notes: seq<Point>
    var enemies: seq<Enemy>
    var player: Player
    var scoreText: string
    var timeText: string
    /** `this.bg.tilePositionX`. */
    var bgScrollX: int

    /** Every note and every enemy is where, and as fast as, it may be placed. */
    ghost predicate Placed()
      reads this
    {
      NotesPlaced(notes) && EnemiesPlaced(enemies)
    }

    /** The HUD shows the current counters, and every entity is where it may be. */
    ghost predicate Valid()
      reads this
    {
      scoreText == ScoreLabel(score) && timeText == TimeLabel(timeLeft) && Placed()
    }

    /** The session counters of the scene as a value. */
    ghost function Counters(): Session.Counters
      reads this
    {
      Session.Counters(level, score, timeLeft, |notes|)
    }

    constructor (sys: Systems)
      ensures this.sys == sys && notes == [] && enemies == []
    {
      this.sys := sys;
      level, score, timeLeft := 0, 0, 0;
      notes, enemies := [], [];
      player := Player(Point(0, 0), 0, 0, false, NoAnim);
      scoreText, timeText := "", "";
      bgScrollX := 0;
    }

    /** `init(data)`: the level is `data.level`, or 1 when that is missing or 0. */
    method Init(data: GamePayload)
      modifies this`level
      ensures level == SessionLevel(data)
    {
      level := Or(data.level, 1);
    }

    /**
     * `create`: starts the level music, resets the score and the countdown,
     * puts the player at the centre and places the level's notes and enemies.
     * `ok` is false exactly when the tape cannot supply them all, and then no
     * entity is placed and the tape is used up.
     */
    method Create(tape: seq<nat>) returns (ok: bool, rest: seq<nat>)
      modifies this`score, this`timeLeft, this`notes, this`enemies, this`player,
        this`scoreText, this`timeText, this`bgScrollX, sys
      ensures Valid()
      ensures sys.effects == old(sys.effects) + [PlaySound(GameMusic, true, 40)]
      ensures score == 0 && timeLeft == Session.LevelTime
      ensures player == Player(Point(CentreX, CentreY), 0, 0, false, NoAnim)
      ensures bgScrollX == 0
      ensures ok <==> Populates(level, tape)
      ensures ok ==> Counters() == Session.Fresh(level)
      ensures ok ==> |enemies| == Session.Iterations(Session.EnemyCount(level))
      ensures ok ==> Drawn(Some(enemies), rest) == EnemiesFrom(Session.EnemyCount(level), tape[2 * |notes|..])
      ensures !ok ==> notes == [] && enemies == [] && rest == []
    {
      sys.Play(GameMusic, true, 40);
      bgScrollX := 0;
      score := 0;
      timeLeft := Session.LevelTime;
      scoreText := ScoreLabel(score);
      timeText := TimeLabel(timeLeft);
      player := Player(Point(CentreX, CentreY), 0, 0, false, NoAnim);
      ok, rest := Populate(tape);
    }

    /**
     * The two placement loops of `create`, notes first, then enemies, from one
     * tape: the k-th note from draws 2k and 2k + 1, the enemies from the draws
     * after the last note.
     */
    method Populate(tape: seq<nat>) returns (ok: bool, rest: seq<nat>)
      modifies this`notes, this`enemies
      ensures Placed()
      ensures ok <==> Populates(level, tape)
      ensures ok ==>
        |notes| == Session.Iterations(Session.NoteCount(level))
        && (forall k :: 0 <= k < |notes| ==> notes[k] == NoteAt(tape, k))
        && Drawn(Some(enemies), rest) == EnemiesFrom(Session.EnemyCount(level), tape[2 * |notes|..])
      ensures !ok ==> notes == [] && enemies == [] && rest == []
    {
      var placedNotes, afterNotes := PlaceNotes(Session.NoteCount(level), tape);
      var placedEnemies, afterEnemies := PlaceEnemies(Session.EnemyCount(level), afterNotes);
      ok := placedNotes.Some? && placedEnemies.Some?;
      if ok {
        notes, enemies, rest := placedNotes.value, placedEnemies.value, afterEnemies;
      } else {
        notes, enemies, rest := [], [], [];
      }
    }

    /** `endLevel(success)`. */
    method EndLevel(success: bool)
      modifies sys
      ensures sys.effects == old(sys.effects) + Ending(Some(Outcome(success, score, level)))
    {
      sys.StopByKey(GameMusic);
      if success {
        sys.Play(WinSound, false, 100);
      } else {
        sys.Play(GameOverSound, false, 100);
      }
      sys.PauseWorld();
      sys.Start(ToGameOver(Handover(Outcome(success, score, level))));
    }

    /**
     * `handleCollectNote`: the note is removed, the score gains the reward,
     * and the level is won when it was the last note.
     */
    method Collect(i: nat)
      requires Valid() && i < |notes|
      modifies this`notes, this`score, this`scoreText, sys
      ensures Valid()
      ensures notes == old(notes[..i] + notes[i + 1..])
      ensures Counters() == Session.Step(old(Counters()), Session.Collect).after
      ensures sys.effects == old(sys.effects) + [PlaySound(NoteSound, false, 70)]
        + Ending(Session.Step(old(Counters()), Session.Collect).outcome)
    {
      ghost var r := Session.Step(Counters(), Session.Collect);
      sys.Play(NoteSound, false, 70);
      RemoveNote(i);
      if |notes| == 0 {
        assert r.outcome == Some(Outcome(true, score, level));
        EndLevel(true);
      } else {
        assert r.outcome == None;
      }
    }

    /** The counting part of `handleCollectNote`: one note off the field, the reward added, the HUD updated. */
    method RemoveNote(i: nat)
      requires Valid() && i < |notes|
      modifies this`notes, this`score, this`scoreText
      ensures Valid()
      ensures notes == old(notes[..i] + notes[i + 1..])
      ensures Counters() == Session.Step(old(Counters()), Session.Collect).after
    {
      RemovalKeepsNotesPlaced(notes, i);
      notes := notes[..i] + notes[i + 1..];
      score := score + Session.NoteReward;
      scoreText := ScoreLabel(score);
    }

    /** The timer callback: one second less, and the level is lost once none is left. */
    method Tick()
      requires Valid()
      modifies this`timeLeft, this`timeText, sys
      ensures Valid()
      ensures Counters() == Session.Step(old(Counters()), Session.Tick).after
      ensures sys.effects == old(sys.effects) + Ending(Session.Step(old(Counters()), Session.Tick).outcome)
    {
      ghost var r := Session.Step(Counters(), Session.Tick);
      CountDown();
      if timeLeft <= 0 {
        assert r.outcome == Some(Outcome(false, score, level));
        EndLevel(false);
      } else {
        assert r.outcome == None;
      }
    }

    /** The counting part of the timer callback: one second less, the HUD updated. */
    method CountDown()
      requires Valid()
      modifies this`timeLeft, this`timeText
      ensures Valid()
      ensures Counters() == Session.Step(old(Counters()), Session.Tick).after
    {
      timeLeft := timeLeft - 1;
      timeText := TimeLabel(timeLeft);
    }

    /** `handleHitPlayer`: the level is lost at once. */
    method Hit()
      modifies sys
      ensures sys.effects == old(sys.effects) + Ending(Session.Step(Counters(), Session.Hit).outcome)
    {
      EndLevel(false);
    }

    /**
     * `update`: scroll the background, set the player's velocity from the
     * keys, pick the animation and the facing.
     */
    method Update(cursors: Held, wasd: Held)
      modifies this`player, this`bgScrollX
      ensures bgScrollX == old(bgScrollX) + ScrollStep
      ensures player.pos == old(player.pos)
      ensures player.vx == AxisVelocity(cursors.left || wasd.left, cursors.right || wasd.right)
      ensures player.vy == AxisVelocity(cursors.up || wasd.up, cursors.down || wasd.down)
      ensures player.anim == AnimationFor(player.vx, player.vy)
      ensures player.flipX == Facing(old(player.flipX), player.vx)
    {
      bgScrollX := bgScrollX + ScrollStep;
      var vx, vy := Steer(cursors, wasd);
      var anim := AnimationFor(vx, vy);
      var flipped := player.flipX;
      if vx < 0 {
        flipped := true;
      } else if vx > 0 {
        flipped := false;
      }
      player := player.(vx := vx, vy := vy, anim := anim, flipX := flipped);
    }
  }
}
