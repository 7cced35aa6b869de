/**
 * The counters of one level attempt in GameScene, as values: the level, the
 * score, the seconds left and the number of notes still on the field, and how
 * each of the three gameplay events (a note collected, a timer tick, a hit by
 * an enemy) changes them and whether it ends the level.
 */
module Session {
  import opened Optional
  import opened Payloads

  /** `this.levelTime`: seconds per level. */
  const LevelTime: int := 60

  /** Score added per collected note. */
  const NoteReward: int := 10

  /** `8 + this.level * 2`: notes placed for a level, two more on each next level. */
  function NoteCount(level: int): (n: int)
    ensures n % 2 == 0
    ensures n >= 10 <==> level >= 1
  {
    8 + level * 2
  }

  /** `2 + Math.min(5, this.level)`: enemies placed for a level. */
  function EnemyCount(level: int): (n: int)
    ensures n <= 7
    ensures level >= 1 ==> n >= 3
    ensures level <= 5 ==> n == 2 + level
    ensures level >= 5 ==> n == 7
  {
    2 + (if level < 5 then level else 5)
  }

  /** Each next level has two more notes and at least as many enemies. */
  lemma NextLevelIsHarder(level: int)
    ensures NoteCount(level + 1) == NoteCount(level) + 2
    ensures EnemyCount(level) <= EnemyCount(level + 1) <= EnemyCount(level) + 1
  {
  }

  /** How many times `for (let i = 0; i < count; i++)` runs its body. */
  function Iterations(count: int): nat {
    if count < 0 then 0 else count
  }

  datatype Counters = Counters(level: int, score: int, timeLeft: int, notesLeft: nat)

  /** The handlers GameScene registers: note overlap, timer callback, enemy collision. */
  datatype Event = Collect | Tick | Hit

  /** The counters after an event, and the outcome if the event ended the level. */
  datatype StepResult = StepResult(after: Counters, outcome: Option<Outcome>)

  /** The counters `create` sets up: score 0, the full level time, every note placed. */
  function Fresh(level: int): (c: Counters)
    ensures c.level == level && c.score == 0 && c.timeLeft == LevelTime
    ensures c.notesLeft == Iterations(NoteCount(level))
    ensures level >= 1 ==> c.notesLeft >= 10
  {
    Counters(level, 0, LevelTime, Iterations(NoteCount(level)))
  }

  /**
   * One event. A collect removes one note, adds the reward, and ends the level
   * as a win when no note is left; a tick takes one second and ends the level
   * as a loss once no time is left; a hit ends the level as a loss at once.
   * The engine reports an overlap only with a note still on the field, so with
   * none left a collect cannot occur and changes nothing.
   */
  function Step(c: Counters, e: Event): (r: StepResult)
    ensures r.after.level == c.level
    ensures e == Collect && c.notesLeft > 0 ==>
      r.after == c.(score := c.score + NoteReward, notesLeft := c.notesLeft - 1)
      && (r.outcome.Some? <==> r.after.notesLeft == 0)
    ensures e == Collect && c.notesLeft == 0 ==> r == StepResult(c, None)
    ensures e == Tick ==>
      r.after == c.(timeLeft := c.timeLeft - 1) && (r.outcome.Some? <==> r.after.timeLeft <= 0)
    ensures e == Hit ==> r == StepResult(c, Some(Outcome(false, c.score, c.level)))
    ensures r.outcome.Some? ==> r.outcome.value == Outcome(e == Collect, r.after.score, c.level)
  {
    match e
    case Collect =>
      if c.notesLeft == 0 then StepResult(c, None)
      else
        var d := c.(score := c.score + NoteReward, notesLeft := c.notesLeft - 1);
        StepResult(d, if d.notesLeft == 0 then Some(Outcome(true, d.score, d.level)) else None)
    case Tick =>
      var d := c.(timeLeft := c.timeLeft - 1);
      StepResult(d, if d.timeLeft <= 0 then Some(Outcome(false, d.score, d.level)) else None)
    case Hit =>
      StepResult(c, Some(Outcome(false, c.score, c.level)))
  }

  /**
   * A sequence of events, up to the first one that ends the level. What the
   * engine would deliver after `scene.start` is not modelled: the first end of
   * the level is taken as final.
   */
  function Run(c: Counters, events: seq<Event>): (r: StepResult)
    ensures events == [] ==> r == StepResult(c, None)
    ensures r.after.level == c.level
    ensures r.outcome.Some? ==> events != [] && r.outcome.value == Outcome(r.outcome.value.success, r.after.score, c.level)
    decreases |events|
  {
    if events == [] then StepResult(c, None)
    else
      var r := Step(c, events[0]);
      if r.outcome.Some? then r else Run(r.after, events[1..])
  }

  /** `k` copies of the same event. */
  function Repeat(e: Event, k: nat): (s: seq<Event>)
    ensures |s| == k
  {
    if k == 0 then [] else [e] + Repeat(e, k - 1)
  }

  /**
   * What a run keeps: the level never changes, score plus the reward for every
   * remaining note is constant, notes and time only go down, and an outcome
   * carries the final score and the session's level.
   */
  lemma {:induction false} RunAccounting(c: Counters, events: seq<Event>)
    ensures var r := Run(c, events);
      r.after.level == c.level
      && r.after.score + NoteReward * r.after.notesLeft == c.score + NoteReward * c.notesLeft
      && r.after.notesLeft <= c.notesLeft
      && r.after.timeLeft <= c.timeLeft
      && (r.outcome.Some? ==> r.outcome.value.score == r.after.score && r.outcome.value.level == c.level)
    decreases |events|
  {
    if events != [] {
      var r := Step(c, events[0]);
      if r.outcome.None? {
        RunAccounting(r.after, events[1..]);
      }
    }
  }

  /** From a fresh start, the score is exactly the reward times the notes collected. */
  lemma ScoreIsRewardPerNote(level: int, events: seq<Event>)
    ensures var r := Run(Fresh(level), events);
      r.after.score == NoteReward * (Iterations(NoteCount(level)) - r.after.notesLeft)
  {
    RunAccounting(Fresh(level), events);
  }

  /**
   * While notes are on the field, the level ends as a win exactly when the
   * last one is collected: a run leaves no note exactly when it ends in success.
   */
  lemma {:induction false} WinExactlyWhenCleared(c: Counters, events: seq<Event>)
    requires c.notesLeft > 0
    ensures var r := Run(c, events);
      r.after.notesLeft == 0 <==> r.outcome.Some? && r.outcome.value.success
    decreases |events|
  {
    if events != [] {
      var r := Step(c, events[0]);
      if r.outcome.None? {
        WinExactlyWhenCleared(r.after, events[1..]);
      }
    }
  }

  /** Runs compose: a run of `a + b` is a run of `a`, then of `b` if `a` did not end the level. */
  lemma {:induction false} RunAppend(c: Counters, a: seq<Event>, b: seq<Event>)
    ensures Run(c, a + b) == (var r := Run(c, a); if r.outcome.Some? then r else Run(r.after, b))
    decreases |a|
  {
    if a != [] {
      assert (a + b)[0] == a[0] && (a + b)[1..] == a[1..] + b;
      var r := Step(c, a[0]);
      if r.outcome.None? {
        RunAppend(r.after, a[1..], b);
      }
    } else {
      assert a + b == b;
    }
  }

  /** Fewer ticks than the time left only count the time down. */
  lemma {:induction false} TicksCountDown(c: Counters, k: nat)
    requires k < c.timeLeft
    ensures Run(c, Repeat(Tick, k)) == StepResult(c.(timeLeft := c.timeLeft - k), None)
    decreases k
  {
    if k > 0 {
      assert Repeat(Tick, k)[1..] == Repeat(Tick, k - 1);
      TicksCountDown(c.(timeLeft := c.timeLeft - 1), k - 1);
    }
  }

  /** As many ticks as the time left end the level as a loss, with the score untouched. */
  lemma TimerRunsOut(c: Counters)
    requires c.timeLeft > 0
    ensures Run(c, Repeat(Tick, c.timeLeft as nat))
      == StepResult(c.(timeLeft := 0), Some(Outcome(false, c.score, c.level)))
  {
    var k := c.timeLeft as nat;
    RunAppend(c, Repeat(Tick, k - 1), [Tick]);
    assert Repeat(Tick, k) == Repeat(Tick, k - 1) + [Tick] by {
      RepeatSnoc(Tick, k);
    }
    TicksCountDown(c, k - 1);
  }

  lemma {:induction false} RepeatSnoc(e: Event, k: nat)
    requires k > 0
    ensures Repeat(e, k) == Repeat(e, k - 1) + [e]
    decreases k
  {
    if k > 1 {
      RepeatSnoc(e, k - 1);
    }
  }

  /** From a fresh start the timer ends the level on its sixtieth tick, not before. */
  lemma SixtiethTickEndsLevel(level: int)
    ensures Run(Fresh(level), Repeat(Tick, (LevelTime - 1) as nat)).outcome == None
    ensures Run(Fresh(level), Repeat(Tick, LevelTime as nat)).outcome == Some(Outcome(false, 0, level))
  {
    TicksCountDown(Fresh(level), (LevelTime - 1) as nat);
    TimerRunsOut(Fresh(level));
  }

  /** Collecting fewer notes than remain adds the reward per note and ends nothing. */
  lemma {:induction false} CollectsCount(c: Counters, k: nat)
    requires k < c.notesLeft
    ensures Run(c, Repeat(Collect, k))
      == StepResult(c.(score := c.score + NoteReward * k, notesLeft := c.notesLeft - k), None)
    decreases k
  {
    if k > 0 {
      assert Repeat(Collect, k)[1..] == Repeat(Collect, k - 1);
      CollectsCount(c.(score := c.score + NoteReward, notesLeft := c.notesLeft - 1), k - 1);
    }
  }

  /** Collecting every remaining note ends the level as a win with the full score. */
  lemma {:induction false} CollectingAllWins(c: Counters)
    requires c.notesLeft > 0
    ensures Run(c, Repeat(Collect, c.notesLeft)).outcome
      == Some(Outcome(true, c.score + NoteReward * c.notesLeft, c.level))
    decreases c.notesLeft
  {
    if c.notesLeft == 1 {
      LastNoteWins(c);
    } else {
      var next := c.(score := c.score + NoteReward, notesLeft := c.notesLeft - 1);
      assert Step(c, Collect) == StepResult(next, None);
      assert Repeat(Collect, c.notesLeft)[1..] == Repeat(Collect, next.notesLeft);
      CollectingAllWins(next);
    }
  }

  lemma LastNoteWins(c: Counters)
    requires c.notesLeft == 1
    ensures Run(c, [Collect]).outcome == Some(Outcome(true, c.score + NoteReward, c.level))
  {
  }

  /** A hit ends the level as a loss whatever happened before, unless the level had already ended. */
  lemma HitAfterAnythingLoses(c: Counters, before: seq<Event>)
    ensures var r := Run(c, before);
      r.outcome.None? ==> Run(c, before + [Hit]).outcome == Some(Outcome(false, r.after.score, c.level))
  {
    RunAppend(c, before, [Hit]);
    RunAccounting(c, before);
  }

  /** Level 1, all ten notes collected in time: `{ success: true, score: 100, level: 1 }`. */
  lemma ScenarioAllNotes()
    ensures Run(Fresh(1), Repeat(Collect, 10)).outcome == Some(Outcome(true, 100, 1))
  {
    CollectingAllWins(Fresh(1));
  }

  /** Level 1, seven notes collected, then the minute runs out: `{ success: false, score: 70, level: 1 }`. */
  lemma ScenarioTimeOut()
    ensures Run(Fresh(1), Repeat(Collect, 7) + Repeat(Tick, 60)).outcome == Some(Outcome(false, 70, 1))
  {
    var c := Fresh(1);
    var afterNotes := c.(score := 70, notesLeft := 3);
    CollectsCount(c, 7);
    assert Run(c, Repeat(Collect, 7)) == StepResult(afterNotes, None);
    TimerRunsOut(afterNotes);
    assert Run(afterNotes, Repeat(Tick, 60)).outcome == Some(Outcome(false, 70, 1));
    RunAppend(c, Repeat(Collect, 7), Repeat(Tick, 60));
  }

  /** Level 3, five seconds and five notes, then a hit: `{ success: false, score: 50, level: 3 }`. */
  lemma ScenarioHit()
    ensures Run(Fresh(3), Repeat(Tick, 5) + Repeat(Collect, 5) + [Hit]).outcome == Some(Outcome(false, 50, 3))
  {
    var c := Fresh(3);
    RunAppend(c, Repeat(Tick, 5) + Repeat(Collect, 5), [Hit]);
    RunAppend(c, Repeat(Tick, 5), Repeat(Collect, 5));
    TicksCountDown(c, 5);
    CollectsCount(c.(timeLeft := 55), 5);
  }
}
