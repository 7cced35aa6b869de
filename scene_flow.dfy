/**
 * The cycle of scenes as a transition function: Preload, then Menu, Play and
 * GameOver over and over. Each state keeps what its scene holds (the session
 * counters in Play, the fields GameOverScene keeps in GameOver), and each
 * transition carries the data its `scene.start` call passes.
 */
module SceneFlow {
  import opened Js
  import opened Payloads
  import Session
  import GameOverScene

  datatype Active = Preload | Menu | Play(c: Session.Counters) | GameOver(shown: Shown)

  /**
   * What moves the game on: the preloader finishing, ENTER, a pointer press,
   * or one of the gameplay events of the play scene.
   */
  datatype Trigger = Loaded | EnterKey | Pointer | Gameplay(e: Session.Event)

  /** The first scene of the game's scene list. */
  const Initial: Active := Preload

  function Next(a: Active, t: Trigger): (b: Active)
    ensures a == Preload ==> (b == Menu <==> t == Loaded) && (b == Menu || b == Preload)
    ensures a == Menu ==> (b.Play? <==> t == EnterKey || t == Pointer) && (b.Play? || b == Menu)
    ensures a.Play? ==> b.Play? || b.GameOver?
    ensures a.Play? && !t.Gameplay? ==> b == a
    ensures a.GameOver? ==> (b == Menu <==> t == EnterKey || t == Pointer) && (b == Menu || b == a)
  {
    match a
    case Preload => if t == Loaded then Menu else Preload
    case Menu =>
      if t == EnterKey || t == Pointer then Play(Session.Fresh(SessionLevel(MenuStart))) else Menu
    case Play(c) =>
      if t.Gameplay? then
        var r := Session.Step(c, t.e);
        if r.outcome.Some? then GameOver(Receive(Handover(r.outcome.value))) else Play(r.after)
      else Play(c)
    case GameOver(_) => if t == EnterKey || t == Pointer then Menu else a
  }

  /** The scene reached after a sequence of triggers. */
  function Reach(triggers: seq<Trigger>): Active
    decreases |triggers|
  {
    if triggers == [] then Initial
    else Next(Reach(triggers[..|triggers| - 1]), triggers[|triggers| - 1])
  }

  /** ENTER and the pointer lead to the same place from every scene. */
  lemma ConfirmInputsAgree(a: Active)
    ensures Next(a, EnterKey) == Next(a, Pointer)
  {
  }

  /**
   * The only way into Play is from the menu, and it always starts a fresh
   * level-1 session: score 0, sixty seconds, ten notes.
   */
  lemma PlayIsEnteredFresh(a: Active, t: Trigger)
    requires !a.Play? && Next(a, t).Play?
    ensures a == Menu && (t == EnterKey || t == Pointer)
    ensures Next(a, t) == Play(Session.Counters(1, 0, Session.LevelTime, 10))
  {
  }

  /** After any result, two confirmations lead through the menu to a fresh session. */
  lemma ReplayResetsSession(shown: Shown, first: Trigger, second: Trigger)
    requires first == EnterKey || first == Pointer
    requires second == EnterKey || second == Pointer
    ensures Next(GameOver(shown), first) == Menu
    ensures Next(Next(GameOver(shown), first), second) == Play(Session.Fresh(1))
  {
  }

  /** A session that ends shows GameOverScene exactly its outcome. */
  lemma PlayHandsOverOutcome(c: Session.Counters, e: Session.Event)
    requires c.level != 0
    requires Session.Step(c, e).outcome.Some?
    ensures var o := Session.Step(c, e).outcome.value;
      Next(Play(c), Gameplay(e)) == GameOver(Shown(Flag(o.success), o.score, o.level))
  {
    HandoverRoundTrip(Session.Step(c, e).outcome.value);
  }

  /**
   * What holds in every reachable scene. In Play: level 1, at least one note
   * and one second left, and the score is the reward for every note taken.
   * In GameOver: level 1, a score that is a multiple of the reward up to the
   * full 100, and success exactly when the score is the full 100.
   */
  ghost predicate Consistent(a: Active) {
    match a
    case Play(c) =>
      c.level == 1 && 0 < c.notesLeft <= 10 && 0 < c.timeLeft <= Session.LevelTime
      && c.score == Session.NoteReward * (10 - c.notesLeft)
    case GameOver(s) =>
      s.level == 1 && s.success.Flag? && 0 <= s.score <= 100 && s.score % Session.NoteReward == 0
      && (s.success.b <==> s.score == 100)
    case _ => true
  }

  lemma NextKeepsConsistent(a: Active, t: Trigger)
    requires Consistent(a)
    ensures Consistent(Next(a, t))
  {
    if a.Play? && t.Gameplay? {
      var r := Session.Step(a.c, t.e);
      if r.outcome.Some? {
        HandoverRoundTrip(r.outcome.value);
      }
    }
  }

  /** Every scene the game can reach satisfies `Consistent`. */
  lemma {:induction false} ReachableConsistent(triggers: seq<Trigger>)
    ensures Consistent(Reach(triggers))
    decreases |triggers|
  {
    if triggers != [] {
      ReachableConsistent(triggers[..|triggers| - 1]);
      NextKeepsConsistent(Reach(triggers[..|triggers| - 1]), triggers[|triggers| - 1]);
    }
  }

  /**
   * Since the menu always starts level 1, a reachable result screen shows the
   * survival heading exactly when the score is the full 100.
   */
  lemma SurvivedExactlyWithFullScore(triggers: seq<Trigger>)
    requires Reach(triggers).GameOver?
    ensures var s := Reach(triggers).shown;
      GameOverScene.Heading(s.success) == GameOverScene.SurvivedHeading <==> s.score == 100
  {
    ReachableConsistent(triggers);
  }
}
