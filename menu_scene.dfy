/**
 * The title scene (MenuScene): it plays the intro music and starts the play
 * scene at level 1 when ENTER goes down or the pointer is pressed.
 */
module MenuScene {
  import opened Payloads
  import opened Systems
  import Session

  const IntroMusic: string := "intro_music"

  /** What `startGame` asks of the engine: stop the intro music, then start GameScene with `{ level: 1 }`. */
  const StartGameEffects: seq<Effect> := [StopSound(IntroMusic), StartScene(ToGame(MenuStart))]

  /** The game `startGame` starts is always a fresh level-1 session: 10 notes, score 0, 60 seconds. */
  lemma StartGameStartsLevelOne()
    ensures StartGameEffects[0] == StopSound(IntroMusic)
    ensures StartGameEffects[1].StartScene? && StartGameEffects[1].target.ToGame?
    ensures Session.Fresh(SessionLevel(StartGameEffects[1].target.data)) == Session.Counters(1, 0, 60, 10)
  {
  }

  class MenuScene {
    /** The engine's managers, shared with the other scenes. */
    const sys: Systems

    /** The `once('pointerdown')` listener is registered and has not fired yet. */
    var pointerArmed: bool

    /**
     * The ENTER key's `on('down')` listener is registered. `on` keeps it
     * after it fires, and the key emits on auto-repeat too.
     */
    var enterBound: bool

    constructor (sys: Systems)
      ensures this.sys == sys && !pointerArmed && !enterBound
    {
      this.sys := sys;
      pointerArmed, enterBound := false, false;
    }

    /** `create`: start the intro music, looping at half volume, and register both listeners. */
    method Create()
      modifies this`pointerArmed, this`enterBound, sys
      ensures sys.effects == old(sys.effects) + [PlaySound(IntroMusic, true, 50)]
      ensures pointerArmed && enterBound
    {
      sys.Play(IntroMusic, true, 50);
      enterBound := true;
      pointerArmed := true;
    }

    /** `startGame`. */
    method StartGame()
      modifies sys
      ensures sys.effects == old(sys.effects) + StartGameEffects
    {
      sys.StopByKey(IntroMusic);
      sys.Start(ToGame(MenuStart));
    }

    /** An ENTER 'down' event, first press or repeat: calls `startGame` every time. */
    method EnterDown()
      modifies sys
      ensures sys.effects == old(sys.effects) + (if enterBound then StartGameEffects else [])
    {
      if enterBound {
        StartGame();
      }
    }

    /** A pointer press: calls `startGame` only the first time, and the listener is gone. */
    method PointerDown()
      modifies this`pointerArmed, sys
      ensures !pointerArmed
      ensures sys.effects == old(sys.effects) + (if old(pointerArmed) then StartGameEffects else [])
    {
      if pointerArmed {
        pointerArmed := false;
        StartGame();
      }
    }
  }

  /** Within one activation, two pointer presses start the game once. */
  method PointerStartsOnce(sys: Systems)
    modifies sys
    ensures sys.effects == old(sys.effects) + [PlaySound(IntroMusic, true, 50)] + StartGameEffects
  {
    var menu := new MenuScene(sys);
    menu.Create();
    menu.PointerDown();
    menu.PointerDown();
  }

  /** Within one activation, two ENTER events start the game twice: the ENTER listener is not one-shot. */
  method EnterStartsEveryTime(sys: Systems)
    modifies sys
    ensures sys.effects
      == old(sys.effects) + [PlaySound(IntroMusic, true, 50)] + StartGameEffects + StartGameEffects
  {
    var menu := new MenuScene(sys);
    menu.Create();
    menu.EnterDown();
    menu.EnterDown();
  }
}
