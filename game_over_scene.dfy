/**
 * The result scene (GameOverScene): it shows whether the player survived and
 * the final score, and returns to the menu on ENTER or a pointer press.
 */
module GameOverScene {
  import opened Js
  import opened Payloads
  import opened Systems

  const SurvivedHeading: string := "Você sobreviveu!"
  const LostHeading: string := " Game Over!"
  const ScorePrefix: string := "Pontuação: "

  /** The heading: the survival line exactly when `success` is truthy. */
  function Heading(success: BooleanField): (h: string)
    ensures h == SurvivedHeading <==> BooleanTruthy(success)
    ensures h == LostHeading <==> !BooleanTruthy(success)
  {
    if BooleanTruthy(success) then SurvivedHeading else LostHeading
  }

  class GameOverScene {
    /** The engine's managers, shared with the other scenes. */
    const sys: Systems

    var success: BooleanField
    var score: int
    var level: int
    var heading: string
    var scoreLine: string
    /** The `once('keydown-ENTER')` listener is registered and has not fired yet. */
    var enterArmed: bool
    /** The `once('pointerdown')` listener is registered and has not fired yet. */
    var pointerArmed: bool

    constructor (sys: Systems)
      ensures this.sys == sys && !enterArmed && !pointerArmed
    {
      this.sys := sys;
      success, score, level := Unset, 0, 0;
      heading, scoreLine := "", "";
      enterArmed, pointerArmed := false, false;
    }

    /** `init(data)`: keep `success` as received, default `score` to 0 and `level` to 1. */
    method Init(data: GameOverPayload)
      modifies this`success, this`score, this`level
      ensures Shown(success, score, level) == Receive(data)
    {
      success := data.success;
      score := Or(data.score, 0);
      level := Or(data.level, 1);
    }

    /** `create`: the heading, the score line, and two one-shot listeners. */
    method Create()
      modifies this`heading, this`scoreLine, this`enterArmed, this`pointerArmed
      ensures heading == Heading(success)
      ensures scoreLine == Label(ScorePrefix, score)
      ensures enterArmed && pointerArmed
    {
      heading := Heading(success);
      scoreLine := Label(ScorePrefix, score);
      enterArmed := true;
      pointerArmed := true;
    }

    /** An ENTER key-down: the first one starts MenuScene, with no data. */
    method EnterDown()
      modifies this`enterArmed, sys
      ensures !enterArmed
      ensures sys.effects == old(sys.effects) + (if old(enterArmed) then [StartScene(ToMenu)] else [])
    {
      if enterArmed {
        enterArmed := false;
        sys.Start(ToMenu);
      }
    }

    /** A pointer press: the first one starts MenuScene, with no data. */
    method PointerDown()
      modifies this`pointerArmed, sys
      ensures !pointerArmed
      ensures sys.effects == old(sys.effects) + (if old(pointerArmed) then [StartScene(ToMenu)] else [])
    {
      if pointerArmed {
        pointerArmed := false;
        sys.Start(ToMenu);
      }
    }
  }

  /**
   * The screen shown for an outcome handed over by GameScene: the survival
   * heading exactly on success, and a score line that reads back as the score.
   */
  method ShowOutcome(sys: Systems, o: Outcome) returns (heading: string, scoreLine: string)
    ensures heading == SurvivedHeading <==> o.success
    ensures |scoreLine| > |ScorePrefix| && scoreLine[..|ScorePrefix|] == ScorePrefix
    ensures IsDecimal(scoreLine[|ScorePrefix|..]) && ParseInt(scoreLine[|ScorePrefix|..]) == o.score
  {
    var screen := new GameOverScene(sys);
    screen.Init(Handover(o));
    screen.Create();
    heading, scoreLine := screen.heading, screen.scoreLine;
    LabelReadsBack(ScorePrefix, o.score);
  }
}
