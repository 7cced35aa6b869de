/**
 * The data each scene hands the next one through `scene.start(key, data)`,
 * and the defaults the receiving scene applies when it reads it in `init`.
 */
module Payloads {
  import opened Js

  /** What GameScene receives: `{ level }`. */
  datatype GamePayload = GamePayload(level: NumberField)

  /** What GameOverScene receives: `{ success, score, level }`. */
  datatype GameOverPayload = GameOverPayload(success: BooleanField, score: NumberField, level: NumberField)

  /** How a level attempt ended, as GameScene knows it when it ends the level. */
  datatype Outcome = Outcome(success: bool, score: int, level: int)

  /** The fields GameOverScene keeps after `init`. */
  datatype Shown = Shown(success: BooleanField, score: int, level: int)

  /** The payload the menu always sends: `{ level: 1 }`. */
  const MenuStart: GamePayload := GamePayload(Num(1))

  /** GameScene's `init`: `data.level || 1`. */
  function SessionLevel(data: GamePayload): (level: int)
    ensures level != 0
    ensures NumberTruthy(data.level) ==> level == data.level.n
    ensures !NumberTruthy(data.level) ==> level == 1
    ensures NumberTruthy(data.level) <==> data.level.Num? && level == data.level.n
  {
    Or(data.level, 1)
  }

  /** The payload `endLevel` builds: exactly the current success flag, score and level. */
  function Handover(o: Outcome): (p: GameOverPayload)
    ensures p.success.Flag? && p.success.b == o.success
    ensures p.score.Num? && p.score.n == o.score
    ensures p.level.Num? && p.level.n == o.level
  {
    GameOverPayload(Flag(o.success), Num(o.score), Num(o.level))
  }

  /**
   * GameOverScene's `init`: `success` is kept as received, `score` defaults
   * to 0 and `level` to 1 when falsy.
   */
  function Receive(data: GameOverPayload): (s: Shown)
    ensures s.success == data.success
    ensures NumberTruthy(data.score) ==> s.score == data.score.n
    ensures !NumberTruthy(data.score) ==> s.score == 0
    ensures NumberTruthy(data.level) ==> s.level == data.level.n
    ensures !NumberTruthy(data.level) ==> s.level == 1
  {
    Shown(data.success, Or(data.score, 0), Or(data.level, 1))
  }

  /**
   * What GameScene hands over is what GameOverScene shows: the score survives
   * even when it is 0 (its default is 0), and the level survives because a
   * session's level is never 0.
   */
  lemma HandoverRoundTrip(o: Outcome)
    requires o.level != 0
    ensures Receive(Handover(o)) == Shown(Flag(o.success), o.score, o.level)
  {
  }

  /** The session the menu starts is always a level-1 session. */
  lemma MenuStartsLevelOne()
    ensures SessionLevel(MenuStart) == 1
  {
  }
}
