/**
 * The engine services the scenes call (sound manager, scene manager, and
 * GameScene's arcade physics world), reduced to the ordered record of the
 * calls they receive. One object stands for all of them, so the calls of every
 * scene land in one log, in the order they are made.
 */
module Systems {
  import opened Payloads

  /** A `scene.start` request: which scene, with which data. */
  datatype SceneStart = ToMenu | ToGame(data: GamePayload) | ToGameOver(outcome: GameOverPayload)

  /**
   * One engine call. Volumes are in percent; a `sound.play` without a config
   * uses Phaser's defaults, no loop and full volume.
   */
  datatype Effect =
    | PlaySound(key: string, loop: bool, volumePercent: nat)
    | StopSound(key: string)
    | PausePhysics
    | StartScene(target: SceneStart)

  class Systems {
    /** Every engine call made so far, oldest first. */
    var effects: seq<Effect>

    constructor ()
      ensures effects == []
    {
      effects := [];
    }

    /** `this.sound.play(key, { loop, volume })`. */
    method Play(key: string, loop: bool, volumePercent: nat)
      modifies this
      ensures effects == old(effects) + [PlaySound(key, loop, volumePercent)]
    {
      effects := effects + [PlaySound(key, loop, volumePercent)];
    }

    /** `this.sound.stopByKey(key)`. */
    method StopByKey(key: string)
      modifies this
      ensures effects == old(effects) + [StopSound(key)]
    {
      effects := effects + [StopSound(key)];
    }

    /** `this.physics.world.pause()`. */
    method PauseWorld()
      modifies this
      ensures effects == old(effects) + [PausePhysics]
    {
      effects := effects + [PausePhysics];
    }

    /** `this.scene.start(key, data)`. */
    method Start(target: SceneStart)
      modifies this
      ensures effects == old(effects) + [StartScene(target)]
    {
      effects := effects + [StartScene(target)];
    }
  }
}
