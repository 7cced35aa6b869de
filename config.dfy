/** The fixed canvas the game is configured with (src/main.js). */
module Config {
  /** Width and height of the game canvas, in pixels. */
  const Width: int := 800
  const Height: int := 480

  /** The screen centre, where the player is placed and around which enemies may not spawn. */
  const CentreX: int := Width / 2
  const CentreY: int := Height / 2
}
