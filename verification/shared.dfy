/** Vocabulary shared by every component of the Mines round engine. */
module Shared {

  /** The board is a 5x5 grid of tiles, numbered 0 to 24. */
  const BoardSize: nat := 25

  /** The three phases of a round ('betting' | 'playing' | 'gameOver'). */
  datatype Phase = Betting | Playing | GameOver

  datatype Option<+T> = None | Some(value: T)
}
