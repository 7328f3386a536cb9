/**
 The movement command codes returned by the brain on every tick.

 The game reads the same code either as "turn to face that way" or as "step
 that way", depending on which way the player already faces; the brain never
 distinguishes the two.
 */
module Commands {

  const NOOP: int := 0
  const UP: int := 1
  const LEFT: int := 2
  const DOWN: int := 3
  const RIGHT: int := 4

  /** The codes the game understands: 0 = do nothing, 1..4 = up, left, down, right. */
  predicate IsCommand(c: int) {
    NOOP <= c <= RIGHT
  }

  /** A code that asks the game to turn or to move, as opposed to doing nothing. */
  predicate IsMove(c: int) {
    UP <= c <= RIGHT
  }
}
