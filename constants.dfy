/**
 * The package-wide bound `MAX_VALUE` of `pyjobshop.constants`. Its value is
 * not part of this model, so it is an arbitrary positive integer here; every
 * property proved about it holds for any such value.
 */
module Constants {
  type Positive = x: int | x > 0 witness 1

  const MAX_VALUE: Positive
}
