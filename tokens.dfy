/**
 * The line a Groundhog reads, already classified, and what reading it
 * tells the caller.
 *
 * Both Groundhog classes read one line with `input()`, compare it with the
 * literal "STOP" and otherwise hand it to Python's `float()`. The console and
 * the string-to-float conversion are outside this model: a line arrives here
 * as the sentinel, as the float `float()` would produce, or as a line
 * `float()` refuses.
 */
module Tokens {

  /**
   * A Python float as the stores see it: a finite value, NaN or an
   * infinity. The stores only append floats and never compute with them.
   */
  datatype Float =
    | Finite(value: real)
    | NaN
    | Infinity(negative: bool)

  datatype Token =
    | Stop              // the line was exactly "STOP"
    | Num(value: Float) // `float()` accepted the line and produced `value`
    | Bad               // `float()` raised ValueError

  /** What a call reports: `True`, `False`, or the class's `Error` raised. */
  datatype Outcome =
    | Continue  // the method returned True: a reading was stored
    | Stopped   // the method returned False: the sentinel was read
    | Rejected  // the method raised Groundhog.Error

  /** The readings a token contributes: its number if it has one. */
  function Values(tok: Token): (r: seq<Float>)
    ensures |r| <= 1
    ensures r != [] <==> tok.Num?
    ensures tok.Num? ==> r == [tok.value]
  {
    if tok.Num? then [tok.value] else []
  }

  /** The numbers of a token stream, in arrival order. */
  function Accepted(toks: seq<Token>): (r: seq<Float>)
    ensures |r| <= |toks|
  {
    if toks == [] then [] else Values(toks[0]) + Accepted(toks[1..])
  }

  /** No token of the stream is refused by `float()`. */
  predicate NoRejections(toks: seq<Token>)
  {
    forall i :: 0 <= i < |toks| ==> !toks[i].Bad?
  }
}
