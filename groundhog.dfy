/**
 * groundhog.py: a Groundhog keeps every accepted reading in one flat list.
 *
 * `getUserInput` converts the line before appending it, so a refused line
 * leaves the list as it was. The statistics methods are stubs that return 0.
 */
module Groundhog {
  import opened Tokens

  /** The list after one `getUserInput` call, and what the call reported. */
  datatype Got = Got(readings: seq<Float>, outcome: Outcome)

  /**
   * One `getUserInput` call on the list `readings`. The list only ever grows
   * at its end, by exactly the one accepted number.
   */
  function Accept(readings: seq<Float>, tok: Token): (r: Got)
    ensures tok.Stop? <==> r.outcome == Stopped
    ensures tok.Num? <==> r.outcome == Continue
    ensures tok.Bad? <==> r.outcome == Rejected
    ensures readings <= r.readings
    ensures |r.readings| == |readings| + (if r.outcome == Continue then 1 else 0)
    ensures tok.Num? ==> r.readings[|readings|] == tok.value
  {
    match tok
    case Stop => Got(readings, Stopped)
    case Num(v) => Got(readings + [v], Continue)
    case Bad => Got(readings, Rejected)
  }

  /** The list after a `getUserInput` call for each token of `toks`, in turn. */
  function FeedFlat(readings: seq<Float>, toks: seq<Token>): (r: seq<Float>)
    ensures r == readings + Accepted(toks)
    decreases |toks|
  {
    if toks == [] then readings
    else
      var next := Accept(readings, toks[0]).readings;
      assert next == readings + Values(toks[0]);
      assert Accepted(toks) == Values(toks[0]) + Accepted(toks[1..]);
      FeedFlat(next, toks[1..])
  }

  /**
   * Append-only history: after any calls, every earlier list is a prefix of
   * the later one, and the list grew by one per accepted number.
   */
  lemma {:induction false} FeedFlatAppendOnly(readings: seq<Float>, toks: seq<Token>, k: nat)
    requires k <= |toks|
    ensures FeedFlat(readings, toks[..k]) <= FeedFlat(readings, toks)
    ensures |FeedFlat(readings, toks)| == |readings| + |Accepted(toks)|
  {
    AcceptedSplit(toks, k);
  }

  /** The numbers of a stream are those of its prefix followed by those of the rest. */
  lemma {:induction false} AcceptedSplit(toks: seq<Token>, k: nat)
    requires k <= |toks|
    ensures Accepted(toks) == Accepted(toks[..k]) + Accepted(toks[k..])
    decreases k
  {
    if k > 0 {
      AcceptedSplit(toks[1..], k - 1);
      assert toks[1..][..k - 1] == toks[..k][1..];
      assert toks[1..][k - 1..] == toks[k..];
    } else {
      assert toks[..k] == [];
      assert toks[k..] == toks;
    }
  }

  class Groundhog {
    var temperatures: seq<Float>
    var period: int

    /** `Groundhog(period = 0)`: no readings yet. */
    constructor(period: int := 0)
      ensures temperatures == [] && this.period == period
    {
      temperatures := [];
      this.period := period;
    }

    /**
     * `getUserInput`: the sentinel returns False, a number is appended and
     * True is returned, a refused line raises the class's Error without
     * touching the list.
     */
    method GetUserInput(tok: Token) returns (outcome: Outcome)
      modifies this`temperatures
      ensures Got(temperatures, outcome) == Accept(old(temperatures), tok)
      ensures old(temperatures) <= temperatures
      ensures temperatures == old(temperatures) + Values(tok)
    {
      if tok.Stop? {
        return Stopped;
      }
      if tok.Num? {
        temperatures := temperatures + [tok.value];
        outcome := Continue;
      } else {
        outcome := Rejected;
      }
    }

    /** `computeAverage`: a stub that returns 0. */
    method ComputeAverage() returns (r: int)
      ensures r == 0
    {
      r := 0;
    }

    /** `computeEvolution`: a stub that returns 0. */
    method ComputeEvolution() returns (r: int)
      ensures r == 0
    {
      r := 0;
    }

    /** `computeDeviation`: a stub that returns 0. */
    method ComputeDeviation() returns (r: int)
      ensures r == 0
    {
      r := 0;
    }

    /** `displayTrend`: a stub that returns 0. */
    method DisplayTrend() returns (r: int)
      ensures r == 0
    {
      r := 0;
    }
  }
}
