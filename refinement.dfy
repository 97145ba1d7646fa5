/**
 * The two Groundhog classes store the same readings: laying the chunks of
 * mainClass.py end to end gives the flat list of groundhog.py, call by call,
 * whatever the period and whatever lines arrive. The chunked store differs
 * only by the empty chunks a refused line may leave behind, which hold no
 * reading.
 */
module Refinement {
  import opened Tokens
  import Flat = Groundhog
  import Chunks = MainClass

  /** One call on each store, from stores holding the same readings, agrees. */
  lemma StepRefines(chunks: seq<seq<Float>>, period: int, readings: seq<Float>, tok: Token)
    requires chunks != [] && Chunks.Flatten(chunks) == readings
    ensures Chunks.Flatten(Chunks.Catch(chunks, period, tok).chunks) == Flat.Accept(readings, tok).readings
    ensures Chunks.Catch(chunks, period, tok).outcome == Flat.Accept(readings, tok).outcome
  {
    Chunks.CatchFlatten(chunks, period, tok);
  }

  /** Any number of calls on each store, from the same readings, agree. */
  lemma {:induction false} FeedRefines(chunks: seq<seq<Float>>, period: int, readings: seq<Float>, toks: seq<Token>)
    requires chunks != [] && Chunks.Flatten(chunks) == readings
    ensures Chunks.Flatten(Chunks.Feed(chunks, period, toks)) == Flat.FeedFlat(readings, toks)
    decreases |toks|
  {
    if toks != [] {
      StepRefines(chunks, period, readings, toks[0]);
      FeedRefines(Chunks.Catch(chunks, period, toks[0]).chunks, period,
                  Flat.Accept(readings, toks[0]).readings, toks[1..]);
    }
  }

  /**
   * Two fresh Groundhogs fed the same lines hold the same readings, for
   * every period the constructor accepts.
   */
  lemma FreshRefines(period: int, toks: seq<Token>)
    ensures Chunks.Flatten(Chunks.Feed([[]], period, toks)) == Flat.FeedFlat([], toks)
  {
    assert Chunks.Flatten([[]]) == [];
    FeedRefines([[]], period, [], toks);
  }
}
