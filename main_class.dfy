/**
 * mainClass.py: a Groundhog keeps its readings as a list of chunks, starting
 * from one empty chunk; a chunk is closed once it holds `period` readings.
 *
 * `catchUserInput` opens the new chunk BEFORE it converts the line, so a
 * refused line that arrives while the last chunk is full still leaves an
 * empty chunk behind. The statistics methods are stubs that return 0, and
 * `displayTrend` would count a trend switch if its (constant false) flag
 * were ever set.
 */
module MainClass {
  import opened Tokens

  /** The last chunk, `temperatures[-1]`. */
  function Last(chunks: seq<seq<Float>>): (r: seq<Float>)
    requires chunks != []
  {
    chunks[|chunks| - 1]
  }

  /** All readings in arrival order: the chunks laid end to end. */
  function Flatten(chunks: seq<seq<Float>>): (r: seq<Float>)
  {
    if chunks == [] then [] else chunks[0] + Flatten(chunks[1..])
  }

  /**
   * The chunk invariant for a positive period: there is a last chunk, every
   * chunk before it holds exactly `period` readings and the last at most
   * `period`.
   */
  predicate Chunked(chunks: seq<seq<Float>>, period: int)
  {
    && chunks != []
    && (forall i :: 0 <= i < |chunks| - 1 ==> |chunks[i]| == period)
    && |Last(chunks)| <= period
  }

  /** The chunks after one `catchUserInput` call, and what the call reported. */
  datatype Caught = Caught(chunks: seq<seq<Float>>, outcome: Outcome)

  /**
   * One `catchUserInput` call on `chunks`. Apart from the sentinel, every
   * call opens a new chunk exactly when the last one holds `period`
   * readings; a number then goes to the end of the last chunk, while a
   * refused line keeps whatever chunk was opened. Earlier chunks are never
   * touched.
   */
  function Catch(chunks: seq<seq<Float>>, period: int, tok: Token): (r: Caught)
    requires chunks != []
    ensures r.chunks != []
    ensures tok.Stop? <==> r.outcome == Stopped
    ensures tok.Num? <==> r.outcome == Continue
    ensures tok.Bad? <==> r.outcome == Rejected
    ensures tok.Stop? ==> r.chunks == chunks
    ensures !tok.Stop? ==> |r.chunks| == |chunks| + (if |Last(chunks)| == period then 1 else 0)
    ensures r.chunks[..|chunks| - 1] == chunks[..|chunks| - 1]
    ensures !tok.Stop? && |Last(chunks)| == period ==> r.chunks[..|chunks|] == chunks
    ensures Last(r.chunks) == (if !tok.Stop? && |Last(chunks)| == period then [] else Last(chunks)) + Values(tok)
    ensures tok.Bad? ==> r.chunks == if |Last(chunks)| == period then chunks + [[]] else chunks
  {
    match tok
    case Stop => Caught(chunks, Stopped)
    case Num(v) =>
      var prepared := Open(chunks, period);
      Caught(prepared[..|prepared| - 1] + [Last(prepared) + [v]], Continue)
    case Bad => Caught(Open(chunks, period), Rejected)
  }

  /**
   * Lines 33-34 of `catchUserInput`: a new empty chunk when the last chunk
   * holds exactly `period` readings, otherwise the chunks as they are.
   */
  function Open(chunks: seq<seq<Float>>, period: int): (r: seq<seq<Float>>)
    requires chunks != []
    ensures |r| >= |chunks| && r[..|chunks| - 1] == chunks[..|chunks| - 1]
    ensures |Last(chunks)| == period ==> |r| == |chunks| + 1 && Last(r) == []
    ensures |Last(chunks)| != period ==> r == chunks
  {
    if |Last(chunks)| == period then chunks + [[]] else chunks
  }

  /** Laying out `front` and then `last` is laying out `front + [last]`. */
  lemma {:induction false} FlattenSnoc(front: seq<seq<Float>>, last: seq<Float>)
    ensures Flatten(front + [last]) == Flatten(front) + last
    decreases |front|
  {
    if front == [] {
      assert [last][1..] == [];
    } else {
      assert (front + [last])[1..] == front[1..] + [last];
      FlattenSnoc(front[1..], last);
    }
  }

  /** Regrouping a concatenation; stated once so that the proofs about `Feed` stay cheap. */
  lemma AppendAssoc(a: seq<Float>, b: seq<Float>, c: seq<Float>)
    ensures a + b + c == a + (b + c)
  {
  }

  /** Each call adds exactly its own number, if any, to the readings in order. */
  lemma CatchFlatten(chunks: seq<seq<Float>>, period: int, tok: Token)
    requires chunks != []
    ensures Flatten(Catch(chunks, period, tok).chunks) == Flatten(chunks) + Values(tok)
  {
    match tok
    case Stop =>
      assert Flatten(chunks) + [] == Flatten(chunks);
    case Num(v) =>
      var prepared := Open(chunks, period);
      var front := prepared[..|prepared| - 1];
      assert prepared == front + [Last(prepared)];
      FlattenSnoc(front, Last(prepared));
      FlattenSnoc(front, Last(prepared) + [v]);
      AppendAssoc(Flatten(front), Last(prepared), [v]);
      OpenFlatten(chunks, period);
    case Bad =>
      OpenFlatten(chunks, period);
      assert Flatten(chunks) + [] == Flatten(chunks);
  }

  /** Opening a chunk adds no reading. */
  lemma OpenFlatten(chunks: seq<seq<Float>>, period: int)
    requires chunks != []
    ensures Flatten(Open(chunks, period)) == Flatten(chunks)
  {
    if |Last(chunks)| == period {
      FlattenSnoc(chunks, []);
      assert Flatten(chunks) + [] == Flatten(chunks);
    }
  }

  /** For a positive period each call keeps the chunk invariant. */
  lemma CatchKeepsChunked(chunks: seq<seq<Float>>, period: int, tok: Token)
    requires period >= 1 && Chunked(chunks, period)
    ensures Chunked(Catch(chunks, period, tok).chunks, period)
  {
    var r := Catch(chunks, period, tok).chunks;
    forall i | 0 <= i < |r| - 1 ensures |r[i]| == period {
      if i < |chunks| - 1 {
        assert r[i] == r[..|chunks| - 1][i];
      } else {
        assert r[i] == Last(chunks);
      }
    }
  }

  /** The chunks after a `catchUserInput` call for each token of `toks`, in turn. */
  function Feed(chunks: seq<seq<Float>>, period: int, toks: seq<Token>): (r: seq<seq<Float>>)
    requires chunks != []
    ensures r != []
    ensures Flatten(r) == Flatten(chunks) + Accepted(toks)
    decreases |toks|
  {
    if toks == [] then chunks
    else
      var next := Catch(chunks, period, toks[0]).chunks;
      CatchFlatten(chunks, period, toks[0]);
      assert Accepted(toks) == Values(toks[0]) + Accepted(toks[1..]);
      AppendAssoc(Flatten(chunks), Values(toks[0]), Accepted(toks[1..]));
      Feed(next, period, toks[1..])
  }

  /** For a positive period the chunk invariant holds after any sequence of calls. */
  lemma {:induction false} FeedKeepsChunked(chunks: seq<seq<Float>>, period: int, toks: seq<Token>)
    requires period >= 1 && Chunked(chunks, period)
    ensures Chunked(Feed(chunks, period, toks), period)
    decreases |toks|
  {
    if toks != [] {
      CatchKeepsChunked(chunks, period, toks[0]);
      FeedKeepsChunked(Catch(chunks, period, toks[0]).chunks, period, toks[1..]);
    }
  }

  /**
   * The chunk invariant fixes the number of readings: all chunks but the
   * last are full.
   */
  lemma {:induction false} ChunkedSize(chunks: seq<seq<Float>>, period: int)
    requires period >= 1 && Chunked(chunks, period)
    ensures |Flatten(chunks)| == (|chunks| - 1) * period + |Last(chunks)|
    decreases |chunks|
  {
    var n := |chunks|;
    var front := chunks[..n - 1];
    assert chunks == front + [Last(chunks)];
    FlattenSnoc(front, Last(chunks));
    if n > 1 {
      assert Last(front) == chunks[n - 2];
      assert Chunked(front, period);
      ChunkedSize(front, period);
      assert (n - 2) * period + period == (n - 1) * period;
    }
  }

  /**
   * Without refused lines, a chunk is only prepared to receive a number, so
   * no chunk but the very first is ever left empty.
   */
  predicate Tight(chunks: seq<seq<Float>>, period: int)
  {
    Chunked(chunks, period) && (|chunks| > 1 ==> Last(chunks) != [])
  }

  lemma {:induction false} FeedKeepsTight(chunks: seq<seq<Float>>, period: int, toks: seq<Token>)
    requires period >= 1 && Tight(chunks, period) && NoRejections(toks)
    ensures Tight(Feed(chunks, period, toks), period)
    decreases |toks|
  {
    if toks != [] {
      assert !toks[0].Bad?;
      var next := Catch(chunks, period, toks[0]).chunks;
      assert Tight(next, period);
      assert NoRejections(toks[1..]) by {
        forall i | 0 <= i < |toks[1..]| ensures !toks[1..][i].Bad? {
          assert toks[1..][i] == toks[i + 1];
        }
      }
      FeedKeepsTight(next, period, toks[1..]);
    }
  }

  /** A product of a positive factor with `p` is at least `p`. */
  lemma {:induction false} MulAtLeast(x: int, p: int)
    requires x >= 1 && p >= 1
    ensures x * p >= p
    decreases x
  {
    if x > 1 {
      MulAtLeast(x - 1, p);
      assert x * p == (x - 1) * p + p;
    }
  }

  /** `a == q * p + rem` with `0 <= rem < p` makes `q` the quotient. */
  lemma QuotientOf(a: int, p: int, q: int, rem: int)
    requires p >= 1 && 0 <= rem < p && a == q * p + rem
    ensures a / p == q
  {
    var d, m := a / p, a % p;
    assert (q - d) * p == m - rem;
    if q - d >= 1 {
      MulAtLeast(q - d, p);
    } else if d - q >= 1 {
      MulAtLeast(d - q, p);
    }
  }

  /**
   * The chunks k readings fill: ceil(k / period), and the one chunk a fresh
   * Groundhog starts with while there are none.
   */
  function ChunksFor(k: nat, period: int): (m: int)
    requires period >= 1
    ensures k == 0 ==> m == 1
    ensures k > 0 ==> (m - 1) * period < k <= m * period
  {
    if k == 0 then 1
    else
      var q := (k + period - 1) / period;
      assert k + period - 1 == q * period + (k + period - 1) % period;
      q
  }

  /** Under the tight invariant the chunk count is fixed by the readings held. */
  lemma TightCount(chunks: seq<seq<Float>>, period: int)
    requires period >= 1 && Tight(chunks, period)
    ensures |chunks| == ChunksFor(|Flatten(chunks)|, period)
  {
    ChunkedSize(chunks, period);
    var k, m, last := |Flatten(chunks)|, |chunks|, |Last(chunks)|;
    assert k == (m - 1) * period + last;
    if k > 0 {
      assert last >= 1;
      assert k + period - 1 == m * period + (last - 1);
      QuotientOf(k + period - 1, period, m, last - 1);
    }
  }

  /**
   * Starting from a fresh Groundhog (`[[]]`) with a positive period and no
   * refused lines, k accepted numbers occupy one chunk when k is 0 and
   * ceil(k / period) chunks otherwise.
   */
  lemma ChunkCountFromFresh(period: int, toks: seq<Token>)
    requires period >= 1 && NoRejections(toks)
    ensures |Feed([[]], period, toks)| == ChunksFor(|Accepted(toks)|, period)
  {
    assert Flatten([[]]) == [];
    FeedKeepsTight([[]], period, toks);
    TightCount(Feed([[]], period, toks), period);
  }

  /**
   * Once the last chunk is longer than `period` it is never closed again:
   * every later number lands in it. This is what happens for the default
   * period 0 (and for any negative period).
   */
  lemma {:induction false} LastChunkNeverCloses(chunks: seq<seq<Float>>, period: int, toks: seq<Token>)
    requires chunks != [] && |Last(chunks)| > period
    ensures Feed(chunks, period, toks) == chunks[..|chunks| - 1] + [Last(chunks) + Accepted(toks)]
    decreases |toks|
  {
    var front := chunks[..|chunks| - 1];
    if toks == [] {
      assert Last(chunks) + Accepted(toks) == Last(chunks);
      assert front + [Last(chunks)] == chunks;
    } else {
      var next := Catch(chunks, period, toks[0]).chunks;
      CatchIntoLongLast(chunks, period, toks[0]);
      assert next[..|next| - 1] == front;
      LastChunkNeverCloses(next, period, toks[1..]);
      assert Accepted(toks) == Values(toks[0]) + Accepted(toks[1..]);
      AppendAssoc(Last(chunks), Values(toks[0]), Accepted(toks[1..]));
    }
  }

  /** One call on a last chunk longer than `period` only extends that chunk. */
  lemma CatchIntoLongLast(chunks: seq<seq<Float>>, period: int, tok: Token)
    requires chunks != [] && |Last(chunks)| > period
    ensures Catch(chunks, period, tok).chunks == chunks[..|chunks| - 1] + [Last(chunks) + Values(tok)]
  {
    var r := Catch(chunks, period, tok).chunks;
    assert |r| == |chunks|;
    assert r == r[..|r| - 1] + [Last(r)];
  }

  /**
   * With the constructor's default period 0, the first number opens a second
   * chunk (the first stays empty) and every later reading joins that second
   * chunk, which grows without bound.
   */
  lemma PeriodZeroFromFresh(toks: seq<Token>)
    requires toks != [] && toks[0].Num?
    ensures Feed([[]], 0, toks) == [[], Accepted(toks)]
  {
    var next := Catch([[]], 0, toks[0]).chunks;
    assert next[..1] == [[]] && Last(next) == [toks[0].value];
    assert next == [[], [toks[0].value]];
    assert Feed([[]], 0, toks) == Feed(next, 0, toks[1..]);
    assert Accepted(toks) == [toks[0].value] + Accepted(toks[1..]);
    LastChunkNeverCloses(next, 0, toks[1..]);
  }

  /**
   * `displayTrend`'s update of the switch counter: one more when a switch was
   * detected, unchanged otherwise.
   */
  function NextTendencyNb(tendencyNb: int, trend: bool): (r: int)
    ensures tendencyNb <= r <= tendencyNb + 1
    ensures r == tendencyNb + 1 <==> trend
  {
    if trend then tendencyNb + 1 else tendencyNb
  }

  class Groundhog {
    var temperatures: seq<seq<Float>>
    var period: int
    var tendencyNb: int
    var lastTendency: int
    var weirdValues: seq<Float>

    /** `temperatures[-1]` always exists; for a positive period the chunks are well formed. */
    ghost predicate Valid()
      reads this
    {
      temperatures != [] && (period >= 1 ==> Chunked(temperatures, period))
    }

    /** `Groundhog(period = 0)`: one empty chunk, no switch counted, no weird values. */
    constructor(period: int := 0)
      ensures Valid()
      ensures temperatures == [[]] && this.period == period
      ensures tendencyNb == 0 && lastTendency == 0 && weirdValues == []
    {
      temperatures := [[]];
      this.period := period;
      tendencyNb := 0;
      lastTendency := 0;
      weirdValues := [];
    }

    /**
     * `catchUserInput`: the sentinel returns False and changes nothing;
     * otherwise a new chunk is prepared when the last one is full, and then
     * the number is appended to the last chunk (True) or the class's Error
     * is raised.
     */
    method CatchUserInput(tok: Token) returns (outcome: Outcome)
      requires Valid()
      modifies this`temperatures
      ensures Valid()
      ensures Caught(temperatures, outcome) == Catch(old(temperatures), period, tok)
      ensures Flatten(temperatures) == Flatten(old(temperatures)) + Values(tok)
    {
      ghost var before := temperatures;
      if tok.Stop? {
        outcome := Stopped;
      } else {
        if |temperatures[|temperatures| - 1]| == period {
          temperatures := temperatures + [[]];
        }
        assert temperatures == Open(before, period);
        if tok.Num? {
          var n := |temperatures| - 1;
          ghost var prepared := temperatures;
          temperatures := temperatures[n := temperatures[n] + [tok.value]];
          assert temperatures == prepared[..n] + [Last(prepared) + [tok.value]];
          outcome := Continue;
        } else {
          outcome := Rejected;
        }
      }
      CatchFlatten(before, period, tok);
      if period >= 1 {
        CatchKeepsChunked(before, period, tok);
      }
    }

    /** `computeAverage`: returns 0 without looking at the readings. */
    method ComputeAverage() returns (r: int)
      ensures r == 0
    {
      r := 0;
    }

    /** `computeEvolution`: returns 0 without looking at the readings. */
    method ComputeEvolution() returns (r: int)
      ensures r == 0
    {
      r := 0;
    }

    /** `computeDeviation`: returns 0 without looking at the readings. */
    method ComputeDeviation() returns (r: int)
      ensures r == 0
    {
      r := 0;
    }

    /**
     * `displayTrend`: its switch flag is the constant false, so the counter
     * keeps its value; it returns 0.
     */
    method DisplayTrend() returns (r: int)
      modifies this`tendencyNb
      ensures r == 0
      ensures old(tendencyNb) <= tendencyNb <= old(tendencyNb) + 1
      ensures tendencyNb == old(tendencyNb)
    {
      var trend := false;
      tendencyNb := NextTendencyNb(tendencyNb, trend);
      r := 0;
    }
  }
}
