# Groundhog reading stores, in Dafny

Groundhog reads temperature readings one line at a time until the line
`STOP`, and is meant to report rolling statistics over a window of `period`
readings. In the repository only the reading store is implemented; every
statistics method is a stub that returns 0. There are two versions of the
`Groundhog` class:

- `mainClass.py` keeps the readings as a list of chunks. It starts from one
  empty chunk, and `catchUserInput` opens a new chunk whenever the last one
  already holds `period` readings. The new chunk is opened before the line is
  converted to a number, so a refused line can leave an empty chunk behind.
  `displayTrend` would add one to the switch counter `tendencyNb`, but its
  switch flag is the constant `False`.
- `groundhog.py` keeps the readings as one flat list. `getUserInput` converts
  the line before it appends, so a refused line leaves the list as it was.

The model has four modules:

- `Tokens` (`tokens.dfy`) holds the input line as a `Token` and the result of
  a call as an `Outcome`. A `Token` is `Stop`, `Num(value)` for what `float()`
  produced, or `Bad` for a line `float()` refuses. The value is a `Float`: a
  finite value, NaN, or an infinity with its sign. An `Outcome` is `Continue`
  (the method returned `True`), `Stopped` (it returned `False`) or `Rejected`
  (it raised `Groundhog.Error`).
- `Groundhog` (`groundhog.dfy`) models the flat store. `Accept` is the pure
  step function. The class `Groundhog` has a `temperatures: seq<Float>` field,
  and its `GetUserInput` method updates that field in place.
- `MainClass` (`main_class.dfy`) models the chunked store. `Catch` is the pure
  step function and `Open` models lines 33-34. `Chunked` is the invariant that
  every chunk except the last holds exactly `period` readings. The class
  `Groundhog` has the fields `temperatures: seq<seq<Float>>`, `period`,
  `tendencyNb`, `lastTendency` and `weirdValues`.
- `Refinement` (`refinement.dfy`) proves that laying the chunks end to end
  gives the flat list, for the same lines and any period.

`Feed` and `FeedFlat` describe a series of calls on one object. They apply
the step function to each token in turn, whatever each call reported,
because a caller may catch `Error` and go on calling.

The system's specification describes more than the code does:
- an average of increases, a relative evolution, a standard deviation, a
  trend detector with a threshold, and a ranking of outliers;
- refusing `STOP` when fewer than `period` readings have arrived;
- a period that must be at least 1.

The code has none of this. In the code, `STOP` always returns `False`, and
the constructor accepts any period, with a default of 0. This model follows
the code. For a positive period it proves the chunk invariant. For period 0
it proves what happens: the first number opens a second chunk, and that
chunk then grows without bound.

## Model

| member | source | states |
|---|---|---|
| `Groundhog.Accept` | groundhog.py:28-39 | `STOP` gives `False` (Stopped), a number gives `True` (Continue), and a refused line raises `Error` (Rejected). Each of these holds in both directions. The old list is always a prefix of the new one. The list grows by exactly one reading when the call succeeds, and that reading is the number read. |
| `Groundhog.Groundhog.constructor` | groundhog.py:10-15 | A new object has no readings and keeps the given period, which defaults to 0. |
| `Groundhog.Groundhog.GetUserInput` | groundhog.py:28-39 | The new list and the outcome are those of `Accept` for the old list. The old list is a prefix of the new one. The new list is the old list followed by the number the line holds, if any. No other field changes. |
| `Groundhog.FeedFlat` | groundhog.py:36 | After any series of calls, the list is the starting list followed by every accepted number, in arrival order. |
| `Groundhog.FeedFlatAppendOnly` | groundhog.py:36 | The list after any prefix of a token stream is a prefix of the list after the whole stream. The list grows by exactly the number of accepted readings. |
| `Groundhog.Groundhog.ComputeAverage` | groundhog.py:41-45 | Returns 0 and changes no field. |
| `Groundhog.Groundhog.ComputeEvolution` | groundhog.py:47-51 | Returns 0 and changes no field. |
| `Groundhog.Groundhog.ComputeDeviation` | groundhog.py:53-57 | Returns 0 and changes no field. |
| `Groundhog.Groundhog.DisplayTrend` | groundhog.py:59-63 | Returns 0 and changes no field. |
| `MainClass.Catch` | mainClass.py:26-39 | The outcomes match the tokens as for `Accept`. `STOP` changes nothing. Any other line opens exactly one new chunk if the last chunk held `period` readings, and otherwise keeps the chunk count. Earlier chunks are not touched. The last chunk becomes either the new empty chunk or the old last chunk, followed by the number read. A refused line leaves `chunks + [[]]` when the last chunk was full, and `chunks` otherwise. |
| `MainClass.Open` | mainClass.py:33-34 | Adds one empty chunk exactly when the last chunk holds `period` readings. Otherwise the chunks stay as they are. |
| `MainClass.OpenFlatten` | mainClass.py:33-34 | Opening a new chunk adds no reading: laid end to end, the chunks are unchanged. |
| `MainClass.CatchFlatten` | mainClass.py:33-38 | Laid end to end, the chunks after a call are the old readings followed by the accepted number, if any. A refused line adds no reading. |
| `MainClass.CatchKeepsChunked` | mainClass.py:33-36 | For `period >= 1`, a call keeps the invariant: every chunk except the last holds exactly `period` readings and the last holds at most `period`. |
| `MainClass.Feed` | mainClass.py:26-39 | After any series of calls there is still a last chunk. The readings laid end to end are the starting ones followed by every accepted number, in order. |
| `MainClass.FeedKeepsChunked` | mainClass.py:33-36 | For `period >= 1`, the chunk invariant holds after any series of calls from a state that satisfies it. |
| `MainClass.ChunkedSize` | mainClass.py:33-36 | Under the chunk invariant, the number of readings is `(chunks - 1) * period` plus the size of the last chunk. |
| `MainClass.FeedKeepsTight` | mainClass.py:33-36 | For `period >= 1`, start from a state where the chunk invariant holds and the last chunk is empty only while it is the only chunk. Any series of calls with no refused lines keeps both. |
| `MainClass.ChunksFor` | mainClass.py:33-34 | The chunk count for k readings is 1 when k = 0. Otherwise it is the m with `(m-1)*period < k <= m*period`, that is ceil(k / period). |
| `MainClass.TightCount` | mainClass.py:33-34 | Under that invariant, the chunk count is `ChunksFor` of the number of readings held. |
| `MainClass.ChunkCountFromFresh` | mainClass.py:33-34 | Start from the fresh state `[[]]` (line 12) with `period >= 1`, and feed any lines, none refused. The chunk count is then `ChunksFor` of the number of accepted numbers: 1 when there are none, and ceil(k / period) for k of them. |
| `MainClass.LastChunkNeverCloses` | mainClass.py:33-36 | Once the last chunk is longer than `period`, no new chunk is ever opened. Every later number goes to the end of that chunk. |
| `MainClass.CatchIntoLongLast` | mainClass.py:33-36 | One call on a last chunk longer than `period` only extends that chunk, by the number read if there is one. |
| `MainClass.PeriodZeroFromFresh` | mainClass.py:8-13 | With the default period 0, a fresh object whose first line is a number ends up as `[[], all accepted numbers]`. |
| `MainClass.NextTendencyNb` | mainClass.py:81-84 | The switch counter never decreases and grows by at most 1. It grows exactly when a switch was detected. |
| `MainClass.Groundhog.constructor` | mainClass.py:8-16 | A new object holds one empty chunk, `tendencyNb` and `lastTendency` are 0, and there are no weird values. The period is as given, defaulting to 0. For a positive period the chunk invariant holds. |
| `MainClass.Groundhog.CatchUserInput` | mainClass.py:26-39 | The new chunks and the outcome are those of `Catch` for the old chunks. Laid end to end, the new readings are the old ones followed by the number read, if any. The chunk invariant is kept. `period`, `tendencyNb`, `lastTendency` and `weirdValues` do not change. |
| `MainClass.Groundhog.ComputeAverage` | mainClass.py:41-51 | Returns 0 and changes no field. |
| `MainClass.Groundhog.ComputeEvolution` | mainClass.py:53-63 | Returns 0 and changes no field. |
| `MainClass.Groundhog.ComputeDeviation` | mainClass.py:65-75 | Returns 0 and changes no field. |
| `MainClass.Groundhog.DisplayTrend` | mainClass.py:77-87 | Returns 0. Only `tendencyNb` may change, and by at most +1. Because the switch flag is the constant `False`, it in fact keeps its value. |
| `Refinement.StepRefines` | groundhog.py:28-39 | Start with chunks that, laid end to end, equal the flat list. One call on each store then gives the same outcome, and the two stores still hold the same readings. |
| `Refinement.FeedRefines` | mainClass.py:33-36 | From equal readings, any series of calls leaves the chunked store, laid end to end, equal to the flat store. |
| `Refinement.FreshRefines` | groundhog.py:14 | Take two fresh objects, one starting from `[[]]` (mainClass.py:12) and one from `[]`, with any period and give them the same lines. The chunks of the `mainClass.py` object, laid end to end, then equal the list of the `groundhog.py` object. |

## Left out

- Console input and output are not modelled. Each call takes the line as a parameter and returns its outcome instead. This leaves out `input()`, every `print`, and the `g=`/`r=`/`s=` placeholders.
- Python's `float()` conversion is not modelled: it is a library call. Which strings count as numbers is abstracted into the `Token` classification.
- `Float` does not model IEEE 754 doubles exactly. A finite float is an exact `real`, so the rounding of the decimal text is not modelled, and `-0.0` is not told apart from `0.0`. NaN and both infinities are modelled. Nothing proved depends on the values, because the stores only append them.
- The error message text is not modelled. The `Error` exception classes become the `Rejected` outcome.
- The average of increases, the relative evolution, the standard deviation, the trend detection with a threshold and the ranking of weird values are not modelled. No source file computes them. The compute methods return 0, and that is what the model states.
- Refusing `STOP` before `period` readings and rejecting a period below 1 are not modelled. The code does neither.
- `displayTendencyNb` and `displayWeirdValues` are not modelled: they only print. `weirdValues` and `lastTendency` are kept as fields that no method changes.
- `main()` and the `__main__` guard in `groundhog.py` are not modelled: they do nothing.
- Python's inner chunk lists are mutable objects that could be aliased from outside the class. The model holds the chunks as values, so it does not capture such aliasing.
- `period` is modelled as an integer. Python would also accept values of other types.
