/** Perplexity versus position in a packed sequence.

    At the end of each evaluation batch, every token's position within its packed
    sequence is derived from the batch's `sequence_id` tensor; per position, the
    number of tokens and the sum of their perplexities are added to two running
    accumulators, and the average perplexity per position is reported, with -1 at
    positions no token has reached yet. The accumulators are explicit state here. */
module LossVsContextLength {
  import opened PyResult

  /** Every row has `cols` entries: the shape of a [B, L] tensor. */
  predicate IsMatrix<T>(m: seq<seq<T>>, cols: nat) {
    forall b :: 0 <= b < |m| ==> |m[b]| == cols
  }

  // ---------------------------------------------------------------------------
  // Position of each token within its sequence

  /** Number of positions k < n of `row` holding `v`. */
  function CountBefore(row: seq<int>, v: int, n: nat): (c: nat)
    requires n <= |row|
    ensures c <= n
    decreases n
  {
    if n == 0 then 0 else CountBefore(row, v, n - 1) + (if row[n - 1] == v then 1 else 0)
  }

  /** Entry [r][c] of `(cumsum(E) - 1) * E`, where the one-hot tensor E has
      E[r][c] = (row[c] == r) and the cumulative sum runs along c. */
  function RankEntry(row: seq<int>, r: int, c: nat): int
    requires c < |row|
  {
    var e := if row[c] == r then 1 else 0;
    (CountBefore(row, r, c + 1) - 1) * e
  }

  /** Column c of that tensor summed over the ids r = 0 .. n-1. */
  function ColumnSum(row: seq<int>, c: nat, n: nat): int
    requires c < |row|
    decreases n
  {
    if n == 0 then 0 else ColumnSum(row, c, n - 1) + RankEntry(row, n - 1, c)
  }

  lemma {:induction false} ColumnSumClosedForm(row: seq<int>, c: nat, n: nat)
    requires c < |row|
    ensures ColumnSum(row, c, n) == if 0 <= row[c] < n then CountBefore(row, row[c], c) else 0
    decreases n
  {
    if n > 0 {
      ColumnSumClosedForm(row, c, n - 1);
    }
  }

  /** Position of a token in its sequence as given by its id alone: the number of
      earlier tokens with the same id, for ids in [0, L); 0 for any other id. */
  ghost function PositionInSequence(row: seq<int>, j: nat): int
    requires j < |row|
  {
    if 0 <= row[j] < |row| then CountBefore(row, row[j], j) else 0
  }

  /** `tok_ids` for one row of `sequence_id`, computed the way the tensor code
      does; it agrees with the counting definition and lies in [0, L). */
  function TokIds(row: seq<int>): (t: seq<int>)
    ensures |t| == |row|
    ensures forall j :: 0 <= j < |row| ==> t[j] == PositionInSequence(row, j)
    ensures forall j :: 0 <= j < |row| ==> 0 <= t[j] < |row|
  {
    var t := seq(|row|, c requires 0 <= c < |row| => ColumnSum(row, c, |row|));
    assert forall c :: 0 <= c < |row| ==> t[c] == PositionInSequence(row, c) by {
      forall c | 0 <= c < |row| ensures t[c] == PositionInSequence(row, c) {
        ColumnSumClosedForm(row, c, |row|);
      }
    }
    t
  }

  function BatchTokIds(seqId: seq<seq<int>>): (tok: seq<seq<int>>)
    ensures |tok| == |seqId|
    ensures forall b :: 0 <= b < |seqId| ==> tok[b] == TokIds(seqId[b])
    ensures forall b :: 0 <= b < |seqId| ==> |tok[b]| == |seqId[b]|
  {
    seq(|seqId|, b requires 0 <= b < |seqId| => TokIds(seqId[b]))
  }

  // ---------------------------------------------------------------------------
  // Histograms over positions

  /** Number of entries of `toks` equal to `i`. */
  function RowCount(toks: seq<int>, i: int): nat
    decreases |toks|
  {
    if |toks| == 0 then 0
    else RowCount(toks[..|toks| - 1], i) + (if toks[|toks| - 1] == i then 1 else 0)
  }

  /** Sum of the perplexities of the entries of `toks` equal to `i`. */
  function RowPerp(toks: seq<int>, perps: seq<real>, i: int): real
    requires |perps| == |toks|
    decreases |toks|
  {
    if |toks| == 0 then 0.0
    else RowPerp(toks[..|toks| - 1], perps[..|perps| - 1], i) + (if toks[|toks| - 1] == i then perps[|perps| - 1] else 0.0)
  }

  /** Number of tokens of the batch at position `i`. */
  function BatchCount(tok: seq<seq<int>>, i: int): nat
    decreases |tok|
  {
    if |tok| == 0 then 0 else BatchCount(tok[..|tok| - 1], i) + RowCount(tok[|tok| - 1], i)
  }

  /** Sum of the perplexities of the batch's tokens at position `i`. */
  function BatchPerp(tok: seq<seq<int>>, perp: seq<seq<real>>, i: int): real
    requires |perp| == |tok| && forall b :: 0 <= b < |tok| ==> |perp[b]| == |tok[b]|
    decreases |tok|
  {
    if |tok| == 0 then 0.0
    else BatchPerp(tok[..|tok| - 1], perp[..|perp| - 1], i) + RowPerp(tok[|tok| - 1], perp[|perp| - 1], i)
  }

  /** Number of entries of `toks` in [0, n). */
  function InRangeCount(toks: seq<int>, n: int): nat
    decreases |toks|
  {
    if |toks| == 0 then 0
    else InRangeCount(toks[..|toks| - 1], n) + (if 0 <= toks[|toks| - 1] < n then 1 else 0)
  }

  function BatchInRangeCount(tok: seq<seq<int>>, n: int): nat
    decreases |tok|
  {
    if |tok| == 0 then 0 else BatchInRangeCount(tok[..|tok| - 1], n) + InRangeCount(tok[|tok| - 1], n)
  }

  lemma {:induction false} InRangeCountStep(toks: seq<int>, n: nat)
    ensures InRangeCount(toks, n + 1) == InRangeCount(toks, n) + RowCount(toks, n)
    decreases |toks|
  {
    if |toks| > 0 {
      InRangeCountStep(toks[..|toks| - 1], n);
    }
  }

  lemma {:induction false} BatchInRangeCountStep(tok: seq<seq<int>>, n: nat)
    ensures BatchInRangeCount(tok, n + 1) == BatchInRangeCount(tok, n) + BatchCount(tok, n)
    decreases |tok|
  {
    if |tok| > 0 {
      BatchInRangeCountStep(tok[..|tok| - 1], n);
      InRangeCountStep(tok[|tok| - 1], n);
    }
  }

  lemma {:induction false} InRangeCountAll(toks: seq<int>, n: int)
    requires forall j :: 0 <= j < |toks| ==> 0 <= toks[j] < n
    ensures InRangeCount(toks, n) == |toks|
    decreases |toks|
  {
    if |toks| > 0 {
      InRangeCountAll(toks[..|toks| - 1], n);
    }
  }

  lemma {:induction false} BatchInRangeCountAll(tok: seq<seq<int>>, cols: nat)
    requires IsMatrix(tok, cols)
    requires forall b, j :: 0 <= b < |tok| && 0 <= j < |tok[b]| ==> 0 <= tok[b][j] < cols
    ensures BatchInRangeCount(tok, cols) == |tok| * cols
    decreases |tok|
  {
    if |tok| > 0 {
      var init := tok[..|tok| - 1];
      assert forall b, j :: 0 <= b < |init| && 0 <= j < |init[b]| ==> init[b][j] == tok[b][j];
      BatchInRangeCountAll(init, cols);
      InRangeCountAll(tok[|tok| - 1], cols);
      assert |init| * cols + cols == (|init| + 1) * cols;
    }
  }

  /** Sum of a vector. */
  function Sum(v: seq<int>): int
    decreases |v|
  {
    if |v| == 0 then 0 else Sum(v[..|v| - 1]) + v[|v| - 1]
  }

  lemma {:induction false} SumOfPointwiseAdd(u: seq<int>, v: seq<int>, w: seq<int>)
    requires |u| == |v| == |w|
    requires forall i :: 0 <= i < |u| ==> u[i] == v[i] + w[i]
    ensures Sum(u) == Sum(v) + Sum(w)
    decreases |u|
  {
    if |u| > 0 {
      SumOfPointwiseAdd(u[..|u| - 1], v[..|v| - 1], w[..|w| - 1]);
    }
  }

  /** The per-position token counts of one batch, as a vector of length `cols`. */
  function LengthIncrement(tok: seq<seq<int>>, cols: nat): (v: seq<int>)
    ensures |v| == cols
    ensures forall i :: 0 <= i < cols ==> v[i] == BatchCount(tok, i)
  {
    seq(cols, i requires 0 <= i < cols => BatchCount(tok, i))
  }

  /** The per-position perplexity sums of one batch, as a vector of length `cols`. */
  function PerpIncrement(tok: seq<seq<int>>, perp: seq<seq<real>>, cols: nat): (v: seq<real>)
    requires |perp| == |tok| && forall b :: 0 <= b < |tok| ==> |perp[b]| == |tok[b]|
    ensures |v| == cols
    ensures forall i :: 0 <= i < cols ==> v[i] == BatchPerp(tok, perp, i)
  {
    seq(cols, i requires 0 <= i < cols => BatchPerp(tok, perp, i))
  }

  lemma {:induction false} SumOfLengthIncrementPrefix(tok: seq<seq<int>>, n: nat)
    ensures Sum(LengthIncrement(tok, n)) == BatchInRangeCount(tok, n)
    decreases n
  {
    if n > 0 {
      SumOfLengthIncrementPrefix(tok, n - 1);
      assert LengthIncrement(tok, n)[..n - 1] == LengthIncrement(tok, n - 1);
      BatchInRangeCountStep(tok, n - 1);
    } else {
      BatchInRangeCountZero(tok);
    }
  }

  lemma {:induction false} BatchInRangeCountZero(tok: seq<seq<int>>)
    ensures BatchInRangeCount(tok, 0) == 0
    decreases |tok|
  {
    if |tok| > 0 {
      BatchInRangeCountZero(tok[..|tok| - 1]);
      InRangeCountNone(tok[|tok| - 1]);
    }
  }

  lemma {:induction false} InRangeCountNone(toks: seq<int>)
    ensures InRangeCount(toks, 0) == 0
    decreases |toks|
  {
    if |toks| > 0 {
      InRangeCountNone(toks[..|toks| - 1]);
    }
  }

  /** Sum of a real vector. */
  function SumReals(v: seq<real>): real
    decreases |v|
  {
    if |v| == 0 then 0.0 else SumReals(v[..|v| - 1]) + v[|v| - 1]
  }

  lemma {:induction false} SumRealsOfPointwiseAdd(u: seq<real>, v: seq<real>, w: seq<real>)
    requires |u| == |v| == |w|
    requires forall i :: 0 <= i < |u| ==> u[i] == v[i] + w[i]
    ensures SumReals(u) == SumReals(v) + SumReals(w)
    decreases |u|
  {
    if |u| > 0 {
      SumRealsOfPointwiseAdd(u[..|u| - 1], v[..|v| - 1], w[..|w| - 1]);
    }
  }

  /** Total perplexity of a batch. */
  function TotalPerp(perp: seq<seq<real>>): real
    decreases |perp|
  {
    if |perp| == 0 then 0.0 else TotalPerp(perp[..|perp| - 1]) + SumReals(perp[|perp| - 1])
  }

  /** Sum of the perplexities of the entries of `toks` in [0, n). */
  function InRangePerp(toks: seq<int>, perps: seq<real>, n: int): real
    requires |perps| == |toks|
    decreases |toks|
  {
    if |toks| == 0 then 0.0
    else InRangePerp(toks[..|toks| - 1], perps[..|perps| - 1], n) + (if 0 <= toks[|toks| - 1] < n then perps[|perps| - 1] else 0.0)
  }

  function BatchInRangePerp(tok: seq<seq<int>>, perp: seq<seq<real>>, n: int): real
    requires |perp| == |tok| && forall b :: 0 <= b < |tok| ==> |perp[b]| == |tok[b]|
    decreases |tok|
  {
    if |tok| == 0 then 0.0
    else BatchInRangePerp(tok[..|tok| - 1], perp[..|perp| - 1], n) + InRangePerp(tok[|tok| - 1], perp[|perp| - 1], n)
  }

  lemma {:induction false} InRangePerpStep(toks: seq<int>, perps: seq<real>, n: nat)
    requires |perps| == |toks|
    ensures InRangePerp(toks, perps, n + 1) == InRangePerp(toks, perps, n) + RowPerp(toks, perps, n)
    decreases |toks|
  {
    if |toks| > 0 {
      InRangePerpStep(toks[..|toks| - 1], perps[..|perps| - 1], n);
    }
  }

  lemma {:induction false} InRangePerpNone(toks: seq<int>, perps: seq<real>)
    requires |perps| == |toks|
    ensures InRangePerp(toks, perps, 0) == 0.0
    decreases |toks|
  {
    if |toks| > 0 {
      InRangePerpNone(toks[..|toks| - 1], perps[..|perps| - 1]);
    }
  }

  lemma {:induction false} InRangePerpAll(toks: seq<int>, perps: seq<real>, n: int)
    requires |perps| == |toks|
    requires forall j :: 0 <= j < |toks| ==> 0 <= toks[j] < n
    ensures InRangePerp(toks, perps, n) == SumReals(perps)
    decreases |toks|
  {
    if |toks| > 0 {
      InRangePerpAll(toks[..|toks| - 1], perps[..|perps| - 1], n);
    }
  }

  lemma {:induction false} BatchInRangePerpStep(tok: seq<seq<int>>, perp: seq<seq<real>>, n: nat)
    requires |perp| == |tok| && forall b :: 0 <= b < |tok| ==> |perp[b]| == |tok[b]|
    ensures BatchInRangePerp(tok, perp, n + 1) == BatchInRangePerp(tok, perp, n) + BatchPerp(tok, perp, n)
    decreases |tok|
  {
    if |tok| > 0 {
      BatchInRangePerpStep(tok[..|tok| - 1], perp[..|perp| - 1], n);
      InRangePerpStep(tok[|tok| - 1], perp[|perp| - 1], n);
    }
  }

  lemma {:induction false} BatchInRangePerpNone(tok: seq<seq<int>>, perp: seq<seq<real>>)
    requires |perp| == |tok| && forall b :: 0 <= b < |tok| ==> |perp[b]| == |tok[b]|
    ensures BatchInRangePerp(tok, perp, 0) == 0.0
    decreases |tok|
  {
    if |tok| > 0 {
      BatchInRangePerpNone(tok[..|tok| - 1], perp[..|perp| - 1]);
      InRangePerpNone(tok[|tok| - 1], perp[|perp| - 1]);
    }
  }

  lemma {:induction false} BatchInRangePerpAll(tok: seq<seq<int>>, perp: seq<seq<real>>, cols: nat)
    requires |perp| == |tok| && forall b :: 0 <= b < |tok| ==> |perp[b]| == |tok[b]|
    requires forall b, j :: 0 <= b < |tok| && 0 <= j < |tok[b]| ==> 0 <= tok[b][j] < cols
    ensures BatchInRangePerp(tok, perp, cols) == TotalPerp(perp)
    decreases |tok|
  {
    if |tok| > 0 {
      var init := tok[..|tok| - 1];
      assert forall b, j :: 0 <= b < |init| && 0 <= j < |init[b]| ==> init[b][j] == tok[b][j];
      BatchInRangePerpAll(init, perp[..|perp| - 1], cols);
      InRangePerpAll(tok[|tok| - 1], perp[|perp| - 1], cols);
    }
  }

  lemma {:induction false} SumOfPerpIncrementPrefix(tok: seq<seq<int>>, perp: seq<seq<real>>, n: nat)
    requires |perp| == |tok| && forall b :: 0 <= b < |tok| ==> |perp[b]| == |tok[b]|
    ensures SumReals(PerpIncrement(tok, perp, n)) == BatchInRangePerp(tok, perp, n)
    decreases n
  {
    if n > 0 {
      SumOfPerpIncrementPrefix(tok, perp, n - 1);
      assert PerpIncrement(tok, perp, n)[..n - 1] == PerpIncrement(tok, perp, n - 1);
      BatchInRangePerpStep(tok, perp, n - 1);
    } else {
      BatchInRangePerpNone(tok, perp);
    }
  }

  /** Every token of a [B, L] batch lands at exactly one position in [0, L):
      the counts added to the length accumulator total B * L. */
  lemma PositionCountsCoverBatch(seqId: seq<seq<int>>, cols: nat)
    requires IsMatrix(seqId, cols)
    ensures Sum(LengthIncrement(BatchTokIds(seqId), cols)) == |seqId| * cols
  {
    var tok := BatchTokIds(seqId);
    SumOfLengthIncrementPrefix(tok, cols);
    BatchInRangeCountAll(tok, cols);
  }

  /** Number of sequence ids v in [0, m) with more than `i` tokens among the
      first `n` tokens of the row. */
  function SequencesLongerThan(row: seq<int>, n: nat, i: int, m: nat): nat
    requires n <= |row|
    decreases m
  {
    if m == 0 then 0
    else SequencesLongerThan(row, n, i, m - 1) + (if CountBefore(row, m - 1, n) > i then 1 else 0)
  }

  lemma {:induction false} SequencesLongerThanEmpty(row: seq<int>, i: nat, m: nat)
    ensures SequencesLongerThan(row, 0, i, m) == 0
    decreases m
  {
    if m > 0 {
      SequencesLongerThanEmpty(row, i, m - 1);
    }
  }

  lemma {:induction false} SequencesLongerThanStep(row: seq<int>, n: nat, i: int, m: nat)
    requires n < |row|
    ensures SequencesLongerThan(row, n + 1, i, m)
            == SequencesLongerThan(row, n, i, m) + (if 0 <= row[n] < m && CountBefore(row, row[n], n) == i then 1 else 0)
    decreases m
  {
    if m > 0 {
      SequencesLongerThanStep(row, n, i, m - 1);
    }
  }

  lemma {:induction false} TokensAtPositionPrefix(row: seq<int>, n: nat, i: nat)
    requires n <= |row|
    ensures RowCount(TokIds(row)[..n], i)
            == SequencesLongerThan(row, n, i, |row|) + (if i == 0 then n - InRangeCount(row[..n], |row|) else 0)
    decreases n
  {
    var t := TokIds(row);
    if n == 0 {
      SequencesLongerThanEmpty(row, i, |row|);
      assert row[..0] == [];
    } else {
      TokensAtPositionPrefix(row, n - 1, i);
      SequencesLongerThanStep(row, n - 1, i, |row|);
      assert t[..n][..n - 1] == t[..n - 1];
      assert row[..n][..n - 1] == row[..n - 1];
      assert t[n - 1] == PositionInSequence(row, n - 1);
    }
  }

  /** What the length accumulator measures: in one row, the number of tokens at
      position `i` is the number of packed sequences with more than `i` tokens,
      plus, at position 0 only, the tokens whose id lies outside [0, L) (padding). */
  lemma TokensAtPositionAreSequencesReachingIt(row: seq<int>, i: nat)
    ensures RowCount(TokIds(row), i)
            == SequencesLongerThan(row, |row|, i, |row|) + (if i == 0 then |row| - InRangeCount(row, |row|) else 0)
  {
    TokensAtPositionPrefix(row, |row|, i);
    assert TokIds(row)[..|row|] == TokIds(row);
    assert row[..|row|] == row;
  }

  // ---------------------------------------------------------------------------
  // The batch-end step

  /** The two running sums kept on the metric object between batches. */
  datatype Accumulators = Accumulators(sumPerp: seq<real>, sumLength: seq<int>)

  /** One row of the logged table: a position and its average perplexity. */
  datatype TableRow = TableRow(seqLength: int, perplexity: real)

  /** The state stored on the metric object, and the logged table. The sums are
      stored before the table is computed, so a table that cannot be computed
      raises after the store has happened. */
  datatype BatchEnd = BatchEnd(stored: Accumulators, table: Result<seq<TableRow>>)

  /** The element of a broadcast operand of length `len` read at result position `i`:
      a length-1 operand is repeated, any other operand is read in place. */
  function Source(len: nat, i: nat): nat {
    if len == 1 then 0 else i
  }

  /** Torch broadcasting of two vectors for an elementwise operation, as the pairs of
      elements each result position combines. Either side of length 1 is stretched to
      the other's length; each operand's length is the result's or 1, and any other
      pair of lengths raises. */
  function Broadcast<A, B>(a: seq<A>, b: seq<B>): (r: Result<seq<(A, B)>>)
    ensures r.Ok? <==> |a| == |b| || |a| == 1 || |b| == 1
    ensures r.Err? ==> r.error == RuntimeError
    ensures r.Ok? ==> && (|r.value| == |a| || (|a| == 1 && |r.value| == |b|))
                      && (|r.value| == |b| || (|b| == 1 && |r.value| == |a|))
    ensures r.Ok? ==> forall i :: 0 <= i < |r.value| ==>
                        Source(|a|, i) < |a| && Source(|b|, i) < |b| && r.value[i] == (a[Source(|a|, i)], b[Source(|b|, i)])
  {
    if |a| == |b| then Ok(seq(|a|, i requires 0 <= i < |a| => (a[i], b[i])))
    else if |a| == 1 then Ok(seq(|b|, i requires 0 <= i < |b| => (a[0], b[i])))
    else if |b| == 1 then Ok(seq(|a|, i requires 0 <= i < |a| => (a[i], b[0])))
    else Err(RuntimeError)
  }

  /** Broadcasting does not depend on the order of the operands. */
  lemma BroadcastIsSymmetric<A, B>(a: seq<A>, b: seq<B>)
    ensures Broadcast(a, b).Ok? <==> Broadcast(b, a).Ok?
    ensures Broadcast(a, b).Ok? ==>
              var ab := Broadcast(a, b).value;
              var ba := Broadcast(b, a).value;
              |ab| == |ba| && forall i :: 0 <= i < |ab| ==> ab[i].0 == ba[i].1 && ab[i].1 == ba[i].0
  {
  }

  /** The new length accumulator: the previous counts plus this batch's token count at each position. */
  function AccumulateLengths(prev: seq<int>, tok: seq<seq<int>>, cols: nat): (r: seq<int>)
    requires |prev| == cols
    ensures |r| == cols
    ensures forall i :: 0 <= i < cols ==> r[i] == prev[i] + BatchCount(tok, i)
  {
    var inc := LengthIncrement(tok, cols);
    seq(cols, i requires 0 <= i < cols => prev[i] + inc[i])
  }

  /** The new perplexity accumulator: the previous sums plus this batch's perplexity sum at each position. */
  function AccumulatePerp(prev: seq<real>, tok: seq<seq<int>>, perp: seq<seq<real>>, cols: nat): (r: seq<real>)
    requires |prev| == cols
    requires |perp| == |tok| && forall b :: 0 <= b < |tok| ==> |perp[b]| == |tok[b]|
    ensures |r| == cols
    ensures forall i :: 0 <= i < cols ==> r[i] == prev[i] + BatchPerp(tok, perp, i)
  {
    var inc := PerpIncrement(tok, perp, cols);
    seq(cols, i requires 0 <= i < cols => prev[i] + inc[i])
  }

  /** Average perplexity at a position: the sums' quotient, or -1 where no token
      has been counted. */
  function Average(sumPerp: real, sumLength: int): (a: real)
    ensures sumLength != 0 ==> a * (sumLength as real) == sumPerp
    ensures sumLength == 0 ==> a == -1.0
  {
    var shownPerp := if sumLength != 0 then sumPerp else -1.0;
    var shownLength := if sumLength != 0 then sumLength else 1;
    shownPerp / (shownLength as real)
  }

  /** The logged table: the stored sums are broadcast against each other, and
      position `i` shows their quotient, or -1 where no token has been counted. */
  function Table(s: Accumulators): (t: Result<seq<TableRow>>)
    ensures t.Ok? <==> |s.sumPerp| == |s.sumLength| || |s.sumPerp| == 1 || |s.sumLength| == 1
    ensures t.Err? ==> t.error == RuntimeError
    ensures t.Ok? ==>
              && |t.value| == (if |s.sumPerp| == 1 then |s.sumLength| else |s.sumPerp|)
              && forall i :: 0 <= i < |t.value| ==>
                   t.value[i] == TableRow(i, Average(s.sumPerp[Source(|s.sumPerp|, i)], s.sumLength[Source(|s.sumLength|, i)]))
  {
    var pairs :- Broadcast(s.sumPerp, s.sumLength);
    Ok(seq(|pairs|, i requires 0 <= i < |pairs| => TableRow(i, Average(pairs[i].0, pairs[i].1))))
  }

  /** This batch's per-position perplexity sums and token counts. */
  function Increments(seqId: seq<seq<int>>, cols: nat, perplexity: seq<seq<real>>): (inc: (seq<real>, seq<int>))
    requires IsMatrix(seqId, cols)
    requires |perplexity| == |seqId| && IsMatrix(perplexity, cols)
    ensures |inc.0| == cols && |inc.1| == cols
    ensures forall i :: 0 <= i < cols ==> inc.0[i] == BatchPerp(BatchTokIds(seqId), perplexity, i)
    ensures forall i :: 0 <= i < cols ==> inc.1[i] == BatchCount(BatchTokIds(seqId), i)
  {
    var tok := BatchTokIds(seqId);
    assert IsMatrix(tok, cols);
    (PerpIncrement(tok, perplexity, cols), LengthIncrement(tok, cols))
  }

  /** The two additions of `eval_batch_end` once the increments are known: each
      stored accumulator plus its increment, with broadcasting; the perplexity sum
      is formed first. */
  function StoreSums(acc: Accumulators, perpInc: seq<real>, lengthInc: seq<int>): (r: Result<Accumulators>)
    ensures r.Ok? <==> && (|acc.sumPerp| == |perpInc| || |acc.sumPerp| == 1 || |perpInc| == 1)
                       && (|acc.sumLength| == |lengthInc| || |acc.sumLength| == 1 || |lengthInc| == 1)
    ensures r.Err? ==> r.error == RuntimeError
    ensures r.Ok? ==> |r.value.sumPerp| == (if |acc.sumPerp| == 1 then |perpInc| else |acc.sumPerp|)
    ensures r.Ok? ==> |r.value.sumLength| == (if |acc.sumLength| == 1 then |lengthInc| else |acc.sumLength|)
    ensures r.Ok? ==> forall i :: 0 <= i < |r.value.sumPerp| ==>
              Source(|perpInc|, i) < |perpInc| &&
              r.value.sumPerp[i] == acc.sumPerp[Source(|acc.sumPerp|, i)] + perpInc[Source(|perpInc|, i)]
    ensures r.Ok? ==> forall i :: 0 <= i < |r.value.sumLength| ==>
              Source(|lengthInc|, i) < |lengthInc| &&
              r.value.sumLength[i] == acc.sumLength[Source(|acc.sumLength|, i)] + lengthInc[Source(|lengthInc|, i)]
  {
    var perpPairs :- Broadcast(acc.sumPerp, perpInc);
    var lengthPairs :- Broadcast(acc.sumLength, lengthInc);
    Ok(Accumulators(seq(|perpPairs|, i requires 0 <= i < |perpPairs| => perpPairs[i].0 + perpPairs[i].1),
                    seq(|lengthPairs|, i requires 0 <= i < |lengthPairs| => lengthPairs[i].0 + lengthPairs[i].1)))
  }

  /** `eval_batch_end`: the batch's `sequence_id` has shape [B, L]; its
      per-token perplexities must have the same shape. Each stored accumulator is
      broadcast against the length-L increment, and the two new sums are broadcast
      against each other for the table. */
  function EvalBatchEnd(acc: Accumulators, seqId: seq<seq<int>>, cols: nat, perplexity: seq<seq<real>>): (r: Result<BatchEnd>)
    requires IsMatrix(seqId, cols)
    ensures r.Ok? <==> && |perplexity| == |seqId| && IsMatrix(perplexity, cols)
                       && (|acc.sumPerp| == cols || |acc.sumPerp| == 1 || cols == 1)
                       && (|acc.sumLength| == cols || |acc.sumLength| == 1 || cols == 1)
    ensures r.Err? ==> r.error == RuntimeError
    ensures r.Ok? ==> |r.value.stored.sumPerp| == (if |acc.sumPerp| == 1 then cols else |acc.sumPerp|)
    ensures r.Ok? ==> |r.value.stored.sumLength| == (if |acc.sumLength| == 1 then cols else |acc.sumLength|)
    ensures r.Ok? ==>
              var tok := BatchTokIds(seqId);
              && (forall i :: 0 <= i < |r.value.stored.sumPerp| ==>
                    r.value.stored.sumPerp[i] == acc.sumPerp[Source(|acc.sumPerp|, i)] + BatchPerp(tok, perplexity, Source(cols, i)))
              && (forall i :: 0 <= i < |r.value.stored.sumLength| ==>
                    r.value.stored.sumLength[i] == acc.sumLength[Source(|acc.sumLength|, i)] + BatchCount(tok, Source(cols, i)))
    ensures r.Ok? ==> r.value.table == Table(r.value.stored)
  {
    if !(|perplexity| == |seqId| && IsMatrix(perplexity, cols)) then Err(RuntimeError)
    else
      var inc := Increments(seqId, cols, perplexity);
      var stored :- StoreSums(acc, inc.0, inc.1);
      Ok(BatchEnd(stored, Table(stored)))
  }

  /** When the stored accumulators already have length L, the batch-end step
      stores exactly the pointwise updates `AccumulatePerp` and `AccumulateLengths`. */
  lemma EvalBatchEndAccumulates(acc: Accumulators, seqId: seq<seq<int>>, cols: nat, perplexity: seq<seq<real>>)
    requires IsMatrix(seqId, cols)
    requires |perplexity| == |seqId| && IsMatrix(perplexity, cols)
    requires |acc.sumPerp| == cols && |acc.sumLength| == cols
    ensures EvalBatchEnd(acc, seqId, cols, perplexity).Ok?
    ensures EvalBatchEnd(acc, seqId, cols, perplexity).value.stored
            == Accumulators(AccumulatePerp(acc.sumPerp, BatchTokIds(seqId), perplexity, cols),
                            AccumulateLengths(acc.sumLength, BatchTokIds(seqId), cols))
  {
    var r := EvalBatchEnd(acc, seqId, cols, perplexity);
    assert r.Ok?;
    var tok := BatchTokIds(seqId);
    var perpInc := PerpIncrement(tok, perplexity, cols);
    var lengthInc := LengthIncrement(tok, cols);
    var p := AccumulatePerp(acc.sumPerp, tok, perplexity, cols);
    var n := AccumulateLengths(acc.sumLength, tok, cols);
    assert |r.value.stored.sumPerp| == cols && |r.value.stored.sumLength| == cols;
    forall i | 0 <= i < cols
      ensures r.value.stored.sumPerp[i] == p[i] && r.value.stored.sumLength[i] == n[i]
    {
      assert Source(cols, i) == i && Source(|acc.sumPerp|, i) == i && Source(|acc.sumLength|, i) == i;
      assert r.value.stored.sumPerp[i] == acc.sumPerp[i] + perpInc[i];
      assert r.value.stored.sumLength[i] == acc.sumLength[i] + lengthInc[i];
    }
  }

  /** Over one batch the token counts accumulated across all positions grow by
      exactly B * L. */
  lemma LengthGrowthIsBatchSize(prev: seq<int>, seqId: seq<seq<int>>, cols: nat)
    requires IsMatrix(seqId, cols)
    requires |prev| == cols
    ensures Sum(AccumulateLengths(prev, BatchTokIds(seqId), cols)) == Sum(prev) + |seqId| * cols
  {
    var tok := BatchTokIds(seqId);
    SumOfPointwiseAdd(AccumulateLengths(prev, tok, cols), prev, LengthIncrement(tok, cols));
    PositionCountsCoverBatch(seqId, cols);
  }

  /** Over one batch the perplexity accumulated across all positions grows by
      exactly the batch's total perplexity: every token's perplexity is added at
      exactly one position. */
  lemma PerplexityIsConserved(prev: seq<real>, seqId: seq<seq<int>>, cols: nat, perp: seq<seq<real>>)
    requires IsMatrix(seqId, cols)
    requires |prev| == cols
    requires |perp| == |seqId| && IsMatrix(perp, cols)
    ensures SumReals(AccumulatePerp(prev, BatchTokIds(seqId), perp, cols)) == SumReals(prev) + TotalPerp(perp)
  {
    var tok := BatchTokIds(seqId);
    SumRealsOfPointwiseAdd(AccumulatePerp(prev, tok, perp, cols), prev, PerpIncrement(tok, perp, cols));
    SumOfPerpIncrementPrefix(tok, perp, cols);
    BatchInRangePerpAll(tok, perp, cols);
  }
}
