/** Attention mask and score modifiers for a block-sparse attention kernel,
    and their composition into one mask predicate and one score function.

    A modifier is a predicate (mask) or a score transformer (score) over the
    indices batch `b`, head `h`, query position `q` and key position `kv`,
    optionally reading per-batch sequence metadata. The kernel that consumes the
    composed predicate is outside the model: composition stops at the value that
    would be handed to it. */
module FlexAttention {
  import opened PyResult

  /** A per-batch integer tensor of shape [B, L], indexed `m[b][i]`. */
  type Matrix = seq<seq<int>>

  /** The optional `sequence_id_info` dictionary; each of its two keys may be absent. */
  datatype SequenceIdInfo = SequenceIdInfo(sequenceId: Option<Matrix>, posInSeq: Option<Matrix>)

  /** Reading `m[b, i]`: an index outside the tensor raises. */
  function Index(m: Matrix, b: nat, i: nat): (r: Result<int>)
    ensures r.Ok? <==> b < |m| && i < |m[b]|
    ensures r.Ok? ==> r.value == m[b][i]
  {
    if b < |m| && i < |m[b]| then Ok(m[b][i]) else Err(IndexError)
  }

  /** Reading a key of the metadata dictionary: an absent key raises. */
  function Lookup(entry: Option<Matrix>, key: string): (r: Result<Matrix>)
    ensures r.Ok? <==> entry.Some?
    ensures r.Err? ==> r.error == KeyError(key)
  {
    match entry
    case Some(m) => Ok(m)
    case None => Err(KeyError(key))
  }

  /** The concrete modifier classes. */
  datatype Mod =
    | CausalMask
    | SlidingWindowMask(slidingWindowSize: int)
    | SequenceIdMask
    | LocalGlobalMask(slidingWindowSize: int, globalWindowSize: int)
    | AlibiScore(alibiSlopes: seq<real>)

  /** The classes that override the mask function rather than the score function. */
  predicate IsMaskMod(m: Mod) {
    !m.AlibiScore?
  }

  /** The type tag each class hands to the base constructor. */
  function DeclaredModType(m: Mod): string {
    if IsMaskMod(m) then "mask" else "score"
  }

  /** Which of the two bound methods `mod_fn` refers to. */
  datatype ModFn = MaskModFn | ScoreModFn

  /** A constructed modifier object: its class, its type tag and its `mod_fn`. */
  datatype FlexAttentionMod = FlexAttentionMod(mod: Mod, modType: string, modFn: ModFn)

  /** The base constructor: only the tags "mask" and "score" pass its assertion,
      and `mod_fn` is the mask function exactly when the tag is "mask". */
  function Init(mod: Mod, modType: string): (r: Result<FlexAttentionMod>)
    ensures r.Ok? <==> modType == "mask" || modType == "score"
    ensures r.Err? ==> r.error == AssertionError
    ensures r.Ok? ==> r.value.mod == mod && r.value.modType == modType
    ensures r.Ok? ==> (r.value.modFn == MaskModFn <==> modType == "mask")
  {
    if modType != "mask" && modType != "score" then Err(AssertionError)
    else Ok(FlexAttentionMod(mod, modType, if modType == "mask" then MaskModFn else ScoreModFn))
  }

  /** A subclass constructor: it calls the base constructor with its own tag. */
  function New(m: Mod): (f: FlexAttentionMod)
    ensures f.mod == m && f.modType == DeclaredModType(m)
    ensures f.modFn == MaskModFn <==> IsMaskMod(m)
  {
    Init(m, DeclaredModType(m)).value
  }

  /** Query and key lie in the same packed sequence and the query is not padding (-1). */
  ghost predicate SameSequence(sid: Matrix, b: nat, q: nat, kv: nat)
    requires b < |sid| && q < |sid[b]| && kv < |sid[b]|
  {
    sid[b][q] == sid[b][kv] && sid[b][q] != -1
  }

  /** The sequence-id test shared by the sequence-id and local-global masks. */
  function SequenceIdTest(sid: Matrix, b: nat, q: nat, kv: nat): (r: Result<bool>)
    ensures r.Ok? <==> b < |sid| && q < |sid[b]| && kv < |sid[b]|
    ensures r.Ok? ==> (r.value <==> SameSequence(sid, b, q, kv))
    ensures r.Err? ==> r.error == IndexError
  {
    var sq :- Index(sid, b, q);
    var skv :- Index(sid, b, kv);
    Ok(sq == skv && sq != -1)
  }

  /** The mask function `_mask_mod_fn` of each class. The base class's version,
      inherited by the score classes, raises `NotImplementedError`. */
  function Allowed(m: Mod, b: nat, h: nat, q: nat, kv: nat, info: Option<SequenceIdInfo>): (r: Result<bool>)
    ensures m.CausalMask? ==> r == Ok(q >= kv)
    ensures m.SlidingWindowMask? ==> r == Ok(q - kv <= m.slidingWindowSize)
    ensures m.AlibiScore? <==> r == Err(NotImplementedError)
    ensures (m.SequenceIdMask? || m.LocalGlobalMask?) && info.None? ==> r == Err(ValueError(MissingSequenceIdInfo))
    ensures (m.SequenceIdMask? || m.LocalGlobalMask?) && info.Some? && info.value.sequenceId.None? ==>
              r == Err(KeyError("sequence_id"))
    ensures m.LocalGlobalMask? && info.Some? && info.value.sequenceId.Some? && info.value.posInSeq.None? ==>
              r == Err(KeyError("pos_in_seq"))
    ensures (m.SequenceIdMask? || m.LocalGlobalMask?) && info.Some? && info.value.sequenceId.Some?
            && (m.LocalGlobalMask? ==> info.value.posInSeq.Some?) ==>
              var sid := info.value.sequenceId.value;
              var inBounds := b < |sid| && q < |sid[b]| && kv < |sid[b]|
                              && (m.LocalGlobalMask? ==> b < |info.value.posInSeq.value| && kv < |info.value.posInSeq.value[b]|);
              (r.Ok? || r == Err(IndexError)) && (r.Ok? <==> inBounds)
    ensures m.SequenceIdMask? && r.Ok? ==>
              var sid := info.value.sequenceId.value;
              b < |sid| && q < |sid[b]| && kv < |sid[b]| && (r.value <==> SameSequence(sid, b, q, kv))
    ensures m.LocalGlobalMask? && r.Ok? ==> info.Some? && info.value.posInSeq.Some?
    ensures m.LocalGlobalMask? && r.Ok? ==>
              var sid := info.value.sequenceId.value;
              var pos := info.value.posInSeq.value;
              && b < |sid| && q < |sid[b]| && kv < |sid[b]| && b < |pos| && kv < |pos[b]|
              && (r.value <==> SameSequence(sid, b, q, kv)
                               && (pos[b][kv] <= m.globalWindowSize || q - kv <= m.slidingWindowSize))
  {
    match m
    case CausalMask => Ok(q >= kv)
    case SlidingWindowMask(w) => Ok(q - kv <= w)
    case SequenceIdMask =>
      if info.None? then Err(ValueError(MissingSequenceIdInfo))
      else
        var sid :- Lookup(info.value.sequenceId, "sequence_id");
        SequenceIdTest(sid, b, q, kv)
    case LocalGlobalMask(w, g) =>
      if info.None? then Err(ValueError(MissingSequenceIdInfo))
      else
        var sid :- Lookup(info.value.sequenceId, "sequence_id");
        var pos :- Lookup(info.value.posInSeq, "pos_in_seq");
        var sameSequence :- SequenceIdTest(sid, b, q, kv);
        var kvPos :- Index(pos, b, kv);
        Ok(sameSequence && (kvPos <= g || q - kv <= w))
    case AlibiScore(_) => Err(NotImplementedError)
  }

  /** The score function `_score_mod_fn` of each class. ALiBi adds the bias
      `-slope[h] * (q - kv)`; the mask classes inherit the base version, which raises. */
  function ModifyScore(m: Mod, score: real, b: nat, h: nat, q: nat, kv: nat, info: Option<SequenceIdInfo>): (r: Result<real>)
    ensures !m.AlibiScore? <==> r == Err(NotImplementedError)
    ensures m.AlibiScore? ==> (r.Ok? <==> h < |m.alibiSlopes|)
    ensures m.AlibiScore? && r.Err? ==> r.error == IndexError
    ensures m.AlibiScore? && r.Ok? ==> r.value == score - m.alibiSlopes[h] * ((q - kv) as real)
    ensures m.AlibiScore? && r.Ok? && q == kv ==> r.value == score
    ensures m.AlibiScore? && r.Ok? && m.alibiSlopes[h] > 0.0 ==> (r.value < score <==> q > kv)
  {
    match m
    case AlibiScore(slopes) =>
      if h < |slopes| then Ok(score + (-slopes[h]) * ((q - kv) as real)) else Err(IndexError)
    case _ => Err(NotImplementedError)
  }

  /** `partial(mod.mod_fn, sequence_id_info=info)`. */
  datatype Partial = Partial(f: FlexAttentionMod, info: Option<SequenceIdInfo>)

  /** Calling a partial as a mask function `(b, h, q, kv)`. A bound score function
      receives the wrong arguments, which Python reports as a `TypeError`. */
  function CallMask(p: Partial, b: nat, h: nat, q: nat, kv: nat): (r: Result<bool>)
    ensures p.f.modFn == ScoreModFn ==> r == Err(TypeError)
    ensures p.f.modFn == MaskModFn ==> r == Allowed(p.f.mod, b, h, q, kv, p.info)
  {
    match p.f.modFn
    case MaskModFn => Allowed(p.f.mod, b, h, q, kv, p.info)
    case ScoreModFn => Err(TypeError)
  }

  /** Calling a partial as a score function `(score, b, h, q, kv)`. */
  function CallScore(p: Partial, score: real, b: nat, h: nat, q: nat, kv: nat): (r: Result<real>)
    ensures p.f.modFn == MaskModFn ==> r == Err(TypeError)
    ensures p.f.modFn == ScoreModFn ==> r == ModifyScore(p.f.mod, score, b, h, q, kv, p.info)
  {
    match p.f.modFn
    case ScoreModFn => ModifyScore(p.f.mod, score, b, h, q, kv, p.info)
    case MaskModFn => Err(TypeError)
  }

  /** Binding the same metadata to every modifier of a list, in order. */
  function BindAll(mods: seq<FlexAttentionMod>, info: Option<SequenceIdInfo>): (ps: seq<Partial>)
    ensures |ps| == |mods|
    ensures forall i :: 0 <= i < |mods| ==> ps[i] == Partial(mods[i], info)
  {
    seq(|mods|, i requires 0 <= i < |mods| => Partial(mods[i], info))
  }

  // ---------------------------------------------------------------------------
  // Mask composition

  /** The composed mask function as the loop builds it: the first partial, then
      `and_masks(previous, next)` for each further one. */
  datatype MaskTree = MaskLeaf(p: Partial) | AndMasks(left: MaskTree, right: Partial)

  /** The partials a mask tree combines, left to right. */
  function MaskLeaves(t: MaskTree): seq<Partial> {
    match t
    case MaskLeaf(p) => [p]
    case AndMasks(left, right) => MaskLeaves(left) + [right]
  }

  /** The loop of `generate_block_mask`: the tree it builds combines exactly the
      given partials, in list order. */
  function BuildMaskTree(ps: seq<Partial>): (t: Option<MaskTree>)
    ensures t.Some? <==> |ps| > 0
    ensures t.Some? ==> MaskLeaves(t.value) == ps
    decreases |ps|
  {
    if |ps| == 0 then None
    else if |ps| == 1 then Some(MaskLeaf(ps[0]))
    else
      var init := ps[..|ps| - 1];
      assert init + [ps[|ps| - 1]] == ps;
      Some(AndMasks(BuildMaskTree(init).value, ps[|ps| - 1]))
  }

  /** `r` is what the conjunction of the mask functions `ps` gives at one index
      tuple: true iff every function gives true; an error iff some function
      raises, and then the error of the first one that does. */
  predicate IsConjunction(ps: seq<Partial>, r: Result<bool>, b: nat, h: nat, q: nat, kv: nat) {
    && (r == Ok(true) <==> forall i :: 0 <= i < |ps| ==> CallMask(ps[i], b, h, q, kv) == Ok(true))
    && (r.Err? <==> exists i :: 0 <= i < |ps| && CallMask(ps[i], b, h, q, kv).Err?)
    && (r.Err? ==> exists i :: 0 <= i < |ps| && CallMask(ps[i], b, h, q, kv) == r
                               && forall j :: 0 <= j < i ==> CallMask(ps[j], b, h, q, kv).Ok?)
  }

  /** `and_masks(x, y)` on the two operands' outcomes: both are evaluated, left
      first, and conjoined; the first exception raised propagates. */
  function AndThen(x: Result<bool>, y: Result<bool>): Result<bool> {
    if x.Err? then x else if y.Err? then y else Ok(x.value && y.value)
  }

  /** Conjoining one more mask function onto a conjunction gives the conjunction
      of the longer list. */
  lemma {:induction false} ConjunctionStep(ls: seq<Partial>, l: Result<bool>, p: Partial, b: nat, h: nat, q: nat, kv: nat)
    requires IsConjunction(ls, l, b, h, q, kv)
    ensures IsConjunction(ls + [p], AndThen(l, CallMask(p, b, h, q, kv)), b, h, q, kv)
  {
    var ps := ls + [p];
    var last := CallMask(p, b, h, q, kv);
    var r := AndThen(l, last);
    assert forall j :: 0 <= j < |ls| ==> ps[j] == ls[j];
    assert ps[|ls|] == p;
    if r.Err? {
      if l.Err? {
        var i :| 0 <= i < |ls| && CallMask(ls[i], b, h, q, kv) == l
                 && forall j :: 0 <= j < i ==> CallMask(ls[j], b, h, q, kv).Ok?;
        assert CallMask(ps[i], b, h, q, kv) == r;
      } else {
        assert CallMask(ps[|ls|], b, h, q, kv) == r;
      }
    } else {
      forall i | 0 <= i < |ps|
        ensures CallMask(ps[i], b, h, q, kv).Ok?
      {
        if i < |ls| {
          assert ps[i] == ls[i];
        }
      }
      if r == Ok(true) {
        forall i | 0 <= i < |ps|
          ensures CallMask(ps[i], b, h, q, kv) == Ok(true)
        {
          if i < |ls| {
            assert ps[i] == ls[i];
          }
        }
      }
      if forall i :: 0 <= i < |ps| ==> CallMask(ps[i], b, h, q, kv) == Ok(true) {
        assert forall i :: 0 <= i < |ls| ==> CallMask(ls[i], b, h, q, kv) == Ok(true) by {
          forall i | 0 <= i < |ls| ensures CallMask(ls[i], b, h, q, kv) == Ok(true) {
            assert ls[i] == ps[i];
          }
        }
      }
    }
  }

  /** Evaluating a mask tree at one index tuple: the conjunction of its partials. */
  function EvalMask(t: MaskTree, b: nat, h: nat, q: nat, kv: nat): (r: Result<bool>)
    ensures IsConjunction(MaskLeaves(t), r, b, h, q, kv)
  {
    match t
    case MaskLeaf(p) =>
      var r := CallMask(p, b, h, q, kv);
      assert MaskLeaves(t)[0] == p;
      assert r == Ok(true) <== forall i :: 0 <= i < 1 ==> CallMask(MaskLeaves(t)[i], b, h, q, kv) == Ok(true);
      r
    case AndMasks(left, right) =>
      var l := EvalMask(left, b, h, q, kv);
      ConjunctionStep(MaskLeaves(left), l, right, b, h, q, kv);
      AndThen(l, CallMask(right, b, h, q, kv))
  }

  /** What is handed to the external block-mask builder: the composed mask
      function (`None` for an empty list), the batch size and the lengths; the
      head count is always `None`. */
  datatype BlockMaskRequest = BlockMaskRequest(maskMod: Option<MaskTree>, batch: int, qLen: int, kvLen: int)

  function GenerateBlockMask(qLen: int, kvLen: int, batch: int, blockMaskList: Option<seq<FlexAttentionMod>>,
                             info: Option<SequenceIdInfo>): (r: Option<BlockMaskRequest>)
    ensures r.None? <==> blockMaskList.None?
    ensures r.Some? ==> r.value.batch == batch && r.value.qLen == qLen && r.value.kvLen == kvLen
    ensures r.Some? ==> (r.value.maskMod.Some? <==> |blockMaskList.value| > 0)
    ensures r.Some? && r.value.maskMod.Some? ==> MaskLeaves(r.value.maskMod.value) == BindAll(blockMaskList.value, info)
    ensures r.Some? && r.value.maskMod.Some? ==>
              forall b: nat, h: nat, q: nat, kv: nat ::
                EvalMask(r.value.maskMod.value, b, h, q, kv) == Ok(true) <==>
                forall i :: 0 <= i < |blockMaskList.value| ==> CallMask(Partial(blockMaskList.value[i], info), b, h, q, kv) == Ok(true)
  {
    match blockMaskList
    case None => None
    case Some(mods) => Some(BlockMaskRequest(BuildMaskTree(BindAll(mods, info)), batch, qLen, kvLen))
  }

  /** The composed mask allows an edge exactly when every modifier in the list
      allows it; it fails exactly when some modifier fails, and then with the
      error of the first failing modifier in list order. */
  lemma ComposedMaskIsConjunction(ps: seq<Partial>, b: nat, h: nat, q: nat, kv: nat)
    requires |ps| > 0
    ensures var r := EvalMask(BuildMaskTree(ps).value, b, h, q, kv);
            && (r == Ok(true) <==> forall i :: 0 <= i < |ps| ==> CallMask(ps[i], b, h, q, kv) == Ok(true))
            && (r.Err? <==> exists i :: 0 <= i < |ps| && CallMask(ps[i], b, h, q, kv).Err?)
            && (r.Err? ==> exists i :: 0 <= i < |ps| && CallMask(ps[i], b, h, q, kv) == r
                                       && forall j :: 0 <= j < i ==> CallMask(ps[j], b, h, q, kv).Ok?)
  {
  }

  /** Every modifier's mask decision is the same for all heads, which is what
      lets the block mask be built with no head dimension. */
  lemma {:induction false} ComposedMaskIgnoresHead(t: MaskTree, b: nat, h1: nat, h2: nat, q: nat, kv: nat)
    ensures EvalMask(t, b, h1, q, kv) == EvalMask(t, b, h2, q, kv)
  {
    match t
    case MaskLeaf(p) =>
    case AndMasks(left, right) =>
      ComposedMaskIgnoresHead(left, b, h1, h2, q, kv);
  }

  /** Modifiers built by their own class constructors never reach the base
      class's unimplemented method: the bound `mod_fn` is the overridden one. */
  lemma ConstructedModsAreImplemented(m: Mod, score: real, b: nat, h: nat, q: nat, kv: nat, info: Option<SequenceIdInfo>)
    ensures Init(m, DeclaredModType(m)).Ok?
    ensures New(m).modFn == MaskModFn ==> Allowed(m, b, h, q, kv, info) != Err(NotImplementedError)
    ensures New(m).modFn == ScoreModFn ==> ModifyScore(m, score, b, h, q, kv, info) != Err(NotImplementedError)
  {
  }

  /** The local-global mask only ever narrows the sequence-id mask. */
  lemma LocalGlobalImpliesSequenceId(w: int, g: int, b: nat, h: nat, q: nat, kv: nat, info: Option<SequenceIdInfo>)
    requires Allowed(LocalGlobalMask(w, g), b, h, q, kv, info) == Ok(true)
    ensures Allowed(SequenceIdMask, b, h, q, kv, info) == Ok(true)
  {
  }

  /** The sliding-window mask has no lower bound: with a non-negative window
      it never excludes a key at or after the query. */
  lemma SlidingWindowAdmitsFutureKeys(w: int, b: nat, h: nat, q: nat, kv: nat, info: Option<SequenceIdInfo>)
    requires w >= 0 && kv >= q
    ensures Allowed(SlidingWindowMask(w), b, h, q, kv, info) == Ok(true)
  {
  }

  /** Among the edges it allows, the sequence-id mask is symmetric and
      transitive: it partitions the non-padding tokens of a row. */
  lemma SequenceIdMaskIsPartialEquivalence(b: nat, h: nat, x: nat, y: nat, z: nat, info: Option<SequenceIdInfo>)
    ensures Allowed(SequenceIdMask, b, h, x, y, info) == Ok(true) ==> Allowed(SequenceIdMask, b, h, y, x, info) == Ok(true)
    ensures Allowed(SequenceIdMask, b, h, x, y, info) == Ok(true) && Allowed(SequenceIdMask, b, h, y, z, info) == Ok(true) ==>
              Allowed(SequenceIdMask, b, h, x, z, info) == Ok(true)
  {
  }

  // ---------------------------------------------------------------------------
  // Score composition

  /** The composed score function as the loop builds it: the first partial, then
      `_wrap_score_mod_fns(previous, next)` for each further one. */
  datatype ScoreTree = ScoreLeaf(p: Partial) | Wrapped(first: ScoreTree, second: Partial)

  /** The partials a score tree chains, first to last. */
  function ScoreLeaves(t: ScoreTree): seq<Partial> {
    match t
    case ScoreLeaf(p) => [p]
    case Wrapped(first, second) => ScoreLeaves(first) + [second]
  }

  /** The loop of `generate_score_mod`: the tree it builds chains exactly the
      given partials, in list order. */
  function BuildScoreTree(ps: seq<Partial>): (t: Option<ScoreTree>)
    ensures t.Some? <==> |ps| > 0
    ensures t.Some? ==> ScoreLeaves(t.value) == ps
    decreases |ps|
  {
    if |ps| == 0 then None
    else if |ps| == 1 then Some(ScoreLeaf(ps[0]))
    else
      var init := ps[..|ps| - 1];
      assert init + [ps[|ps| - 1]] == ps;
      Some(Wrapped(BuildScoreTree(init).value, ps[|ps| - 1]))
  }

  /** The wrapped function feeds the output of the first function to the second,
      so a tree applies its partials one after another, first to last. */
  function EvalScore(t: ScoreTree, score: real, b: nat, h: nat, q: nat, kv: nat): (r: Result<real>)
    ensures r == ApplyInOrder(ScoreLeaves(t), score, b, h, q, kv)
  {
    match t
    case ScoreLeaf(p) =>
      assert [p][1..] == [];
      CallScore(p, score, b, h, q, kv)
    case Wrapped(first, second) =>
      ApplyInOrderSnoc(ScoreLeaves(first), second, score, b, h, q, kv);
      var s :- EvalScore(first, score, b, h, q, kv);
      CallScore(second, s, b, h, q, kv)
  }

  /** `generate_score_mod`: nothing for an absent or empty list. */
  function GenerateScoreMod(scoreModList: Option<seq<FlexAttentionMod>>, info: Option<SequenceIdInfo>): (r: Option<ScoreTree>)
    ensures r.Some? <==> scoreModList.Some? && |scoreModList.value| > 0
    ensures r.Some? ==> ScoreLeaves(r.value) == BindAll(scoreModList.value, info)
    ensures r.Some? ==>
              forall score: real, b: nat, h: nat, q: nat, kv: nat ::
                EvalScore(r.value, score, b, h, q, kv) == ApplyInOrder(BindAll(scoreModList.value, info), score, b, h, q, kv)
  {
    match scoreModList
    case None => None
    case Some(mods) => BuildScoreTree(BindAll(mods, info))
  }

  /** Reference semantics: apply the modifiers one after another from the front
      of the list, each receiving the previous one's output. */
  function ApplyInOrder(ps: seq<Partial>, score: real, b: nat, h: nat, q: nat, kv: nat): Result<real>
    decreases |ps|
  {
    if |ps| == 0 then Ok(score)
    else
      var s :- CallScore(ps[0], score, b, h, q, kv);
      ApplyInOrder(ps[1..], s, b, h, q, kv)
  }

  lemma {:induction false} ApplyInOrderSnoc(ps: seq<Partial>, p: Partial, score: real, b: nat, h: nat, q: nat, kv: nat)
    ensures ApplyInOrder(ps + [p], score, b, h, q, kv)
            == (var s :- ApplyInOrder(ps, score, b, h, q, kv); CallScore(p, s, b, h, q, kv))
    decreases |ps|
  {
    if |ps| > 0 {
      assert (ps + [p])[1..] == ps[1..] + [p];
      var first := CallScore(ps[0], score, b, h, q, kv);
      if first.Ok? {
        ApplyInOrderSnoc(ps[1..], p, first.value, b, h, q, kv);
      }
    }
  }

  /** The composed score modifier equals f_n(...f_2(f_1(score))...). */
  lemma ComposedScoreIsSequential(ps: seq<Partial>, score: real, b: nat, h: nat, q: nat, kv: nat)
    requires |ps| > 0
    ensures EvalScore(BuildScoreTree(ps).value, score, b, h, q, kv) == ApplyInOrder(ps, score, b, h, q, kv)
  {
  }

  /** A list of ALiBi modifiers, each constructed by its class and with a slope for head `h`. */
  predicate AlibiChain(ps: seq<Partial>, h: nat) {
    forall i :: 0 <= i < |ps| ==>
      ps[i].f.mod.AlibiScore? && ps[i].f.modFn == ScoreModFn && h < |ps[i].f.mod.alibiSlopes|
  }

  /** Sum of the head-`h` slopes of an ALiBi chain. */
  function SlopeSum(ps: seq<Partial>, h: nat): real
    requires AlibiChain(ps, h)
    decreases |ps|
  {
    if |ps| == 0 then 0.0 else ps[0].f.mod.alibiSlopes[h] + SlopeSum(ps[1..], h)
  }

  /** Chained ALiBi modifiers add up: the result is the score minus the summed
      slope times the query-key distance, so a diagonal score is untouched. */
  lemma {:induction false} AlibiChainClosedForm(ps: seq<Partial>, score: real, b: nat, h: nat, q: nat, kv: nat)
    requires AlibiChain(ps, h)
    ensures ApplyInOrder(ps, score, b, h, q, kv) == Ok(score - SlopeSum(ps, h) * ((q - kv) as real))
    ensures q == kv ==> ApplyInOrder(ps, score, b, h, q, kv) == Ok(score)
    decreases |ps|
  {
    if |ps| > 0 {
      var s := score + (-ps[0].f.mod.alibiSlopes[h]) * ((q - kv) as real);
      assert CallScore(ps[0], score, b, h, q, kv) == Ok(s);
      assert AlibiChain(ps[1..], h);
      AlibiChainClosedForm(ps[1..], s, b, h, q, kv);
    }
  }
}
