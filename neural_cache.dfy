/**
 * The cache bookkeeping of `RNNModel.forward` when the cache is on
 * (model.py), as functions over a snapshot of the cache state. The network,
 * the kernel scores and the blend are not part of it: each step is given the
 * LSTM output state h that the recurrent stack produced, and a query is
 * described by the (hidden_cache[i], input_cache[i+1]) pairs it reads.
 */
module NeuralCache {
  import opened Wrappers
  import opened TensorRoll
  import opened OneHot
  import opened RnnConfig

  /** One slot of `hidden_cache` or `input_cache`: a row per batch entry. */
  type Slot = seq<seq<real>>

  /** `cache_size`, `cache_pointer` and the contents of the two buffers. */
  datatype Buffers = Buffers(size: nat, pointer: nat, hidden: seq<Slot>, input: seq<Slot>)

  /**
   * Both buffers have `cache_size` slots and the pointer is a slot index.
   * A zero-size cache is the exception: there the pointer can reach 1 (when
   * no key is written), after which every step raises.
   */
  ghost predicate Inv(c: Buffers)
  {
    |c.hidden| == c.size && |c.input| == c.size && (c.pointer < c.size || (c.size == 0 && c.pointer <= 1))
  }

  /** Why a cached forward call raises before reaching the query. */
  datatype ForwardError =
    | TokenOutOfRange      // `scatter_` index outside num_embeddings
    | InputSliceMismatch   // one-hot block does not fit `input_cache[p:p+len]`
    | RollUnbound          // `roll` is called as a bare name, which is no global: NameError
    | SlotOutOfRange       // indexing a slot of a zero-size cache
    | KeyUnbound           // `current_hidden` read but never assigned
    | KeyNotBatched        // `bmm` given the two-dimensional "top" or "bottom" key

  /** What one time step ends in. */
  datatype StepResult =
    | Advanced(c: Buffers)
    | QueryRaised(c: Buffers, pairs: seq<(Slot, Slot)>)
    | StepFailed(c: Buffers, error: ForwardError)

  /** What a cached forward call ends in: it returns, or the query branch raises at `step`, or an error is raised. */
  datatype Outcome =
    | Completed
    | QueryAborted(step: nat, pairs: seq<(Slot, Slot)>)
    | Failed(error: ForwardError)

  /** The key/value pairs the query loop visits: key i is paired with the input one step later. */
  function QueryPairs(c: Buffers): (pairs: seq<(Slot, Slot)>)
    requires Inv(c) && c.pointer < c.size
    ensures |pairs| == c.pointer
    ensures forall i :: 0 <= i < |pairs| ==> pairs[i].0 == c.hidden[i] && pairs[i].1 == c.input[i + 1]
  {
    seq(c.pointer, i requires 0 <= i < c.pointer => (c.hidden[i], c.input[i + 1]))
  }

  /** The key of step h for the configured hidden type (unused when the type is unrecognised). */
  function KeyOf(ht: HiddenType, h: Tensor3, batch: nat, nhid: nat): (key: Slot)
    requires |h| > 0 && HasShape(h, |h|, batch, nhid)
    ensures ht != Unrecognised ==> ExtractFeature(ht, h, batch, nhid) == Some(key)
  {
    match ExtractFeature(ht, h, batch, nhid)
    case Some(k) => k
    case None => []
  }

  /**
   * One iteration of the `for seqix` loop. At the last slot the "roll the
   * cache" call raises. Otherwise the key is written at the pointer; past
   * pointer 0 the query runs and the step raises, in the query loop's
   * closing `raise` for a "flat" key, earlier for any other; at pointer 0
   * the pointer advances.
   */
  function Step(c: Buffers, ht: HiddenType, key: Slot): (r: StepResult)
    requires Inv(c)
    ensures Inv(r.c) && r.c.size == c.size
    ensures r.c.input == c.input
  {
    if c.pointer == c.size - 1 then StepFailed(c, RollUnbound)
    else if ht != Unrecognised && c.pointer >= c.size then StepFailed(c, SlotOutOfRange)
    else
      var c2 := if ht != Unrecognised then c.(hidden := c.hidden[c.pointer := key]) else c;
      if c2.pointer > 0 then
        if c2.size == 0 then StepFailed(c2, SlotOutOfRange)
        else if ht == Unrecognised then StepFailed(c2, KeyUnbound)
        else if ht != Flat then StepFailed(c2, KeyNotBatched)
        else QueryRaised(c2, QueryPairs(c2))
      else Advanced(c2.(pointer := if c2.pointer != c2.size - 1 then c2.pointer + 1 else c2.pointer))
  }

  ghost predicate WellShaped(hs: seq<Tensor3>, nlayers: nat, batch: nat, nhid: nat)
  {
    nlayers > 0 && forall t :: 0 <= t < |hs| ==> HasShape(hs[t], nlayers, batch, nhid)
  }

  /** The loop from step `start` on; the state is whatever the last step left, also when it raised. */
  function RunSteps(c: Buffers, ht: HiddenType, hs: seq<Tensor3>, nlayers: nat, batch: nat, nhid: nat,
                    start: nat): (r: (Buffers, Outcome))
    requires Inv(c) && WellShaped(hs, nlayers, batch, nhid)
    ensures Inv(r.0) && r.0.size == c.size && r.0.input == c.input
    decreases |hs|
  {
    if hs == [] then (c, Completed)
    else
      match Step(c, ht, KeyOf(ht, hs[0], batch, nhid))
      case Advanced(c') => RunSteps(c', ht, hs[1..], nlayers, batch, nhid, start + 1)
      case QueryRaised(c', pairs) => (c', QueryAborted(start, pairs))
      case StepFailed(c', e) => (c', Failed(e))
  }

  /** How many slots `buffer[lo:hi]` covers on a buffer of `size` slots: both bounds are clamped to the end. */
  function SliceLength(lo: nat, hi: nat, size: nat): nat
  {
    var l := if lo <= size then lo else size;
    var h := if hi <= size then hi else size;
    if l <= h then h - l else 0
  }

  /**
   * `input_cache[p:p+len] = input_1hot` succeeds when the block fits, or broadcasts from a single step:
   * the slice must cover exactly `len` slots unless there is at most one step to write.
   */
  predicate InputFits(pointer: nat, len: nat, size: nat): (fits: bool)
    ensures fits <==> len <= 1 || SliceLength(pointer, pointer + len, size) == len
  {
    len <= 1 || pointer + len <= size
  }

  /** The slice assignment: slots p .. p+len-1 receive the one-hot steps when they all exist; nothing is written otherwise. */
  function WriteInput(input: seq<Slot>, pointer: nat, rows: seq<Slot>): (r: seq<Slot>)
    ensures |r| == |input|
    ensures forall j :: 0 <= j < |input| ==>
              r[j] == if pointer <= j < pointer + |rows| && pointer + |rows| <= |input| then rows[j - pointer] else input[j]
  {
    if pointer + |rows| <= |input| then input[..pointer] + rows + input[pointer + |rows|..] else input
  }

  /**
   * A cached forward call: one-hot encode the tokens, store them at the
   * pointer, then run the per-step loop.
   */
  function Forward(c: Buffers, ht: HiddenType, input: seq<seq<int>>, numEmbeddings: nat,
                   hs: seq<Tensor3>, nlayers: nat, batch: nat, nhid: nat): (r: (Buffers, Outcome))
    requires Inv(c) && |hs| == |input| && WellShaped(hs, nlayers, batch, nhid)
    ensures Inv(r.0) && r.0.size == c.size
  {
    match OneHotSteps(input, numEmbeddings)
    case None => (c, Failed(TokenOutOfRange))
    case Some(rows) =>
      if !InputFits(c.pointer, |input|, c.size) then (c, Failed(InputSliceMismatch))
      else RunSteps(c.(input := WriteInput(c.input, c.pointer, rows)), ht, hs, nlayers, batch, nhid, 0)
  }

  // ---------------------------------------------------------------------------
  // Properties

  /**
   * A step returns normally exactly when it starts on an empty cache of two
   * or more slots (or on a zero-size cache that writes no key); it then
   * moves the pointer to 1, having written the key into slot 0.
   */
  lemma AdvanceOnlyFromEmpty(c: Buffers, ht: HiddenType, key: Slot)
    requires Inv(c)
    ensures Step(c, ht, key).Advanced? <==>
              c.pointer == 0 && (c.size >= 2 || (c.size == 0 && ht == Unrecognised))
    ensures Step(c, ht, key).Advanced? ==> Step(c, ht, key).c.pointer == 1
    ensures Step(c, ht, key).Advanced? && ht != Unrecognised ==> Step(c, ht, key).c.hidden == c.hidden[0 := key]
  {
  }

  /** At the last slot the step raises before writing anything: the cache is left as it was. */
  lemma SaturatedStepFails(c: Buffers, ht: HiddenType, key: Slot)
    requires Inv(c) && c.size > 0 && c.pointer == c.size - 1
    ensures Step(c, ht, key) == StepFailed(c, RollUnbound)
  {
  }

  /**
   * With a "flat" key the query runs exactly when the pointer is past 0 and
   * short of the last slot; it reads keys 0 .. pointer-1, each paired with
   * the one-hot input one step later, and every index it reads is a slot.
   */
  lemma QueryReadsFollowingInput(c: Buffers, key: Slot)
    requires Inv(c) && c.size > 0
    ensures Step(c, Flat, key).QueryRaised? <==> 0 < c.pointer < c.size - 1
    ensures Step(c, Flat, key).QueryRaised? ==>
              var r := Step(c, Flat, key);
              |r.pairs| == c.pointer && r.c.hidden == c.hidden[c.pointer := key]
              && forall i :: 0 <= i < c.pointer ==> i + 1 < c.size && r.pairs[i] == (r.c.hidden[i], r.c.input[i + 1])
  {
  }

  /** With a "top" or "bottom" key the step that would query raises after writing the key and before reading any pair. */
  lemma BatchlessKeyQueryFails(c: Buffers, ht: HiddenType, key: Slot)
    requires Inv(c) && (ht == Top || ht == Bottom) && 0 < c.pointer < c.size - 1
    ensures Step(c, ht, key) == StepFailed(c.(hidden := c.hidden[c.pointer := key]), KeyNotBatched)
  {
  }

  /**
   * A cached forward loop only returns normally over an empty input or over
   * a single step taken on an empty cache: every later step raises.
   */
  lemma {:induction false} CompletedRunIsShort(c: Buffers, ht: HiddenType, hs: seq<Tensor3>,
                                               nlayers: nat, batch: nat, nhid: nat, start: nat)
    requires Inv(c) && WellShaped(hs, nlayers, batch, nhid)
    requires RunSteps(c, ht, hs, nlayers, batch, nhid, start).1 == Completed
    ensures |hs| == 0 || (|hs| == 1 && c.pointer == 0)
  {
    if hs != [] {
      var s := Step(c, ht, KeyOf(ht, hs[0], batch, nhid));
      AdvanceOnlyFromEmpty(c, ht, KeyOf(ht, hs[0], batch, nhid));
      if |hs| >= 2 {
        assert hs[1..][0] == hs[1];
        AdvanceOnlyFromEmpty(s.c, ht, KeyOf(ht, hs[1], batch, nhid));
        assert false;
      }
    }
  }

  /**
   * A forward call over two or more tokens on an empty cache writes key 0
   * and raises in step 1: at the "roll" call in a two-slot cache; otherwise,
   * for a "flat" key, after a query that read exactly one pair, the key of
   * step 0 with the one-hot row of token 1; for "top" or "bottom" before
   * reading it.
   */
  lemma {:induction false} SecondStepOnEmptyCache(
    c: Buffers, ht: HiddenType, input: seq<seq<int>>, numEmbeddings: nat,
    hs: seq<Tensor3>, nlayers: nat, batch: nat, nhid: nat)
    requires Inv(c) && c.pointer == 0 && |input| >= 2 && |input| <= c.size && ht != Unrecognised
    requires |hs| == |input| && WellShaped(hs, nlayers, batch, nhid)
    requires OneHotSteps(input, numEmbeddings).Some?
    ensures var out := Forward(c, ht, input, numEmbeddings, hs, nlayers, batch, nhid).1;
            && (c.size == 2 ==> out == Failed(RollUnbound))
            && (c.size >= 3 && ht == Flat ==>
                  out == QueryAborted(1, [(KeyOf(ht, hs[0], batch, nhid), OneHotRows(input[1], numEmbeddings).value)]))
            && (c.size >= 3 && ht != Flat ==> out == Failed(KeyNotBatched))
  {
    var rows := OneHotSteps(input, numEmbeddings).value;
    var c0 := c.(input := WriteInput(c.input, c.pointer, rows));
    assert Forward(c, ht, input, numEmbeddings, hs, nlayers, batch, nhid)
           == RunSteps(c0, ht, hs, nlayers, batch, nhid, 0);
    assert c0.input[1] == rows[1] == OneHotRows(input[1], numEmbeddings).value;
    var k0 := KeyOf(ht, hs[0], batch, nhid);
    var s := Step(c0, ht, k0);
    assert s.Advanced? && s.c.pointer == 1 && s.c.hidden[0] == k0 && s.c.input == c0.input;
    assert RunSteps(c0, ht, hs, nlayers, batch, nhid, 0) == RunSteps(s.c, ht, hs[1..], nlayers, batch, nhid, 1);
    assert hs[1..][0] == hs[1];
    var k1 := KeyOf(ht, hs[1], batch, nhid);
    var s2 := Step(s.c, ht, k1);
    if c.size >= 3 && ht == Flat {
      assert s2.QueryRaised? && s2.pairs == [(k0, rows[1])];
    }
    if s2.QueryRaised? {
      assert RunSteps(s.c, ht, hs[1..], nlayers, batch, nhid, 1).1 == QueryAborted(1, s2.pairs);
    } else {
      assert RunSteps(s.c, ht, hs[1..], nlayers, batch, nhid, 1).1 == Failed(s2.error);
    }
  }

  /** An input block that does not fit the slots after the pointer is refused before anything is written. */
  lemma OversizedInputRejected(c: Buffers, ht: HiddenType, input: seq<seq<int>>, numEmbeddings: nat,
                               hs: seq<Tensor3>, nlayers: nat, batch: nat, nhid: nat)
    requires Inv(c) && |hs| == |input| && WellShaped(hs, nlayers, batch, nhid)
    requires OneHotSteps(input, numEmbeddings).Some?
    requires |input| >= 2 && c.pointer + |input| > c.size
    ensures Forward(c, ht, input, numEmbeddings, hs, nlayers, batch, nhid) == (c, Failed(InputSliceMismatch))
  {
  }
}
