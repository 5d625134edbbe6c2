/**
 * The cache state of `RNNModel` (model.py) as an object: `init_cache`,
 * `reset_cache` and the cached branch of `forward` update its fields and the
 * two buffers in place. Each method is proved against the functions of
 * NeuralCache.
 */
module RnnModel {
  import opened Wrappers
  import opened TensorRoll
  import opened OneHot
  import opened RnnConfig
  import opened NeuralCache

  /** `roll` on a buffer: shift 0 hands back the same buffer, any other shift builds a new one. */
  method RollBuffer(a: array<Slot>, shift: int) returns (r: Option<array<Slot>>)
    ensures r.Some? <==> -a.Length <= shift <= a.Length
    ensures shift == 0 ==> r == Some(a)
    ensures r.Some? && shift != 0 ==> fresh(r.value) && r.value[..] == Roll(a[..], shift).value
  {
    if shift == 0 {
      return Some(a);
    }
    var rolled := Roll(a[..], shift);
    if rolled.None? {
      return None;
    }
    var b := new Slot[a.Length](i requires 0 <= i < a.Length => rolled.value[i]);
    return Some(b);
  }

  class Model {
    const config: ModelConfig

    var useCache: bool
    var cacheSize: nat
    var cacheTheta: real
    var cacheLambda: real
    var cachePointer: nat
    var cacheHiddenType: string
    /** Batch size and row widths of the slots, as allocated by `init_cache` / `reset_cache`. */
    var cacheBatch: nat
    var cellWidth: nat
    var hiddenCache: array<Slot>
    var inputCache: array<Slot>

    ghost predicate Valid()
      reads this
    {
      && hiddenCache.Length == cacheSize
      && inputCache.Length == cacheSize
      && hiddenCache != inputCache
      && (cachePointer < cacheSize || (cacheSize == 0 && cachePointer <= 1))
    }

    /** The cache as a value: size, pointer and the contents of both buffers. */
    ghost function Snapshot(): (c: Buffers)
      reads this, hiddenCache, inputCache
      requires Valid()
      ensures Inv(c)
    {
      Buffers(cacheSize, cachePointer, hiddenCache[..], inputCache[..])
    }

    /** A model built from a validated configuration; the cache is off until `init_cache`. */
    constructor (m: ModelConfig)
      ensures Valid() && config == m && !useCache && cacheSize == 0
    {
      config := m;
      useCache := false;
      cacheSize := 0;
      cacheTheta := 0.0;
      cacheLambda := 0.0;
      cachePointer := 0;
      cacheHiddenType := "";
      cacheBatch := 0;
      cellWidth := 0;
      hiddenCache := new Slot[0];
      inputCache := new Slot[0];
    }

    /**
     * `init_cache`: switch the cache on, record its settings, set the pointer
     * to 0 and allocate both buffers; their contents are not initialised.
     */
    method InitCache(size: nat := 2000, theta: real := 0.3, lambda: real := 0.1, batch: nat := 10,
                     hiddenTypeName: string := "flat")
      modifies this
      ensures Valid()
      ensures useCache && cacheSize == size && cacheTheta == theta && cacheLambda == lambda
      ensures cachePointer == 0 && cacheHiddenType == hiddenTypeName && cacheBatch == batch
      ensures cellWidth == (if hiddenTypeName == "flat" then config.nhid * config.nlayers else config.nhid)
      ensures fresh(hiddenCache) && fresh(inputCache)
    {
      useCache := true;
      cacheSize := size;
      cacheTheta := theta;
      cacheLambda := lambda;
      cachePointer := 0;
      cacheHiddenType := hiddenTypeName;
      cacheBatch := batch;
      cellWidth := CacheCellWidth(hiddenTypeName, config.nhid, config.nlayers);
      hiddenCache := new Slot[size];
      inputCache := new Slot[size];
    }

    /**
     * `reset_cache`: drop every entry by reallocating both buffers for a new
     * batch size; the pointer returns to 0 and the other settings stay.
     * Before any `init_cache` the hidden type is not yet an attribute: the
     * pointer is set to 0 and the call raises (`ok` is false), changing
     * nothing else.
     */
    method ResetCache(batch: nat := 1) returns (ok: bool)
      requires Valid()
      modifies this
      ensures Valid() && useCache == old(useCache) && ok == old(useCache)
      ensures cacheSize == old(cacheSize) && cacheTheta == old(cacheTheta) && cacheLambda == old(cacheLambda)
      ensures cacheHiddenType == old(cacheHiddenType) && cachePointer == 0
      ensures !ok ==> cacheBatch == old(cacheBatch) && cellWidth == old(cellWidth)
                      && hiddenCache == old(hiddenCache) && inputCache == old(inputCache)
      ensures ok ==> cacheBatch == batch && fresh(hiddenCache) && fresh(inputCache)
      ensures ok ==> cellWidth == (if cacheHiddenType == "flat" then config.nhid * config.nlayers else config.nhid)
    {
      cachePointer := 0;
      if !useCache {
        return false;
      }
      cacheBatch := batch;
      cellWidth := CacheCellWidth(cacheHiddenType, config.nhid, config.nlayers);
      hiddenCache := new Slot[cacheSize];
      inputCache := new Slot[cacheSize];
      return true;
    }

    /**
     * The query loop `for i in range(cache_pointer)`: key i is read together
     * with the one-hot input of the following step.
     */
    method QueryCache() returns (pairs: seq<(Slot, Slot)>)
      requires Valid() && cachePointer < cacheSize
      ensures |pairs| == cachePointer
      ensures forall i :: 0 <= i < cachePointer ==> pairs[i] == (hiddenCache[i], inputCache[i + 1])
    {
      pairs := [];
      var i := 0;
      while i < cachePointer
        invariant 0 <= i <= cachePointer
        invariant |pairs| == i
        invariant forall j :: 0 <= j < i ==> pairs[j] == (hiddenCache[j], inputCache[j + 1])
      {
        pairs := pairs + [(hiddenCache[i], inputCache[i + 1])];
        i := i + 1;
      }
    }

    /**
     * One iteration of the `for seqix` loop on the cache: raise at the
     * "roll the cache" call when saturated, write the key, then query (which
     * raises) or advance the pointer. None means the loop goes on to the
     * next step.
     */
    method CacheStep(ht: HiddenType, key: Slot, seqix: nat) returns (stop: Option<Outcome>)
      requires Valid()
      modifies this, hiddenCache
      ensures Valid()
      ensures hiddenCache == old(hiddenCache) && inputCache == old(inputCache)
      ensures cacheSize == old(cacheSize) && useCache == old(useCache) && cacheHiddenType == old(cacheHiddenType)
      ensures cacheBatch == old(cacheBatch) && cellWidth == old(cellWidth)
      ensures cacheTheta == old(cacheTheta) && cacheLambda == old(cacheLambda)
      ensures Snapshot() == Step(old(Snapshot()), ht, key).c
      ensures match Step(old(Snapshot()), ht, key)
              case Advanced(_) => stop == None
              case QueryRaised(_, pairs) => stop == Some(QueryAborted(seqix, pairs))
              case StepFailed(_, e) => stop == Some(Failed(e))
    {
      ghost var step := Step(Snapshot(), ht, key);
      if cachePointer == cacheSize - 1 {
        // `roll` is a member of the class, not a global name
        return Some(Failed(RollUnbound));
      }
      if ht != Unrecognised {
        if cachePointer >= cacheSize {
          return Some(Failed(SlotOutOfRange));
        }
        hiddenCache[cachePointer] := key;
      }
      if cachePointer > 0 {
        if cacheSize == 0 {
          return Some(Failed(SlotOutOfRange));
        } else if ht == Unrecognised {
          return Some(Failed(KeyUnbound));
        } else if ht != Flat {
          return Some(Failed(KeyNotBatched));
        }
        assert Snapshot() == step.c;
        var pairs := QueryCache();
        assert forall i :: 0 <= i < |pairs| ==> pairs[i] == QueryPairs(step.c)[i];
        assert pairs == QueryPairs(step.c);
        return Some(QueryAborted(seqix, pairs));
      }
      if cachePointer != cacheSize - 1 {
        cachePointer := cachePointer + 1;
      }
      return None;
    }

    /** `input_cache[p:p+len] = input_1hot`, for a block that fits. */
    method StoreInputs(rows: seq<Slot>)
      requires Valid() && InputFits(cachePointer, |rows|, cacheSize)
      modifies inputCache
      ensures Valid()
      ensures Snapshot() == old(Snapshot()).(input := WriteInput(old(inputCache[..]), cachePointer, rows))
    {
      if cachePointer + |rows| <= cacheSize {
        forall j | cachePointer <= j < cachePointer + |rows| {
          inputCache[j] := rows[j - cachePointer];
        }
      }
    }

    /**
     * `forward`. With the cache off the network runs in one batched pass and
     * nothing here changes. With the cache on, `hs[t]` is the LSTM output
     * state after step t and the cache evolves as NeuralCache.Forward says.
     */
    method Forward(input: seq<seq<int>>, hs: seq<Tensor3>) returns (outcome: Outcome)
      requires Valid()
      requires useCache ==> config.cell == Lstm && |hs| == |input| && WellShaped(hs, config.nlayers, cacheBatch, config.nhid)
      modifies this, hiddenCache, inputCache
      ensures Valid()
      ensures hiddenCache == old(hiddenCache) && inputCache == old(inputCache)
      ensures cacheSize == old(cacheSize) && useCache == old(useCache) && cacheHiddenType == old(cacheHiddenType)
      ensures cacheBatch == old(cacheBatch) && cellWidth == old(cellWidth)
      ensures cacheTheta == old(cacheTheta) && cacheLambda == old(cacheLambda)
      ensures !old(useCache) ==> outcome == Completed && Snapshot() == old(Snapshot())
      ensures old(useCache) ==>
                (Snapshot(), outcome)
                == NeuralCache.Forward(old(Snapshot()), ParseHiddenType(cacheHiddenType), input, config.ntoken,
                                       hs, config.nlayers, cacheBatch, config.nhid)
    {
      if !useCache {
        return Completed;
      }
      var ht := ParseHiddenType(cacheHiddenType);
      var onehot := OneHotSteps(input, config.ntoken);
      if onehot.None? {
        return Failed(TokenOutOfRange);
      }
      if !InputFits(cachePointer, |input|, cacheSize) {
        return Failed(InputSliceMismatch);
      }
      StoreInputs(onehot.value);
      ghost var start := Snapshot();

      var seqix := 0;
      while seqix < |input|
        invariant 0 <= seqix <= |input|
        invariant Valid()
        invariant hiddenCache == old(hiddenCache) && inputCache == old(inputCache)
        invariant cacheSize == old(cacheSize) && useCache && cacheHiddenType == old(cacheHiddenType)
        invariant cacheBatch == old(cacheBatch) && cellWidth == old(cellWidth)
        invariant cacheTheta == old(cacheTheta) && cacheLambda == old(cacheLambda)
        invariant RunSteps(Snapshot(), ht, hs[seqix..], config.nlayers, cacheBatch, config.nhid, seqix)
                  == RunSteps(start, ht, hs, config.nlayers, cacheBatch, config.nhid, 0)
      {
        assert hs[seqix..][0] == hs[seqix];
        assert hs[seqix..][1..] == hs[seqix + 1..];
        var key := KeyOf(ht, hs[seqix], cacheBatch, config.nhid);
        var stop := CacheStep(ht, key, seqix);
        if stop.Some? {
          return stop.value;
        }
        seqix := seqix + 1;
      }
      return Completed;
    }
  }
}
