/**
 * The parts of `RNNModel` (model.py) that do not touch the cache buffers:
 * constructor validation, `init_hidden`, the width of a cache cell chosen by
 * `init_cache`/`reset_cache`, and the extraction of the cache key from the
 * recurrent state in the cached branch of `forward`.
 */
module RnnConfig {
  import opened Wrappers

  /** The recurrent cell stacks the constructor can build. */
  datatype CellKind = Lstm | Gru | RnnTanh | RnnRelu

  /** The two `ValueError`s the constructor raises. */
  datatype ConfigError = InvalidRnnType | TiedSizeMismatch

  /** The settings a successfully constructed model keeps. */
  datatype ModelConfig = ModelConfig(
    rnnType: string, cell: CellKind, ntoken: nat, ninp: nat, nhid: nat, nlayers: nat,
    dropout: real, tied: bool)

  const ValidRnnTypes: set<string> := {"LSTM", "GRU", "RNN_TANH", "RNN_RELU"}

  /** The cell for an `rnn_type` string: LSTM and GRU directly, the two plain kinds through the nonlinearity table. */
  function CellOf(rnnType: string): (cell: Option<CellKind>)
    ensures cell.Some? <==> rnnType in ValidRnnTypes
  {
    if rnnType == "LSTM" then Some(Lstm)
    else if rnnType == "GRU" then Some(Gru)
    else if rnnType == "RNN_TANH" then Some(RnnTanh)
    else if rnnType == "RNN_RELU" then Some(RnnRelu)
    else None
  }

  /**
   * `RNNModel.__init__`: the `rnn_type` is checked first, then weight tying,
   * which needs `nhid == ninp` because the decoder reuses the embedding matrix.
   */
  function NewModel(rnnType: string, ntoken: nat, ninp: nat, nhid: nat, nlayers: nat,
                    dropout: real := 0.5, tieWeights: bool := false): (r: Result<ModelConfig, ConfigError>)
    ensures r.Ok? <==> rnnType in ValidRnnTypes && (tieWeights ==> nhid == ninp)
    ensures rnnType !in ValidRnnTypes ==> r == Err(InvalidRnnType)
    ensures rnnType in ValidRnnTypes && tieWeights && nhid != ninp ==> r == Err(TiedSizeMismatch)
    ensures r.Ok? ==> r.value.rnnType == rnnType && r.value.ntoken == ntoken && r.value.ninp == ninp
                      && r.value.nhid == nhid && r.value.nlayers == nlayers && r.value.tied == tieWeights
    ensures r.Ok? ==> (r.value.cell == Lstm <==> rnnType == "LSTM")
  {
    match CellOf(rnnType)
    case None => Err(InvalidRnnType)
    case Some(cell) =>
      if tieWeights && nhid != ninp then Err(TiedSizeMismatch)
      else Ok(ModelConfig(rnnType, cell, ntoken, ninp, nhid, nlayers, dropout, tieWeights))
  }

  // ---------------------------------------------------------------------------
  // Tensors of rank three, by their contents

  type Tensor3 = seq<seq<seq<real>>>

  ghost predicate HasShape(t: Tensor3, d0: nat, d1: nat, d2: nat)
  {
    |t| == d0 && forall i :: 0 <= i < d0 ==> |t[i]| == d1 && forall j :: 0 <= j < d1 ==> |t[i][j]| == d2
  }

  ghost predicate AllZero(t: Tensor3)
  {
    forall i, j, k :: 0 <= i < |t| && 0 <= j < |t[i]| && 0 <= k < |t[i][j]| ==> t[i][j][k] == 0.0
  }

  function Zeros3(d0: nat, d1: nat, d2: nat): Tensor3
  {
    seq(d0, _ => seq(d1, _ => seq(d2, _ => 0.0)))
  }

  /** The carried recurrent state: a pair (h, c) for LSTM, a single tensor otherwise. */
  datatype HiddenState = Single(h: Tensor3) | Pair(h: Tensor3, c: Tensor3)

  /** `init_hidden`: zero state of shape (nlayers, bsz, nhid), two of them for an LSTM. */
  function InitHidden(m: ModelConfig, bsz: nat): (r: HiddenState)
    ensures r.Pair? <==> m.rnnType == "LSTM"
    ensures HasShape(r.h, m.nlayers, bsz, m.nhid) && AllZero(r.h)
    ensures r.Pair? ==> HasShape(r.c, m.nlayers, bsz, m.nhid) && AllZero(r.c)
  {
    if m.rnnType == "LSTM" then Pair(Zeros3(m.nlayers, bsz, m.nhid), Zeros3(m.nlayers, bsz, m.nhid))
    else Single(Zeros3(m.nlayers, bsz, m.nhid))
  }

  // ---------------------------------------------------------------------------
  // Cache cells

  /** `cache_hidden_type`: which layers of the hidden state form a cache key. */
  datatype HiddenType = Top | Bottom | Flat | Unrecognised

  function ParseHiddenType(name: string): HiddenType
  {
    if name == "top" then Top
    else if name == "bottom" then Bottom
    else if name == "flat" then Flat
    else Unrecognised
  }

  /** Width of one batch row of a `hidden_cache` slot: all layers for "flat", one layer for any other name. */
  function CacheCellWidth(hiddenTypeName: string, nhid: nat, nlayers: nat): (w: nat)
    ensures ParseHiddenType(hiddenTypeName) == Flat ==> w == nhid * nlayers
    ensures ParseHiddenType(hiddenTypeName) != Flat ==> w == nhid
  {
    if hiddenTypeName == "flat" then nhid * nlayers else nhid
  }

  /** All layers of batch entry `b`, concatenated along the feature axis. */
  function LayersOf(h: Tensor3, b: nat, width: nat): (r: seq<real>)
    requires forall l :: 0 <= l < |h| ==> b < |h[l]| && |h[l][b]| == width
    ensures |r| == |h| * width
  {
    if h == [] then []
    else
      var rest := LayersOf(h[1..], b, width);
      ShiftProduct(|h|, width);
      h[0][b] + rest
  }

  /**
   * The "flat" key as evidently intended: batch row `b` holds every layer's
   * hidden vector for batch entry `b`. The model uses this in place of the
   * reshape the source performs; see FlatViewAsWritten.
   */
  function FlatConcat(h: Tensor3, batch: nat, nhid: nat): (r: seq<seq<real>>)
    requires HasShape(h, |h|, batch, nhid)
    ensures |r| == batch && forall b :: 0 <= b < batch ==> |r[b]| == |h| * nhid
  {
    seq(batch, b requires 0 <= b < batch => LayersOf(h, b, nhid))
  }

  lemma ShiftProduct(a: int, w: int)
    ensures a * w == (a - 1) * w + w
  {
  }

  lemma {:induction false} LayersOfAt(h: Tensor3, b: nat, width: nat, l: nat, k: nat)
    requires forall i :: 0 <= i < |h| ==> b < |h[i]| && |h[i][b]| == width
    requires l < |h| && k < width
    ensures l * width + k < |LayersOf(h, b, width)|
    ensures LayersOf(h, b, width)[l * width + k] == h[l][b][k]
  {
    var rest := LayersOf(h[1..], b, width);
    assert LayersOf(h, b, width) == h[0][b] + rest;
    ShiftProduct(|h|, width);
    if l == 0 {
      assert l * width == 0;
    } else {
      LayersOfAt(h[1..], b, width, l - 1, k);
      ShiftProduct(l, width);
    }
  }

  /** Entry k of layer l of batch entry b sits at column l * nhid + k of row b. */
  lemma FlatConcatAt(h: Tensor3, batch: nat, nhid: nat, b: nat, l: nat, k: nat)
    requires HasShape(h, |h|, batch, nhid)
    requires b < batch && l < |h| && k < nhid
    ensures l * nhid + k < |h| * nhid
    ensures FlatConcat(h, batch, nhid)[b][l * nhid + k] == h[l][b][k]
  {
    var row := LayersOf(h, b, nhid);
    assert FlatConcat(h, batch, nhid)[b] == row;
    LayersOfAt(h, b, nhid, l, k);
  }

  /** Row-major flattening of a sequence of rows. */
  function Concat(rows: seq<seq<real>>): seq<real>
  {
    if rows == [] then [] else rows[0] + Concat(rows[1..])
  }

  /** Consecutive pieces of length `width` (the last may be shorter). */
  function Chunks(flat: seq<real>, width: nat): seq<seq<real>>
    requires width > 0
    decreases |flat|
  {
    if |flat| <= width then (if flat == [] then [] else [flat])
    else [flat[..width]] + Chunks(flat[width..], width)
  }

  /**
   * The "flat" key as the source computes it: `hidden[0].view(batch, -1)`
   * reinterprets the (nlayers, batch, nhid) memory, layer after layer, as
   * `batch` rows, without moving the batch axis first.
   */
  function FlatViewAsWritten(h: Tensor3, batch: nat, nhid: nat): seq<seq<real>>
    requires HasShape(h, |h|, batch, nhid) && batch > 0 && |h| * nhid > 0
  {
    Chunks(Concat(seq(|h|, l requires 0 <= l < |h| => Concat(h[l]))), |h| * nhid)
  }

  lemma MulNonneg(a: int, b: int)
    requires a >= 0 && b >= 0
    ensures a * b >= 0
  {
  }

  lemma {:induction false} ConcatLength(rows: seq<seq<real>>, w: nat)
    requires forall r :: 0 <= r < |rows| ==> |rows[r]| == w
    ensures |Concat(rows)| == |rows| * w
  {
    if rows != [] {
      ConcatLength(rows[1..], w);
      ShiftProduct(|rows|, w);
    }
  }

  /** In the flattening of rows of equal width w, entry k of row i sits at i * w + k. */
  lemma {:induction false} ConcatAt(rows: seq<seq<real>>, w: nat, i: nat, k: nat)
    requires forall r :: 0 <= r < |rows| ==> |rows[r]| == w
    requires i < |rows| && k < w
    ensures |Concat(rows)| == |rows| * w
    ensures i * w + k < |Concat(rows)| && Concat(rows)[i * w + k] == rows[i][k]
  {
    ConcatLength(rows, w);
    if i == 0 {
      assert i * w == 0;
    } else {
      ConcatAt(rows[1..], w, i - 1, k);
      ShiftProduct(i, w);
    }
  }

  /** Cutting n * width entries into pieces of `width`: n pieces, piece q holding entries q * width onwards. */
  lemma {:induction false} ChunksAt(flat: seq<real>, width: nat, n: nat, q: nat, j: nat)
    requires width > 0 && |flat| == n * width && q < n && j < width
    ensures |Chunks(flat, width)| == n && |Chunks(flat, width)[q]| == width
    ensures q * width + j < |flat| && Chunks(flat, width)[q][j] == flat[q * width + j]
  {
    ShiftProduct(n, width);
    if n == 1 {
      assert q * width == 0;
    } else {
      ShiftProduct(n - 1, width);
      MulNonneg(n - 2, width);
      if q == 0 {
        ChunksAt(flat[width..], width, n - 1, 0, 0);
        assert q * width == 0;
      } else {
        ChunksAt(flat[width..], width, n - 1, q - 1, j);
        ShiftProduct(q, width);
      }
    }
  }

  /**
   * The layout of the source's "flat" key: the state is read in memory
   * order (layer, batch entry, feature) and cut into `batch` rows of
   * nlayers * nhid entries, so column j of row q holds the entry at memory
   * position q * (nlayers * nhid) + j.
   */
  lemma FlatViewAsWrittenAt(h: Tensor3, batch: nat, nhid: nat, q: nat, j: nat, l: nat, b: nat, k: nat)
    requires HasShape(h, |h|, batch, nhid) && batch > 0 && |h| * nhid > 0
    requires q < batch && j < |h| * nhid && l < |h| && b < batch && k < nhid
    requires q * (|h| * nhid) + j == l * (batch * nhid) + b * nhid + k
    ensures |FlatViewAsWritten(h, batch, nhid)| == batch
    ensures j < |FlatViewAsWritten(h, batch, nhid)[q]| && FlatViewAsWritten(h, batch, nhid)[q][j] == h[l][b][k]
  {
    var layers := seq(|h|, i requires 0 <= i < |h| => Concat(h[i]));
    var flat := Concat(layers);
    var width := |h| * nhid;
    var block := batch * nhid;
    assert FlatViewAsWritten(h, batch, nhid) == Chunks(flat, width);
    forall i | 0 <= i < |h|
      ensures |layers[i]| == block
    {
      ConcatLength(h[i], nhid);
    }
    ConcatLength(layers, block);
    ProductSwap(|h|, batch, nhid);
    ChunksAt(flat, width, batch, q, j);
    ConcatAt(h[l], nhid, b, k);
    ConcatAt(layers, block, l, b * nhid + k);
  }

  lemma ProductSwap(a: int, b: int, c: int)
    ensures a * (b * c) == b * (a * c)
  {
  }

  /** With two layers and two batch entries the source's row 0 mixes the two batch entries. */
  lemma FlatViewMixesBatches()
    ensures var h: Tensor3 := [[[1.0], [2.0]], [[3.0], [4.0]]];
            FlatViewAsWritten(h, 2, 1) == [[1.0, 2.0], [3.0, 4.0]]
            && FlatConcat(h, 2, 1) == [[1.0, 3.0], [2.0, 4.0]]
            && FlatViewAsWritten(h, 2, 1) != FlatConcat(h, 2, 1)
  {
    var h: Tensor3 := [[[1.0], [2.0]], [[3.0], [4.0]]];
    var layers := seq(|h|, l requires 0 <= l < |h| => Concat(h[l]));
    assert Concat(h[0]) == [1.0, 2.0] by {
      assert h[0][1..] == [[2.0]];
      assert Concat([[2.0]]) == [2.0];
    }
    assert Concat(h[1]) == [3.0, 4.0] by {
      assert h[1][1..] == [[4.0]];
      assert Concat([[4.0]]) == [4.0];
    }
    assert layers == [[1.0, 2.0], [3.0, 4.0]];
    assert Concat(layers) == [1.0, 2.0, 3.0, 4.0] by {
      assert layers[1..] == [[3.0, 4.0]];
      assert Concat([[3.0, 4.0]]) == [3.0, 4.0];
    }
    var flat := [1.0, 2.0, 3.0, 4.0];
    assert flat[..2] == [1.0, 2.0];
    assert flat[2..] == [3.0, 4.0];
    assert Chunks(flat, 2) == [[1.0, 2.0], [3.0, 4.0]];
    assert LayersOf(h, 0, 1) == [1.0, 3.0] by {
      assert h[1..] == [[[3.0], [4.0]]];
      assert h[1..][1..] == [];
    }
    assert LayersOf(h, 1, 1) == [2.0, 4.0] by {
      assert h[1..] == [[[3.0], [4.0]]];
      assert h[1..][1..] == [];
    }
    assert FlatConcat(h, 2, 1)[0] == [1.0, 3.0];
  }

  /**
   * The cache key `forward` writes into `hidden_cache[cache_pointer]`, taken
   * from the LSTM output state h of shape (nlayers, batch, nhid); None for a
   * `cache_hidden_type` the three branches do not recognise (nothing is written).
   */
  function ExtractFeature(ht: HiddenType, h: Tensor3, batch: nat, nhid: nat): (r: Option<seq<seq<real>>>)
    requires |h| > 0 && HasShape(h, |h|, batch, nhid)
    ensures r.Some? <==> ht != Unrecognised
    ensures ht == Top ==> r == Some(h[|h| - 1])
    ensures ht == Bottom ==> r == Some(h[0])
    ensures ht == Flat ==> r == Some(FlatConcat(h, batch, nhid))
  {
    match ht
    case Top => Some(h[|h| - 1])
    case Bottom => Some(h[0])
    case Flat => Some(FlatConcat(h, batch, nhid))
    case Unrecognised => None
  }

  /** The key written for a recognised `cache_hidden_type` has the cell width that `init_cache` chose for that name. */
  lemma FeatureFitsCell(name: string, h: Tensor3, batch: nat, nhid: nat)
    requires |h| > 0 && HasShape(h, |h|, batch, nhid)
    requires ParseHiddenType(name) != Unrecognised
    ensures var f := ExtractFeature(ParseHiddenType(name), h, batch, nhid).value;
            |f| == batch && forall b :: 0 <= b < batch ==> |f[b]| == CacheCellWidth(name, nhid, |h|)
  {
    if name == "flat" {
      assert |h| * nhid == nhid * |h|;
    }
  }
}
