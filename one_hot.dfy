/**
 * One-hot encoding of the input tokens in the cached branch of
 * `RNNModel.forward` (model.py): a zero tensor of width `num_embeddings`
 * into which `scatter_` writes 1 at each token's index.
 */
module OneHot {
  import opened Wrappers

  /** The row for one token, or None when `scatter_` is given an index outside the row. */
  function OneHotRow(token: int, width: nat): (r: Option<seq<real>>)
    ensures r.Some? <==> 0 <= token < width
    ensures r.Some? ==> |r.value| == width
    ensures r.Some? ==> forall j :: 0 <= j < width ==> r.value[j] == (if j == token then 1.0 else 0.0)
  {
    if 0 <= token < width then Some(seq(width, _ => 0.0)[token := 1.0]) else None
  }

  /** Position of the first 1 in a row: reads a token back from its encoding. */
  function HotIndex(row: seq<real>): (r: Option<nat>)
    ensures r.Some? ==> r.value < |row| && row[r.value] == 1.0
    ensures r.Some? ==> forall j :: 0 <= j < r.value ==> row[j] != 1.0
    ensures r.None? ==> forall j :: 0 <= j < |row| ==> row[j] != 1.0
  {
    if row == [] then None
    else if row[0] == 1.0 then Some(0)
    else match HotIndex(row[1..])
      case Some(j) => Some(j + 1)
      case None => None
  }

  lemma {:induction false} HotIndexAt(row: seq<real>, t: nat)
    requires t < |row| && row[t] == 1.0
    requires forall j :: 0 <= j < t ==> row[j] != 1.0
    ensures HotIndex(row) == Some(t)
  {
    if t > 0 {
      HotIndexAt(row[1..], t - 1);
    }
  }

  /** Decoding the one-hot row of a token gives the token back. */
  lemma OneHotRoundTrip(token: int, width: nat)
    requires 0 <= token < width
    ensures HotIndex(OneHotRow(token, width).value) == Some(token)
  {
    HotIndexAt(OneHotRow(token, width).value, token);
  }

  /** The rows of one time step, one per batch entry; None if any token is out of range. */
  function OneHotRows(tokens: seq<int>, width: nat): (r: Option<seq<seq<real>>>)
    ensures r.Some? <==> forall b :: 0 <= b < |tokens| ==> 0 <= tokens[b] < width
    ensures r.Some? ==> |r.value| == |tokens|
    ensures r.Some? ==> forall b :: 0 <= b < |tokens| ==> r.value[b] == OneHotRow(tokens[b], width).value
  {
    if tokens == [] then Some([])
    else
      match (OneHotRow(tokens[0], width), OneHotRows(tokens[1..], width))
      case (Some(row), Some(rows)) => Some([row] + rows)
      case _ => None
  }

  /** The one-hot tensor (time x batch x width) of a whole input; None if any token is out of range. */
  function OneHotSteps(input: seq<seq<int>>, width: nat): (r: Option<seq<seq<seq<real>>>>)
    ensures r.Some? <==> forall t, b :: 0 <= t < |input| && 0 <= b < |input[t]| ==> 0 <= input[t][b] < width
    ensures r.Some? ==> |r.value| == |input|
    ensures r.Some? ==> forall t :: 0 <= t < |input| ==> r.value[t] == OneHotRows(input[t], width).value
  {
    if input == [] then Some([])
    else
      match (OneHotRows(input[0], width), OneHotSteps(input[1..], width))
      case (Some(step), Some(steps)) => Some([step] + steps)
      case _ => None
  }
}
