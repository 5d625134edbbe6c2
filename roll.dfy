/**
 * `RNNModel.roll` (model.py): rotation of a tensor along one axis, built from
 * two `narrow` slices and a `cat`. A tensor is seen here as the sequence of
 * its slices along the rolled axis.
 */
module TensorRoll {
  import opened Wrappers

  /** The rotated sequence, or None where one of the two `narrow` calls is out of range. */
  function Roll<T>(s: seq<T>, shift: int): (r: Option<seq<T>>)
    ensures r.Some? <==> -|s| <= shift <= |s|
    ensures r.Some? ==> |r.value| == |s|
    ensures shift == 0 ==> r == Some(s)
  {
    if shift == 0 then Some(s)
    else
      var n := |s|;
      // for a negative shift the source recomputes both the start of the
      // second slice and the shift itself
      var afterStart := if shift < 0 then -shift else n - shift;
      var k := if shift < 0 then n - (-shift) else shift;
      if k < 0 || n - k < 0 || afterStart < 0 || afterStart + k > n then None
      else
        var before := s[..n - k];
        var after := s[afterStart..afterStart + k];
        Some(after + before)
  }

  /** A positive shift is a right rotation: the last `shift` slices move to the front. */
  lemma RollRight<T>(s: seq<T>, shift: int)
    requires 0 < shift <= |s|
    ensures Roll(s, shift) == Some(s[|s| - shift..] + s[..|s| - shift])
  {
    assert s[|s| - shift..|s| - shift + shift] == s[|s| - shift..];
  }

  /** A negative shift is a left rotation by its magnitude. */
  lemma RollLeft<T>(s: seq<T>, shift: int)
    requires -|s| <= shift < 0
    ensures Roll(s, shift) == Some(s[-shift..] + s[..-shift])
  {
    var m := -shift;
    assert |s| - (|s| - m) == m;
    assert s[m..m + (|s| - m)] == s[m..];
  }

  /** Euclidean remainder of a value at most one period away from [0, n). */
  lemma WrapOnce(x: int, n: int)
    requires n > 0 && -n <= x < 2 * n
    ensures x % n == (if x < 0 then x + n else if x < n then x else x - n)
  {
    if x < 0 {
      assert x == (-1) * n + (x + n);
    } else if x >= n {
      assert x == 1 * n + (x - n);
    }
  }

  /** Every slice moves forward by `shift` positions, wrapping around the axis. */
  lemma RollMoves<T>(s: seq<T>, shift: int, i: int)
    requires -|s| <= shift <= |s|
    requires 0 <= i < |s|
    ensures Roll(s, shift).value[(i + shift) % |s|] == s[i]
  {
    var n := |s|;
    WrapOnce(i + shift, n);
    if shift == 0 {
    } else if shift > 0 {
      RollRight(s, shift);
      var r := s[n - shift..] + s[..n - shift];
      if i + shift < n {
        assert r[i + shift] == s[..n - shift][i];
      } else {
        assert r[i + shift - n] == s[n - shift..][i - (n - shift)];
      }
    } else {
      RollLeft(s, shift);
      var m := -shift;
      var r := s[m..] + s[..m];
      if i >= m {
        assert r[i - m] == s[m..][i - m];
      } else {
        assert r[i - m + n] == s[..m][i];
      }
    }
  }

  /** Rolling back by the opposite shift restores the original sequence. */
  lemma RollUndo<T>(s: seq<T>, shift: int)
    requires -|s| <= shift <= |s|
    ensures Roll(Roll(s, shift).value, -shift) == Some(s)
  {
    var n := |s|;
    if shift > 0 {
      RollRight(s, shift);
      var r := Roll(s, shift).value;
      RollLeft(r, -shift);
      assert r[shift..] == s[..n - shift];
      assert r[..shift] == s[n - shift..];
      assert s[..n - shift] + s[n - shift..] == s;
    } else if shift < 0 {
      RollLeft(s, shift);
      var r := Roll(s, shift).value;
      RollRight(r, -shift);
      assert r[n + shift..] == s[..-shift];
      assert r[..n + shift] == s[-shift..];
      assert s[..-shift] + s[-shift..] == s;
    }
  }
}
