/**
 * `harmonize_rows` (scripts/harmonize.py): greedy alignment of the model's
 * surprisal rows `d` with the human reading-time rows `ref`. Both lists are
 * consumed from the front; a row pair is emitted when their words agree.
 */
module Harmonize {
  import opened Wrappers

  /** A table row as a tuple of fields; field 0 is the word. */
  type Row = seq<string>

  /** `pop(0)` on an exhausted list, or a row without a first field. */
  datatype AlignError = PopFromEmpty | EmptyRow

  /** Python's `part in s` on strings. */
  predicate Contains(s: string, part: string)
    decreases |s|
  {
    |part| <= |s| && (s[..|part|] == part || Contains(s[1..], part))
  }

  predicate IsLetter(ch: char)
  {
    'a' <= ch <= 'z' || 'A' <= ch <= 'Z'
  }

  /** Python's `str.isalpha`: non-empty and letters only. */
  predicate IsAlpha(s: string)
  {
    |s| > 0 && forall i :: 0 <= i < |s| ==> IsLetter(s[i])
  }

  /** What one iteration does with the current surprisal word and reference word. */
  datatype Action =
    | Emit            // words agree: emit the joined row, advance both
    | SkipBoth        // an unknown, punctuation or end-of-line token: advance both
    | SkipSurprisal   // otherwise: advance the surprisal stream only

  function Classify(dWord: string, refWord: string): (a: Action)
    ensures a == Emit <==> dWord == refWord
    ensures a == SkipBoth <==>
              dWord != refWord && (Contains(dWord, "unk") || !IsAlpha(refWord) || Contains(refWord, "eol"))
  {
    if dWord == refWord then Emit
    else if Contains(dWord, "unk") then SkipBoth
    else if !IsAlpha(refWord) then SkipBoth
    else if Contains(refWord, "eol") then SkipBoth
    else SkipSurprisal
  }

  /** The matched (surprisal row, reference row) pairs, and what is left of both lists. */
  datatype Aligned = Aligned(pairs: seq<(Row, Row)>, dLeft: seq<Row>, refLeft: seq<Row>)

  /** Earlier pairs in front of a later result; errors pass through. */
  function Prepend(done: seq<(Row, Row)>, r: Result<Aligned, AlignError>): (r': Result<Aligned, AlignError>)
    ensures r'.Ok? <==> r.Ok?
    ensures r.Err? ==> r' == r
  {
    match r
    case Ok(a) => Ok(a.(pairs := done + a.pairs))
    case Err(e) => Err(e)
  }

  lemma PrependNothing(r: Result<Aligned, AlignError>)
    ensures Prepend([], r) == r
  {
    if r.Ok? {
      assert [] + r.value.pairs == r.value.pairs;
    }
  }

  lemma PrependTwice(done: seq<(Row, Row)>, more: seq<(Row, Row)>, r: Result<Aligned, AlignError>)
    ensures Prepend(done, Prepend(more, r)) == Prepend(done + more, r)
  {
    if r.Ok? {
      assert done + (more + r.value.pairs) == (done + more) + r.value.pairs;
    }
  }

  /**
   * The `while len(d) > 10` loop from the current rows `currD`, `currRef` and
   * the rest of both lists. It runs until 10 surprisal rows are left and can
   * only raise while it runs.
   */
  function AlignFrom(currD: Row, currRef: Row, d: seq<Row>, ref: seq<Row>): (r: Result<Aligned, AlignError>)
    ensures |d| <= 10 ==> r == Ok(Aligned([], d, ref))
    ensures r.Ok? && |d| > 10 ==> |r.value.dLeft| == 10
    ensures r.Err? ==> |d| > 10
    decreases |d|
  {
    if |d| <= 10 then Ok(Aligned([], d, ref))
    else if currD == [] || currRef == [] then Err(EmptyRow)
    else
      match Classify(currD[0], currRef[0])
      case SkipSurprisal => AlignFrom(d[0], currRef, d[1..], ref)
      case Emit =>
        if ref == [] then Err(PopFromEmpty)
        else Prepend([(currD, currRef)], AlignFrom(d[0], ref[0], d[1..], ref[1..]))
      case SkipBoth =>
        if ref == [] then Err(PopFromEmpty)
        else AlignFrom(d[0], ref[0], d[1..], ref[1..])
  }

  /**
   * `harmonize_rows(ref, d)`: pop the first row of each list, then run the
   * loop. Either list empty raises at once; on success the surprisal list
   * is down to its last 10 rows (or all but its first, if shorter).
   */
  function HarmonizeRows(ref: seq<Row>, d: seq<Row>): (r: Result<Aligned, AlignError>)
    ensures d == [] || ref == [] ==> r == Err(PopFromEmpty)
    ensures r.Ok? ==> |r.value.dLeft| == (if |d| <= 11 then |d| - 1 else 10)
  {
    if d == [] || ref == [] then Err(PopFromEmpty)
    else AlignFrom(d[0], ref[0], d[1..], ref[1..])
  }

  /** The rows `result` holds: each pair joined as `curr_d + curr_ref`. */
  function Joined(pairs: seq<(Row, Row)>): (rows: seq<Row>)
    ensures |rows| == |pairs|
  {
    if pairs == [] then [] else [pairs[0].0 + pairs[0].1] + Joined(pairs[1..])
  }

  lemma JoinedAppend(pairs: seq<(Row, Row)>, p: (Row, Row))
    ensures Joined(pairs + [p]) == Joined(pairs) + [p.0 + p.1]
  {
    if pairs != [] {
      assert (pairs + [p])[1..] == pairs[1..] + [p];
    }
  }

  /**
   * The loop as the script runs it, popping from the front of both lists.
   * Also returns what is left of the caller's lists, which `pop` shortens in place.
   */
  method HarmonizeRowsLoop(ref: seq<Row>, d: seq<Row>) returns (result: Result<seq<Row>, AlignError>,
                                                                 refRest: seq<Row>, dRest: seq<Row>)
    ensures match HarmonizeRows(ref, d)
            case Ok(a) => result == Ok(Joined(a.pairs)) && dRest == a.dLeft && refRest == a.refLeft
            case Err(e) => result == Err(e)
  {
    dRest, refRest := d, ref;
    if dRest == [] {
      return Err(PopFromEmpty), refRest, dRest;
    }
    var currD := dRest[0];
    dRest := dRest[1..];
    if refRest == [] {
      return Err(PopFromEmpty), refRest, dRest;
    }
    var currRef := refRest[0];
    refRest := refRest[1..];

    var rows: seq<Row> := [];
    ghost var done: seq<(Row, Row)> := [];
    PrependNothing(HarmonizeRows(ref, d));
    while |dRest| > 10
      invariant rows == Joined(done)
      invariant Prepend(done, AlignFrom(currD, currRef, dRest, refRest)) == HarmonizeRows(ref, d)
      decreases |dRest|
    {
      if currD == [] || currRef == [] {
        return Err(EmptyRow), refRest, dRest;
      }
      if currD[0] == currRef[0] {
        JoinedAppend(done, (currD, currRef));
        if refRest != [] {
          PrependTwice(done, [(currD, currRef)], AlignFrom(dRest[0], refRest[0], dRest[1..], refRest[1..]));
        }
        rows := rows + [currD + currRef];
        done := done + [(currD, currRef)];
        currD := dRest[0];
        dRest := dRest[1..];
        if refRest == [] {
          return Err(PopFromEmpty), refRest, dRest;
        }
        currRef := refRest[0];
        refRest := refRest[1..];
      } else if Contains(currD[0], "unk") {
        currD := dRest[0];
        dRest := dRest[1..];
        if refRest == [] {
          return Err(PopFromEmpty), refRest, dRest;
        }
        currRef := refRest[0];
        refRest := refRest[1..];
      } else if !IsAlpha(currRef[0]) || Contains(currRef[0], "eol") {
        if refRest == [] {
          return Err(PopFromEmpty), refRest, dRest;
        }
        currRef := refRest[0];
        refRest := refRest[1..];
        currD := dRest[0];
        dRest := dRest[1..];
      } else {
        currD := dRest[0];
        dRest := dRest[1..];
      }
    }
    assert done + [] == done;
    return Ok(rows), refRest, dRest;
  }

  // ---------------------------------------------------------------------------
  // Properties

  function Firsts(pairs: seq<(Row, Row)>): (r: seq<Row>)
    ensures |r| == |pairs|
  {
    seq(|pairs|, k requires 0 <= k < |pairs| => pairs[k].0)
  }

  function Seconds(pairs: seq<(Row, Row)>): (r: seq<Row>)
    ensures |r| == |pairs|
  {
    seq(|pairs|, k requires 0 <= k < |pairs| => pairs[k].1)
  }

  /** `xs` can be obtained from `ys` by deleting elements. */
  predicate Subsequence<T(==)>(xs: seq<T>, ys: seq<T>)
    decreases |ys|
  {
    xs == [] || (ys != [] && ((xs[0] == ys[0] && Subsequence(xs[1..], ys[1..])) || Subsequence(xs, ys[1..])))
  }

  /** Every emitted pair agrees on the word, so every joined row is `curr_d + curr_ref` with `curr_d[0] == curr_ref[0]`. */
  lemma {:induction false} PairsAgreeOnWord(currD: Row, currRef: Row, d: seq<Row>, ref: seq<Row>)
    requires AlignFrom(currD, currRef, d, ref).Ok?
    ensures var ps := AlignFrom(currD, currRef, d, ref).value.pairs;
            forall k :: 0 <= k < |ps| ==> ps[k].0 != [] && ps[k].1 != [] && ps[k].0[0] == ps[k].1[0]
    decreases |d|
  {
    if |d| > 10 {
      match Classify(currD[0], currRef[0])
      case SkipSurprisal => PairsAgreeOnWord(d[0], currRef, d[1..], ref);
      case Emit => PairsAgreeOnWord(d[0], ref[0], d[1..], ref[1..]);
      case SkipBoth => PairsAgreeOnWord(d[0], ref[0], d[1..], ref[1..]);
    }
  }

  /** The pairs keep stream order: their surprisal rows and reference rows are subsequences of the two inputs. */
  lemma {:induction false} PairsKeepStreamOrder(currD: Row, currRef: Row, d: seq<Row>, ref: seq<Row>)
    requires AlignFrom(currD, currRef, d, ref).Ok?
    ensures var ps := AlignFrom(currD, currRef, d, ref).value.pairs;
            Subsequence(Firsts(ps), [currD] + d) && Subsequence(Seconds(ps), [currRef] + ref)
    decreases |d|
  {
    var ps := AlignFrom(currD, currRef, d, ref).value.pairs;
    if |d| <= 10 {
      assert Firsts(ps) == [] && Seconds(ps) == [];
    } else {
      assert ([currD] + d)[1..] == d == [d[0]] + d[1..];
      match Classify(currD[0], currRef[0])
      case SkipSurprisal =>
        PairsKeepStreamOrder(d[0], currRef, d[1..], ref);
      case Emit =>
        assert ([currRef] + ref)[1..] == ref == [ref[0]] + ref[1..];
        PairsKeepStreamOrder(d[0], ref[0], d[1..], ref[1..]);
        var rest := AlignFrom(d[0], ref[0], d[1..], ref[1..]).value.pairs;
        assert ps == [(currD, currRef)] + rest;
        assert Firsts(ps)[1..] == Firsts(rest);
        assert Seconds(ps)[1..] == Seconds(rest);
      case SkipBoth =>
        assert ([currRef] + ref)[1..] == ref == [ref[0]] + ref[1..];
        PairsKeepStreamOrder(d[0], ref[0], d[1..], ref[1..]);
    }
  }

  /**
   * Each iteration pops exactly one surprisal row and at most one reference
   * row, and emits at most one pair. The loop leaves exactly 10 surprisal
   * rows when it ran at all, and the lists that remain are suffixes of the inputs.
   */
  lemma {:induction false} Consumption(currD: Row, currRef: Row, d: seq<Row>, ref: seq<Row>)
    requires AlignFrom(currD, currRef, d, ref).Ok?
    ensures var a := AlignFrom(currD, currRef, d, ref).value;
            && (|d| <= 10 ==> a.dLeft == d && a.refLeft == ref && a.pairs == [])
            && (|d| > 10 ==> |a.dLeft| == 10)
            && |a.refLeft| <= |ref|
            && a.dLeft == d[|d| - |a.dLeft|..]
            && a.refLeft == ref[|ref| - |a.refLeft|..]
            && |ref| - |a.refLeft| <= |d| - |a.dLeft|
            && |a.pairs| <= |d| - |a.dLeft|
    decreases |d|
  {
    if |d| > 10 {
      match Classify(currD[0], currRef[0])
      case SkipSurprisal =>
        Consumption(d[0], currRef, d[1..], ref);
      case Emit =>
        Consumption(d[0], ref[0], d[1..], ref[1..]);
      case SkipBoth =>
        Consumption(d[0], ref[0], d[1..], ref[1..]);
    }
  }

  /** A reference list at least as long as the surprisal list is never popped when empty. */
  lemma {:induction false} LongReferenceNeverRunsOut(currD: Row, currRef: Row, d: seq<Row>, ref: seq<Row>)
    requires |ref| >= |d|
    ensures AlignFrom(currD, currRef, d, ref) != Err(PopFromEmpty)
    decreases |d|
  {
    if |d| > 10 && currD != [] && currRef != [] {
      match Classify(currD[0], currRef[0])
      case SkipSurprisal =>
        LongReferenceNeverRunsOut(d[0], currRef, d[1..], ref);
      case Emit =>
        LongReferenceNeverRunsOut(d[0], ref[0], d[1..], ref[1..]);
      case SkipBoth =>
        LongReferenceNeverRunsOut(d[0], ref[0], d[1..], ref[1..]);
    }
  }
}
