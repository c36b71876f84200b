/**
 * Bounding a result envelope (services/dataset_spike/dataset_spike/analytics.py): at most `limit` of
 * the fetched rows are kept, then rows are popped until the encoded envelope fits the byte cap.
 *
 * `size` is the length of the encoded envelope, of which nothing is assumed.
 */
module Envelope {
  import opened Basics

  /** The row list that a result and its augmented copy share. */
  class RowList<R> {
    var items: seq<R>

    constructor (items: seq<R>)
      ensures this.items == items
    {
      this.items := items;
    }
  }

  datatype Envelope<!R> = Envelope(rows: RowList<R>, rowCount: nat, truncated: bool)

  datatype Outcome<!R> = Ok(result: Envelope<R>) | TooSmall

  /** The envelope with the first `k` of the rows, `cut` telling whether rows were missing to begin with. */
  predicate Fits<R>(size: (seq<R>, nat, bool) -> nat, rows: seq<R>, cut: bool, cap: nat, k: nat)
    requires k <= |rows|
  {
    size(rows[..k], k, cut || k < |rows|) <= cap
  }

  /** `k` rows fit and no larger number does. */
  predicate LongestFit<R>(size: (seq<R>, nat, bool) -> nat, rows: seq<R>, cut: bool, cap: nat, k: nat) {
    k <= |rows| && Fits(size, rows, cut, cap, k) && forall j :: k < j <= |rows| ==> !Fits(size, rows, cut, cap, j)
  }

  predicate NoneFits<R>(size: (seq<R>, nat, bool) -> nat, rows: seq<R>, cut: bool, cap: nat) {
    forall k :: 0 <= k <= |rows| ==> !Fits(size, rows, cut, cap, k)
  }

  /** The envelope shows a prefix of `answer` and says truthfully how long it is and whether something is missing. */
  predicate Honest<R(==)>(answer: seq<R>, shown: seq<R>, rowCount: nat, truncated: bool) {
    shown <= answer && rowCount == |shown| && (truncated <==> |shown| < |answer|)
  }

  /** The popping loop. */
  method Shrink<R>(size: (seq<R>, nat, bool) -> nat, rows: RowList<R>, cut: bool, cap: nat) returns (r: Outcome<R>)
    modifies rows
    ensures r.TooSmall? <==> NoneFits(size, old(rows.items), cut, cap)
    ensures r.Ok? ==> r.result.rows == rows && r.result.rowCount == |rows.items| <= |old(rows.items)|
                      && rows.items == old(rows.items)[..|rows.items|]
                      && LongestFit(size, old(rows.items), cut, cap, |rows.items|)
                      && r.result.truncated == (cut || |rows.items| < |old(rows.items)|)
  {
    ghost var all := rows.items;
    var rowCount, truncated := |rows.items|, cut;
    assert all[..|all|] == all;
    while size(rows.items, rowCount, truncated) > cap
      invariant rowCount == |rows.items| <= |all| && rows.items == all[..rowCount]
      invariant truncated == (cut || rowCount < |all|)
      invariant forall j :: rowCount < j <= |all| ==> !Fits(size, all, cut, cap, j)
      decreases rowCount
    {
      assert !Fits(size, all, cut, cap, rowCount);
      if rows.items == [] {
        return TooSmall;
      }
      rows.items := rows.items[..|rows.items| - 1];
      rowCount := |rows.items|;
      truncated := true;
      assert rows.items == all[..rowCount];
    }
    assert Fits(size, all, cut, cap, rowCount);
    return Ok(Envelope(rows, rowCount, truncated));
  }

  /** What the worker fetches: the compiled LIMIT is one more than the rows wanted. */
  function Fetched<R>(answer: seq<R>, limit: nat): seq<R> {
    if |answer| > limit + 1 then answer[..limit + 1] else answer
  }

  /** `_run_governed_query` after the rows came back. */
  method RunGoverned<R(==)>(ghost answer: seq<R>, fetched: seq<R>, limit: nat, size: (seq<R>, nat, bool) -> nat, cap: nat)
    returns (r: Outcome<R>)
    requires fetched == Fetched(answer, limit)
    ensures r.Ok? ==> fresh(r.result.rows)
                      && Honest(answer, r.result.rows.items, r.result.rowCount, r.result.truncated)
                      && size(r.result.rows.items, r.result.rowCount, r.result.truncated) <= cap
                      && |r.result.rows.items| <= limit
    ensures var kept := if |answer| > limit then answer[..limit] else answer;
            && (r.TooSmall? <==> NoneFits(size, kept, |answer| > limit, cap))
            && (r.Ok? ==> LongestFit(size, kept, |answer| > limit, cap, |r.result.rows.items|))
  {
    var truncated := |fetched| > limit;
    var rows := new RowList(if truncated then fetched[..limit] else fetched);
    assert truncated <==> |answer| > limit;
    ghost var kept := if |answer| > limit then answer[..limit] else answer;
    assert rows.items == kept;
    r := Shrink(size, rows, truncated, cap);
  }

  /** `_augment_envelope`: more fields make the encoding longer, so rows are popped again, from the same list. */
  method Augment<R(==)>(ghost answer: seq<R>, result: Envelope<R>, size: (seq<R>, nat, bool) -> nat, cap: nat)
    returns (r: Outcome<R>)
    requires Honest(answer, result.rows.items, result.rowCount, result.truncated)
    modifies result.rows
    ensures r.Ok? ==> r.result.rows == result.rows
                      && Honest(answer, r.result.rows.items, r.result.rowCount, r.result.truncated)
                      && size(r.result.rows.items, r.result.rowCount, r.result.truncated) <= cap
                      && LongestFit(size, old(result.rows.items), result.truncated, cap, r.result.rowCount)
    ensures r.TooSmall? <==> NoneFits(size, old(result.rows.items), result.truncated, cap)
  {
    r := Shrink(size, result.rows, result.truncated, cap);
  }

  /**
   * Both cuts together: the rows shown are the longest prefix of the answer that passes the row limit and
   * fits the first cap, cut again to the longest that fits the second; whenever a longer prefix of at most
   * `first` rows would fit the augmented envelope, it is not given up.
   */
  lemma NothingFittingIsDropped<R>(answer: seq<R>, limit: nat, size1: (seq<R>, nat, bool) -> nat, cap1: nat,
                                   size2: (seq<R>, nat, bool) -> nat, cap2: nat, first: nat, last: nat, k: nat)
    requires var kept := if |answer| > limit then answer[..limit] else answer;
             && LongestFit(size1, kept, |answer| > limit, cap1, first)
             && LongestFit(size2, answer[..first], first < |answer|, cap2, last)
    requires k <= limit && k <= |answer|
    requires size1(answer[..k], k, k < |answer|) <= cap1 && size2(answer[..k], k, k < |answer|) <= cap2
    ensures k <= last <= first
  {
    var kept := if |answer| > limit then answer[..limit] else answer;
    assert kept[..k] == answer[..k];
    assert (|answer| > limit || k < |kept|) <==> k < |answer|;
    assert Fits(size1, kept, |answer| > limit, cap1, k);
    assert answer[..first][..k] == answer[..k];
    assert Fits(size2, answer[..first], first < |answer|, cap2, k);
  }
}
