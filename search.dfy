/**
 * The test `WaitForProjection<T>` applies to a captured document, and the
 * reference definition of "the first matching document in a range" against
 * which the listener's chunked scan is proved.
 */
module ProjectionSearch {
  import opened Wrappers
  import opened Records

  /**
   * `pred` stands for a `Func<T, bool>`: it is defined on every object whose
   * runtime type is exactly `kind`, and need not be defined on any other.
   */
  ghost predicate Applicable(kind: TypeName, pred: Instance --> bool)
  {
    forall d :: KindOf(d) == kind ==> pred.requires(d)
  }

  /**
   * An entry matches when its runtime type is exactly `kind` and the
   * predicate holds of it. The type test comes first: the predicate is
   * only ever applied to objects of type `kind`.
   */
  predicate Matches(kind: TypeName, pred: Instance --> bool, d: Instance): (r: bool)
    requires Applicable(kind, pred)
    ensures KindOf(d) != kind ==> !r
    ensures KindOf(d) == kind ==> pred.requires(d) && (r <==> pred(d))
  {
    KindOf(d) == kind && pred(d)
  }

  /** No entry of `docs[lo..hi]` matches. */
  ghost predicate NoMatchIn(docs: seq<Instance>, kind: TypeName, pred: Instance --> bool, lo: nat, hi: nat)
    requires Applicable(kind, pred)
    requires lo <= hi <= |docs|
  {
    forall i :: lo <= i < hi ==> !Matches(kind, pred, docs[i])
  }

  /**
   * The index of the first matching entry of `docs[from..upTo]`, or None
   * when that range holds no match.
   */
  function FirstMatch(docs: seq<Instance>, kind: TypeName, pred: Instance --> bool, from: nat, upTo: nat): (r: Option<nat>)
    requires Applicable(kind, pred)
    requires from <= upTo <= |docs|
    ensures r.Some? ==> from <= r.value < upTo && Matches(kind, pred, docs[r.value])
    ensures r.Some? ==> NoMatchIn(docs, kind, pred, from, r.value)
    ensures r.None? <==> NoMatchIn(docs, kind, pred, from, upTo)
    decreases upTo - from
  {
    if from == upTo then None
    else if Matches(kind, pred, docs[from]) then Some(from)
    else FirstMatch(docs, kind, pred, from + 1, upTo)
  }

  /**
   * Scanning `[from, upTo)` in two chunks, the second only when the first
   * found nothing, finds what one scan of the whole range finds.
   */
  lemma FirstMatchSplit(docs: seq<Instance>, kind: TypeName, pred: Instance --> bool, from: nat, mid: nat, upTo: nat)
    requires Applicable(kind, pred)
    requires from <= mid <= upTo <= |docs|
    ensures FirstMatch(docs, kind, pred, from, upTo) ==
            if FirstMatch(docs, kind, pred, from, mid).Some? then FirstMatch(docs, kind, pred, from, mid)
            else FirstMatch(docs, kind, pred, mid, upTo)
  {
    // FirstMatch's contract pins its result down to the first matching index.
  }

  /**
   * Appending to a log does not change what a scan of a range of its old
   * entries finds.
   */
  lemma FirstMatchPrefix(docs: seq<Instance>, longer: seq<Instance>, kind: TypeName, pred: Instance --> bool, from: nat, upTo: nat)
    requires Applicable(kind, pred)
    requires docs <= longer
    requires from <= upTo <= |docs|
    ensures FirstMatch(longer, kind, pred, from, upTo) == FirstMatch(docs, kind, pred, from, upTo)
  {
    // Both scans examine the same entries, so FirstMatch's contract decides both.
  }
}
