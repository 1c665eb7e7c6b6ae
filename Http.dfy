/** Helpers over the HTTP transaction batches that the kernel shares with
    user space: the request target of a captured request line, the class
    of a status code, and the page arithmetic of the batch ring. */
module Http {
  import opened Common

  const SP: byte := 0x20

  // ---------------------------------------------------------------------
  // Request target (the token after the method in "GET /foo HTTP/1.1")
  // ---------------------------------------------------------------------

  /** The index of the first space at or after `from`, or |b| if none. */
  function SpaceFrom(b: seq<byte>, from: nat): (k: nat)
    requires from <= |b|
    ensures from <= k <= |b|
    ensures forall m :: from <= m < k ==> b[m] != SP
    ensures k < |b| ==> b[k] == SP
    decreases |b| - from
  {
    if from == |b| || b[from] == SP then from else SpaceFrom(b, from + 1)
  }

  /** The request target as section 3.1.1 of RFC 7230 places it: the bytes
      after the first space, up to the next space or the end of the
      captured fragment; empty when the fragment has no space. */
  function RequestTarget(b: seq<byte>): (r: seq<byte>)
    ensures SP !in r
    ensures r != [] ==> |r| <= |b| - 1
    ensures SP !in b ==> r == []
  {
    var s := SpaceFrom(b, 0);
    if s == |b| then [] else b[s + 1 .. SpaceFrom(b, s + 1)]
  }

  /** Any first space s and any end e (the next space after s, or the end
      of the buffer) delimit exactly the request target. */
  lemma RequestTargetBetweenSpaces(b: seq<byte>, s: nat, e: nat)
    requires s < e <= |b|
    requires b[s] == SP && forall m :: 0 <= m < s ==> b[m] != SP
    requires e < |b| ==> b[e] == SP
    requires forall m :: s < m < e ==> b[m] != SP
    ensures RequestTarget(b) == b[s + 1 .. e]
  {
  }

  /** Two consecutive spaces after the method give an empty target. */
  lemma EmptyTokenGivesEmptyTarget(b: seq<byte>, s: nat)
    requires s + 1 < |b| && b[s] == SP && b[s + 1] == SP
    requires forall m :: 0 <= m < s ==> b[m] != SP
    ensures RequestTarget(b) == []
  {
    RequestTargetBetweenSpaces(b, s, s + 1);
  }

  /** `httpTX.Path`: two scans, as the source writes them. */
  method Path(b: seq<byte>) returns (r: seq<byte>)
    ensures r == RequestTarget(b)
  {
    var i := 0;
    while i < |b| && b[i] != SP
      invariant 0 <= i <= |b|
      invariant forall m :: 0 <= m < i ==> b[m] != SP
    {
      i := i + 1;
    }
    ghost var s := i;
    i := i + 1;
    var j := i;
    while j < |b| && b[j] != SP
      invariant i <= j
      invariant i <= |b| ==> j <= |b|
      invariant i > |b| ==> j == i
      invariant forall m :: i <= m < j ==> b[m] != SP
    {
      j := j + 1;
    }
    if i < j && j <= |b| {
      r := b[i..j];
      RequestTargetBetweenSpaces(b, s, j);
    } else {
      r := [];
      if s < |b| {
        RequestTargetBetweenSpaces(b, s, s + 1);
      }
    }
  }

  // ---------------------------------------------------------------------
  // Status class (section 6 of RFC 7231: the first digit is the class)
  // ---------------------------------------------------------------------

  /** `httpTX.StatusClass` of the kernel's unsigned 16-bit status code. */
  function StatusClass(code: uint16): (r: int)
    ensures r % 100 == 0
    ensures r <= code < r + 100
  {
    (code / 100) * 100
  }

  // ---------------------------------------------------------------------
  // Batch pages
  // ---------------------------------------------------------------------
  // The kernel fills `pages` pages of `size` transactions each, in a ring:
  // batch number n goes to page n % pages. The header that fixes both
  // constants is not part of this model, so they are parameters.

  /** `httpBatch.IsDirty`: both indices are unsigned 64-bit counters that Go
      converts with `int(...)`, and the sum wraps like int64 arithmetic. */
  function IsDirty(batchIdx: uint64, notifBatchIdx: uint64, pages: nat): (r: bool)
    requires 0 < pages < 0x8000_0000_0000_0000
    ensures batchIdx < 0x8000_0000_0000_0000 && notifBatchIdx + pages < 0x8000_0000_0000_0000 ==>
              (r <==> batchIdx >= notifBatchIdx + pages)
  {
    ToInt64(batchIdx) >= ToInt64(ToInt64(notifBatchIdx) + pages)
  }

  /** Signs of a product with a positive factor. */
  lemma MulBounds(t: int, p: nat)
    ensures t <= 0 ==> t * p <= 0
    ensures t >= 1 ==> t * p >= p
  {
    if t >= 1 {
      MulLeq(1, t, p);
    }
  }

  /** A notification whose page is not dirty names a page that no later
      batch up to the current one has reused. */
  lemma NotDirtyPageNotReused(batchIdx: uint64, notifBatchIdx: uint64, pages: nat, k: int)
    requires 0 < pages < 0x8000_0000_0000_0000
    requires batchIdx < 0x8000_0000_0000_0000 && notifBatchIdx + pages < 0x8000_0000_0000_0000
    requires !IsDirty(batchIdx, notifBatchIdx, pages)
    requires notifBatchIdx < k <= batchIdx
    ensures k % pages != notifBatchIdx % pages
  {
    var a, m := k / pages, k % pages;
    var q, r := notifBatchIdx / pages, notifBatchIdx % pages;
    assert k - notifBatchIdx == (a - q) * pages + (m - r) by {
      assert (a - q) * pages == a * pages - q * pages;
    }
    MulBounds(a - q, pages);
  }

  /** The page window lies inside the batch. */
  lemma PageInBatch(pageId: nat, size: nat, pages: nat)
    requires pageId < pages
    ensures pageId * size + size <= size * pages
  {
    MulLeq(pageId + 1, pages, size);
    assert (pageId + 1) * size == pageId * size + size;
  }

  /** The page a batch number lands on: `int(batch_idx) % HTTPBatchPages`.
      `int(batch_idx)` stays non-negative because the kernel's batch counter
      never reaches 2^63. */
  function PageId(notifBatchIdx: uint64, pages: nat): (p: nat)
    requires 0 < pages && notifBatchIdx < 0x8000_0000_0000_0000
    ensures p < pages && p == notifBatchIdx % pages
  {
    ToInt64(notifBatchIdx) % pages
  }

  /** `httpBatch.GetTransactions`: the page of `txs` the notification names. */
  function GetTransactions<T>(txs: seq<T>, notifBatchIdx: uint64, size: nat, pages: nat): (r: seq<T>)
    requires 0 < pages && |txs| == size * pages
    requires notifBatchIdx < 0x8000_0000_0000_0000
    ensures |r| == size
    ensures forall k :: 0 <= k < size ==>
              var i := PageId(notifBatchIdx, pages) * size + k;
              i < |txs| && r[k] == txs[i]
  {
    var start := PageId(notifBatchIdx, pages) * size;
    PageInBatch(PageId(notifBatchIdx, pages), size, pages);
    txs[start .. start + size]
  }

  lemma MulLeq(a: nat, b: nat, c: nat)
    requires a <= b
    ensures a * c <= b * c
  {
  }
}
