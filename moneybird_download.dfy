/** The two download loops of the ledger side: fetching a paged listing
    until a short page comes back, and fetching financial mutations by id in
    batches of at most 100. A page fetch and a batch fetch are given as
    functions; the HTTP requests behind them are not part of this model. */
module MoneybirdDownload {

  /** Records asked for per page of a paged listing. */
  const PerPage: nat := 100

  /** Ids the synchronisation endpoint accepts in one request. */
  const MaxIdsPerRequest: nat := 100

  /** An entry of the synchronisation listing: the id and version of one
      financial mutation. */
  datatype SyncItem = SyncItem(id: string, version: int)

  /** The in-order concatenation of a sequence of pieces. */
  function Concat<T>(pieces: seq<seq<T>>): seq<T>
  {
    if pieces == [] then [] else Concat(pieces[..|pieces| - 1]) + pieces[|pieces| - 1]
  }

  lemma {:induction false} ConcatAppend<T>(a: seq<seq<T>>, b: seq<seq<T>>)
    ensures Concat(a + b) == Concat(a) + Concat(b)
    decreases |b|
  {
    if b == [] {
      assert a + b == a;
    } else {
      var b' := b[..|b| - 1];
      assert (a + b)[..|a + b| - 1] == a + b';
      assert Concat(a + b) == Concat(a + b') + b[|b| - 1];
      ConcatAppend(a, b');
      assert Concat(b) == Concat(b') + b[|b| - 1];
    }
  }

  lemma ConcatPrepend<T>(x: seq<T>, rest: seq<seq<T>>)
    ensures Concat([x] + rest) == x + Concat(rest)
  {
    ConcatAppend([x], rest);
    assert [x][..0] == [];
  }

  // ---------------------------------------------------------------------------
  // Chunking the id list (DownloadFinanancialMutations)

  /** `math.ceil(n / 100)`: the number of batch requests for n ids. */
  function Splits(n: nat): (k: nat)
    ensures n == 0 <==> k == 0
    ensures n <= k * MaxIdsPerRequest
    ensures k * MaxIdsPerRequest < n + MaxIdsPerRequest
  {
    (n + MaxIdsPerRequest - 1) / MaxIdsPerRequest
  }

  /** `count` times `size`, written out so that the split below needs no
      multiplication. */
  function Total(count: nat, size: nat): nat
  {
    if count == 0 then 0 else size + Total(count - 1, size)
  }

  lemma {:induction false} TotalIsProduct(count: nat, size: nat)
    ensures Total(count, size) == count * size
  {
    if count > 0 {
      TotalIsProduct(count - 1, size);
      assert count * size == size + (count - 1) * size;
    }
  }

  /** `count` consecutive pieces of `s`, the first `extra` of them one longer
      than the others. */
  function Pieces<T>(s: seq<T>, count: nat, size: nat, extra: nat): (pieces: seq<seq<T>>)
    requires extra <= count
    requires |s| == Total(count, size) + extra
    ensures |pieces| == count
    ensures Concat(pieces) == s
    ensures forall i :: 0 <= i < count ==> |pieces[i]| == size + (if i < extra then 1 else 0)
    decreases count
  {
    if count == 0 then []
    else
      var first := if extra > 0 then size + 1 else size;
      var rest := Pieces(s[first..], count - 1, size, if extra > 0 then extra - 1 else 0);
      ConcatPrepend(s[..first], rest);
      assert s[..first] + s[first..] == s;
      [s[..first]] + rest
  }

  /** `numpy.array_split(s, k)`: k consecutive pieces of near-equal size, the
      first |s| mod k of them one element longer. */
  function ArraySplit<T>(s: seq<T>, k: nat): (pieces: seq<seq<T>>)
    requires k > 0
    ensures |pieces| == k
    ensures Concat(pieces) == s
    ensures forall i :: 0 <= i < k ==> |pieces[i]| == |s| / k + (if i < |s| % k then 1 else 0)
  {
    TotalIsProduct(k, |s| / k);
    Pieces(s, k, |s| / k, |s| % k)
  }

  lemma MulMonotone(a: nat, b: nat, k: nat)
    requires a <= b
    ensures a * k <= b * k
  {
    assert b * k == a * k + (b - a) * k;
  }

  /** Splitting n > 0 ids into Splits(n) near-equal pieces gives pieces of
      between 1 and 100 ids each. */
  lemma {:induction false} ChunkBounds(n: nat)
    requires n > 0
    ensures var k := Splits(n);
            && 1 <= n / k
            && n / k + (if n % k > 0 then 1 else 0) <= MaxIdsPerRequest
  {
    var k := Splits(n);
    var q, r := n / k, n % k;
    assert n == q * k + r && 0 <= r < k;
    assert k <= n;
    if q >= MaxIdsPerRequest {
      MulMonotone(MaxIdsPerRequest, q, k);
      assert r == 0;
      if q > MaxIdsPerRequest {
        MulMonotone(MaxIdsPerRequest + 1, q, k);
        assert false;
      }
    }
  }

  /** The ids of a sequence of synchronisation entries, in order. */
  function IdsOf(items: seq<SyncItem>): (ids: seq<string>)
    ensures |ids| == |items|
    ensures forall i :: 0 <= i < |items| ==> ids[i] == items[i].id
  {
    if items == [] then [] else IdsOf(items[..|items| - 1]) + [items[|items| - 1].id]
  }

  /** The id list of each chunk, chunk by chunk. */
  function ChunkIds(chunks: seq<seq<SyncItem>>): seq<seq<string>>
  {
    if chunks == [] then [] else ChunkIds(chunks[..|chunks| - 1]) + [IdsOf(chunks[|chunks| - 1])]
  }

  lemma {:induction false} ChunkIdsShape(chunks: seq<seq<SyncItem>>)
    ensures |ChunkIds(chunks)| == |chunks|
    ensures forall i :: 0 <= i < |chunks| ==> ChunkIds(chunks)[i] == IdsOf(chunks[i])
    decreases |chunks|
  {
    if chunks != [] {
      ChunkIdsShape(chunks[..|chunks| - 1]);
    }
  }

  /** The id batches requested for a synchronisation listing: none for an
      empty listing, otherwise the ids of its near-equal split into
      Splits(n) chunks. */
  function Batches(items: seq<SyncItem>): seq<seq<string>>
  {
    if |items| == 0 then [] else ChunkIds(ArraySplit(items, Splits(|items|)))
  }

  lemma {:induction false} IdsOfAppend(a: seq<SyncItem>, b: seq<SyncItem>)
    ensures IdsOf(a + b) == IdsOf(a) + IdsOf(b)
  {
    assert |IdsOf(a + b)| == |IdsOf(a) + IdsOf(b)|;
    forall i | 0 <= i < |a + b|
      ensures IdsOf(a + b)[i] == (IdsOf(a) + IdsOf(b))[i]
    {
      if i < |a| {
        assert (a + b)[i] == a[i];
      } else {
        assert (a + b)[i] == b[i - |a|];
      }
    }
  }

  lemma {:induction false} ConcatChunkIds(chunks: seq<seq<SyncItem>>)
    ensures Concat(ChunkIds(chunks)) == IdsOf(Concat(chunks))
    decreases |chunks|
  {
    if chunks != [] {
      var init := chunks[..|chunks| - 1];
      ConcatChunkIds(init);
      ChunkIdsShape(init);
      assert ChunkIds(chunks)[..|chunks| - 1] == ChunkIds(init);
      IdsOfAppend(Concat(init), chunks[|chunks| - 1]);
    }
  }

  /** Each chunk of a near-equal split of n > 0 items into Splits(n) pieces
      holds between 1 and 100 items. */
  lemma ChunkSizes<T>(items: seq<T>)
    requires |items| > 0
    ensures forall i :: 0 <= i < |ArraySplit(items, Splits(|items|))| ==>
              1 <= |ArraySplit(items, Splits(|items|))[i]| <= MaxIdsPerRequest
  {
    var n, k := |items|, Splits(|items|);
    var q, r := n / k, n % k;
    ChunkBounds(n);
    var chunks := ArraySplit(items, k);
    forall i | 0 <= i < k
      ensures 1 <= |chunks[i]| <= MaxIdsPerRequest
    {
      assert |chunks[i]| == q + (if i < r then 1 else 0);
    }
  }

  /** The batches cover exactly the listed ids, in order, in Splits(n)
      requests of at most 100 ids each (and of at least one). */
  lemma BatchesCoverIds(items: seq<SyncItem>)
    ensures |items| == 0 ==> Batches(items) == []
    ensures |Batches(items)| == Splits(|items|)
    ensures Concat(Batches(items)) == IdsOf(items)
    ensures forall i :: 0 <= i < |Batches(items)| ==> 1 <= |Batches(items)[i]| <= MaxIdsPerRequest
  {
    if |items| > 0 {
      var chunks := ArraySplit(items, Splits(|items|));
      ConcatChunkIds(chunks);
      ChunkIdsShape(chunks);
      ChunkSizes(items);
      forall i | 0 <= i < |chunks|
        ensures 1 <= |Batches(items)[i]| <= MaxIdsPerRequest
      {
        assert Batches(items)[i] == IdsOf(chunks[i]);
      }
    }
  }

  /** Everything the batch requests return, in request order. */
  function FetchAll<M>(fetch: seq<string> -> seq<M>, batches: seq<seq<string>>): seq<M>
  {
    if batches == [] then [] else FetchAll(fetch, batches[..|batches| - 1]) + fetch(batches[|batches| - 1])
  }

  /** The id list of one chunk, built by appending item by item. */
  method CollectIds(chunk: seq<SyncItem>) returns (ids: seq<string>)
    ensures ids == IdsOf(chunk)
  {
    ids := [];
    for j := 0 to |chunk|
      invariant ids == IdsOf(chunk[..j])
    {
      assert chunk[..j + 1][..j] == chunk[..j];
      ids := ids + [chunk[j].id];
    }
    assert chunk[..|chunk|] == chunk;
  }

  /** One batch request per chunk, in chunk order: the chunk's ids are
      posted and the answer is appended to what came before. */
  method FetchChunks<M>(chunks: seq<seq<SyncItem>>, fetch: seq<string> -> seq<M>)
    returns (mutations: seq<M>, batches: seq<seq<string>>)
    ensures batches == ChunkIds(chunks)
    ensures mutations == FetchAll(fetch, batches)
  {
    mutations, batches := [], [];
    for c := 0 to |chunks|
      invariant batches == ChunkIds(chunks[..c])
      invariant mutations == FetchAll(fetch, batches)
    {
      var ids := CollectIds(chunks[c]);
      assert chunks[..c + 1][..c] == chunks[..c];
      ghost var before := batches;
      batches := batches + [ids];
      assert batches[..|batches| - 1] == before;
      mutations := mutations + fetch(ids);
    }
    assert chunks[..|chunks|] == chunks;
  }

  /** `DownloadFinanancialMutations` after the synchronisation listing has been
      fetched: no batch request for an empty listing; otherwise the listing is
      split into Splits(n) near-equal chunks and each chunk's ids are posted
      as one batch request, whose answers are appended in order. */
  method DownloadFinancialMutations<M>(items: seq<SyncItem>, fetch: seq<string> -> seq<M>)
    returns (mutations: seq<M>, batches: seq<seq<string>>)
    ensures batches == Batches(items)
    ensures mutations == FetchAll(fetch, batches)
  {
    if |items| > 0 {
      var chunks := ArraySplit(items, Splits(|items|));
      mutations, batches := FetchChunks(chunks, fetch);
    } else {
      mutations, batches := [], [];
    }
  }

  // ---------------------------------------------------------------------------
  // Paged listings (DownloadContacts, DownloadSalesInvoices, DownloadPurchaseInvoices)

  /** Pages 1 .. last of a listing, concatenated in page order. */
  function PagesThrough<T>(fetch: nat -> seq<T>, last: nat): seq<T>
  {
    if last == 0 then [] else PagesThrough(fetch, last - 1) + fetch(last)
  }

  /** `last` is the first page shorter than PerPage: every page before it is
      full. */
  predicate FirstShortPage<T>(fetch: nat -> seq<T>, last: nat)
  {
    && 1 <= last
    && |fetch(last)| < PerPage
    && forall p :: 1 <= p < last ==> |fetch(p)| >= PerPage
  }

  /** The listing has one stopping page: the loop's end is determined by the
      pages the server returns. */
  lemma FirstShortPageUnique<T>(fetch: nat -> seq<T>, a: nat, b: nat)
    requires FirstShortPage(fetch, a) && FirstShortPage(fetch, b)
    ensures a == b
  {
  }

  /** Every page before the stopping page is full, so a download that stops at
      page `last` holds at least PerPage * (last - 1) records. */
  lemma {:induction false} PagesThroughSize<T>(fetch: nat -> seq<T>, last: nat)
    requires FirstShortPage(fetch, last)
    ensures PerPage * (last - 1) <= |PagesThrough(fetch, last)|
  {
    FullPagesSize(fetch, last - 1);
  }

  lemma {:induction false} FullPagesSize<T>(fetch: nat -> seq<T>, n: nat)
    requires forall p :: 1 <= p <= n ==> |fetch(p)| >= PerPage
    ensures PerPage * n <= |PagesThrough(fetch, n)|
  {
    if n > 0 {
      FullPagesSize(fetch, n - 1);
    }
  }

  /** The pages 1 .. n, in order. */
  function PageNumbers(n: nat): (pages: seq<nat>)
    ensures |pages| == n
    ensures forall i :: 0 <= i < n ==> pages[i] == i + 1
  {
    if n == 0 then [] else PageNumbers(n - 1) + [n]
  }

  /** The paging loop: pages 1, 2, ... are requested and appended until a page
      shorter than PerPage comes back, that page included. `last` is that
      page; the loop does not end on a listing without one. */
  method DownloadPaged<T>(fetch: nat -> seq<T>, ghost last: nat) returns (items: seq<T>, requested: seq<nat>)
    requires FirstShortPage(fetch, last)
    ensures requested == PageNumbers(last)
    ensures items == PagesThrough(fetch, last)
  {
    items, requested := [], [];
    var count: nat := 1;
    var continueLoop := true;
    while continueLoop
      invariant 1 <= count <= last + 1
      invariant continueLoop <==> count <= last
      invariant requested == PageNumbers(count - 1)
      invariant items == PagesThrough(fetch, count - 1)
      decreases last + 1 - count
    {
      var page := fetch(count);
      requested := requested + [count];
      items := items + page;
      if |page| < PerPage {
        continueLoop := false;
      }
      count := count + 1;
    }
  }
}
