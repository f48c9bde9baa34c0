/** Greedy batching of records under the D1 write boundary. */
module Batching {
  import opened Base

  const MAX_RECORD_BATCH_BYTES := 524_288

  /** A record is its JSON bytes. */
  type Part = seq<int>

  function Joined(parts: seq<Part>): seq<int> {
    if parts == [] then []
    else if |parts| == 1 then parts[0]
    else Joined(parts[..|parts| - 1]) + [44] + parts[|parts| - 1]
  }

  /** `[${parts.join(",")}]`. */
  function Encoded(parts: seq<Part>): seq<int> {
    [91] + Joined(parts) + [93]
  }

  /** Two brackets, the parts, and a comma between any two. */
  function Size(parts: seq<Part>): nat {
    if parts == [] then 2
    else Size(parts[..|parts| - 1]) + |parts[|parts| - 1]| + if |parts| == 1 then 0 else 1
  }

  /** The tracked byte count is the encoded size. */
  lemma {:induction false} SizeIsEncoded(parts: seq<Part>)
    ensures |Encoded(parts)| == Size(parts)
  {
    if |parts| > 1 {
      SizeIsEncoded(parts[..|parts| - 1]);
    } else if |parts| == 1 {
      assert parts[..0] == [];
    }
  }

  /** Where part `i` starts in the text. */
  function Start(parts: seq<Part>, i: nat): nat
    requires i <= |parts|
  {
    if i == 0 then 1 else Start(parts, i - 1) + |parts[i - 1]| + 1
  }

  lemma {:induction false} StartOfPrefix(parts: seq<Part>, n: nat, i: nat)
    requires i <= n <= |parts|
    ensures Start(parts[..n], i) == Start(parts, i)
  {
    if i > 0 { StartOfPrefix(parts, n, i - 1); }
  }

  /** The last part ends where the next one would start, less a comma. */
  lemma {:induction false} JoinedEnds(parts: seq<Part>)
    requires parts != []
    ensures |Joined(parts)| == Start(parts, |parts|) - 2
  {
    if |parts| > 1 {
      var n := |parts| - 1;
      JoinedEnds(parts[..n]);
      StartOfPrefix(parts, n, n);
    } else {
      assert Start(parts, 1) == Start(parts, 0) + |parts[0]| + 1;
    }
  }

  lemma {:induction false} StartsGrow(parts: seq<Part>, i: nat, j: nat)
    requires i < j <= |parts|
    ensures Start(parts, i) + |parts[i]| + 1 <= Start(parts, j)
  {
    if i < j - 1 { StartsGrow(parts, i, j - 1); }
  }

  /** The text is the parts in their order between two brackets, with one comma before each but the first. */
  lemma {:induction false} PartsInPlace(parts: seq<Part>, i: nat)
    requires i < |parts|
    ensures var t, at := Encoded(parts), Start(parts, i);
      && t[0] == '[' as int && t[|t| - 1] == ']' as int
      && at + |parts[i]| < |t|
      && t[at..at + |parts[i]|] == parts[i]
      && (i > 0 ==> t[at - 1] == ',' as int)
      && (i == |parts| - 1 ==> at + |parts[i]| == |t| - 1)
  {
    var n := |parts| - 1;
    var t, at := Encoded(parts), Start(parts, i);
    JoinedEnds(parts);
    StartsGrow(parts, i, |parts|);
    if n > 0 {
      var init := parts[..n];
      JoinedEnds(init);
      StartOfPrefix(parts, n, n);
      StartOfPrefix(parts, n, if i < n then i else n);
      if i < n {
        PartsInPlace(init, i);
        StartsGrow(init, i, n);
        var u := Encoded(init);
        assert u[..|u| - 1] == t[..|u| - 1];
        assert t[at..at + |parts[i]|] == u[at..at + |parts[i]|];
      } else {
        assert t[at..at + |parts[i]|] == parts[i];
      }
    }
  }

  function Flatten(batches: seq<seq<Part>>): seq<Part> {
    if batches == [] then [] else Flatten(batches[..|batches| - 1]) + batches[|batches| - 1]
  }

  predicate Fits(parts: seq<Part>, limit: nat) {
    Size(parts) <= limit
  }

  /** A split of the records, in order, into batches within the limit. */
  predicate IsSplit(records: seq<Part>, batches: seq<seq<Part>>, limit: nat) {
    Flatten(batches) == records && forall i :: 0 <= i < |batches| ==> Fits(batches[i], limit)
  }

  /** What the parts add, whatever stands before them. */
  function Weight(parts: seq<Part>): nat {
    if parts == [] then 0 else Weight(parts[..|parts| - 1]) + |parts[|parts| - 1]| + 1
  }

  lemma {:induction false} SizeIsWeight(parts: seq<Part>)
    ensures Size(parts) == Weight(parts) + if parts == [] then 2 else 1
  {
    if parts != [] { SizeIsWeight(parts[..|parts| - 1]); }
  }

  lemma {:induction false} WeightConcat(a: seq<Part>, b: seq<Part>)
    ensures Weight(a + b) == Weight(a) + Weight(b)
    decreases |b|
  {
    if b == [] {
      assert a + b == a;
    } else {
      WeightConcat(a, b[..|b| - 1]);
      assert (a + b)[..|a + b| - 1] == a + b[..|b| - 1];
    }
  }

  /** A piece of a batch is no larger than the batch. */
  lemma PieceFits(a: seq<Part>, piece: seq<Part>, b: seq<Part>, limit: nat)
    requires Fits(a + piece + b, limit) && piece != []
    ensures Fits(piece, limit)
  {
    WeightConcat(a + piece, b);
    WeightConcat(a, piece);
    SizeIsWeight(a + piece + b);
    SizeIsWeight(piece);
  }

  /** No split of a longer prefix into as few batches exists. */
  ghost predicate Farthest(records: seq<Part>, n: nat, p: nat, limit: nat) {
    forall j: nat, split: seq<seq<Part>> :: SplitsPrefix(records, j, split, n, limit) ==> j <= p
  }

  predicate SplitsPrefix(records: seq<Part>, j: nat, split: seq<seq<Part>>, n: nat, limit: nat) {
    |split| <= n && j <= |records| && IsSplit(records[..j], split, limit)
  }

  lemma FarthestStart(records: seq<Part>, limit: nat)
    ensures Farthest(records, 0, 0, limit)
  {
    forall j: nat, split: seq<seq<Part>> | SplitsPrefix(records, j, split, 0, limit)
      ensures j <= 0
    {
      assert |Flatten(split)| == 0;
    }
  }

  /** The last batch of a split, and the split of what comes before it. */
  lemma SplitLast(records: seq<Part>, j: nat, split: seq<seq<Part>>, limit: nat)
    requires j <= |records| && split != [] && IsSplit(records[..j], split, limit)
    ensures var last := split[|split| - 1];
      && |last| <= j && records[j - |last|..j] == last && Fits(last, limit)
      && IsSplit(records[..j - |last|], split[..|split| - 1], limit)
  {
    var last, init := split[|split| - 1], split[..|split| - 1];
    assert Flatten(split) == Flatten(init) + last;
    assert |Flatten(init)| == j - |last|;
    assert records[..j][j - |last|..] == last;
    assert records[..j - |last|] == records[..j][..j - |last|] == Flatten(init);
  }

  /** Greedy stays ahead: if the next record does not fit, no split with one batch more gets past it. */
  lemma FarthestStep(records: seq<Part>, n: nat, p: nat, k: nat, limit: nat)
    requires Farthest(records, n, p, limit) && p <= k < |records| && !Fits(records[p..k + 1], limit)
    ensures Farthest(records, n + 1, k, limit)
  {
    var more := n + 1;
    forall j: nat, split: seq<seq<Part>> | SplitsPrefix(records, j, split, more, limit)
      ensures j <= k
    {
      if split == [] {
        assert |Flatten(split)| == 0;
      } else {
        SplitLast(records, j, split, limit);
        var last := split[|split| - 1];
        var i := j - |last|;
        assert SplitsPrefix(records, i, split[..|split| - 1], n, limit);
        if j > k {
          assert last == records[i..p] + records[p..k + 1] + records[k + 1..j];
          PieceFits(records[i..p], records[p..k + 1], records[k + 1..j], limit);
        }
      }
    }
  }

  lemma FlattenMore(batches: seq<seq<Part>>, batch: seq<Part>)
    ensures Flatten(batches + [batch]) == Flatten(batches) + batch
  {
    assert (batches + [batch])[..|batches|] == batches;
  }

  lemma SizeOfOne(parts: seq<Part>, part: Part)
    ensures Size(parts + [part]) == Size(parts) + |part| + if parts == [] then 0 else 1
  {
    assert (parts + [part])[..|parts|] == parts;
  }

  /** No order-preserving split within the limit uses fewer batches. */
  ghost predicate Fewest(records: seq<Part>, count: nat, limit: nat) {
    forall split: seq<seq<Part>> :: IsSplit(records, split, limit) ==> count <= |split|
  }

  lemma FewestWhenFarthest(records: seq<Part>, n: nat, p: nat, limit: nat)
    requires Farthest(records, n, p, limit) && p < |records|
    ensures Fewest(records, n + 1, limit)
  {
    forall split: seq<seq<Part>> | IsSplit(records, split, limit)
      ensures n + 1 <= |split|
    {
      assert records[..|records|] == records;
      assert |split| <= n ==> SplitsPrefix(records, |records|, split, n, limit);
    }
  }

  /** The batches the loop makes once records `p` to `k` are in the open batch. */
  function Greedy(records: seq<Part>, p: nat, k: nat, limit: nat): seq<seq<Part>>
    requires p <= k <= |records|
    decreases |records| - k
  {
    if k == |records| then if p == k then [] else [records[p..k]]
    else if p < k && !Fits(records[p..k + 1], limit) then [records[p..k]] + Greedy(records, k, k + 1, limit)
    else Greedy(records, p, k + 1, limit)
  }

  /** The first `p` records are closed, as far as so few batches can get. */
  ghost predicate Closed(records: seq<Part>, split: seq<seq<Part>>, p: nat, limit: nat) {
    && p <= |records| && IsSplit(records[..p], split, limit)
    && (forall i :: 0 <= i < |split| ==> split[i] != [])
    && Farthest(records, |split|, p, limit)
  }

  lemma CloseBatch(records: seq<Part>, split: seq<seq<Part>>, p: nat, k: nat, limit: nat)
    requires p < k <= |records| && IsSplit(records[..p], split, limit) && Fits(records[p..k], limit)
    ensures IsSplit(records[..k], split + [records[p..k]], limit)
  {
    FlattenMore(split, records[p..k]);
    assert records[..p] + records[p..k] == records[..k];
  }

  lemma ClosedStart(records: seq<Part>, limit: nat)
    ensures Closed(records, [], 0, limit)
  {
    FarthestStart(records, limit);
    assert records[..0] == [];
  }

  /** Closing the open batch when the next record does not fit. */
  lemma ClosedStep(records: seq<Part>, split: seq<seq<Part>>, open: seq<Part>, p: nat, k: nat, limit: nat)
    requires Closed(records, split, p, limit) && p < k < |records| && open == records[p..k]
    requires Fits(open, limit) && !Fits(records[p..k + 1], limit)
    ensures Closed(records, split + [open], k, limit)
  {
    FarthestStep(records, |split|, p, k, limit);
    CloseBatch(records, split, p, k, limit);
  }

  /** Batches that give the records in order, none empty, each within the limit, and no fewer would do. */
  ghost predicate Batched(records: seq<Part>, split: seq<seq<Part>>, limit: nat) {
    && IsSplit(records, split, limit)
    && (forall i :: 0 <= i < |split| ==> split[i] != [])
    && Fewest(records, |split|, limit)
  }

  lemma Finish(records: seq<Part>, split: seq<seq<Part>>, p: nat, limit: nat)
    requires Closed(records, split, p, limit) && p < |records| && Fits(records[p..|records|], limit)
    ensures Batched(records, split + [records[p..|records|]], limit)
  {
    assert records[..|records|] == records;
    CloseBatch(records, split, p, |records|, limit);
    FewestWhenFarthest(records, |split|, p, limit);
  }

  /** Every record alone fits. */
  ghost predicate AllFit(records: seq<Part>, limit: nat) {
    forall i :: 0 <= i < |records| ==> Fits([records[i]], limit)
  }

  lemma OneFits(records: seq<Part>, k: nat, limit: nat)
    requires AllFit(records, limit) && k < |records|
    ensures Fits(records[k..k + 1], limit)
  {
    assert records[k..k + 1] == [records[k]];
  }

  lemma {:induction false} GreedyBatches(records: seq<Part>, split: seq<seq<Part>>, p: nat, k: nat, limit: nat)
    requires Closed(records, split, p, limit) && p < k <= |records| && Fits(records[p..k], limit) && AllFit(records, limit)
    ensures Batched(records, split + Greedy(records, p, k, limit), limit)
    decreases |records| - k
  {
    if k == |records| {
      Finish(records, split, p, limit);
    } else if Fits(records[p..k + 1], limit) {
      GreedyBatches(records, split, p, k + 1, limit);
    } else {
      ClosedStep(records, split, records[p..k], p, k, limit);
      OneFits(records, k, limit);
      GreedyBatches(records, split + [records[p..k]], k, k + 1, limit);
      ConcatAssociates(split, records[p..k], Greedy(records, k, k + 1, limit));
    }
  }

  lemma ConcatAssociates(a: seq<seq<Part>>, b: seq<Part>, c: seq<seq<Part>>)
    ensures (a + [b]) + c == a + ([b] + c)
  {
  }

  /** Greedy batching is optimal. */
  lemma GreedyIsOptimal(records: seq<Part>, limit: nat)
    requires forall i :: 0 <= i < |records| ==> |records[i]| + 2 <= limit
    ensures Batched(records, Greedy(records, 0, 0, limit), limit)
  {
    forall i | 0 <= i < |records|
      ensures Fits([records[i]], limit)
    {
      SizeOfOne([], records[i]);
      assert [] + [records[i]] == [records[i]];
    }
    if records == [] {
      assert IsSplit(records, [], limit);
    } else {
      ClosedStart(records, limit);
      OneFits(records, 0, limit);
      GreedyBatches(records, [], 0, 1, limit);
      assert [] + Greedy(records, 0, 1, limit) == Greedy(records, 0, 0, limit);
    }
  }

  function Texts(batches: seq<seq<Part>>): seq<seq<int>> {
    seq(|batches|, i requires 0 <= i < |batches| => Encoded(batches[i]))
  }

  lemma TextsMore(batches: seq<seq<Part>>, batch: seq<Part>)
    ensures Texts(batches + [batch]) == Texts(batches) + [Encoded(batch)]
  {
  }

  /** One round of the loop, on the batches it has closed. */
  lemma GreedyRound(records: seq<Part>, split: seq<seq<Part>>, p: nat, k: nat, limit: nat)
    requires p <= k < |records|
    ensures if p < k && !Fits(records[p..k + 1], limit)
      then split + Greedy(records, p, k, limit) == (split + [records[p..k]]) + Greedy(records, k, k + 1, limit)
      else split + Greedy(records, p, k, limit) == split + Greedy(records, p, k + 1, limit)
  {
    ConcatAssociates(split, records[p..k], Greedy(records, k, k + 1, limit));
  }

  /** Every text stays within the limit. */
  lemma TextsWithinLimit(records: seq<Part>, limit: nat, i: nat)
    requires forall k :: 0 <= k < |records| ==> |records[k]| + 2 <= limit
    requires i < |Greedy(records, 0, 0, limit)|
    ensures |Texts(Greedy(records, 0, 0, limit))[i]| <= limit
  {
    GreedyIsOptimal(records, limit);
    SizeIsEncoded(Greedy(records, 0, 0, limit)[i]);
  }

  /** The write boundary is half a mebibyte: that is what every text of a batch stays within. */
  lemma BoundaryIs(records: seq<Part>, i: nat)
    requires forall k :: 0 <= k < |records| ==> |records[k]| + 2 <= 524_288
    requires i < |Greedy(records, 0, 0, MAX_RECORD_BATCH_BYTES)|
    ensures |Texts(Greedy(records, 0, 0, MAX_RECORD_BATCH_BYTES))[i]| <= 524_288
  {
    TextsWithinLimit(records, MAX_RECORD_BATCH_BYTES, i);
  }

  /** Adding a record to the open batch. */
  lemma OpenGrows(records: seq<Part>, p: nat, k: nat)
    requires p <= k < |records|
    ensures records[p..k + 1] == records[p..k] + [records[k]]
    ensures Size(records[p..k + 1]) == Size(records[p..k]) + |records[k]| + if p == k then 0 else 1
  {
    assert records[p..k + 1] == records[p..k] + [records[k]];
    SizeOfOne(records[p..k], records[k]);
  }

  /** recordJsonBatches: fails exactly when some record alone is too large. */
  method RecordJsonBatches(records: seq<Part>) returns (r: Result<seq<seq<int>>>)
    ensures r.Ok? <==> forall i :: 0 <= i < |records| ==> |records[i]| + 2 <= MAX_RECORD_BATCH_BYTES
    ensures r.Ok? ==> r.value == Texts(Greedy(records, 0, 0, MAX_RECORD_BATCH_BYTES))
  {
    var batches: seq<seq<int>> := [];
    ghost var split: seq<seq<Part>> := [];
    var parts: seq<Part> := [];
    var batchBytes := 2;
    ghost var p := 0;
    for k := 0 to |records|
      invariant p <= k && parts == records[p..k] && batchBytes == Size(parts)
      invariant split + Greedy(records, p, k, MAX_RECORD_BATCH_BYTES) == Greedy(records, 0, 0, MAX_RECORD_BATCH_BYTES)
      invariant batches == Texts(split)
      invariant forall i :: 0 <= i < k ==> |records[i]| + 2 <= MAX_RECORD_BATCH_BYTES
    {
      var part := records[k];
      if |part| + 2 > MAX_RECORD_BATCH_BYTES {
        return Err("market catalog record exceeds the D1 write boundary");
      }
      var separatorBytes := if parts == [] then 0 else 1;
      OpenGrows(records, p, k);
      OpenGrows(records, k, k);
      GreedyRound(records, split, p, k, MAX_RECORD_BATCH_BYTES);
      if parts != [] && batchBytes + separatorBytes + |part| > MAX_RECORD_BATCH_BYTES {
        TextsMore(split, parts);
        batches := batches + [Encoded(parts)];
        split := split + [parts];
        p := k;
        parts := [];
        batchBytes := 2;
      }
      batchBytes := batchBytes + (if parts == [] then 0 else 1) + |part|;
      parts := parts + [part];
    }
    if parts != [] {
      TextsMore(split, parts);
      batches := batches + [Encoded(parts)];
      split := split + [parts];
    }
    assert split == Greedy(records, 0, 0, MAX_RECORD_BATCH_BYTES);
    return Ok(batches);
  }
}
