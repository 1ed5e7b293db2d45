/** Lexical search over stored chunks: the cosine of term frequencies, and the running list of the best results. */
module Ranking {
  import opened Common

  // ------------------------------------------------------------------ ranking

  /** A scored chunk. File ids are compared like strings; here any integers in the same order stand for them. */
  datatype Candidate = Candidate(score: real, fileId: int, ordinal: nat)

  /** `betterVectorStoreResult`. */
  predicate Better(a: Candidate, b: Candidate) {
    if a.score != b.score then a.score > b.score
    else if a.fileId != b.fileId then a.fileId < b.fileId
    else a.ordinal < b.ordinal
  }

  /** Neither ranks before the other. */
  predicate Tied(a: Candidate, b: Candidate) { !Better(a, b) && !Better(b, a) }

  predicate Ranked(s: seq<Candidate>) { forall i, j :: 0 <= i < j < |s| ==> !Better(s[j], s[i]) }

  function Insert(s: seq<Candidate>, c: Candidate): seq<Candidate> {
    if s == [] then [c] else if Better(c, s[0]) then [c] + s else [s[0]] + Insert(s[1..], c)
  }

  lemma {:induction false} InsertKeepsAll(s: seq<Candidate>, c: Candidate)
    ensures multiset(Insert(s, c)) == multiset(s) + multiset{c}
  {
    hide Better;
    if s == [] {
    } else if Better(c, s[0]) {
      assert Insert(s, c) == [c] + s;
    } else {
      InsertKeepsAll(s[1..], c);
      assert Insert(s, c) == [s[0]] + Insert(s[1..], c);
      assert multiset(s) == multiset{s[0]} + multiset(s[1..]) by { assert s == [s[0]] + s[1..]; }
    }
  }

  lemma {:induction false} InsertMembers(s: seq<Candidate>, c: Candidate, k: nat)
    requires k < |Insert(s, c)|
    ensures Insert(s, c)[k] == c || exists j :: 0 <= j < |s| && s[j] == Insert(s, c)[k]
  {
    if s != [] && !Better(c, s[0]) && k > 0 {
      InsertMembers(s[1..], c, k - 1);
      if Insert(s, c)[k] != c {
        var j :| 0 <= j < |s[1..]| && s[1..][j] == Insert(s[1..], c)[k - 1];
        assert s[j + 1] == Insert(s, c)[k];
      }
    } else if s != [] && Better(c, s[0]) && k > 0 {
      assert Insert(s, c)[k] == s[k - 1];
    }
  }

  lemma {:induction false} InsertIsRanked(s: seq<Candidate>, c: Candidate)
    requires Ranked(s)
    ensures Ranked(Insert(s, c))
  {
    if s != [] && !Better(c, s[0]) {
      InsertIsRanked(s[1..], c);
      var rest := Insert(s[1..], c);
      forall k | 0 <= k < |rest| ensures !Better(rest[k], s[0]) {
        InsertMembers(s[1..], c, k);
        if rest[k] != c {
          var j :| 0 <= j < |s[1..]| && s[1..][j] == rest[k];
          assert s[j + 1] == rest[k];
        }
      }
    }
  }

  /** The sort of the running list: some ranked rearrangement. */
  method Sort(s: seq<Candidate>) returns (r: seq<Candidate>)
    ensures Ranked(r) && multiset(r) == multiset(s)
  {
    r := [];
    var n := 0;
    while n < |s|
      invariant 0 <= n <= |s| && Ranked(r) && multiset(r) == multiset(s[..n])
    {
      assert s[..n + 1] == s[..n] + [s[n]];
      InsertKeepsAll(r, s[n]);
      InsertIsRanked(r, s[n]);
      r := Insert(r, s[n]);
      n := n + 1;
    }
    assert s[..n] == s;
  }

  /** `top` holds the best `limit` of `all` in ranked order: what is left out ranks before nothing that is kept. */
  ghost predicate TopOf(all: multiset<Candidate>, limit: nat, top: seq<Candidate>) {
    && Ranked(top) && multiset(top) <= all && |top| == (if |all| < limit then |all| else limit)
    && forall out, i :: out in all - multiset(top) && 0 <= i < |top| ==> !Better(out, top[i])
  }

  lemma KeptElement(s: seq<Candidate>, k: nat, x: Candidate)
    requires k <= |s| && x in multiset(s[k..])
    ensures exists j :: k <= j < |s| && s[j] == x
  {
    var i :| 0 <= i < |s[k..]| && s[k..][i] == x;
    assert s[k + i] == x;
  }

  lemma CutParts(sorted: seq<Candidate>, n: nat)
    requires n <= |sorted|
    ensures multiset(sorted) == multiset(sorted[..n]) + multiset(sorted[n..])
  {
    assert sorted == sorted[..n] + sorted[n..];
  }

  /** What is left out after a step was cut off now or left out before. */
  lemma LeftOutWhere(all: multiset<Candidate>, top: multiset<Candidate>, c: Candidate, next: multiset<Candidate>, rest: multiset<Candidate>, out: Candidate)
    requires top <= all && next + rest == top + multiset{c} && out in all + multiset{c} - next
    ensures out in rest || out in all - top
  {
    assert (next + rest)[out] == (top + multiset{c})[out];
  }

  lemma KeptIsThere(all: multiset<Candidate>, top: multiset<Candidate>, c: Candidate, next: multiset<Candidate>, rest: multiset<Candidate>)
    requires top <= all && next + rest == top + multiset{c}
    ensures next <= all + multiset{c} && |next| + |rest| == |top| + 1
  {
    assert next <= next + rest;
    assert |next + rest| == |next| + |rest| && |top + multiset{c}| == |top| + 1;
    assert top + multiset{c} <= all + multiset{c};
  }

  lemma PrefixIsRanked(s: seq<Candidate>, n: nat)
    requires Ranked(s) && n <= |s|
    ensures Ranked(s[..n])
  {
    hide Better;
  }

  lemma RestIsNoBetter(s: seq<Candidate>, n: nat, out: Candidate, i: nat)
    requires Ranked(s) && i < n <= |s| && out in multiset(s[n..])
    ensures !Better(out, s[i])
  {
    hide Better;
    KeptElement(s, n, out);
  }

  /** One more candidate: sorting it in and cutting the list keeps the best. */
  lemma TopStep(all: multiset<Candidate>, limit: nat, top: seq<Candidate>, c: Candidate, sorted: seq<Candidate>)
    requires TopOf(all, limit, top) && Ranked(sorted) && multiset(sorted) == multiset(top) + multiset{c}
    ensures TopOf(all + multiset{c}, limit, if |sorted| > limit then sorted[..limit] else sorted)
  {
    hide Better, Ranked;
    var n := if |sorted| > limit then limit else |sorted|;
    var next, rest := sorted[..n], sorted[n..];
    CutParts(sorted, n);
    PrefixIsRanked(sorted, n);
    KeptIsThere(all, multiset(top), c, multiset(next), multiset(rest));
    forall out, i | out in all + multiset{c} - multiset(next) && 0 <= i < |next| ensures !Better(out, next[i]) {
      LeftOutWhere(all, multiset(top), c, multiset(next), multiset(rest), out);
      if out in multiset(rest) { RestIsNoBetter(sorted, n, out, i); } else { LeftOut(all, limit, top, c, sorted, out, i); }
    }
    assert next == if |sorted| > limit then sorted[..limit] else sorted;
  }

  /** A candidate that was left out before ranks before nothing that stays. */
  lemma LeftOut(all: multiset<Candidate>, limit: nat, top: seq<Candidate>, c: Candidate, sorted: seq<Candidate>, out: Candidate, i: nat)
    requires TopOf(all, limit, top) && Ranked(sorted) && multiset(sorted) == multiset(top) + multiset{c}
    requires out in all - multiset(top) && 0 <= i < limit && i < |sorted|
    ensures !Better(out, sorted[i])
  {
    Cardinality(all, top, out);
    assert |sorted| == |multiset(sorted)| == limit + 1;
    OneOfTwo(top, c, sorted, i);
    var k := if sorted[i] in multiset(top) then i else i + 1;
    var m :| 0 <= m < |top| && top[m] == sorted[k];
    assert !Better(out, top[m]);
    assert k > i ==> !Better(sorted[k], sorted[i]);
  }

  lemma Cardinality(all: multiset<Candidate>, top: seq<Candidate>, out: Candidate)
    requires multiset(top) <= all && out in all - multiset(top)
    ensures |top| < |all|
  {
    var left := all - multiset(top);
    assert all == multiset(top) + left;
    NotEmpty(left, out);
  }

  /** Of two neighbours at least one was there before. */
  lemma OneOfTwo(top: seq<Candidate>, c: Candidate, sorted: seq<Candidate>, i: nat)
    requires multiset(sorted) == multiset(top) + multiset{c} && i + 1 < |sorted|
    ensures sorted[i] in multiset(top) || sorted[i + 1] in multiset(top)
  {
    assert sorted[i] in multiset(sorted) && sorted[i + 1] in multiset(sorted);
    if sorted[i] == c && sorted[i + 1] == c { Twice(sorted, i, c); }
  }

  lemma NotEmpty(m: multiset<Candidate>, x: Candidate)
    requires x in m
    ensures |m| > 0
  {
    assert m == m[x := 0] + multiset{x}[x := m[x]];
  }

  lemma Twice(s: seq<Candidate>, i: nat, c: Candidate)
    requires i + 1 < |s| && s[i] == c && s[i + 1] == c
    ensures multiset(s)[c] >= 2
  {
    assert s == s[..i] + [c] + [c] + s[i + 2..];
  }

  // --------------------------------------------------------- the search loop

  /** A file of a store: whether it can be loaded, and the scores of its chunks. */
  datatype File = File(id: int, loads: bool, scores: seq<real>)

  predicate Qualifies(score: real, threshold: real) { score > 0.0 && score >= threshold }

  function OfChunks(id: int, scores: seq<real>, threshold: real): multiset<Candidate> {
    if scores == [] then multiset{}
    else
      var n := |scores| - 1;
      OfChunks(id, scores[..n], threshold) + if Qualifies(scores[n], threshold) then multiset{Candidate(scores[n], id, n)} else multiset{}
  }

  function OfFiles(files: seq<File>, threshold: real): multiset<Candidate> {
    if files == [] then multiset{}
    else OfFiles(files[..|files| - 1], threshold) + OfChunks(files[|files| - 1].id, files[|files| - 1].scores, threshold)
  }

  /** Every chunk of every file of every store that scores at least the threshold. */
  function OfStores(stores: seq<seq<File>>, threshold: real): multiset<Candidate> {
    if stores == [] then multiset{} else OfStores(stores[..|stores| - 1], threshold) + OfFiles(stores[|stores| - 1], threshold)
  }

  lemma OneMore(all: multiset<Candidate>, chunks: multiset<Candidate>, c: Candidate)
    ensures all + (chunks + multiset{c}) == all + chunks + multiset{c}
    ensures all + (chunks + multiset{}) == all + chunks
  {
  }

  method SearchFile(file: File, threshold: real, limit: nat, before: seq<Candidate>, ghost all: multiset<Candidate>) returns (results: seq<Candidate>)
    requires TopOf(all, limit, before)
    ensures TopOf(all + OfChunks(file.id, file.scores, threshold), limit, results)
  {
    hide TopOf, Better;
    results := before;
    var ordinal := 0;
    assert file.scores[..0] == [] && all + multiset{} == all;
    while ordinal < |file.scores|
      invariant 0 <= ordinal <= |file.scores|
      invariant TopOf(all + OfChunks(file.id, file.scores[..ordinal], threshold), limit, results)
    {
      var score := file.scores[ordinal];
      assert file.scores[..ordinal + 1][..ordinal] == file.scores[..ordinal];
      ghost var counted := all + OfChunks(file.id, file.scores[..ordinal], threshold);
      if score <= 0.0 || score < threshold {
        OneMore(all, OfChunks(file.id, file.scores[..ordinal], threshold), Candidate(score, file.id, ordinal));
      } else {
        var c := Candidate(score, file.id, ordinal);
        var sorted := Sort(results + [c]);
        TopStep(counted, limit, results, c, sorted);
        results := sorted;
        if |results| > limit { results := results[..limit]; }
        OneMore(all, OfChunks(file.id, file.scores[..ordinal], threshold), c);
      }
      ordinal := ordinal + 1;
    }
    assert file.scores[..ordinal] == file.scores;
  }

  method SearchFiles(files: seq<File>, threshold: real, limit: nat, before: seq<Candidate>, ghost all: multiset<Candidate>)
    returns (results: Option<seq<Candidate>>)
    requires TopOf(all, limit, before)
    ensures results.Some? <==> forall j :: 0 <= j < |files| ==> files[j].loads
    ensures results.Some? ==> TopOf(all + OfFiles(files, threshold), limit, results.value)
  {
    hide TopOf, OfChunks;
    var top := before;
    var n := 0;
    assert files[..0] == [] && all + multiset{} == all;
    while n < |files|
      invariant 0 <= n <= |files| && TopOf(all + OfFiles(files[..n], threshold), limit, top)
      invariant forall j :: 0 <= j < n ==> files[j].loads
    {
      if !files[n].loads { return None; }
      assert files[..n + 1][..n] == files[..n];
      ghost var counted := all + OfFiles(files[..n], threshold);
      top := SearchFile(files[n], threshold, limit, top, counted);
      assert all + OfFiles(files[..n + 1], threshold) == counted + OfChunks(files[n].id, files[n].scores, threshold);
      n := n + 1;
    }
    assert files[..n] == files;
    return Some(top);
  }

  /** The order of results, spelled out: a higher score first; at equal scores the smaller file id, and within a file the
      smaller ordinal. */
  predicate NotAfter(a: Candidate, b: Candidate) {
    a.score > b.score
    || (a.score == b.score && (a.fileId < b.fileId || (a.fileId == b.fileId && a.ordinal <= b.ordinal)))
  }

  /** A chunk of some file of some store whose score is positive and reaches the threshold. */
  ghost predicate IsHit(stores: seq<seq<File>>, threshold: real, c: Candidate) {
    exists i, j :: 0 <= i < |stores| && 0 <= j < |stores[i]| && HitIn(stores[i][j], threshold, c)
  }

  predicate HitIn(file: File, threshold: real, c: Candidate) {
    c.fileId == file.id && c.ordinal < |file.scores| && file.scores[c.ordinal] == c.score && c.score > 0.0 && c.score >= threshold
  }

  lemma ChunkNext(file: File, n: nat, threshold: real)
    requires n < |file.scores|
    ensures OfChunks(file.id, file.scores[..n + 1], threshold)
            == OfChunks(file.id, file.scores[..n], threshold)
               + if Qualifies(file.scores[n], threshold) then multiset{Candidate(file.scores[n], file.id, n)} else multiset{}
  {
    assert file.scores[..n + 1][..n] == file.scores[..n];
  }

  lemma {:induction false} ChunkHits(file: File, n: nat, threshold: real, c: Candidate)
    requires n <= |file.scores|
    ensures c in OfChunks(file.id, file.scores[..n], threshold) <==> c.ordinal < n && HitIn(file, threshold, c)
  {
    if n > 0 {
      hide OfChunks;
      ChunkHits(file, n - 1, threshold, c);
      ChunkNext(file, n - 1, threshold);
    }
  }

  lemma {:induction false} FileHits(files: seq<File>, threshold: real, c: Candidate)
    ensures c in OfFiles(files, threshold) <==> exists j :: 0 <= j < |files| && HitIn(files[j], threshold, c)
  {
    hide OfChunks, HitIn;
    if files != [] {
      var init, last := files[..|files| - 1], files[|files| - 1];
      FileHits(init, threshold, c);
      ChunkHits(last, |last.scores|, threshold, c);
      assert last.scores[..|last.scores|] == last.scores;
      assert files == init + [last];
      HitIsInside(last, threshold, c);
    }
  }

  lemma HitIsInside(file: File, threshold: real, c: Candidate)
    ensures HitIn(file, threshold, c) ==> c.ordinal < |file.scores|
  {
  }

  lemma {:induction false} StoreHits(stores: seq<seq<File>>, threshold: real, c: Candidate)
    ensures c in OfStores(stores, threshold) <==> IsHit(stores, threshold, c)
  {
    hide OfFiles, HitIn;
    if stores != [] {
      var init, last := stores[..|stores| - 1], stores[|stores| - 1];
      StoreHits(init, threshold, c);
      FileHits(last, threshold, c);
      assert stores == init + [last];
      assert forall i :: 0 <= i < |init| ==> stores[i] == init[i];
    }
  }

  /** The best of all hits, in terms of scores, ids and ordinals: the results are hits in order, no more than the limit, and
      a hit that is missing does not come before any result. */
  ghost predicate BestHits(stores: seq<seq<File>>, threshold: real, limit: nat, top: seq<Candidate>) {
    && |top| <= limit && (forall i :: 0 <= i < |top| ==> IsHit(stores, threshold, top[i]))
    && (forall i, j :: 0 <= i < j < |top| ==> NotAfter(top[i], top[j]))
    && (forall c :: IsHit(stores, threshold, c) && c !in top ==> |top| == limit && forall i :: 0 <= i < |top| ==> NotAfter(top[i], c))
  }

  lemma TopIsOrdered(stores: seq<seq<File>>, threshold: real, limit: nat, top: seq<Candidate>)
    requires TopOf(OfStores(stores, threshold), limit, top)
    ensures BestHits(stores, threshold, limit, top)
  {
    hide OfStores, IsHit;
    var all := OfStores(stores, threshold);
    forall i | 0 <= i < |top| ensures IsHit(stores, threshold, top[i]) {
      assert top[i] in multiset(top) && multiset(top) <= all;
      StoreHits(stores, threshold, top[i]);
    }
    forall c | IsHit(stores, threshold, c) && c !in top
      ensures |top| == limit && forall i :: 0 <= i < |top| ==> NotAfter(top[i], c)
    {
      StoreHits(stores, threshold, c);
      LeftOutMeansFull(all, limit, top, c);
    }
  }

  lemma LeftOutMeansFull(all: multiset<Candidate>, limit: nat, top: seq<Candidate>, c: Candidate)
    requires TopOf(all, limit, top) && c in all && c !in top
    ensures c in all - multiset(top) && |top| == limit
  {
    hide Ranked, Better;
    assert multiset(top)[c] == 0;
    Cardinality(all, top, c);
  }

  /** The loop of `searchVectorStores`: unless a file cannot be loaded, the results are the best `limit` of all
      qualifying chunks, in ranked order. */
  method Search(stores: seq<seq<File>>, threshold: real, limit: nat) returns (results: Option<seq<Candidate>>)
    ensures results.Some? <==> forall i, j :: 0 <= i < |stores| && 0 <= j < |stores[i]| ==> stores[i][j].loads
    ensures results.Some? ==> TopOf(OfStores(stores, threshold), limit, results.value)
    ensures results.Some? ==> BestHits(stores, threshold, limit, results.value)
  {
    var top: seq<Candidate> := [];
    var i := 0;
    assert stores[..0] == [];
    assert TopOf(multiset{}, limit, top);
    hide TopOf, OfFiles, BestHits, IsHit, NotAfter, Better;
    while i < |stores|
      invariant 0 <= i <= |stores| && TopOf(OfStores(stores[..i], threshold), limit, top)
      invariant forall k, j :: 0 <= k < i && 0 <= j < |stores[k]| ==> stores[k][j].loads
    {
      var next := SearchFiles(stores[i], threshold, limit, top, OfStores(stores[..i], threshold));
      if next.None? { return None; }
      top := next.value;
      assert stores[..i + 1][..i] == stores[..i];
      i := i + 1;
    }
    assert stores[..i] == stores;
    TopIsOrdered(stores, threshold, limit, top);
    return Some(top);
  }

  // ------------------------------------------------------------- unique

  /** How many of `s` rank before `x`. */
  function CountBetter(s: seq<Candidate>, x: Candidate): nat {
    if s == [] then 0 else CountBetter(s[..|s| - 1], x) + if Better(s[|s| - 1], x) then 1 else 0
  }

  lemma {:induction false} CountPrefix(s: seq<Candidate>, n: nat, x: Candidate)
    requires n <= |s| && forall i :: 0 <= i < n ==> Better(s[i], x)
    ensures CountBetter(s, x) >= n
  {
    if |s| > n {
      CountPrefix(s[..|s| - 1], n, x);
    } else if n > 0 {
      CountPrefix(s[..n - 1], n - 1, x);
    }
  }

  lemma {:induction false} CountAtMost(s: seq<Candidate>, n: nat, x: Candidate)
    requires n <= |s| && forall i :: n <= i < |s| ==> !Better(s[i], x)
    ensures CountBetter(s, x) <= n
  {
    if |s| > n {
      CountAtMost(s[..|s| - 1], n, x);
    } else if n > 0 {
      CountAtMost(s[..n - 1], n - 1, x);
    }
  }

  lemma {:induction false} CountAppend(a: seq<Candidate>, b: seq<Candidate>, x: Candidate)
    ensures CountBetter(a + b, x) == CountBetter(a, x) + CountBetter(b, x)
  {
    if b == [] {
      assert a + b == a;
    } else {
      CountAppend(a, b[..|b| - 1], x);
      assert (a + b)[..|a + b| - 1] == a + b[..|b| - 1];
    }
  }

  lemma RemoveAt(b: seq<Candidate>, k: nat)
    requires k < |b|
    ensures multiset(b[..k] + b[k + 1..]) == multiset(b) - multiset{b[k]}
  {
    assert b == b[..k] + [b[k]] + b[k + 1..];
  }

  lemma CountRemoved(b: seq<Candidate>, k: nat, x: Candidate)
    requires k < |b|
    ensures CountBetter(b, x) == CountBetter(b[..k] + b[k + 1..], x) + if Better(b[k], x) then 1 else 0
  {
    assert b == b[..k] + ([b[k]] + b[k + 1..]);
    CountAppend(b[..k], b[k + 1..], x);
    CountAppend(b[..k], [b[k]] + b[k + 1..], x);
    CountAppend([b[k]], b[k + 1..], x);
    assert [b[k]][..0] == [];
  }

  /** The count does not depend on the arrangement. */
  lemma {:induction false} CountRearranged(a: seq<Candidate>, b: seq<Candidate>, x: Candidate)
    requires multiset(a) == multiset(b)
    ensures CountBetter(a, x) == CountBetter(b, x)
    decreases |a|
  {
    assert |a| == |multiset(a)| == |b|;
    if a != [] {
      var n := |a| - 1;
      assert a[n] in multiset(b);
      var k :| 0 <= k < |b| && b[k] == a[n];
      RemoveAt(a, n);
      assert a[..n] + a[n + 1..] == a[..n];
      RemoveAt(b, k);
      CountRearranged(a[..n], b[..k] + b[k + 1..], x);
      CountRemoved(b, k, x);
    }
  }

  lemma CountInAll(all: seq<Candidate>, limit: nat, top: seq<Candidate>, x: Candidate)
    requires TopOf(multiset(all), limit, top)
    ensures CountBetter(top, x) <= CountBetter(all, x)
    ensures x in multiset(top) ==> CountBetter(all, x) == CountBetter(top, x)
  {
    var rest := Remainder(all, top);
    CountRearranged(top + rest, all, x);
    CountAppend(top, rest, x);
    if x in multiset(top) {
      var i :| 0 <= i < |top| && top[i] == x;
      forall j | 0 <= j < |rest| ensures !Better(rest[j], x) { assert rest[j] in multiset(rest); }
      CountAtMost(rest, 0, x);
    }
  }

  lemma NotBetterThanTop(all: seq<Candidate>, limit: nat, a: seq<Candidate>, b: seq<Candidate>, i: nat)
    requires TopOf(multiset(all), limit, a) && TopOf(multiset(all), limit, b) && i < |a| && i < |b|
    ensures !Better(a[i], b[i])
  {
    CountInAll(all, limit, a, b[i]);
    assert b[i] in multiset(b);
    CountInAll(all, limit, b, b[i]);
    CountAtMost(b, i, b[i]);
    if Better(a[i], b[i]) {
      forall j | 0 <= j <= i ensures Better(a[j], b[i]) { assert j < i ==> !Better(a[i], a[j]); }
      CountPrefix(a, i + 1, b[i]);
    }
  }

  lemma {:induction false} Remainder(all: seq<Candidate>, top: seq<Candidate>) returns (rest: seq<Candidate>)
    requires multiset(top) <= multiset(all)
    ensures multiset(rest) == multiset(all) - multiset(top)
    ensures multiset(top + rest) == multiset(all)
    decreases |top|
  {
    if top == [] {
      rest := all;
    } else {
      var last, init := top[|top| - 1], top[..|top| - 1];
      assert top == init + [last];
      var more := Remainder(all, init);
      assert last in multiset(more);
      var k :| 0 <= k < |more| && more[k] == last;
      rest := more[..k] + more[k + 1..];
      RemoveAt(more, k);
      assert multiset(top) == multiset(init) + multiset{last};
      assert multiset(rest) == multiset(all) - multiset(top);
    }
  }

  /** The best `limit` are the same whatever the order of the chunks and of the sort, up to ties in rank. */
  lemma TopIsUnique(all: seq<Candidate>, limit: nat, a: seq<Candidate>, b: seq<Candidate>)
    requires TopOf(multiset(all), limit, a) && TopOf(multiset(all), limit, b)
    ensures a == b
  {
    forall i | 0 <= i < |a| ensures Tied(a[i], b[i]) {
      NotBetterThanTop(all, limit, a, b, i);
      NotBetterThanTop(all, limit, b, a, i);
    }
  }

  // ------------------------------------------------------------------- cosine

  /** A term with the number of times it occurs; term lists name every term once. */
  datatype Term = Term(term: string, frequency: nat)

  predicate Distinct(terms: seq<Term>) { forall i, j :: 0 <= i < j < |terms| ==> terms[i].term != terms[j].term }

  function Frequency(terms: seq<Term>, term: string): nat {
    if terms == [] then 0
    else if terms[|terms| - 1].term == term then terms[|terms| - 1].frequency else Frequency(terms[..|terms| - 1], term)
  }

  function Dot(left: seq<Term>, right: seq<Term>): nat {
    if left == [] then 0
    else Dot(left[..|left| - 1], right) + left[|left| - 1].frequency * Frequency(right, left[|left| - 1].term)
  }

  function Norm(terms: seq<Term>): nat {
    if terms == [] then 0
    else Norm(terms[..|terms| - 1]) + terms[|terms| - 1].frequency * terms[|terms| - 1].frequency
  }

  /** The squares of the right frequencies at the terms on the left. */
  function Shared(left: seq<Term>, right: seq<Term>): nat {
    if left == [] then 0
    else
      var f := Frequency(right, left[|left| - 1].term);
      Shared(left[..|left| - 1], right) + f * f
  }

  lemma Square(x: int)
    ensures x * x >= 0
  {
  }

  lemma SquareOrder(x: int, y: int)
    requires x >= 0 && x * x >= y * y
    ensures x >= y
  {
    if x < y { assert x * x <= x * y && x * y < y * y by { Products(x, y); } }
  }

  lemma Products(x: int, y: int)
    requires 0 <= x < y
    ensures x * x <= x * y && x * y < y * y
  {
  }

  /** If D*D <= A*B then twice D*a*b is at most A*b*b + a*a*B. */
  lemma MixedTerm(d: nat, p: nat, q: nat, a: nat, b: nat)
    requires d * d <= p * q
    ensures 2 * d * a * b <= p * (b * b) + a * a * q
  {
    var u, v := p * (b * b), a * a * q;
    var w := a * b;
    FourTimes(u, v);
    assert u * v == (p * q) * (w * w) by { Regroup(p, q, a, b); }
    assert (d * d) * (w * w) <= (p * q) * (w * w) by { Square(w); Scale(d * d, p * q, w * w); }
    assert (2 * d * w) * (2 * d * w) == 4 * ((d * d) * (w * w)) by { Doubled(d, w); }
    assert 2 * d * a * b == 2 * d * w by { Associate(d, a, b); }
    SquareOrder(u + v, 2 * d * w);
  }

  lemma FourTimes(u: nat, v: nat)
    ensures (u + v) * (u + v) >= 4 * (u * v)
  {
    Square(u - v);
    assert (u + v) * (u + v) == (u - v) * (u - v) + 4 * (u * v);
  }

  lemma Regroup(p: nat, q: nat, a: nat, b: nat)
    ensures (p * (b * b)) * (a * a * q) == (p * q) * ((a * b) * (a * b))
  {
    calc {
      (p * (b * b)) * (a * a * q);
      == { assert a * a * q == q * (a * a); }
      (p * (b * b)) * (q * (a * a));
      == { Swap(p, b * b, q, a * a); }
      (p * q) * ((b * b) * (a * a));
      == { Swap(b, b, a, a); }
      (p * q) * ((b * a) * (b * a));
    }
  }

  lemma Swap(p: nat, x: nat, q: nat, y: nat)
    ensures (p * x) * (q * y) == (p * q) * (x * y)
  {
    assert (p * x) * (q * y) == p * (x * (q * y));
    assert x * (q * y) == q * (x * y);
    assert p * (q * (x * y)) == (p * q) * (x * y);
  }

  lemma Scale(x: nat, y: nat, k: nat)
    requires x <= y
    ensures x * k <= y * k
  {
  }

  lemma Doubled(d: nat, w: nat)
    ensures (2 * d * w) * (2 * d * w) == 4 * ((d * d) * (w * w))
  {
    var e := d * w;
    assert 2 * d * w == 2 * e;
    assert (2 * e) * (2 * e) == 4 * (e * e);
    Swap(d, w, d, w);
  }

  lemma Associate(d: nat, a: nat, b: nat)
    ensures 2 * d * a * b == 2 * d * (a * b)
  {
  }

  /** The inequality of Cauchy and Schwarz over the terms on the left. */
  lemma {:induction false} DotBound(left: seq<Term>, right: seq<Term>)
    ensures Dot(left, right) * Dot(left, right) <= Norm(left) * Shared(left, right)
  {
    if left != [] {
      var init, last := left[..|left| - 1], left[|left| - 1];
      DotBound(init, right);
      var d, p, q := Dot(init, right), Norm(init), Shared(init, right);
      var a, b := last.frequency, Frequency(right, last.term);
      MixedTerm(d, p, q, a, b);
      Expand(d, p, q, a, b);
    }
  }

  lemma Expand(d: nat, p: nat, q: nat, a: nat, b: nat)
    requires d * d <= p * q && 2 * d * a * b <= p * (b * b) + a * a * q
    ensures (d + a * b) * (d + a * b) <= (p + a * a) * (q + b * b)
  {
    var w := a * b;
    assert (d + w) * (d + w) == d * d + 2 * d * w + w * w;
    Associate(d, a, b);
    assert (p + a * a) * (q + b * b) == p * q + p * (b * b) + a * a * q + (a * a) * (b * b) by { Foil(p, a * a, q, b * b); }
    Swap(a, b, a, b);
  }

  lemma Foil(p: nat, x: nat, q: nat, y: nat)
    ensures (p + x) * (q + y) == p * q + p * y + x * q + x * y
  {
  }

  /** Terms are distinct, so the right frequencies at the left terms are part of the right norm. */
  lemma {:induction false} SharedBound(left: seq<Term>, right: seq<Term>)
    requires Distinct(left) && Distinct(right)
    ensures Shared(left, right) <= Norm(right)
    decreases |right|
  {
    if right == [] {
      NothingShared(left);
    } else {
      var init, last := right[..|right| - 1], right[|right| - 1];
      SharedBound(left, init);
      SharedStep(left, init, last);
      assert right == init + [last];
    }
  }

  lemma {:induction false} NothingShared(left: seq<Term>)
    ensures Shared(left, []) == 0
  {
    if left != [] { NothingShared(left[..|left| - 1]); }
  }

  lemma FrequencySnoc(terms: seq<Term>, last: Term, term: string)
    ensures Frequency(terms + [last], term) == if last.term == term then last.frequency else Frequency(terms, term)
  {
    assert (terms + [last])[..|terms|] == terms;
  }

  lemma {:induction false} Absent(terms: seq<Term>, term: string)
    requires forall i :: 0 <= i < |terms| ==> terms[i].term != term
    ensures Frequency(terms, term) == 0
  {
    if terms != [] { Absent(terms[..|terms| - 1], term); }
  }

  /** One more right term adds at most its own square, and that only once. */
  lemma {:induction false} SharedStep(left: seq<Term>, right: seq<Term>, last: Term)
    requires Distinct(left) && Distinct(right + [last])
    ensures Shared(left, right + [last]) <= Shared(left, right) + last.frequency * last.frequency
    ensures (forall i :: 0 <= i < |left| ==> left[i].term != last.term) ==> Shared(left, right + [last]) == Shared(left, right)
    decreases |left|
  {
    Square(last.frequency);
    if left != [] {
      var n := |left| - 1;
      SharedStep(left[..n], right, last);
      FrequencySnoc(right, last, left[n].term);
      if left[n].term == last.term {
        assert forall i :: 0 <= i < |right| ==> (right + [last])[i] == right[i];
        assert (right + [last])[|right|] == last;
        Absent(right, last.term);
      }
    }
  }

  lemma Chain(d: nat, l: nat, s: nat, r: nat)
    requires d * d <= l * s && s <= r
    ensures d * d <= l * r
  {
    Scale(s, r, l);
    assert s * l == l * s && r * l == l * r;
  }

  /** For all term frequencies dot² is at most the product of the norms. */
  lemma CosineAtMostOne(left: seq<Term>, right: seq<Term>)
    requires Distinct(left) && Distinct(right)
    ensures Dot(left, right) * Dot(left, right) <= Norm(left) * Norm(right)
  {
    hide Dot, Norm, Shared;
    DotBound(left, right);
    SharedBound(left, right);
    Chain(Dot(left, right), Norm(left), Shared(left, right), Norm(right));
  }

  /** So over exact arithmetic the score dot / sqrt(norms) is at most 1, and clamping it to 1 changes nothing. */
  lemma ClampChangesNothing(left: seq<Term>, right: seq<Term>, score: real)
    requires Distinct(left) && Distinct(right) && Norm(left) > 0 && Norm(right) > 0
    requires score >= 0.0 && score * score * (Norm(left) as real * Norm(right) as real) == Dot(left, right) as real * Dot(left, right) as real
    ensures score <= 1.0 && (if score > 1.0 then 1.0 else score) == score
  {
    hide Dot, Norm;
    CosineAtMostOne(left, right);
    var n, d := Norm(left) as real * Norm(right) as real, Dot(left, right) as real * Dot(left, right) as real;
    RealProducts(Norm(left), Norm(right), Dot(left, right));
    AtMostOne(score, n, d);
  }

  lemma AtMostOne(s: real, n: real, d: real)
    requires s >= 0.0 && n > 0.0 && d <= n && s * s * n == d
    ensures s <= 1.0
  {
    if s > 1.0 { RealScale(s, n); }
  }

  lemma RealProducts(l: nat, r: nat, d: nat)
    requires d * d <= l * r && l > 0 && r > 0
    ensures d as real * d as real <= l as real * r as real && l as real * r as real > 0.0
  {
    assert (d * d) as real == d as real * d as real;
    assert (l * r) as real == l as real * r as real;
  }

  lemma RealScale(s: real, n: real)
    requires s > 1.0 && n > 0.0
    ensures s * s * n > n
  {
    assert s * s > 1.0;
  }

  /** The three sums of `lexicalCosine`; `none` says that it returns 0 without dividing. */
  method LexicalCosine(left: seq<Term>, right: seq<Term>) returns (dot: nat, leftNorm: nat, rightNorm: nat, none: bool)
    requires Distinct(left) && Distinct(right)
    ensures dot == Dot(left, right) && leftNorm == Norm(left) && rightNorm == Norm(right)
    ensures dot * dot <= leftNorm * rightNorm && (none <==> dot == 0)
  {
    dot, leftNorm, rightNorm := 0, 0, 0;
    var i := 0;
    assert left[..0] == [] && right[..0] == [];
    while i < |left|
      invariant 0 <= i <= |left| && dot == Dot(left[..i], right) && leftNorm == Norm(left[..i])
    {
      assert left[..i + 1][..i] == left[..i];
      dot := dot + left[i].frequency * Frequency(right, left[i].term);
      leftNorm := leftNorm + left[i].frequency * left[i].frequency;
      i := i + 1;
    }
    assert left[..i] == left;
    i := 0;
    while i < |right|
      invariant 0 <= i <= |right| && rightNorm == Norm(right[..i])
    {
      assert right[..i + 1][..i] == right[..i];
      rightNorm := rightNorm + right[i].frequency * right[i].frequency;
      i := i + 1;
    }
    assert right[..i] == right;
    CosineAtMostOne(left, right);
    none := dot == 0 || leftNorm == 0 || rightNorm == 0;
    if leftNorm == 0 || rightNorm == 0 { Zero(dot, leftNorm, rightNorm); }
  }

  lemma PositiveSquare(d: nat)
    requires d > 0
    ensures d * d > 0
  {
  }

  lemma Zero(d: nat, l: nat, r: nat)
    requires d * d <= l * r && (l == 0 || r == 0)
    ensures d == 0
  {
    assert l * r == 0;
    if d != 0 { PositiveSquare(d); }
  }
}
