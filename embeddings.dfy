/**
 * Embedding cache and semantic ranking.
 *
 * The module-level cache becomes an `EmbeddingCache` object; the embedding
 * provider becomes a function parameter `embed` (None when the call throws),
 * the clock becomes explicit time parameters in milliseconds, and the final
 * floating-point step of cosine similarity becomes a function parameter
 * `quotient`. Similarity scores are reals.
 */
module Embeddings {
  import opened Wrappers
  import opened Sequences
  import opened Knowledge

  type Vector = seq<real>

  /** CACHE_DURATION: 24 hours in milliseconds. */
  const CacheDuration: int := 24 * 60 * 60 * 1000

  /** Number of leading characters of a text that form its cache key. */
  const KeyLength: nat := 100

  /** Scores must be strictly above this to be returned. */
  const Threshold: real := 0.5

  datatype CacheRecord = CacheRecord(embedding: Vector, timestamp: int)

  /** The first 100 characters of the text, or all of it when shorter. */
  function CacheKey(text: string): (key: string)
    ensures key <= text
    ensures |key| == if |text| < KeyLength then |text| else KeyLength
  {
    if |text| < KeyLength then text else text[..KeyLength]
  }

  /** Texts that agree on their first 100 characters share a cache slot. */
  lemma SharedPrefixSharesKey(a: string, b: string)
    requires |a| >= KeyLength && |b| >= KeyLength && a[..KeyLength] == b[..KeyLength]
    ensures CacheKey(a) == CacheKey(b)
  {
  }

  /** Texts shorter than the key length are their own key, so distinct ones never collide. */
  lemma ShortTextsDoNotCollide(a: string, b: string)
    requires |a| < KeyLength && |b| < KeyLength && a != b
    ensures CacheKey(a) != CacheKey(b)
  {
  }

  /** A record may be reused only while it is strictly younger than the cache duration. */
  predicate IsFresh(records: map<string, CacheRecord>, key: string, now: int)
  {
    key in records && now - records[key].timestamp < CacheDuration
  }

  /** The outcome of one lookup: the vector returned (None when the provider threw), the new cache contents, and whether the provider was called. */
  datatype Lookup = Lookup(result: Option<Vector>, records: map<string, CacheRecord>, calledProvider: bool)

  /**
   * getEmbedding as a function of the cache contents: `now` is the clock read when checking
   * a record, `storedAt` the clock read after the provider answered.
   */
  function LookupEmbedding(records: map<string, CacheRecord>, text: string, now: int, storedAt: int,
                           embed: string -> Option<Vector>): Lookup
  {
    var key := CacheKey(text);
    if IsFresh(records, key, now) then
      Lookup(Some(records[key].embedding), records, false)
    else
      match embed(text)
      case None => Lookup(None, records, true)
      case Some(v) => Lookup(Some(v), records[key := CacheRecord(v, storedAt)], true)
  }

  /** A hit returns the stored vector, calls nothing and changes nothing. */
  lemma LookupHit(records: map<string, CacheRecord>, text: string, now: int, storedAt: int, embed: string -> Option<Vector>)
    requires CacheKey(text) in records
    requires now - records[CacheKey(text)].timestamp < CacheDuration
    ensures LookupEmbedding(records, text, now, storedAt, embed) == Lookup(Some(records[CacheKey(text)].embedding), records, false)
  {
  }

  /** A record exactly one cache duration old is already expired: the provider is called. */
  lemma LookupExpiresAtDuration(records: map<string, CacheRecord>, text: string, now: int, storedAt: int, embed: string -> Option<Vector>)
    requires CacheKey(text) in records
    requires now == records[CacheKey(text)].timestamp + CacheDuration
    ensures LookupEmbedding(records, text, now, storedAt, embed).calledProvider
  {
  }

  /** A miss calls the provider once, binds only this text's key to the new vector stamped `storedAt`, and returns it. */
  lemma LookupMiss(records: map<string, CacheRecord>, text: string, now: int, storedAt: int, embed: string -> Option<Vector>)
    requires !IsFresh(records, CacheKey(text), now)
    ensures var l := LookupEmbedding(records, text, now, storedAt, embed);
      && l.calledProvider
      && l.result == embed(text)
      && (l.result.Some? ==> l.records[CacheKey(text)] == CacheRecord(l.result.value, storedAt))
      && (forall k :: k != CacheKey(text) ==> (k in l.records <==> k in records))
      && (forall k :: k in records && k != CacheKey(text) ==> l.records[k] == records[k])
      && (l.result.None? ==> l.records == records)
  {
  }

  /**
   * Two lookups of one text with no fresh record, the second strictly within the cache duration of the
   * first one's store time, return the same vector and call the provider once in total.
   */
  lemma RepeatedLookupHitsCache(records: map<string, CacheRecord>, text: string, now1: int, storedAt1: int,
                                now2: int, storedAt2: int, embed: string -> Option<Vector>)
    requires !IsFresh(records, CacheKey(text), now1)
    requires embed(text).Some?
    requires now2 - storedAt1 < CacheDuration
    ensures var first := LookupEmbedding(records, text, now1, storedAt1, embed);
      var second := LookupEmbedding(first.records, text, now2, storedAt2, embed);
      && first.result == second.result == embed(text)
      && first.calledProvider && !second.calledProvider
      && second.records == first.records
  {
    var first := LookupEmbedding(records, text, now1, storedAt1, embed);
    assert first.records[CacheKey(text)] == CacheRecord(embed(text).value, storedAt1);
    LookupHit(first.records, text, now2, storedAt2, embed);
  }

  /** Texts sharing a key get the same vector from a fresh record, whatever their remaining characters. */
  lemma SharedKeySharesVector(records: map<string, CacheRecord>, a: string, b: string, now: int, storedAt: int,
                              embed: string -> Option<Vector>)
    requires CacheKey(a) == CacheKey(b)
    requires IsFresh(records, CacheKey(a), now)
    ensures LookupEmbedding(records, a, now, storedAt, embed).result == LookupEmbedding(records, b, now, storedAt, embed).result
  {
  }

  /** Dot product of the first |a| components. */
  function Dot(a: Vector, b: Vector): real
    requires |a| == |b|
    decreases |a|
  {
    if |a| == 0 then 0.0 else Dot(a[..|a| - 1], b[..|b| - 1]) + a[|a| - 1] * b[|b| - 1]
  }

  lemma {:induction false} DotSymmetric(a: Vector, b: Vector)
    requires |a| == |b|
    ensures Dot(a, b) == Dot(b, a)
    decreases |a|
  {
    if |a| > 0 {
      DotSymmetric(a[..|a| - 1], b[..|b| - 1]);
    }
  }

  /** A squared norm is never negative. */
  lemma {:induction false} SquaredNormNonNegative(a: Vector)
    ensures Dot(a, a) >= 0.0
    decreases |a|
  {
    if |a| > 0 {
      SquaredNormNonNegative(a[..|a| - 1]);
      var x := a[|a| - 1];
      assert x * x >= 0.0;
    }
  }

  /** The error cosineSimilarity throws on vectors of different lengths. */
  const LengthMismatch: string := "Vectors must have the same length"

  /**
   * cosineSimilarity: rejects vectors of different lengths, otherwise accumulates the dot
   * product and both squared norms over every index and hands them to `quotient`, which
   * stands for dot / (sqrt(normA) * sqrt(normB)) in floating point.
   */
  method CosineSimilarity(vecA: Vector, vecB: Vector, quotient: (real, real, real) -> real)
    returns (r: Result<real, string>)
    ensures r.Failure? <==> |vecA| != |vecB|
    ensures r.Failure? ==> r.error == LengthMismatch
    ensures r.Success? ==> |vecA| == |vecB| && r.value == quotient(Dot(vecA, vecB), Dot(vecA, vecA), Dot(vecB, vecB))
  {
    if |vecA| != |vecB| {
      return Failure(LengthMismatch);
    }
    var dotProduct, normA, normB := 0.0, 0.0, 0.0;
    var i := 0;
    while i < |vecA|
      invariant 0 <= i <= |vecA|
      invariant dotProduct == Dot(vecA[..i], vecB[..i])
      invariant normA == Dot(vecA[..i], vecA[..i])
      invariant normB == Dot(vecB[..i], vecB[..i])
    {
      assert vecA[..i + 1][..i] == vecA[..i];
      assert vecB[..i + 1][..i] == vecB[..i];
      dotProduct := dotProduct + vecA[i] * vecB[i];
      normA := normA + vecA[i] * vecA[i];
      normB := normB + vecB[i] * vecB[i];
      i := i + 1;
    }
    assert vecA[..i] == vecA && vecB[..i] == vecB;
    r := Success(quotient(dotProduct, normA, normB));
  }

  /** An entry paired with its similarity to the query. */
  datatype Scored = Scored(entry: KnowledgeEntry, similarity: real)

  predicate IsRelevant(x: Scored)
  {
    x.similarity > Threshold
  }

  ghost predicate SortedBySimilarity(s: seq<Scored>)
  {
    forall i, j :: 0 <= i < j < |s| ==> s[i].similarity >= s[j].similarity
  }

  /** The elements of `s` with one given score, in their order in `s`. */
  function WithSimilarity(s: seq<Scored>, v: real): seq<Scored>
  {
    Filter(s, (x: Scored) => x.similarity == v)
  }

  /** Every element of a permutation of `t` plus `x` is bounded by what bounds `t` and `x`. */
  lemma BoundedBy(t: seq<Scored>, rest: seq<Scored>, x: Scored, bound: real)
    requires multiset(rest) == multiset(t) + multiset{x}
    requires forall y :: y in t ==> y.similarity <= bound
    requires x.similarity <= bound
    ensures forall y :: y in rest ==> y.similarity <= bound
  {
    forall y | y in rest
      ensures y.similarity <= bound
    {
      assert y in multiset(rest);
      if y != x {
        assert y in multiset(t);
      }
    }
  }

  /** A sorted list stays sorted under a new head scoring at least as much as all of it. */
  lemma ConsSorted(x: Scored, t: seq<Scored>)
    requires SortedBySimilarity(t)
    requires forall y :: y in t ==> y.similarity <= x.similarity
    ensures SortedBySimilarity([x] + t)
  {
    var r := [x] + t;
    forall i, j | 0 <= i < j < |r|
      ensures r[i].similarity >= r[j].similarity
    {
      if i == 0 {
        assert r[j] in t;
      } else {
        assert r[i] == t[i - 1] && r[j] == t[j - 1];
      }
    }
  }

  /** In a sorted list, the head bounds every element. */
  lemma HeadBoundsSorted(t: seq<Scored>)
    requires SortedBySimilarity(t)
    ensures |t| > 0 ==> forall y :: y in t ==> y.similarity <= t[0].similarity
  {
    forall y | y in t
      ensures y.similarity <= t[0].similarity
    {
      var i :| 0 <= i < |t| && t[i] == y;
      assert i == 0 || t[0].similarity >= t[i].similarity;
    }
  }

  /** Places `x` before the first element scoring no more than it. */
  function InsertBySimilarity(x: Scored, t: seq<Scored>): (r: seq<Scored>)
    requires SortedBySimilarity(t)
    ensures SortedBySimilarity(r)
    ensures multiset(r) == multiset(t) + multiset{x}
    decreases |t|
  {
    if |t| == 0 || x.similarity >= t[0].similarity then
      HeadBoundsSorted(t);
      ConsSorted(x, t);
      [x] + t
    else
      var rest := InsertBySimilarity(x, t[1..]);
      assert t == [t[0]] + t[1..];
      HeadBoundsSorted(t);
      assert forall y :: y in t[1..] ==> y in t;
      BoundedBy(t[1..], rest, x, t[0].similarity);
      ConsSorted(t[0], rest);
      [t[0]] + rest
  }

  /**
   * The ranking's sort: a stable sort by decreasing similarity
   * (ECMAScript 2019 requires Array.prototype.sort to be stable).
   */
  function SortBySimilarity(s: seq<Scored>): (r: seq<Scored>)
    ensures SortedBySimilarity(r)
    ensures multiset(r) == multiset(s)
    ensures |r| == |s|
    decreases |s|
  {
    if |s| == 0 then []
    else
      assert s == [s[0]] + s[1..];
      InsertBySimilarity(s[0], SortBySimilarity(s[1..]))
  }

  lemma {:induction false} InsertKeepsTies(x: Scored, t: seq<Scored>, v: real)
    requires SortedBySimilarity(t)
    ensures WithSimilarity(InsertBySimilarity(x, t), v) ==
            if x.similarity == v then [x] + WithSimilarity(t, v) else WithSimilarity(t, v)
    decreases |t|
  {
    if |t| == 0 || x.similarity >= t[0].similarity {
      FilterAppend([x], t, (y: Scored) => y.similarity == v);
    } else {
      InsertKeepsTies(x, t[1..], v);
      FilterAppend([t[0]], InsertBySimilarity(x, t[1..]), (y: Scored) => y.similarity == v);
      FilterAppend([t[0]], t[1..], (y: Scored) => y.similarity == v);
      assert t == [t[0]] + t[1..];
    }
  }

  /** Stability: elements with equal scores keep their input order. */
  lemma {:induction false} SortIsStable(s: seq<Scored>, v: real)
    ensures WithSimilarity(SortBySimilarity(s), v) == WithSimilarity(s, v)
    decreases |s|
  {
    if |s| > 0 {
      SortIsStable(s[1..], v);
      InsertKeepsTies(s[0], SortBySimilarity(s[1..]), v);
      FilterAppend([s[0]], s[1..], (y: Scored) => y.similarity == v);
      assert s == [s[0]] + s[1..];
    }
  }

  /** On a list sorted by decreasing score the relevant elements form a prefix. */
  lemma {:induction false} RelevantFormPrefix(s: seq<Scored>)
    requires SortedBySimilarity(s)
    ensures Filter(s, IsRelevant) <= s
    decreases |s|
  {
    if |s| > 0 {
      if IsRelevant(s[0]) {
        RelevantFormPrefix(s[1..]);
      } else {
        assert forall x :: x in s[1..] ==> !IsRelevant(x);
        FilterKeepsNone(s[1..], IsRelevant);
      }
    }
  }

  /** On a list sorted by decreasing score, once the head is not relevant nothing is. */
  lemma IrrelevantHeadLeavesNothing(s: seq<Scored>)
    requires SortedBySimilarity(s)
    requires |s| > 0 && !IsRelevant(s[0])
    ensures Filter(s, IsRelevant) == []
  {
    forall x | x in s
      ensures !IsRelevant(x)
    {
      var i :| 0 <= i < |s| && s[i] == x;
      assert i == 0 || s[0].similarity >= s[i].similarity;
    }
    FilterKeepsNone(s, IsRelevant);
  }

  /** With an irrelevant head, both orders of taking and filtering leave nothing. */
  lemma IrrelevantHeadCommutes(s: seq<Scored>, topK: int)
    requires SortedBySimilarity(s)
    requires |s| > 0 && !IsRelevant(s[0]) && topK > 0
    ensures Filter(Take(s, topK), IsRelevant) == []
    ensures Take(Filter(s, IsRelevant), topK) == []
  {
    IrrelevantHeadLeavesNothing(s);
    var t := Take(s, topK);
    assert t[0] == s[0];
    assert SortedBySimilarity(t);
    IrrelevantHeadLeavesNothing(t);
  }

  /** On a list sorted by decreasing score, taking the first `topK` and then filtering equals filtering and then taking. */
  lemma {:induction false} TakeThenFilterCommutes(s: seq<Scored>, topK: int)
    requires SortedBySimilarity(s)
    requires topK >= 0
    ensures Filter(Take(s, topK), IsRelevant) == Take(Filter(s, IsRelevant), topK)
    decreases |s|
  {
    if |s| == 0 || topK == 0 {
      assert Take(s, topK) == [];
      assert Take(Filter(s, IsRelevant), topK) == [];
    } else if IsRelevant(s[0]) {
      var rest := Take(s[1..], topK - 1);
      TakeCons(s, topK);
      FilterAppend([s[0]], rest, IsRelevant);
      TakeThenFilterCommutes(s[1..], topK - 1);
      assert Filter(s, IsRelevant) == [s[0]] + Filter(s[1..], IsRelevant);
      TakeCons(Filter(s, IsRelevant), topK);
    } else {
      IrrelevantHeadCommutes(s, topK);
    }
  }

  /** The success path: sort, keep the first `topK`, keep those scoring above the threshold. */
  function Ranked(scored: seq<Scored>, topK: int): seq<Scored>
  {
    Filter(Take(SortBySimilarity(scored), topK), IsRelevant)
  }

  function EntriesOf(s: seq<Scored>): seq<KnowledgeEntry>
  {
    seq(|s|, i requires 0 <= i < |s| => s[i].entry)
  }

  /** The ranking is a prefix of the sorted list, at most `topK` long. */
  lemma RankedIsSortedPrefix(scored: seq<Scored>, topK: int)
    requires topK >= 0
    ensures Ranked(scored, topK) <= SortBySimilarity(scored)
    ensures |Ranked(scored, topK)| <= topK
  {
    var sorted := SortBySimilarity(scored);
    var f := Filter(sorted, IsRelevant);
    TakeThenFilterCommutes(sorted, topK);
    RelevantFormPrefix(sorted);
    var r := Take(f, topK);
    assert r == f[..|r|];
    assert f == sorted[..|f|];
    assert r == sorted[..|r|];
  }

  /** What the ranking keeps: at most `topK`, all above the threshold, in decreasing order. */
  lemma RankedProperties(scored: seq<Scored>, topK: int)
    requires topK >= 0
    ensures |Ranked(scored, topK)| <= topK
    ensures forall x :: x in Ranked(scored, topK) ==> x in scored && x.similarity > Threshold
    ensures SortedBySimilarity(Ranked(scored, topK))
  {
    var sorted := SortBySimilarity(scored);
    var r := Ranked(scored, topK);
    RankedIsSortedPrefix(scored, topK);
    forall x | x in r
      ensures x in scored && x.similarity > Threshold
    {
      assert x in Take(sorted, topK) && IsRelevant(x);
      assert x in multiset(sorted);
    }
    assert forall i :: 0 <= i < |r| ==> r[i] == sorted[i];
  }

  /** Among entries with the same score, the ranking keeps some of them, in their input order. */
  lemma RankedKeepsTieOrder(scored: seq<Scored>, topK: int, v: real)
    requires topK >= 0
    ensures WithSimilarity(Ranked(scored, topK), v) <= WithSimilarity(scored, v)
  {
    var sorted := SortBySimilarity(scored);
    var r := Ranked(scored, topK);
    RankedIsSortedPrefix(scored, topK);
    assert r == sorted[..|r|];
    FilterPrefix(sorted, |r|, (y: Scored) => y.similarity == v);
    SortIsStable(scored, v);
  }

  /** The ranking of nothing is nothing. */
  lemma RankedEmpty(topK: int)
    ensures Ranked([], topK) == []
  {
  }

  /**
   * findRelevantKnowledge as a function of what happened: `scoring` is the scored entries
   * when every embedding and similarity succeeded, None when some step threw, in which case
   * the first `topK` entries are returned unfiltered.
   */
  function FindRelevant(knowledgeEntries: seq<KnowledgeEntry>, scoring: Option<seq<Scored>>, topK: int): (r: seq<KnowledgeEntry>)
    requires scoring.Some? ==> EntriesOf(scoring.value) == knowledgeEntries
    ensures scoring.None? ==> r == Take(knowledgeEntries, topK)
    ensures scoring.Some? ==> r == EntriesOf(Ranked(scoring.value, topK))
    ensures 0 <= topK ==> |r| <= topK
    ensures knowledgeEntries == [] ==> r == []
  {
    match scoring
    case None => Take(knowledgeEntries, topK)
    case Some(scored) =>
      assert |scored| == |knowledgeEntries|;
      EntriesOf(Ranked(scored, topK))
  }

  /** The text embedded for a knowledge entry: its title and content on separate lines. */
  function EntryText(entry: KnowledgeEntry): string
  {
    entry.title + "\n" + entry.content
  }

  /** cosineSimilarity as a value: None where it throws, on vectors of different lengths. */
  function Similarity(a: Vector, b: Vector, quotient: (real, real, real) -> real): (r: Option<real>)
    ensures r.None? <==> |a| != |b|
  {
    if |a| != |b| then None else Some(quotient(Dot(a, b), Dot(a, a), Dot(b, b)))
  }

  /** Similarity with a fixed final floating-point step, as a function value. */
  function SimilarityTo(quotient: (real, real, real) -> real): (Vector, Vector) -> Option<real>
  {
    (a: Vector, b: Vector) => Similarity(a, b, quotient)
  }

  /**
   * What a scoring pass did: the scored entries (None when some step threw), the cache
   * contents afterwards, and how many times the provider was called.
   */
  datatype ScoringRun = ScoringRun(scored: Option<seq<Scored>>, records: map<string, CacheRecord>, calls: nat)

  /** The similarity one entry gets from its lookup `l`: none when the lookup or the scoring failed. */
  function EntryScore(l: Lookup, q: Vector, score: (Vector, Vector) -> Option<real>): (sim: Option<real>)
    ensures l.result.None? ==> sim.None?
    ensures l.result.Some? ==> sim == score(q, l.result.value)
  {
    match l.result
    case None => None
    case Some(v) => score(q, v)
  }

  /**
   * One step of a scoring pass: look up `entry`'s vector through the cache left by `before`
   * and score it against the query vector `q`; a lookup or a similarity that fails ends the pass.
   */
  function ScoreNext(before: ScoringRun, q: Vector, entry: KnowledgeEntry, now: int,
                     embed: string -> Option<Vector>, score: (Vector, Vector) -> Option<real>): (run: ScoringRun)
    requires before.scored.Some?
    ensures run.scored.Some? ==> EntriesOf(run.scored.value) == EntriesOf(before.scored.value) + [entry]
    ensures run.calls <= before.calls + 1
  {
    var l := LookupEmbedding(before.records, EntryText(entry), now, now, embed);
    var calls := before.calls + if l.calledProvider then 1 else 0;
    match EntryScore(l, q, score)
    case None => ScoringRun(None, l.records, calls)
    case Some(sim) =>
      EntriesOfSnoc(before.scored.value, Scored(entry, sim));
      ScoringRun(Some(before.scored.value + [Scored(entry, sim)]), l.records, calls)
  }

  /**
   * Scores `entries` in order against the query vector `q` with `score`, threading the cache
   * through each entry's lookup; the first lookup or similarity that fails ends the pass.
   */
  function ScoreEntries(records: map<string, CacheRecord>, q: Vector, entries: seq<KnowledgeEntry>, now: int,
                        embed: string -> Option<Vector>, score: (Vector, Vector) -> Option<real>): (run: ScoringRun)
    ensures run.scored.Some? ==> EntriesOf(run.scored.value) == entries
    decreases |entries|
  {
    if |entries| == 0 then ScoringRun(Some([]), records, 0)
    else
      var before := ScoreEntries(records, q, entries[..|entries| - 1], now, embed, score);
      if before.scored.None? then before
      else
        assert entries == entries[..|entries| - 1] + [entries[|entries| - 1]];
        ScoreNext(before, q, entries[|entries| - 1], now, embed, score)
  }

  /** Scoring one more entry of `entries` extends the pass over the entries before it by one step. */
  lemma ScoreEntriesStep(records: map<string, CacheRecord>, q: Vector, entries: seq<KnowledgeEntry>, i: nat, now: int,
                         embed: string -> Option<Vector>, score: (Vector, Vector) -> Option<real>)
    requires i < |entries|
    ensures var before := ScoreEntries(records, q, entries[..i], now, embed, score);
      ScoreEntries(records, q, entries[..i + 1], now, embed, score)
      == if before.scored.None? then before else ScoreNext(before, q, entries[i], now, embed, score)
  {
    assert entries[..i + 1][..i] == entries[..i];
  }

  lemma EntriesOfSnoc(s: seq<Scored>, x: Scored)
    ensures EntriesOf(s + [x]) == EntriesOf(s) + [x.entry]
  {
  }

  /** A pass calls the provider at most once per entry. */
  lemma {:induction false} ScoreEntriesCallsBound(records: map<string, CacheRecord>, q: Vector, entries: seq<KnowledgeEntry>, now: int,
                                                  embed: string -> Option<Vector>, score: (Vector, Vector) -> Option<real>)
    ensures ScoreEntries(records, q, entries, now, embed, score).calls <= |entries|
    decreases |entries|
  {
    if |entries| > 0 {
      ScoreEntriesCallsBound(records, q, entries[..|entries| - 1], now, embed, score);
    }
  }

  /** Once a prefix of the entries has failed, the rest of the pass calls nothing and changes nothing. */
  lemma {:induction false} FailureSticks(records: map<string, CacheRecord>, q: Vector, entries: seq<KnowledgeEntry>, k: nat,
                                         now: int, embed: string -> Option<Vector>, score: (Vector, Vector) -> Option<real>)
    requires k <= |entries|
    requires ScoreEntries(records, q, entries[..k], now, embed, score).scored.None?
    ensures ScoreEntries(records, q, entries, now, embed, score) == ScoreEntries(records, q, entries[..k], now, embed, score)
    decreases |entries| - k
  {
    if k == |entries| {
      assert entries[..k] == entries;
    } else {
      var n := |entries|;
      assert entries[..n - 1][..k] == entries[..k];
      FailureSticks(records, q, entries[..n - 1], k, now, embed, score);
    }
  }

  /** The whole scoring pass of findRelevantKnowledge: the query's lookup, then every entry's. */
  function RankingRun(records: map<string, CacheRecord>, query: string, entries: seq<KnowledgeEntry>, now: int,
                      embed: string -> Option<Vector>, quotient: (real, real, real) -> real): (run: ScoringRun)
    ensures run.scored.Some? ==> EntriesOf(run.scored.value) == entries
    ensures run.calls <= |entries| + 1
  {
    var l := LookupEmbedding(records, query, now, now, embed);
    var c := if l.calledProvider then 1 else 0;
    match l.result
    case None => ScoringRun(None, l.records, c)
    case Some(q) =>
      ScoreEntriesCallsBound(l.records, q, entries, now, embed, SimilarityTo(quotient));
      var rest := ScoreEntries(l.records, q, entries, now, embed, SimilarityTo(quotient));
      ScoringRun(rest.scored, rest.records, c + rest.calls)
  }

  /** The cache contents are fresh for the query and for every entry's text. */
  ghost predicate Warm(records: map<string, CacheRecord>, texts: seq<string>, now: int)
  {
    forall i :: 0 <= i < |texts| ==> IsFresh(records, CacheKey(texts[i]), now)
  }

  function EntryTexts(entries: seq<KnowledgeEntry>): seq<string>
  {
    seq(|entries|, i requires 0 <= i < |entries| => EntryText(entries[i]))
  }

  /** With every entry fresh in the cache, scoring calls no provider and leaves the cache as it was. */
  lemma {:induction false} WarmEntriesCostNothing(records: map<string, CacheRecord>, q: Vector, entries: seq<KnowledgeEntry>,
                                                  now: int, embed: string -> Option<Vector>, score: (Vector, Vector) -> Option<real>)
    requires Warm(records, EntryTexts(entries), now)
    ensures ScoreEntries(records, q, entries, now, embed, score).calls == 0
    ensures ScoreEntries(records, q, entries, now, embed, score).records == records
    decreases |entries|
  {
    if |entries| > 0 {
      var n := |entries|;
      assert IsFresh(records, CacheKey(EntryTexts(entries)[n - 1]), now);
      assert EntryTexts(entries[..n - 1]) == EntryTexts(entries)[..n - 1];
      WarmEntriesCostNothing(records, q, entries[..n - 1], now, embed, score);
    }
  }

  /** A repeated query over entries already in the cache is answered from the cache alone. */
  lemma WarmCacheCostsNothing(records: map<string, CacheRecord>, query: string, entries: seq<KnowledgeEntry>,
                              now: int, embed: string -> Option<Vector>, quotient: (real, real, real) -> real)
    requires IsFresh(records, CacheKey(query), now)
    requires Warm(records, EntryTexts(entries), now)
    ensures RankingRun(records, query, entries, now, embed, quotient).calls == 0
    ensures RankingRun(records, query, entries, now, embed, quotient).records == records
  {
    WarmEntriesCostNothing(records, records[CacheKey(query)].embedding, entries, now, embed, SimilarityTo(quotient));
  }

  /**
   * With the provider down and no fresh record for the query, the pass fails after one call,
   * the cache is untouched, and the first `topK` entries come back unranked.
   */
  lemma ProviderDownFallsBack(records: map<string, CacheRecord>, query: string, entries: seq<KnowledgeEntry>, topK: int,
                              now: int, embed: string -> Option<Vector>, quotient: (real, real, real) -> real)
    requires embed(query).None?
    requires !IsFresh(records, CacheKey(query), now)
    ensures var run := RankingRun(records, query, entries, now, embed, quotient);
      && run == ScoringRun(None, records, 1)
      && FindRelevant(entries, run.scored, topK) == Take(entries, topK)
  {
  }

  class EmbeddingCache {
    /** embeddingCache: cache key to record. */
    var records: map<string, CacheRecord>
    /** How many times the embedding provider has been called. */
    ghost var providerCalls: nat

    constructor ()
      ensures records == map[] && providerCalls == 0
    {
      records := map[];
      providerCalls := 0;
    }

    /** getEmbedding. */
    method GetEmbedding(text: string, now: int, storedAt: int, embed: string -> Option<Vector>)
      returns (r: Option<Vector>)
      modifies this
      ensures var key := CacheKey(text);
        if IsFresh(old(records), key, now) then
          r == Some(old(records)[key].embedding) && records == old(records) && providerCalls == old(providerCalls)
        else
          && r == embed(text)
          && providerCalls == old(providerCalls) + 1
          && records == (if r.Some? then old(records)[key := CacheRecord(r.value, storedAt)] else old(records))
      ensures LookupEmbedding(old(records), text, now, storedAt, embed)
              == Lookup(r, records, providerCalls == old(providerCalls) + 1)
    {
      var key := CacheKey(text);
      if key in records {
        var cached := records[key];
        if now - cached.timestamp < CacheDuration {
          return Some(cached.embedding);
        }
      }
      r := embed(text);
      providerCalls := providerCalls + 1;
      if r.Some? {
        records := records[key := CacheRecord(r.value, storedAt)];
      }
    }

    /** clearEmbeddingCache. */
    method Clear()
      modifies this
      ensures records == map[]
      ensures providerCalls == old(providerCalls)
    {
      records := map[];
    }

    /**
     * The callback findRelevantKnowledge maps over the entries: embed the entry's title and
     * content through the cache and score the vector against the query's; None where either throws.
     */
    method ScoreEntry(queryEmbedding: Vector, entry: KnowledgeEntry, now: int,
                      embed: string -> Option<Vector>, quotient: (real, real, real) -> real)
      returns (similarity: Option<real>)
      modifies this
      ensures var l := LookupEmbedding(old(records), EntryText(entry), now, now, embed);
        && similarity == EntryScore(l, queryEmbedding, SimilarityTo(quotient))
        && records == l.records
        && providerCalls == old(providerCalls) + (if l.calledProvider then 1 else 0)
    {
      var entryText := EntryText(entry);
      var entryEmbedding := GetEmbedding(entryText, now, now, embed);
      if entryEmbedding.None? {
        return None;
      }
      var r := CosineSimilarity(queryEmbedding, entryEmbedding.value, quotient);
      if r.Failure? {
        return None;
      }
      similarity := Some(r.value);
    }

    /**
     * The `Promise.all` over the entries, run one entry after the other: each entry's lookup
     * and similarity to the query vector, stopping at the first that throws (None).
     */
    method ComputeSimilarities(queryEmbedding: Vector, knowledgeEntries: seq<KnowledgeEntry>, now: int,
                               embed: string -> Option<Vector>, quotient: (real, real, real) -> real)
      returns (similarities: Option<seq<Scored>>)
      modifies this
      ensures var run := ScoreEntries(old(records), queryEmbedding, knowledgeEntries, now, embed, SimilarityTo(quotient));
        && similarities == run.scored
        && records == run.records
        && providerCalls == old(providerCalls) + run.calls
    {
      ghost var score := SimilarityTo(quotient);
      ghost var run := ScoringRun(Some([]), records, 0);
      var done: seq<Scored> := [];
      var i := 0;
      assert knowledgeEntries[..i] == [];
      while i < |knowledgeEntries|
        invariant 0 <= i <= |knowledgeEntries|
        invariant run == ScoreEntries(old(records), queryEmbedding, knowledgeEntries[..i], now, embed, score)
        invariant run.scored == Some(done) && run.records == records && providerCalls == old(providerCalls) + run.calls
      {
        var entry := knowledgeEntries[i];
        ScoreEntriesStep(old(records), queryEmbedding, knowledgeEntries, i, now, embed, score);
        var similarity := ScoreEntry(queryEmbedding, entry, now, embed, quotient);
        run := ScoreNext(run, queryEmbedding, entry, now, embed, score);
        if similarity.None? {
          FailureSticks(old(records), queryEmbedding, knowledgeEntries, i + 1, now, embed, score);
          return None;
        }
        done := done + [Scored(entry, similarity.value)];
        i := i + 1;
      }
      assert knowledgeEntries[..i] == knowledgeEntries;
      similarities := Some(done);
    }

    /**
     * findRelevantKnowledge, with one clock reading `now` for the whole call. The ghost
     * `scoring` is what the ranking saw.
     */
    method FindRelevantKnowledge(query: string, knowledgeEntries: seq<KnowledgeEntry>, topK: int, now: int,
                                 embed: string -> Option<Vector>, quotient: (real, real, real) -> real)
      returns (r: seq<KnowledgeEntry>, ghost scoring: Option<seq<Scored>>)
      modifies this
      ensures var run := RankingRun(old(records), query, knowledgeEntries, now, embed, quotient);
        && scoring == run.scored
        && records == run.records
        && providerCalls == old(providerCalls) + run.calls
      ensures scoring.Some? ==> EntriesOf(scoring.value) == knowledgeEntries
      ensures r == FindRelevant(knowledgeEntries, scoring, topK)
      ensures providerCalls <= old(providerCalls) + |knowledgeEntries| + 1
    {
      var queryEmbedding := GetEmbedding(query, now, now, embed);
      if queryEmbedding.None? {
        return Take(knowledgeEntries, topK), None;
      }
      var similarities := ComputeSimilarities(queryEmbedding.value, knowledgeEntries, now, embed, quotient);
      scoring := similarities;
      if similarities.None? {
        return Take(knowledgeEntries, topK), scoring;
      }
      r := EntriesOf(Ranked(similarities.value, topK));
    }
  }
}
