/** Hybrid search by Reciprocal Rank Fusion: the score bookkeeping, the ranking and the top-5
    hydration of `elastic_search_hybrid_rrf` and `compute_rrf`. The two Elasticsearch searches
    are replaced by their ranked lists of document ids, and `es_client.get` by a fetch function. */
module Fusion {
  import opened Results
  import opened Seqs

  /** A document id (`hit['_id']`). */
  type Id = string

  /** How many fused documents are hydrated and returned (`reranked_docs[:5]`). */
  const TOP_N: nat := 5

  /** The damping constant `k` used when no other is given. */
  const DEFAULT_K: nat := 60

  /** The `_source` of an indexed document: its id, its primary content and its headings. */
  datatype Document = Document(id: Id, pageContent: string, headers: seq<string>)

  /** One entry of `rrf_scores.items()`: an id with its fused score. */
  datatype Scored = Scored(id: Id, score: real)

  /** The only exception this part raises itself: the index had no document for a fused id. */
  datatype SearchError = HydrationFailed(id: Id)

  predicate Distinct<T(==)>(s: seq<T>)
  {
    forall i, j :: 0 <= i < j < |s| ==> s[i] != s[j]
  }

  function Min(a: int, b: int): int
  {
    if a <= b then a else b
  }

  // ---------------------------------------------------------------------------------------
  // compute_rrf

  /** `compute_rrf(rank, k)`: the reciprocal of `k + rank`. */
  function ComputeRrf(rank: int, k: int): (r: real)
    requires k + rank != 0
    ensures r * (k + rank) as real == 1.0
  {
    1.0 / (k + rank) as real
  }

  /** For a non-negative `k` and a 1-based rank, every contribution is positive. */
  lemma RrfPositive(rank: int, k: int)
    requires k >= 0 && rank >= 1
    ensures ComputeRrf(rank, k) > 0.0
  {
  }

  /** A better (smaller) rank always contributes strictly more. */
  lemma RrfStrictlyDecreasing(rank1: int, rank2: int, k: int)
    requires k >= 0 && 1 <= rank1 < rank2
    ensures ComputeRrf(rank1, k) > ComputeRrf(rank2, k)
  {
    var a, b := (k + rank1) as real, (k + rank2) as real;
    var x, y := ComputeRrf(rank1, k), ComputeRrf(rank2, k);
    RrfPositive(rank2, k);
    assert x * a == 1.0 && y * b == 1.0;
    assert y * a < y * b;
  }

  // ---------------------------------------------------------------------------------------
  // What each branch contributes to an id's score

  /** The score the vector loop leaves for `id`: each occurrence assigns `compute_rrf(rank)`,
      so the last occurrence wins; an absent id gets nothing. */
  function VectorContribution(hits: seq<Id>, id: Id, k: nat): (r: real)
    ensures id !in hits ==> r == 0.0
    ensures id in hits ==> r > 0.0
  {
    if |hits| == 0 then 0.0
    else if hits[|hits| - 1] == id then RrfPositive(|hits|, k); ComputeRrf(|hits|, k)
    else
      SplitLast(hits);
      VectorContribution(hits[..|hits| - 1], id, k)
  }

  /** What the keyword loop adds to `id`'s score: every occurrence adds `compute_rrf(rank)`. */
  function KeywordContribution(hits: seq<Id>, id: Id, k: nat): (r: real)
    ensures r >= 0.0
    ensures id !in hits ==> r == 0.0
    ensures id in hits ==> r > 0.0
  {
    if |hits| == 0 then 0.0
    else
      SplitLast(hits);
      RrfPositive(|hits|, k);
      KeywordContribution(hits[..|hits| - 1], id, k)
        + (if hits[|hits| - 1] == id then ComputeRrf(|hits|, k) else 0.0)
  }

  /** The fused score of `id`: its vector-branch score plus its keyword-branch additions. */
  function FusedScore(vectorHits: seq<Id>, keywordHits: seq<Id>, id: Id, k: nat): real
  {
    VectorContribution(vectorHits, id, k) + KeywordContribution(keywordHits, id, k)
  }

  /** The vector branch assigns: the contribution is that of the last rank at which `id` occurs. */
  lemma {:induction false} VectorContributionIsLastRank(hits: seq<Id>, id: Id, k: nat, i: nat)
    requires i < |hits| && hits[i] == id
    requires forall j :: i < j < |hits| ==> hits[j] != id
    ensures VectorContribution(hits, id, k) == ComputeRrf(i + 1, k)
    decreases |hits|
  {
    if i < |hits| - 1 {
      VectorContributionIsLastRank(hits[..|hits| - 1], id, k, i);
    }
  }

  /** The keyword branch adds: an id found once contributes exactly `compute_rrf` of its rank. */
  lemma {:induction false} KeywordContributionSingleRank(hits: seq<Id>, id: Id, k: nat, i: nat)
    requires i < |hits| && hits[i] == id
    requires forall j :: 0 <= j < |hits| && j != i ==> hits[j] != id
    ensures KeywordContribution(hits, id, k) == ComputeRrf(i + 1, k)
    decreases |hits|
  {
    var n := |hits|;
    if i < n - 1 {
      KeywordContributionSingleRank(hits[..n - 1], id, k, i);
    } else {
      assert id !in hits[..n - 1];
    }
  }

  /** Every occurrence in the keyword branch adds its own term: the contribution of a list
      extended by one hit is the old contribution plus that hit's term. */
  lemma KeywordContributionExtend(hits: seq<Id>, next: Id, id: Id, k: nat)
    ensures KeywordContribution(hits + [next], id, k)
         == KeywordContribution(hits, id, k) + (if next == id then ComputeRrf(|hits| + 1, k) else 0.0)
  {
    assert (hits + [next])[..|hits|] == hits;
  }

  /** Assign versus add, on one repeated id: the vector branch keeps only the last rank, the
      keyword branch sums both. */
  lemma RepeatedIdOverwritesThenAdds()
    ensures VectorContribution(["x", "x"], "x", 60) == 1.0 / 62.0
    ensures KeywordContribution(["x", "x"], "x", 60) == 1.0 / 61.0 + 1.0 / 62.0
  {
    assert ["x", "x"][..1] == ["x"];
    assert ["x"][..0] == [];
  }

  /** An id ranked `rankV` in the vector branch (its last occurrence) and `rankK` in the keyword
      branch (its only one) is scored `1/(k+rankV) + 1/(k+rankK)`; an id absent from one branch
      gets exactly the other branch's contribution. */
  lemma FusedScoreOfRanks(vectorHits: seq<Id>, keywordHits: seq<Id>, id: Id, k: nat, rankV: nat, rankK: nat)
    requires 1 <= rankV <= |vectorHits| && vectorHits[rankV - 1] == id
    requires forall j :: rankV - 1 < j < |vectorHits| ==> vectorHits[j] != id
    requires 1 <= rankK <= |keywordHits| && keywordHits[rankK - 1] == id
    requires forall j :: 0 <= j < |keywordHits| && j != rankK - 1 ==> keywordHits[j] != id
    ensures FusedScore(vectorHits, keywordHits, id, k) == ComputeRrf(rankV, k) + ComputeRrf(rankK, k)
    ensures FusedScore(vectorHits, [], id, k) == ComputeRrf(rankV, k)
    ensures FusedScore([], keywordHits, id, k) == ComputeRrf(rankK, k)
  {
    VectorContributionIsLastRank(vectorHits, id, k, rankV - 1);
    KeywordContributionSingleRank(keywordHits, id, k, rankK - 1);
  }

  /** An id the keyword search did not return scores exactly the term of its last vector
      rank. */
  lemma FusedScoreVectorOnly(vectorHits: seq<Id>, keywordHits: seq<Id>, id: Id, k: nat, rankV: nat)
    requires 1 <= rankV <= |vectorHits| && vectorHits[rankV - 1] == id
    requires forall j :: rankV - 1 < j < |vectorHits| ==> vectorHits[j] != id
    requires id !in keywordHits
    ensures FusedScore(vectorHits, keywordHits, id, k) == ComputeRrf(rankV, k)
  {
    VectorContributionIsLastRank(vectorHits, id, k, rankV - 1);
  }

  /** An id the vector search did not return, found once by the keyword search, scores exactly
      the term of its keyword rank. */
  lemma FusedScoreKeywordOnly(vectorHits: seq<Id>, keywordHits: seq<Id>, id: Id, k: nat, rankK: nat)
    requires 1 <= rankK <= |keywordHits| && keywordHits[rankK - 1] == id
    requires forall j :: 0 <= j < |keywordHits| && j != rankK - 1 ==> keywordHits[j] != id
    requires id !in vectorHits
    ensures FusedScore(vectorHits, keywordHits, id, k) == ComputeRrf(rankK, k)
  {
    KeywordContributionSingleRank(keywordHits, id, k, rankK - 1);
  }

  // ---------------------------------------------------------------------------------------
  // The insertion order of the `rrf_scores` dictionary

  /** The keys of a dictionary that already holds `acc`, after the ids of `s` are set in order:
      an id not yet present is appended, an id already present keeps its place. */
  function AppendNew<T(==, !new)>(acc: seq<T>, s: seq<T>): (r: seq<T>)
    ensures forall x :: x in r <==> x in acc || x in s
  {
    if |s| == 0 then acc
    else
      SplitLast(s);
      var r0 := AppendNew(acc, s[..|s| - 1]);
      if s[|s| - 1] in r0 then r0 else r0 + [s[|s| - 1]]
  }

  /** Setting keys never moves the keys already there, and adds none twice. */
  lemma {:induction false} AppendNewExtends<T(!new)>(acc: seq<T>, s: seq<T>)
    ensures |acc| <= |AppendNew(acc, s)| && AppendNew(acc, s)[..|acc|] == acc
    ensures Distinct(acc) ==> Distinct(AppendNew(acc, s))
    decreases |s|
  {
    if |s| > 0 {
      var init, last := s[..|s| - 1], s[|s| - 1];
      AppendNewExtends(acc, init);
      var r0 := AppendNew(acc, init);
      if last !in r0 {
        var r := r0 + [last];
        assert r[..|acc|] == r0[..|acc|];
        if Distinct(acc) {
          forall i, j | 0 <= i < j < |r| ensures r[i] != r[j] {
            assert r[i] == r0[i];
            if j < |r0| {
              assert r[j] == r0[j];
            }
          }
        }
      }
    }
  }

  /** The key order of `rrf_scores`: vector ids by first appearance, then the keyword ids that
      the vector branch did not have, by first appearance. */
  function InsertionOrder(vectorHits: seq<Id>, keywordHits: seq<Id>): seq<Id>
  {
    AppendNew(AppendNew([], vectorHits), keywordHits)
  }

  /** Every id of either branch is a key exactly once, and the vector ids come first. */
  lemma InsertionOrderKeys(vectorHits: seq<Id>, keywordHits: seq<Id>)
    ensures Distinct(InsertionOrder(vectorHits, keywordHits))
    ensures forall x :: x in InsertionOrder(vectorHits, keywordHits) <==> x in vectorHits || x in keywordHits
    ensures var vectorKeys := AppendNew([], vectorHits);
      |vectorKeys| <= |InsertionOrder(vectorHits, keywordHits)|
      && InsertionOrder(vectorHits, keywordHits)[..|vectorKeys|] == vectorKeys
  {
    assert Distinct<Id>([]);
    AppendNewExtends([], vectorHits);
    AppendNewExtends(AppendNew([], vectorHits), keywordHits);
  }

  /** The elements of `s` that are not in `excluded`, in their order in `s`. */
  function Fresh<T(==, !new)>(s: seq<T>, excluded: seq<T>): (r: seq<T>)
    ensures forall x :: x in r <==> x in s && x !in excluded
  {
    if |s| == 0 then []
    else
      SplitLast(s);
      var rest := Fresh(s[..|s| - 1], excluded);
      if s[|s| - 1] in excluded then rest else rest + [s[|s| - 1]]
  }

  /** Setting the ids of a list without repeats appends exactly those not yet present, in the
      list's order. */
  lemma {:induction false} AppendNewOfDistinct<T(!new)>(acc: seq<T>, s: seq<T>)
    requires Distinct(s)
    ensures AppendNew(acc, s) == acc + Fresh(s, acc)
    decreases |s|
  {
    if |s| > 0 {
      var init, last := s[..|s| - 1], s[|s| - 1];
      assert Distinct(init) by {
        forall i, j | 0 <= i < j < |init| ensures init[i] != init[j] {
          assert init[i] == s[i] && init[j] == s[j];
        }
      }
      assert last !in init by {
        forall i | 0 <= i < |init| ensures init[i] != last {
          assert init[i] == s[i];
        }
      }
      AppendNewOfDistinct(acc, init);
      if last !in acc {
        ConcatAssoc(acc, Fresh(init, acc), [last]);
      }
    }
  }

  /** None of the ids is present yet: all of them are kept. */
  lemma {:induction false} FreshOfNew<T(!new)>(s: seq<T>, excluded: seq<T>)
    requires forall x :: x in s ==> x !in excluded
    ensures Fresh(s, excluded) == s
    decreases |s|
  {
    if |s| > 0 {
      SplitLast(s);
      FreshOfNew(s[..|s| - 1], excluded);
    }
  }

  /** Setting distinct ids none of which is present appends them all, in order. */
  lemma AppendNewOfNew<T(!new)>(acc: seq<T>, s: seq<T>)
    requires Distinct(s) && forall x :: x in s ==> x !in acc
    ensures AppendNew(acc, s) == acc + s
  {
    AppendNewOfDistinct(acc, s);
    FreshOfNew(s, acc);
  }

  /** For hit lists without repeats, as the two searches return them, the key order is the
      vector hits in rank order, then the keyword hits the vector search missed, in rank
      order. */
  lemma InsertionOrderOfDistinctHits(vectorHits: seq<Id>, keywordHits: seq<Id>)
    requires Distinct(vectorHits) && Distinct(keywordHits)
    ensures InsertionOrder(vectorHits, keywordHits) == vectorHits + Fresh(keywordHits, vectorHits)
  {
    AppendNewOfNew([], vectorHits);
    EmptyConcat(vectorHits);
    AppendNewOfDistinct(vectorHits, keywordHits);
  }

  /** `rrf_scores.items()` as the fusion loops leave it. */
  function FusedItems(vectorHits: seq<Id>, keywordHits: seq<Id>, k: nat): (items: seq<Scored>)
    ensures |items| == |InsertionOrder(vectorHits, keywordHits)|
    ensures forall i :: 0 <= i < |items| ==>
      items[i] == Scored(InsertionOrder(vectorHits, keywordHits)[i],
                         FusedScore(vectorHits, keywordHits, InsertionOrder(vectorHits, keywordHits)[i], k))
  {
    var order := InsertionOrder(vectorHits, keywordHits);
    seq(|order|, i requires 0 <= i < |order| => Scored(order[i], FusedScore(vectorHits, keywordHits, order[i], k)))
  }

  /** The fused items hold each id of either search exactly once, each with its fused
      score. */
  lemma FusedItemsKeys(vectorHits: seq<Id>, keywordHits: seq<Id>, k: nat)
    ensures Distinct(Ids(FusedItems(vectorHits, keywordHits, k)))
    ensures forall x :: x in Ids(FusedItems(vectorHits, keywordHits, k)) <==> x in vectorHits || x in keywordHits
    ensures forall i :: 0 <= i < |FusedItems(vectorHits, keywordHits, k)| ==>
      FusedItems(vectorHits, keywordHits, k)[i].score
        == FusedScore(vectorHits, keywordHits, FusedItems(vectorHits, keywordHits, k)[i].id, k)
  {
    var items := FusedItems(vectorHits, keywordHits, k);
    var order := InsertionOrder(vectorHits, keywordHits);
    InsertionOrderKeys(vectorHits, keywordHits);
    assert Ids(items) == order;
  }

  function Ids(items: seq<Scored>): (ids: seq<Id>)
    ensures |ids| == |items| && forall i :: 0 <= i < |items| ==> ids[i] == items[i].id
  {
    seq(|items|, i requires 0 <= i < |items| => items[i].id)
  }

  /** Extending a prefix by one element adds exactly that element to its members. */
  lemma PrefixMembersStep<T>(s: seq<T>, j: nat)
    requires j < |s|
    ensures forall x :: x in s[..j + 1] <==> x in s[..j] || x == s[j]
  {
    assert s[..j + 1] == s[..j] + [s[j]];
  }

  /** Setting one more id: the key order grows by it only when it is new. */
  lemma AppendNewStep<T(!new)>(acc: seq<T>, s: seq<T>, j: nat)
    requires j < |s|
    ensures AppendNew(acc, s[..j + 1])
         == if s[j] in AppendNew(acc, s[..j]) then AppendNew(acc, s[..j]) else AppendNew(acc, s[..j]) + [s[j]]
  {
    PrefixOfPrefix(s, j, j + 1);
  }

  /** One more keyword hit adds its term to its own id and nothing to any other. */
  lemma KeywordContributionStep(hits: seq<Id>, j: nat, id: Id, k: nat)
    requires j < |hits|
    ensures KeywordContribution(hits[..j + 1], id, k)
         == KeywordContribution(hits[..j], id, k) + (if hits[j] == id then ComputeRrf(j + 1, k) else 0.0)
  {
    PrefixOfPrefix(hits, j, j + 1);
  }

  /** One more keyword hit leaves the contribution of every other id unchanged. */
  lemma KeywordContributionOthers(hits: seq<Id>, j: nat, k: nat)
    requires j < |hits|
    ensures forall x :: x != hits[j] ==> KeywordContribution(hits[..j + 1], x, k) == KeywordContribution(hits[..j], x, k)
  {
    forall x | x != hits[j] ensures KeywordContribution(hits[..j + 1], x, k) == KeywordContribution(hits[..j], x, k) {
      KeywordContributionStep(hits, j, x, k);
    }
  }

  /** One more vector hit assigns its term to its own id and leaves every other id's score. */
  lemma VectorContributionOthers(hits: seq<Id>, j: nat, k: nat)
    requires j < |hits|
    ensures VectorContribution(hits[..j + 1], hits[j], k) == ComputeRrf(j + 1, k)
    ensures forall x :: x != hits[j] ==> VectorContribution(hits[..j + 1], x, k) == VectorContribution(hits[..j], x, k)
  {
    PrefixOfPrefix(hits, j, j + 1);
  }

  /** The first fusion loop: each vector hit assigns `compute_rrf(rank + 1, k)` to its id, so a
      repeated id is overwritten; `keys` is the dictionary's insertion order. */
  method AssignVectorScores(vectorHits: seq<Id>, k: nat) returns (keys: seq<Id>, scores: map<Id, real>)
    ensures keys == AppendNew([], vectorHits)
    ensures forall x :: x in scores <==> x in vectorHits
    ensures forall x :: x in scores ==> scores[x] == VectorContribution(vectorHits, x, k)
  {
    keys, scores := [], map[];
    for i := 0 to |vectorHits|
      invariant keys == AppendNew([], vectorHits[..i])
      invariant forall x :: x in scores <==> x in vectorHits[..i]
      invariant forall x :: x in scores ==> scores[x] == VectorContribution(vectorHits[..i], x, k)
    {
      var id := vectorHits[i];
      AppendNewStep([], vectorHits, i);
      PrefixMembersStep(vectorHits, i);
      VectorContributionOthers(vectorHits, i, k);
      ghost var previous := scores;
      if id !in scores {
        keys := keys + [id];
      }
      scores := scores[id := ComputeRrf(i + 1, k)];
      forall x | x in scores ensures scores[x] == VectorContribution(vectorHits[..i + 1], x, k) {
        if x != id {
          assert scores[x] == previous[x];
        }
      }
    }
    WholePrefix(vectorHits);
  }

  /** The second fusion loop: each keyword hit adds `compute_rrf(rank + 1, k)` to an id already
      scored, or inserts the id with that score. */
  method AddKeywordScores(vectorHits: seq<Id>, keywordHits: seq<Id>, k: nat, keys0: seq<Id>, scores0: map<Id, real>)
    returns (keys: seq<Id>, scores: map<Id, real>)
    requires keys0 == AppendNew([], vectorHits)
    requires forall x :: x in scores0 <==> x in vectorHits
    requires forall x :: x in scores0 ==> scores0[x] == VectorContribution(vectorHits, x, k)
    ensures keys == InsertionOrder(vectorHits, keywordHits)
    ensures forall x :: x in scores <==> x in vectorHits || x in keywordHits
    ensures forall x :: x in scores ==> scores[x] == FusedScore(vectorHits, keywordHits, x, k)
  {
    keys, scores := keys0, scores0;
    for j := 0 to |keywordHits|
      invariant keys == AppendNew(keys0, keywordHits[..j])
      invariant forall x :: x in scores <==> x in vectorHits || x in keywordHits[..j]
      invariant forall x :: x in scores ==>
        scores[x] == VectorContribution(vectorHits, x, k) + KeywordContribution(keywordHits[..j], x, k)
    {
      var id := keywordHits[j];
      var term := ComputeRrf(j + 1, k);
      AppendNewStep(keys0, keywordHits, j);
      PrefixMembersStep(keywordHits, j);
      KeywordContributionStep(keywordHits, j, id, k);
      KeywordContributionOthers(keywordHits, j, k);
      ghost var previous := scores;
      if id in scores {
        scores := scores[id := scores[id] + term];
      } else {
        keys := keys + [id];
        scores := scores[id := term];
      }
      forall x | x in scores
        ensures scores[x] == VectorContribution(vectorHits, x, k) + KeywordContribution(keywordHits[..j + 1], x, k)
      {
        if x != id {
          assert scores[x] == previous[x];
        }
      }
    }
    WholePrefix(keywordHits);
  }

  /** The two fusion loops of `elastic_search_hybrid_rrf`, returning `rrf_scores.items()` in
      the dictionary's insertion order. */
  method FuseScores(vectorHits: seq<Id>, keywordHits: seq<Id>, k: nat) returns (items: seq<Scored>)
    ensures items == FusedItems(vectorHits, keywordHits, k)
  {
    var keys, scores := AssignVectorScores(vectorHits, k);
    keys, scores := AddKeywordScores(vectorHits, keywordHits, k, keys, scores);
    items := seq(|keys|, i requires 0 <= i < |keys| && keys[i] in scores => Scored(keys[i], scores[keys[i]]));
  }

  // ---------------------------------------------------------------------------------------
  // sorted(rrf_scores.items(), key=lambda x: x[1], reverse=True)

  /** Fused scores do not increase along the sequence. */
  predicate NonIncreasing(s: seq<Scored>)
  {
    forall i, j :: 0 <= i < j < |s| ==> s[i].score >= s[j].score
  }

  /** The entries of `s` whose score is `v`, in their order in `s`. */
  function WithScore(s: seq<Scored>, v: real): seq<Scored>
  {
    if |s| == 0 then [] else (if s[0].score == v then [s[0]] else []) + WithScore(s[1..], v)
  }

  /** Picking entries by score commutes with concatenation. */
  lemma {:induction false} WithScoreAppend(a: seq<Scored>, b: seq<Scored>, v: real)
    ensures WithScore(a + b, v) == WithScore(a, v) + WithScore(b, v)
    decreases |a|
  {
    if |a| == 0 {
      assert a == [];
      EmptyConcat(b);
    } else {
      ConcatTail(a, b);
      WithScoreAppend(a[1..], b, v);
      var first := if a[0].score == v then [a[0]] else [];
      ConcatAssoc(first, WithScore(a[1..], v), WithScore(b, v));
    }
  }

  /** Every slice of a non-increasing sequence is non-increasing. */
  lemma NonIncreasingSlice(s: seq<Scored>, lo: nat, hi: nat)
    requires NonIncreasing(s) && lo <= hi <= |s|
    ensures NonIncreasing(s[lo..hi])
  {
    var t := s[lo..hi];
    forall i, j | 0 <= i < j < |t| ensures t[i].score >= t[j].score {
      assert t[i] == s[lo + i] && t[j] == s[lo + j];
    }
  }

  /** An entry placed in front of a non-increasing sequence whose scores it bounds keeps it
      non-increasing. */
  lemma ConsNonIncreasing(x: Scored, s: seq<Scored>)
    requires NonIncreasing(s)
    requires forall y :: y in s ==> y.score <= x.score
    ensures NonIncreasing([x] + s)
  {
    forall i, j | 0 <= i < j < |[x] + s| ensures ([x] + s)[i].score >= ([x] + s)[j].score {
      assert ([x] + s)[j] == s[j - 1];
      if i > 0 {
        assert ([x] + s)[i] == s[i - 1];
      }
    }
  }

  /** Puts `e` into a sequence after the leading entries whose score is at least `e`'s. */
  function Insert(e: Scored, sorted: seq<Scored>): (r: seq<Scored>)
    ensures |r| == |sorted| + 1
    ensures multiset(r) == multiset(sorted) + multiset{e}
  {
    if |sorted| == 0 then [e]
    else if sorted[0].score >= e.score then
      SplitFirst(sorted);
      [sorted[0]] + Insert(e, sorted[1..])
    else
      [e] + sorted
  }

  /** Inserting into a non-increasing sequence keeps it non-increasing. */
  lemma {:induction false} InsertNonIncreasing(e: Scored, sorted: seq<Scored>)
    requires NonIncreasing(sorted)
    ensures NonIncreasing(Insert(e, sorted))
    decreases |sorted|
  {
    if |sorted| == 0 {
    } else if sorted[0].score >= e.score {
      var tail := sorted[1..];
      NonIncreasingSlice(sorted, 1, |sorted|);
      InsertNonIncreasing(e, tail);
      var rest := Insert(e, tail);
      forall y | y in rest ensures y.score <= sorted[0].score {
        assert y in multiset(rest);
        if y != e {
          assert y in multiset(tail);
          var j :| 0 <= j < |tail| && tail[j] == y;
          assert sorted[j + 1] == y;
        }
      }
      ConsNonIncreasing(sorted[0], rest);
    } else {
      forall y | y in sorted ensures y.score <= e.score {
        var j :| 0 <= j < |sorted| && sorted[j] == y;
      }
      ConsNonIncreasing(e, sorted);
    }
  }

  /** The entries of one score, when `x` is the only entry. */
  lemma WithScoreSingle(x: Scored, v: real)
    ensures WithScore([x], v) == if x.score == v then [x] else []
  {
    assert [x][1..] == [];
  }

  /** Stability when `e` goes behind the first entry, given stability for the rest. */
  lemma InsertWithScoreBehind(e: Scored, sorted: seq<Scored>, v: real)
    requires |sorted| > 0 && sorted[0].score >= e.score
    requires WithScore(Insert(e, sorted[1..]), v) == WithScore(sorted[1..], v) + WithScore([e], v)
    ensures WithScore(Insert(e, sorted), v) == WithScore(sorted, v) + WithScore([e], v)
  {
    var rest := Insert(e, sorted[1..]);
    var first := if sorted[0].score == v then [sorted[0]] else [];
    WithScoreCons(sorted[0], rest, v);
    assert WithScore(sorted, v) == first + WithScore(sorted[1..], v);
    ConcatAssoc(first, WithScore(sorted[1..], v), WithScore([e], v));
  }

  /** The entries of one score in `[x] + s`: `x` if it has that score, then those of `s`. */
  lemma WithScoreCons(x: Scored, s: seq<Scored>, v: real)
    ensures WithScore([x] + s, v) == (if x.score == v then [x] else []) + WithScore(s, v)
  {
    assert ([x] + s)[1..] == s;
  }


  /** Stability when `e` beats the first entry: no entry of `sorted` shares its score. */
  lemma InsertWithScoreFront(e: Scored, sorted: seq<Scored>, v: real)
    requires NonIncreasing(sorted)
    requires |sorted| > 0 && sorted[0].score < e.score
    ensures WithScore(Insert(e, sorted), v) == WithScore(sorted, v) + WithScore([e], v)
  {
    assert Insert(e, sorted) == [e] + sorted;
    WithScoreAppend([e], sorted, v);
    WithScoreSingle(e, v);
    if e.score == v {
      WithScoreNone(sorted, v);
    }
  }

  /** Insertion is stable: among entries of one score, `e` comes after those already there. */
  lemma {:induction false} InsertWithScore(e: Scored, sorted: seq<Scored>, v: real)
    requires NonIncreasing(sorted)
    ensures WithScore(Insert(e, sorted), v) == WithScore(sorted, v) + WithScore([e], v)
    decreases |sorted|
  {
    if |sorted| == 0 {
      assert Insert(e, sorted) == [e];
      assert WithScore(sorted, v) == [];
    } else if sorted[0].score >= e.score {
      NonIncreasingSlice(sorted, 1, |sorted|);
      InsertWithScore(e, sorted[1..], v);
      InsertWithScoreBehind(e, sorted, v);
    } else {
      InsertWithScoreFront(e, sorted, v);
    }
  }

  /** No entry above the first has a higher score, so none has `e`'s when `e` beats the first. */
  lemma {:induction false} WithScoreNone(s: seq<Scored>, v: real)
    requires NonIncreasing(s) && |s| > 0 && s[0].score < v
    ensures WithScore(s, v) == []
    decreases |s|
  {
    if |s| > 1 {
      assert s[1..][0] == s[1];
      NonIncreasingSlice(s, 1, |s|);
      WithScoreNone(s[1..], v);
    }
  }

  /** Python's stable `sorted(..., reverse=True)` on the scores: a permutation, non-increasing,
      and entries with equal scores stay in their original relative order. */
  function SortDescending(s: seq<Scored>): (r: seq<Scored>)
    ensures |r| == |s|
    ensures NonIncreasing(r)
    ensures multiset(r) == multiset(s)
    ensures forall v :: WithScore(r, v) == WithScore(s, v)
  {
    if |s| == 0 then []
    else
      var init, last := s[..|s| - 1], s[|s| - 1];
      SplitLast(s);
      var sortedInit := SortDescending(init);
      InsertNonIncreasing(last, sortedInit);
      var r := Insert(last, sortedInit);
      forall v ensures WithScore(r, v) == WithScore(s, v) {
        InsertWithScore(last, sortedInit, v);
        WithScoreAppend(init, [last], v);
      }
      r
  }

  /** The ids of all fused entries, best score first. */
  function RankedIds(vectorHits: seq<Id>, keywordHits: seq<Id>, k: nat): seq<Id>
  {
    Ids(SortDescending(FusedItems(vectorHits, keywordHits, k)))
  }

  /** The ids whose documents are fetched: the first five of the ranking. */
  function TopIds(vectorHits: seq<Id>, keywordHits: seq<Id>, k: nat): seq<Id>
  {
    var ranked := RankedIds(vectorHits, keywordHits, k);
    ranked[..Min(TOP_N, |ranked|)]
  }

  // ---------------------------------------------------------------------------------------
  // Properties of the ranking

  lemma {:induction false} DistinctCount<T>(s: seq<T>, x: T)
    requires Distinct(s)
    ensures multiset(s)[x] <= 1
    decreases |s|
  {
    if |s| > 0 {
      SplitFirst(s);
      assert Distinct(s[1..]) by {
        forall i, j | 0 <= i < j < |s[1..]| ensures s[1..][i] != s[1..][j] {
          assert s[1..][i] == s[i + 1] && s[1..][j] == s[j + 1];
        }
      }
      DistinctCount(s[1..], x);
      if s[0] == x {
        assert x !in s[1..];
      }
    }
  }

  /** A permutation of a sequence without repetitions has none either. */
  lemma DistinctPermutation<T>(a: seq<T>, b: seq<T>)
    requires multiset(a) == multiset(b) && Distinct(a)
    ensures Distinct(b)
  {
    forall i, j | 0 <= i < j < |b| ensures b[i] != b[j] {
      assert b == b[..j] + [b[j]] + b[j + 1..];
      assert b[i] in b[..j];
      assert multiset(b)[b[i]] >= multiset(b[..j])[b[i]] + multiset([b[j]])[b[i]];
      DistinctCount(a, b[i]);
    }
  }

  /** The sorted items are the fused items rearranged: each one still pairs a key with its
      fused score, none repeats, and every key is among them. */
  lemma {:induction false} SortedItemsFacts(vectorHits: seq<Id>, keywordHits: seq<Id>, k: nat, sorted: seq<Scored>)
    requires sorted == SortDescending(FusedItems(vectorHits, keywordHits, k))
    ensures Distinct(sorted)
    ensures forall i :: 0 <= i < |sorted| ==>
      sorted[i] == Scored(sorted[i].id, FusedScore(vectorHits, keywordHits, sorted[i].id, k))
      && sorted[i].id in InsertionOrder(vectorHits, keywordHits)
    ensures forall x :: x in InsertionOrder(vectorHits, keywordHits) ==> exists q :: 0 <= q < |sorted| && sorted[q].id == x
  {
    var order := InsertionOrder(vectorHits, keywordHits);
    var items := FusedItems(vectorHits, keywordHits, k);
    InsertionOrderKeys(vectorHits, keywordHits);
    assert Distinct(items) by {
      forall i, j | 0 <= i < j < |items| ensures items[i] != items[j] {
        assert items[i].id == order[i] && items[j].id == order[j];
      }
    }
    DistinctPermutation(items, sorted);
    forall i | 0 <= i < |sorted|
      ensures sorted[i] == Scored(sorted[i].id, FusedScore(vectorHits, keywordHits, sorted[i].id, k))
      ensures sorted[i].id in order
    {
      assert sorted[i] in multiset(items);
    }
    forall x | x in order ensures exists q :: 0 <= q < |sorted| && sorted[q].id == x {
      var p :| 0 <= p < |order| && order[p] == x;
      assert items[p] in multiset(sorted);
      var q :| 0 <= q < |sorted| && sorted[q] == items[p];
      assert sorted[q].id == x;
    }
  }

  /** The ranking lists every fused id exactly once, best fused score first. */
  lemma {:induction false} RankingProperties(vectorHits: seq<Id>, keywordHits: seq<Id>, k: nat, ranked: seq<Id>)
    requires ranked == RankedIds(vectorHits, keywordHits, k)
    ensures Distinct(ranked)
    ensures forall x :: x in ranked <==> x in vectorHits || x in keywordHits
    ensures forall i, j :: 0 <= i < j < |ranked| ==>
      FusedScore(vectorHits, keywordHits, ranked[i], k) >= FusedScore(vectorHits, keywordHits, ranked[j], k)
  {
    var sorted := SortDescending(FusedItems(vectorHits, keywordHits, k));
    SortedItemsFacts(vectorHits, keywordHits, k, sorted);
    InsertionOrderKeys(vectorHits, keywordHits);
    assert |ranked| == |sorted| && forall i :: 0 <= i < |sorted| ==> ranked[i] == sorted[i].id;
    forall i, j | 0 <= i < j < |ranked| ensures ranked[i] != ranked[j] {
      assert sorted[i] != sorted[j];
    }
    forall x | x in vectorHits || x in keywordHits ensures x in ranked {
      var q :| 0 <= q < |sorted| && sorted[q].id == x;
      assert ranked[q] == x;
    }
  }

  /** At most five ids are fetched, without repetition, from the fused ids, in non-increasing
      fused score; every fused id left out scores no higher than any kept one. */
  lemma {:induction false} TopIdsProperties(vectorHits: seq<Id>, keywordHits: seq<Id>, k: nat, top: seq<Id>)
    requires top == TopIds(vectorHits, keywordHits, k)
    ensures |top| == Min(TOP_N, |InsertionOrder(vectorHits, keywordHits)|)
    ensures Distinct(top)
    ensures forall x :: x in top ==> x in vectorHits || x in keywordHits
    ensures forall i, j :: 0 <= i < j < |top| ==>
      FusedScore(vectorHits, keywordHits, top[i], k) >= FusedScore(vectorHits, keywordHits, top[j], k)
    ensures forall x, i :: (x in vectorHits || x in keywordHits) && x !in top && 0 <= i < |top| ==>
      FusedScore(vectorHits, keywordHits, top[i], k) >= FusedScore(vectorHits, keywordHits, x, k)
  {
    var ranked := RankedIds(vectorHits, keywordHits, k);
    var m := Min(TOP_N, |ranked|);
    RankingProperties(vectorHits, keywordHits, k, ranked);
    assert top == ranked[..m];
    assert forall i :: 0 <= i < m ==> top[i] == ranked[i];
    forall x, i | (x in vectorHits || x in keywordHits) && x !in top && 0 <= i < |top|
      ensures FusedScore(vectorHits, keywordHits, top[i], k) >= FusedScore(vectorHits, keywordHits, x, k)
    {
      var q :| 0 <= q < |ranked| && ranked[q] == x;
      assert forall p :: 0 <= p < m ==> ranked[p] != x;
    }
  }

  /** Ties keep insertion order: the ranked entries with a given score appear in the order the
      fusion loops inserted them (vector ids by vector rank, then keyword-only ids by keyword
      rank). */
  lemma TiesKeepInsertionOrder(vectorHits: seq<Id>, keywordHits: seq<Id>, k: nat, v: real)
    ensures WithScore(SortDescending(FusedItems(vectorHits, keywordHits, k)), v)
         == WithScore(FusedItems(vectorHits, keywordHits, k), v)
  {
  }

  /** An entry no better than any entry of a sorted sequence goes to its end. */
  lemma {:induction false} InsertAtEnd(e: Scored, sorted: seq<Scored>)
    requires forall i :: 0 <= i < |sorted| ==> sorted[i].score >= e.score
    ensures Insert(e, sorted) == sorted + [e]
    decreases |sorted|
  {
    if |sorted| > 0 {
      InsertAtEnd(e, sorted[1..]);
      SplitFirst(sorted);
    }
  }

  /** Sorting entries that are already in non-increasing order leaves them where they are,
      equal scores included. */
  lemma {:induction false} SortDescendingOfSorted(s: seq<Scored>)
    requires NonIncreasing(s)
    ensures SortDescending(s) == s
    decreases |s|
  {
    if |s| > 0 {
      var init, last := s[..|s| - 1], s[|s| - 1];
      NonIncreasingSlice(s, 0, |s| - 1);
      SortDescendingOfSorted(init);
      forall i | 0 <= i < |init| ensures init[i].score >= last.score {
        assert init[i] == s[i];
      }
      InsertAtEnd(last, init);
      SplitLast(s);
    }
  }


  /** Setting three distinct ids on an empty dictionary keeps them in order. */
  lemma ExampleVectorKeys<T(!new)>(a: T, b: T, c: T)
    requires a != b && a != c && b != c
    ensures AppendNew([], [a, b, c]) == [a, b, c]
  {
    var v := [a, b, c];
    assert v[..0] == [] && v[..3] == v;
    Displays(a, b, c);
    AppendNewStep([], v, 0);
    assert AppendNew([], v[..1]) == [a];
    AppendNewStep([], v, 1);
    assert AppendNew([], v[..2]) == [a, b];
    AppendNewStep([], v, 2);
  }

  /** Then setting [b, a, d] only appends d. */
  lemma ExampleKeys<T(!new)>(a: T, b: T, c: T, d: T)
    requires a != b && a != c && a != d && b != c && b != d && c != d
    ensures AppendNew(AppendNew([], [a, b, c]), [b, a, d]) == [a, b, c, d]
  {
    var kw := [b, a, d];
    ExampleVectorKeys(a, b, c);
    assert kw[..0] == [] && kw[..3] == kw;
    AppendNewStep([a, b, c], kw, 0);
    assert AppendNew([a, b, c], kw[..1]) == [a, b, c];
    AppendNewStep([a, b, c], kw, 1);
    assert AppendNew([a, b, c], kw[..2]) == [a, b, c];
    AppendNewStep([a, b, c], kw, 2);
  }

  /** Vector hits [a, b, c] with keyword hits [b, a, d] give the key order [a, b, c, d]. */
  lemma ExampleInsertionOrder(a: Id, b: Id, c: Id, d: Id)
    requires a != b && a != c && a != d && b != c && b != d && c != d
    ensures InsertionOrder([a, b, c], [b, a, d]) == [a, b, c, d]
  {
    ExampleKeys(a, b, c, d);
  }

  /** Vector hits [a, b, c] and keyword hits [b, a, d] with k = 60: a and b tie at
      1/61 + 1/62, c and d tie at 1/63. */
  lemma ExampleScores(a: Id, b: Id, c: Id, d: Id)
    requires a != b && a != c && a != d && b != c && b != d && c != d
    ensures FusedScore([a, b, c], [b, a, d], a, 60) == 1.0 / 61.0 + 1.0 / 62.0
    ensures FusedScore([a, b, c], [b, a, d], b, 60) == 1.0 / 61.0 + 1.0 / 62.0
    ensures FusedScore([a, b, c], [b, a, d], c, 60) == 1.0 / 63.0
    ensures FusedScore([a, b, c], [b, a, d], d, 60) == 1.0 / 63.0
  {
    var v: seq<Id> := [a, b, c];
    var kw: seq<Id> := [b, a, d];
    FusedScoreOfRanks(v, kw, a, 60, 1, 2);
    FusedScoreOfRanks(v, kw, b, 60, 2, 1);
    VectorContributionIsLastRank(v, c, 60, 2);
    KeywordContributionSingleRank(kw, d, 60, 2);
    assert c !in kw && d !in v;
  }

  /** The fused items of that example, in insertion order. */
  lemma ExampleItems(a: Id, b: Id, c: Id, d: Id)
    requires a != b && a != c && a != d && b != c && b != d && c != d
    ensures FusedItems([a, b, c], [b, a, d], 60)
         == [Scored(a, 1.0 / 61.0 + 1.0 / 62.0), Scored(b, 1.0 / 61.0 + 1.0 / 62.0),
             Scored(c, 1.0 / 63.0), Scored(d, 1.0 / 63.0)]
  {
    ExampleScores(a, b, c, d);
    ExampleInsertionOrder(a, b, c, d);
  }

  /** The ties are broken by insertion order: the ranking is [a, b, c, d]. */
  lemma TieBreakExample(a: Id, b: Id, c: Id, d: Id)
    requires a != b && a != c && a != d && b != c && b != d && c != d
    ensures TopIds([a, b, c], [b, a, d], 60) == [a, b, c, d]
  {
    var ab, cd := 1.0 / 61.0 + 1.0 / 62.0, 1.0 / 63.0;
    var items := [Scored(a, ab), Scored(b, ab), Scored(c, cd), Scored(d, cd)];
    ExampleItems(a, b, c, d);
    NonIncreasingFour(items[0], items[1], items[2], items[3]);
    SortDescendingOfSorted(items);
    var ranked := RankedIds([a, b, c], [b, a, d], 60);
    assert ranked == Ids(items);
    SeqOfFour(ranked, a, b, c, d);
    assert TopIds([a, b, c], [b, a, d], 60) == ranked[..4];
  }

  lemma NonIncreasingFour(w: Scored, x: Scored, y: Scored, z: Scored)
    requires w.score >= x.score >= y.score >= z.score
    ensures NonIncreasing([w, x, y, z])
  {
  }


  // ---------------------------------------------------------------------------------------
  // Hydration: es_client.get for each kept id

  /** Fetches each id in turn; the first id the index does not have aborts with its error. */
  function Hydrate(ids: seq<Id>, fetch: Id -> Option<Document>): (r: Result<seq<Document>, SearchError>)
    ensures r.Ok? <==> forall i :: 0 <= i < |ids| ==> fetch(ids[i]).Some?
    ensures r.Ok? ==> |r.value| == |ids| && forall i :: 0 <= i < |ids| ==> r.value[i] == fetch(ids[i]).value
    ensures r.Err? ==> r.error.id in ids && fetch(r.error.id).None?
  {
    if |ids| == 0 then Ok([])
    else
      var init, last := ids[..|ids| - 1], ids[|ids| - 1];
      SplitLast(ids);
      match Hydrate(init, fetch)
      case Err(e) => Err(e)
      case Ok(docs) =>
        if fetch(last).Some? then Ok(docs + [fetch(last).value]) else Err(HydrationFailed(last))
  }

  /** Once a prefix fails to hydrate, the whole list fails with the same error. */
  lemma {:induction false} HydrateFailureExtends(ids: seq<Id>, i: nat, fetch: Id -> Option<Document>)
    requires i <= |ids| && Hydrate(ids[..i], fetch).Err?
    ensures Hydrate(ids, fetch) == Hydrate(ids[..i], fetch)
    decreases |ids| - i
  {
    if i < |ids| {
      PrefixOfPrefix(ids, i, i + 1);
      HydrateFailureExtends(ids, i + 1, fetch);
    } else {
      assert ids[..i] == ids;
    }
  }

  /** The hybrid search result for the two ranked hit lists. */
  function HybridSearch(vectorHits: seq<Id>, keywordHits: seq<Id>, k: nat, fetch: Id -> Option<Document>): Result<seq<Document>, SearchError>
  {
    Hydrate(TopIds(vectorHits, keywordHits, k), fetch)
  }

  /** A successful prefix grows by the next document when the index has it. */
  lemma HydrateStep(ids: seq<Id>, i: nat, fetch: Id -> Option<Document>)
    requires i < |ids| && Hydrate(ids[..i], fetch).Ok? && fetch(ids[i]).Some?
    ensures Hydrate(ids[..i + 1], fetch) == Ok(Hydrate(ids[..i], fetch).value + [fetch(ids[i]).value])
  {
    PrefixOfPrefix(ids, i, i + 1);
  }

  /** After a successful prefix, the first id the index lacks ends the whole list with its
      error. */
  lemma HydrateStopsAt(ids: seq<Id>, i: nat, fetch: Id -> Option<Document>)
    requires i < |ids| && Hydrate(ids[..i], fetch).Ok? && fetch(ids[i]).None?
    ensures Hydrate(ids, fetch) == Err(HydrationFailed(ids[i]))
  {
    PrefixOfPrefix(ids, i, i + 1);
    assert Hydrate(ids[..i + 1], fetch) == Err(HydrationFailed(ids[i]));
    HydrateFailureExtends(ids, i + 1, fetch);
  }

  /** The kept ids are the ids of the first five sorted items. */
  lemma TopIdsOfSorted(vectorHits: seq<Id>, keywordHits: seq<Id>, k: nat, top: seq<Scored>)
    requires top == SortDescending(FusedItems(vectorHits, keywordHits, k))[..Min(TOP_N, |FusedItems(vectorHits, keywordHits, k)|)]
    ensures |TopIds(vectorHits, keywordHits, k)| == |top|
    ensures forall i :: 0 <= i < |top| ==> TopIds(vectorHits, keywordHits, k)[i] == top[i].id
  {
  }

  /** `elastic_search_hybrid_rrf` after its two searches: fuse, rank, keep five, fetch each. */
  method HybridSearchRrf(vectorHits: seq<Id>, keywordHits: seq<Id>, k: nat, fetch: Id -> Option<Document>)
    returns (r: Result<seq<Document>, SearchError>)
    ensures r == HybridSearch(vectorHits, keywordHits, k, fetch)
  {
    var items := FuseScores(vectorHits, keywordHits, k);
    var reranked := SortDescending(items);
    var top := reranked[..Min(TOP_N, |reranked|)];
    ghost var topIds := TopIds(vectorHits, keywordHits, k);
    TopIdsOfSorted(vectorHits, keywordHits, k, top);
    var finalResults: seq<Document> := [];
    for i := 0 to |top|
      invariant Hydrate(topIds[..i], fetch) == Ok(finalResults)
    {
      var doc := fetch(top[i].id);
      if doc.None? {
        HydrateStopsAt(topIds, i, fetch);
        return Err(HydrationFailed(top[i].id));
      }
      HydrateStep(topIds, i, fetch);
      finalResults := finalResults + [doc.value];
    }
    WholePrefix(topIds);
    r := Ok(finalResults);
  }
}
