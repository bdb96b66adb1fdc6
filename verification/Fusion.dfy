/** Reciprocal rank fusion of a keyword list and a vector list, over exact reals. */
module Fusion {
  import opened Common

  type DocumentId = nat

  datatype SearchStatus = Succeeded | PartlySucceeded | Failed
  datatype Hit = Hit(id: DocumentId, keywordRank: Option<nat>, vectorRank: Option<nat>, score: real)
  datatype Found = Found(status: SearchStatus, hits: seq<Hit>)

  predicate Distinct(list: seq<DocumentId>) {
    forall i, j :: 0 <= i < j < |list| ==> list[i] != list[j]
  }

  // ---- ranks and scores ------------------------------------------------------------------

  // Ranks count from one; None: not in the list.
  function RankIn(list: seq<DocumentId>, id: DocumentId): (r: Option<nat>)
    ensures r.Some? ==> 1 <= r.value <= |list| && list[r.value - 1] == id
    ensures r.None? <==> id !in list
  {
    if list == [] then None
    else if list[|list| - 1] == id then Some(|list|)
    else RankIn(list[..|list| - 1], id)
  }

  function Worth(k: nat, rank: nat): real
    requires rank >= 1
  {
    1.0 / (k + rank) as real
  }

  function Share(k: nat, rank: Option<nat>): real
    requires rank.Some? ==> rank.value >= 1
  {
    if rank.None? then 0.0 else Worth(k, rank.value)
  }

  function Score(k: nat, keyword: seq<DocumentId>, vector: seq<DocumentId>, id: DocumentId): real {
    Share(k, RankIn(keyword, id)) + Share(k, RankIn(vector, id))
  }

  // Higher score first, then the smaller identifier.
  predicate Precedes(scores: map<DocumentId, real>, a: DocumentId, b: DocumentId)
    requires a in scores && b in scores
  {
    scores[a] > scores[b] || (scores[a] == scores[b] && a < b)
  }

  // ---- the order of the hits -------------------------------------------------------------

  ghost predicate Ordered(scores: map<DocumentId, real>, list: seq<DocumentId>) {
    && (forall i :: 0 <= i < |list| ==> list[i] in scores)
    && forall i, j :: 0 <= i < j < |list| ==> Precedes(scores, list[i], list[j])
  }

  function Insert(scores: map<DocumentId, real>, id: DocumentId, list: seq<DocumentId>): (r: seq<DocumentId>)
    requires id in scores && forall i :: 0 <= i < |list| ==> list[i] in scores
    ensures forall x :: x in r <==> x in list || x == id
    ensures |r| == |list| + 1
    ensures forall i :: 0 <= i < |r| ==> r[i] in scores
  {
    if list == [] then [id]
    else if Precedes(scores, id, list[0]) then [id] + list
    else [list[0]] + Insert(scores, id, list[1..])
  }

  lemma {:induction false} InsertKeepsOrder(scores: map<DocumentId, real>, id: DocumentId, list: seq<DocumentId>)
    requires Ordered(scores, list) && id in scores && id !in list
    ensures Ordered(scores, Insert(scores, id, list))
  {
    if list != [] && !Precedes(scores, id, list[0]) {
      InsertKeepsOrder(scores, id, list[1..]);
      var rest := Insert(scores, id, list[1..]);
      forall j | 0 <= j < |rest|
        ensures Precedes(scores, list[0], rest[j])
      {
        if rest[j] != id {
          assert rest[j] in list[1..];
        }
      }
    }
  }

  function ByScore(scores: map<DocumentId, real>, ids: seq<DocumentId>): (r: seq<DocumentId>)
    requires forall i :: 0 <= i < |ids| ==> ids[i] in scores
    ensures forall x :: x in r <==> x in ids
    ensures |r| == |ids|
    ensures forall i :: 0 <= i < |r| ==> r[i] in scores
  {
    if ids == [] then [] else Insert(scores, ids[|ids| - 1], ByScore(scores, ids[..|ids| - 1]))
  }

  lemma {:induction false} ByScoreIsOrdered(scores: map<DocumentId, real>, ids: seq<DocumentId>)
    requires Distinct(ids) && forall i :: 0 <= i < |ids| ==> ids[i] in scores
    ensures Ordered(scores, ByScore(scores, ids))
  {
    if ids != [] {
      var n := |ids| - 1;
      ByScoreIsOrdered(scores, ids[..n]);
      assert ids[n] !in ids[..n];
      InsertKeepsOrder(scores, ids[n], ByScore(scores, ids[..n]));
    }
  }

  // ---- the search ------------------------------------------------------------------------

  // Every listed document once, keyword list first.
  function Merged(keyword: seq<DocumentId>, vector: seq<DocumentId>): (r: seq<DocumentId>)
    ensures forall x :: x in r <==> x in keyword || x in vector
    ensures Distinct(keyword) ==> Distinct(r)
  {
    if vector == [] then keyword
    else
      var rest := Merged(keyword, vector[..|vector| - 1]);
      if vector[|vector| - 1] in rest then rest else rest + [vector[|vector| - 1]]
  }

  ghost function ScoresOf(k: nat, keyword: seq<DocumentId>, vector: seq<DocumentId>): (r: map<DocumentId, real>)
  {
    map id | id in keyword + vector :: Score(k, keyword, vector, id)
  }

  // The hits in order, before truncation.
  ghost function Ranking(k: nat, keyword: seq<DocumentId>, vector: seq<DocumentId>): seq<DocumentId> {
    ByScore(ScoresOf(k, keyword, vector), Merged(keyword, vector))
  }

  function HitOf(k: nat, keyword: seq<DocumentId>, vector: seq<DocumentId>, id: DocumentId): Hit {
    Hit(id, RankIn(keyword, id), RankIn(vector, id), Score(k, keyword, vector, id))
  }

  class HybridRetrievalService {
    const k: nat

    constructor (k: nat)
      ensures this.k == k
    {
      this.k := k;
    }

    // `vector` is None when the embedding model failed; `textual` says whether keyword search applies.
    method Search(keyword: seq<DocumentId>, vector: Option<seq<DocumentId>>, textual: bool, limit: nat)
      returns (r: Found)
      requires Distinct(keyword) && (vector.Some? ==> Distinct(vector.value))
      ensures vector.None? && !textual ==> r == Found(Failed, [])
      ensures vector.Some? || textual ==>
        var nearest := if vector.Some? then vector.value else [];
        var order := Ranking(k, keyword, nearest);
        && r.status == (if vector.Some? then Succeeded else PartlySucceeded)
        && |r.hits| == Min(limit, |order|)
        && forall i :: 0 <= i < |r.hits| ==> r.hits[i] == HitOf(k, keyword, nearest, order[i])
    {
      if vector.None? && !textual {
        return Found(Failed, []);
      }
      var nearest := if vector.Some? then vector.value else [];
      var hits := Fuse(keyword, nearest, limit);
      r := Found(if vector.Some? then Succeeded else PartlySucceeded, hits);
    }

    method Fuse(keyword: seq<DocumentId>, vector: seq<DocumentId>, limit: nat) returns (hits: seq<Hit>)
      requires Distinct(keyword) && Distinct(vector)
      ensures |hits| == Min(limit, |Ranking(k, keyword, vector)|)
      ensures forall i :: 0 <= i < |hits| ==> hits[i] == HitOf(k, keyword, vector, Ranking(k, keyword, vector)[i])
    {
      var scores, keywordRanks, records := AddKeyword(keyword);
      var vectorRanks: map<DocumentId, nat>;
      scores, vectorRanks, records := AddVector(keyword, vector, scores, records);
      assert scores == ScoresOf(k, keyword, vector);
      var ordered := ByScore(scores, records);
      assert ordered == Ranking(k, keyword, vector);
      hits := Take(keyword, vector, scores, keywordRanks, vectorRanks, ordered, limit);
    }

    method Take(ghost keyword: seq<DocumentId>, ghost vector: seq<DocumentId>, scores: map<DocumentId, real>,
                keywordRanks: map<DocumentId, nat>, vectorRanks: map<DocumentId, nat>, ordered: seq<DocumentId>,
                limit: nat) returns (hits: seq<Hit>)
      requires forall i :: 0 <= i < |ordered| ==> ordered[i] in scores
      requires forall id :: id in scores ==> scores[id] == Score(k, keyword, vector, id)
      requires forall id :: Get(keywordRanks, id) == RankIn(keyword, id)
      requires forall id :: Get(vectorRanks, id) == RankIn(vector, id)
      ensures |hits| == Min(limit, |ordered|)
      ensures forall i :: 0 <= i < |hits| ==> hits[i] == HitOf(k, keyword, vector, ordered[i])
    {
      hide Score, RankIn;
      hits := [];
      while |hits| < limit && |hits| < |ordered|
        invariant |hits| <= Min(limit, |ordered|)
        invariant forall i :: 0 <= i < |hits| ==> hits[i] == HitOf(k, keyword, vector, ordered[i])
      {
        var id := ordered[|hits|];
        hits := hits + [Hit(id, Get(keywordRanks, id), Get(vectorRanks, id), scores[id])];
      }
    }

    // The keyword list gives every document its first share.
    method AddKeyword(keyword: seq<DocumentId>)
      returns (scores: map<DocumentId, real>, ranks: map<DocumentId, nat>, records: seq<DocumentId>)
      requires Distinct(keyword)
      ensures records == keyword
      ensures forall id :: id in scores <==> id in keyword
      ensures forall id :: id in scores ==> scores[id] == Share(k, RankIn(keyword, id))
      ensures forall id :: Get(ranks, id) == RankIn(keyword, id)
    {
      hide Worth;
      scores, ranks, records := map[], map[], [];
      for i := 0 to |keyword|
        invariant records == keyword[..i]
        invariant forall id :: id in scores <==> id in keyword[..i]
        invariant forall id :: id in scores ==> scores[id] == Share(k, RankIn(keyword[..i], id))
        invariant forall id :: Get(ranks, id) == RankIn(keyword[..i], id)
      {
        NextRank(keyword, i);
        hide RankIn;
        records := records + [keyword[i]];
        ranks := ranks[keyword[i] := i + 1];
        scores := scores[keyword[i] := OrZero(scores, keyword[i]) + Worth(k, i + 1)];
      }
      assert keyword[..|keyword|] == keyword;
    }

    // The vector list adds its shares, and the documents the keyword list lacks.
    method AddVector(keyword: seq<DocumentId>, vector: seq<DocumentId>, before: map<DocumentId, real>,
                     first: seq<DocumentId>)
      returns (scores: map<DocumentId, real>, ranks: map<DocumentId, nat>, records: seq<DocumentId>)
      requires Distinct(keyword) && Distinct(vector) && first == keyword
      requires forall id :: id in before <==> id in keyword
      requires forall id :: id in before ==> before[id] == Share(k, RankIn(keyword, id))
      ensures records == Merged(keyword, vector)
      ensures forall id :: id in scores <==> id in keyword || id in vector
      ensures forall id :: id in scores ==> scores[id] == Score(k, keyword, vector, id)
      ensures forall id :: Get(ranks, id) == RankIn(vector, id)
    {
      scores, ranks, records := before, map[], first;
      hide Worth, Score, RankIn, Merged, Share, Distinct;
      NothingAdded(k, keyword, vector, scores);
      for i := 0 to |vector|
        invariant Added(k, keyword, vector[..i], scores, ranks, records)
      {
        OneAdded(k, keyword, vector, i, scores, ranks, records);
        hide Added;
        if vector[i] !in records {
          records := records + [vector[i]];
        }
        ranks := ranks[vector[i] := i + 1];
        scores := scores[vector[i] := OrZero(scores, vector[i]) + Worth(k, i + 1)];
      }
      assert vector[..|vector|] == vector;
    }
  }

  // The tables after the whole keyword list and a first part of the vector list.
  ghost predicate Added(k: nat, keyword: seq<DocumentId>, part: seq<DocumentId>, scores: map<DocumentId, real>,
                        ranks: map<DocumentId, nat>, records: seq<DocumentId>) {
    && records == Merged(keyword, part)
    && (forall id :: id in scores <==> id in records)
    && (forall id :: id in scores ==> scores[id] == Score(k, keyword, part, id))
    && forall id :: Get(ranks, id) == RankIn(part, id)
  }

  lemma NothingAdded(k: nat, keyword: seq<DocumentId>, vector: seq<DocumentId>, scores: map<DocumentId, real>)
    requires forall id :: id in scores <==> id in keyword
    requires forall id :: id in scores ==> scores[id] == Share(k, RankIn(keyword, id))
    ensures Added(k, keyword, vector[..0], scores, map[], keyword)
  {
  }

  lemma OneAdded(k: nat, keyword: seq<DocumentId>, vector: seq<DocumentId>, i: nat, scores: map<DocumentId, real>,
                 ranks: map<DocumentId, nat>, records: seq<DocumentId>)
    requires Distinct(vector) && i < |vector| && Added(k, keyword, vector[..i], scores, ranks, records)
    ensures Added(k, keyword, vector[..i + 1],
                  scores[vector[i] := OrZero(scores, vector[i]) + Worth(k, i + 1)],
                  ranks[vector[i] := i + 1],
                  if vector[i] in records then records else records + [vector[i]])
  {
    hide Worth, RankIn, Merged, Score, Distinct, Get, OrZero;
    NextMerged(keyword, vector, i);
    RanksAdded(vector, i, ranks, ranks[vector[i] := i + 1]);
    ScoresAdded(k, keyword, vector, i, scores, scores[vector[i] := OrZero(scores, vector[i]) + Worth(k, i + 1)]);
  }

  lemma RanksAdded(vector: seq<DocumentId>, i: nat, ranks: map<DocumentId, nat>, after: map<DocumentId, nat>)
    requires Distinct(vector) && i < |vector| && after == ranks[vector[i] := i + 1]
    requires forall id :: Get(ranks, id) == RankIn(vector[..i], id)
    ensures forall id :: Get(after, id) == RankIn(vector[..i + 1], id)
  {
    NextRank(vector, i);
    hide RankIn, Distinct;
    forall id
      ensures Get(after, id) == RankIn(vector[..i + 1], id)
    {
      assert Get(ranks, id) == RankIn(vector[..i], id);
    }
  }

  lemma ScoresAdded(k: nat, keyword: seq<DocumentId>, vector: seq<DocumentId>, i: nat, scores: map<DocumentId, real>,
                    after: map<DocumentId, real>)
    requires Distinct(vector) && i < |vector|
    requires after == scores[vector[i] := OrZero(scores, vector[i]) + Worth(k, i + 1)]
    requires forall id :: id in scores <==> id in Merged(keyword, vector[..i])
    requires forall id :: id in scores ==> scores[id] == Score(k, keyword, vector[..i], id)
    ensures forall id :: id in after ==> after[id] == Score(k, keyword, vector[..i + 1], id)
  {
    NextScore(k, keyword, vector, i);
    NextMerged(keyword, vector, i);
    hide Worth, RankIn, Merged, Score, Distinct;
  }

  // Dictionary lookups with a default.
  function Get<V>(table: map<DocumentId, V>, id: DocumentId): Option<V> {
    if id in table then Some(table[id]) else None
  }

  function OrZero(table: map<DocumentId, real>, id: DocumentId): real {
    if id in table then table[id] else 0.0
  }

  lemma NextScore(k: nat, keyword: seq<DocumentId>, vector: seq<DocumentId>, i: nat)
    requires Distinct(vector) && i < |vector|
    ensures forall id :: Score(k, keyword, vector[..i + 1], id)
                         == Score(k, keyword, vector[..i], id) + if id == vector[i] then Worth(k, i + 1) else 0.0
    ensures vector[i] !in keyword ==> Score(k, keyword, vector[..i], vector[i]) == 0.0
  {
    NextRank(vector, i);
    hide Worth;
    forall id
      ensures Score(k, keyword, vector[..i + 1], id)
              == Score(k, keyword, vector[..i], id) + if id == vector[i] then Worth(k, i + 1) else 0.0
    {
      assert RankIn(vector[..i + 1], id) == if id == vector[i] then Some(i + 1) else RankIn(vector[..i], id);
    }
  }

  lemma NextMerged(keyword: seq<DocumentId>, vector: seq<DocumentId>, i: nat)
    requires i < |vector|
    ensures
      var rest := Merged(keyword, vector[..i]);
      && Merged(keyword, vector[..i + 1]) == (if vector[i] in rest then rest else rest + [vector[i]])
      && (vector[i] in rest <==> vector[i] in keyword || vector[i] in vector[..i])
  {
    assert vector[..i + 1][..i] == vector[..i];
  }

  // One more document in a list of distinct documents.
  lemma NextRank(list: seq<DocumentId>, i: nat)
    requires Distinct(list) && i < |list|
    ensures list[i] !in list[..i]
    ensures forall id :: RankIn(list[..i + 1], id) == if id == list[i] then Some(i + 1) else RankIn(list[..i], id)
  {
    var longer := list[..i + 1];
    assert longer[..|longer| - 1] == list[..i] && longer[|longer| - 1] == list[i];
    forall id
      ensures RankIn(longer, id) == if id == list[i] then Some(i + 1) else RankIn(list[..i], id)
    {
    }
  }

  // ---- what the order means --------------------------------------------------------------

  // A hit tells where its document stands in each list, counted from one, and scores one over `k` plus its
  // rank for every list that holds it.
  lemma HitsAreExact(k: nat, keyword: seq<DocumentId>, vector: seq<DocumentId>, id: DocumentId)
    requires Distinct(keyword) && Distinct(vector)
    ensures
      var hit := HitOf(k, keyword, vector, id);
      && hit.id == id
      && (hit.keywordRank == None <==> id !in keyword) && (hit.vectorRank == None <==> id !in vector)
      && (forall i :: 0 <= i < |keyword| && keyword[i] == id ==> hit.keywordRank == Some(i + 1))
      && (forall j :: 0 <= j < |vector| && vector[j] == id ==> hit.vectorRank == Some(j + 1))
      && (forall i :: 0 <= i < |keyword| && keyword[i] == id && id !in vector ==>
          hit.score == 1.0 / (k + i + 1) as real)
      && (forall j :: 0 <= j < |vector| && vector[j] == id && id !in keyword ==> hit.score == 1.0 / (k + j + 1) as real)
      && (forall i, j :: 0 <= i < |keyword| && 0 <= j < |vector| && keyword[i] == vector[j] == id ==>
            hit.score == 1.0 / (k + i + 1) as real + 1.0 / (k + j + 1) as real)
  {
  }

  // Each document once, in strict score-then-identifier order.
  lemma HitsAreStrictlyOrdered(k: nat, keyword: seq<DocumentId>, vector: seq<DocumentId>)
    requires Distinct(keyword) && Distinct(vector)
    ensures
      var order := Ranking(k, keyword, vector);
      && Distinct(order)
      && (forall id :: id in order <==> id in keyword || id in vector)
      && forall i, j :: 0 <= i < j < |order| ==>
           var a, b := Score(k, keyword, vector, order[i]), Score(k, keyword, vector, order[j]);
           a > b || (a == b && order[i] < order[j])
  {
    var scores := ScoresOf(k, keyword, vector);
    ByScoreIsOrdered(scores, Merged(keyword, vector));
    var order := Ranking(k, keyword, vector);
    forall i, j | 0 <= i < j < |order|
      ensures Precedes(scores, order[i], order[j])
    {
    }
  }

  // Both documents are hits, and `a` stands before `b`.
  ghost predicate Before(order: seq<DocumentId>, a: DocumentId, b: DocumentId) {
    exists i, j :: 0 <= i < j < |order| && order[i] == a && order[j] == b
  }

  // A higher score comes first, and among equal scores the smaller identifier.
  lemma ComesFirst(k: nat, keyword: seq<DocumentId>, vector: seq<DocumentId>, a: DocumentId, b: DocumentId)
    requires Distinct(keyword) && Distinct(vector)
    requires (a in keyword || a in vector) && (b in keyword || b in vector)
    requires var x, y := Score(k, keyword, vector, a), Score(k, keyword, vector, b);
             x > y || (x == y && a < b)
    ensures Before(Ranking(k, keyword, vector), a, b)
  {
    hide Score, Ranking, Merged, RankIn, ByScore, Distinct;
    var order := Ranking(k, keyword, vector);
    var i := PlaceOf(k, keyword, vector, a);
    var j := PlaceOf(k, keyword, vector, b);
    if j < i {
      InOrder(k, keyword, vector, j, i);
    }
    assert i < j && order[i] == a && order[j] == b;
  }

  lemma PlaceOf(k: nat, keyword: seq<DocumentId>, vector: seq<DocumentId>, id: DocumentId) returns (i: nat)
    requires Distinct(keyword) && Distinct(vector) && (id in keyword || id in vector)
    ensures i < |Ranking(k, keyword, vector)| && Ranking(k, keyword, vector)[i] == id
  {
    HitsAreStrictlyOrdered(k, keyword, vector);
    hide Score, Ranking, Merged, Distinct;
    assert id in Ranking(k, keyword, vector);
    i :| 0 <= i < |Ranking(k, keyword, vector)| && Ranking(k, keyword, vector)[i] == id;
  }

  lemma InOrder(k: nat, keyword: seq<DocumentId>, vector: seq<DocumentId>, i: nat, j: nat)
    requires Distinct(keyword) && Distinct(vector) && i < j < |Ranking(k, keyword, vector)|
    ensures
      var a, b := Ranking(k, keyword, vector)[i], Ranking(k, keyword, vector)[j];
      var x, y := Score(k, keyword, vector, a), Score(k, keyword, vector, b);
      x > y || (x == y && a < b)
  {
    HitsAreStrictlyOrdered(k, keyword, vector);
    hide Score, Ranking, Merged, Distinct;
  }

  // Absence is the worst rank.
  predicate AtLeast(a: Option<nat>, b: Option<nat>) {
    b.None? || (a.Some? && a.value <= b.value)
  }

  lemma Reciprocals(x: real, y: real)
    requires 0.0 < x < y
    ensures 0.0 < 1.0 / y < 1.0 / x
  {
    assert 1.0 / x - 1.0 / y == (y - x) / (x * y);
  }

  lemma BetterShare(k: nat, list: seq<DocumentId>, a: DocumentId, b: DocumentId)
    requires AtLeast(RankIn(list, a), RankIn(list, b))
    ensures Share(k, RankIn(list, a)) >= Share(k, RankIn(list, b))
    ensures RankIn(list, a) != RankIn(list, b) ==> Share(k, RankIn(list, a)) > Share(k, RankIn(list, b))
  {
    var r, s := RankIn(list, a), RankIn(list, b);
    if r.Some? && s.Some? && r.value < s.value {
      Reciprocals((k + r.value) as real, (k + s.value) as real);
    }
  }

  // A document that is at least as good in both lists, and better in one, comes first.
  lemma BetterComesFirst(k: nat, keyword: seq<DocumentId>, vector: seq<DocumentId>, a: DocumentId, b: DocumentId)
    requires Distinct(keyword) && Distinct(vector)
    requires b in keyword || b in vector
    requires AtLeast(RankIn(keyword, a), RankIn(keyword, b)) && AtLeast(RankIn(vector, a), RankIn(vector, b))
    requires RankIn(keyword, a) != RankIn(keyword, b) || RankIn(vector, a) != RankIn(vector, b)
    ensures Before(Ranking(k, keyword, vector), a, b)
  {
    BetterShare(k, keyword, a, b);
    BetterShare(k, vector, a, b);
    hide Worth, Before, Ranking;
    ComesFirst(k, keyword, vector, a, b);
  }

  // Rank k+1 in both lists is worth more than any rank in one list.
  lemma TwoSharesBeatOne(k: nat, r: nat, s: nat, t: nat)
    requires 1 <= r <= k + 1 && 1 <= s <= k + 1 && 1 <= t
    ensures Worth(k, r) + Worth(k, s) > Worth(k, t)
  {
    AtMost((k + r) as real, (2 * k + 1) as real);
    AtMost((k + s) as real, (2 * k + 1) as real);
    AtMost((k + 1) as real, (k + t) as real);
    Reciprocals((2 * k + 1) as real, (2 * k + 2) as real);
    TwoSharesTie(k);
  }

  // Rank k+2 in both lists is worth the top of one.
  lemma TwoSharesTie(k: nat)
    ensures Worth(k, k + 2) + Worth(k, k + 2) == Worth(k, 1)
  {
    var half := (k + 1) as real;
    assert (k + (k + 2)) as real == 2.0 * half;
    assert 1.0 / (2.0 * half) + 1.0 / (2.0 * half) == 1.0 / half;
  }

  lemma AtMost(x: real, y: real)
    requires 0.0 < x <= y
    ensures 1.0 / x >= 1.0 / y
  {
    if x < y {
      Reciprocals(x, y);
    }
  }

  // A document among the first k+1 of both lists comes before every document of only one list.
  lemma AgreementComesFirst(k: nat, keyword: seq<DocumentId>, vector: seq<DocumentId>, a: DocumentId, b: DocumentId)
    requires Distinct(keyword) && Distinct(vector)
    requires RankIn(keyword, a).Some? && RankIn(keyword, a).value <= k + 1
    requires RankIn(vector, a).Some? && RankIn(vector, a).value <= k + 1
    requires (b in keyword && b !in vector) || (b in vector && b !in keyword)
    ensures Before(Ranking(k, keyword, vector), a, b)
  {
    AgreementScoresMore(k, keyword, vector, a, b);
    assert a in keyword;
    hide Ranking, Score, RankIn, Before;
    ComesFirst(k, keyword, vector, a, b);
  }

  lemma AgreementScoresMore(k: nat, keyword: seq<DocumentId>, vector: seq<DocumentId>, a: DocumentId, b: DocumentId)
    requires RankIn(keyword, a).Some? && RankIn(keyword, a).value <= k + 1
    requires RankIn(vector, a).Some? && RankIn(vector, a).value <= k + 1
    requires RankIn(keyword, b).None? || RankIn(vector, b).None?
    ensures Score(k, keyword, vector, a) > Score(k, keyword, vector, b)
  {
    var r, s := RankIn(keyword, a).value, RankIn(vector, a).value;
    TwoSharesBeatOne(k, r, s, if RankIn(keyword, b).Some? then RankIn(keyword, b).value
                              else if RankIn(vector, b).Some? then RankIn(vector, b).value else 1);
    Positive(k, r);
    Positive(k, s);
    hide Worth;
  }

  lemma Positive(k: nat, rank: nat)
    requires rank >= 1
    ensures Worth(k, rank) > 0.0
  {
  }

  // Document 0 at the top of one list only; document 1 at rank k+2 in both; the rest fills the lists.
  function SharpKeyword(k: nat): (list: seq<DocumentId>)
    ensures |list| == k + 2
  {
    seq(k + 2, i requires 0 <= i < k + 2 => if i == 0 then 0 else if i == k + 1 then 1 else i + 1)
  }

  function SharpVector(k: nat): (list: seq<DocumentId>)
    ensures |list| == k + 2
  {
    seq(k + 2, i requires 0 <= i < k + 2 => if i == k + 1 then 1 else k + 2 + i)
  }

  lemma RankAt(list: seq<DocumentId>, i: nat)
    requires Distinct(list) && i < |list|
    ensures RankIn(list, list[i]) == Some(i + 1)
  {
  }

  // The bound is sharp: for every k a document at rank k+2 in both lists can come after one of one list.
  lemma TheBoundIsSharp(k: nat)
    ensures
      var keyword, vector := SharpKeyword(k), SharpVector(k);
      && Distinct(keyword) && Distinct(vector)
      && RankIn(keyword, 1) == RankIn(vector, 1) == Some(k + 2)
      && 0 in keyword && 0 !in vector
      && Before(Ranking(k, keyword, vector), 0, 1)
  {
    var keyword, vector := SharpKeyword(k), SharpVector(k);
    RankAt(keyword, 0);
    RankAt(keyword, k + 1);
    RankAt(vector, k + 1);
    assert keyword[0] == 0 && keyword[k + 1] == 1 && vector[k + 1] == 1;
    assert 0 !in vector;
    TwoSharesTie(k);
    hide Worth, Ranking, Before;
    ComesFirst(k, keyword, vector, 0, 1);
  }
}
