/** The retrieval service around the fusion: how many candidates it asks for, and when a
    chunk that both channels found is guaranteed to outrank the chunks only one found. */
module Retrieval {
  import opened Collections
  import opened Fusion

  const MAX_REQUEST_LIMIT: nat := 50

  /** Three candidates of each channel for every result asked for, within the request limit. */
  function FetchLimit(limit: nat): (n: nat)
    ensures limit <= MAX_REQUEST_LIMIT ==> n == 3 * limit
    ensures limit > MAX_REQUEST_LIMIT ==> n == 3 * MAX_REQUEST_LIMIT
  {
    if limit * 3 < 150 then limit * 3 else 150
  }

  /** `lexicalMatches` and `vectorMatches` are what the two searches match, best first;
      `vectorMatches` is None when the query could not be embedded or the model's
      embeddings are missing.  The default reranker keeps the order. */
  method Retrieve(lexicalMatches: seq<Candidate>, vectorMatches: Option<seq<Candidate>>, limit: nat)
    returns (ranked: seq<Slot>)
    ensures ranked == Retrieved(lexicalMatches, match vectorMatches case Some(v) => v case None => [], limit)
  {
    var fetchLimit := FetchLimit(limit);
    var lexicalCandidates := Take(lexicalMatches, fetchLimit);
    var vectorCandidates := [];
    if vectorMatches.Some? {
      vectorCandidates := Take(vectorMatches.value, fetchLimit);
    }
    var fused := ReciprocalRankFusion(lexicalCandidates, vectorCandidates, RRF_K, limit);
    ranked := Take(fused, limit);
  }

  ghost function Retrieved(lexical: seq<Candidate>, vector: seq<Candidate>, limit: nat): seq<Slot> {
    Take(Fuse(RRF_K, Take(lexical, FetchLimit(limit)), Take(vector, FetchLimit(limit))), limit)
  }

  /** A smaller limit gives a prefix of a larger one, for the same candidates. */
  lemma SmallerLimitIsPrefix(k: nat, lexical: seq<Candidate>, vector: seq<Candidate>, small: nat, large: nat)
    requires small <= large
    ensures Take(Fuse(k, lexical, vector), small) <= Take(Fuse(k, lexical, vector), large)
    ensures Take(Take(Fuse(k, lexical, vector), large), small) == Take(Fuse(k, lexical, vector), small)
  {
  }

  ghost predicate DistinctChunks(cands: seq<Candidate>) {
    forall i, j :: 0 <= i < j < |cands| ==> cands[i].chunkId != cands[j].chunkId
  }

  /** In a list without duplicates the rank sum is the one reciprocal of the chunk's position. */
  lemma {:induction false} SingleContribution(k: nat, id: Uuid, cands: seq<Candidate>)
    requires DistinctChunks(cands)
    ensures LastRank(id, cands).Some? <==> Found(id, cands)
    ensures RankSum(k, id, cands) ==
            match LastRank(id, cands) case Some(r) => Contribution(k, r) case None => 0.0
  {
    if cands != [] {
      var front := cands[..|cands| - 1];
      SingleContribution(k, id, front);
      if cands[|cands| - 1].chunkId == id {
        assert forall i :: 0 <= i < |front| ==> front[i].chunkId != id;
        FoundMeansListed(id, front);
        AbsentSumsToZero(k, id, front);
      }
    }
  }

  predicate FoundByBoth(id: Uuid, lexical: seq<Candidate>, vector: seq<Candidate>) {
    Found(id, lexical) && Found(id, vector)
  }

  lemma ContributionBounds(rank: nat, longest: nat)
    requires 1 <= rank <= longest
    ensures 1.0 / (60 + longest) as real <= Contribution(RRF_K, rank) <= 1.0 / 61.0
    ensures Contribution(RRF_K, rank) > 0.0
  {
    ReciprocalAntitone((60 + rank) as real, (60 + longest) as real);
    ReciprocalAntitone(61.0, (60 + rank) as real);
  }

  lemma ReciprocalAntitone(a: real, b: real)
    requires 0.0 < a <= b
    ensures 0.0 < 1.0 / b <= 1.0 / a
  {
    var x := 1.0 / b;
    assert x * b == 1.0;
    assert x > 0.0;
    ProductMonotone(x, a, b);
    QuotientFromProduct(x, a);
  }

  lemma ProductMonotone(x: real, a: real, b: real)
    requires x >= 0.0 && a <= b
    ensures x * a <= x * b
  {
  }

  lemma QuotientFromProduct(x: real, a: real)
    requires a > 0.0 && x * a <= 1.0
    ensures x <= 1.0 / a
  {
    assert (1.0 / a - x) * a >= 0.0;
  }

  lemma ScoreOfBoth(id: Uuid, lexical: seq<Candidate>, vector: seq<Candidate>, longest: nat)
    requires DistinctChunks(lexical) && DistinctChunks(vector)
    requires |lexical| <= longest && |vector| <= longest
    requires FoundByBoth(id, lexical, vector)
    ensures SlotOf(RRF_K, id, lexical, vector).hybridScore >= 1.0 / (60 + longest) as real + 1.0 / (60 + longest) as real
  {
    SingleContribution(RRF_K, id, lexical);
    SingleContribution(RRF_K, id, vector);
    ContributionBounds(LastRank(id, lexical).value, longest);
    ContributionBounds(LastRank(id, vector).value, longest);
  }

  lemma ScoreOfSingle(id: Uuid, lexical: seq<Candidate>, vector: seq<Candidate>)
    requires DistinctChunks(lexical) && DistinctChunks(vector)
    requires FoundByEither(id, lexical, vector) && !FoundByBoth(id, lexical, vector)
    ensures 0.0 < SlotOf(RRF_K, id, lexical, vector).hybridScore <= 1.0 / 61.0
  {
    SingleContribution(RRF_K, id, lexical);
    SingleContribution(RRF_K, id, vector);
    var r := if Found(id, lexical) then LastRank(id, lexical).value else LastRank(id, vector).value;
    ContributionBounds(r, r);
  }

  /** Whenever a chunk of one channel only is returned, every chunk that both channels
      found has been returned before it. */
  ghost predicate AgreementFirst(results: seq<Slot>, lexical: seq<Candidate>, vector: seq<Candidate>) {
    forall j, id ::
      0 <= j < |results| && !FoundByBoth(results[j].chunkId, lexical, vector) && FoundByBoth(id, lexical, vector)
      ==> exists i :: 0 <= i < j && results[i].chunkId == id
  }

  lemma BothOutscoresLone(lexical: seq<Candidate>, vector: seq<Candidate>, both: Uuid, lone: Uuid)
    requires DistinctChunks(lexical) && DistinctChunks(vector)
    requires |lexical| <= 61 && |vector| <= 61
    requires FoundByBoth(both, lexical, vector)
    requires FoundByEither(lone, lexical, vector) && !FoundByBoth(lone, lexical, vector)
    ensures SlotOf(RRF_K, both, lexical, vector).hybridScore > SlotOf(RRF_K, lone, lexical, vector).hybridScore
  {
    ScoreOfBoth(both, lexical, vector, 61);
    ScoreOfSingle(lone, lexical, vector);
  }

  lemma EarlierIsNotLower(xs: seq<Slot>, i: nat, j: nat)
    requires SortedBy(Precedes, xs) && i < j < |xs|
    ensures xs[i].hybridScore >= xs[j].hybridScore
  {
    assert Precedes(xs[i], xs[j]);
  }

  lemma HigherComesFirst(xs: seq<Slot>, both: Slot, j: nat) returns (i: nat)
    requires SortedBy(Precedes, xs) && both in xs && j < |xs| && both.hybridScore > xs[j].hybridScore
    ensures i < j && xs[i] == both
  {
    i :| 0 <= i < |xs| && xs[i] == both;
    if j < i { EarlierIsNotLower(xs, j, i); }
  }

  /** Holds for channels of at most 61 candidates, because 2/(60+61) > 1/61. */
  lemma AgreementDominates(lexical: seq<Candidate>, vector: seq<Candidate>, limit: nat)
    requires DistinctChunks(lexical) && DistinctChunks(vector)
    requires |lexical| <= 61 && |vector| <= 61
    ensures AgreementFirst(Take(Fuse(RRF_K, lexical, vector), limit), lexical, vector)
  {
    var xs := Fuse(RRF_K, lexical, vector);
    FuseIsFusion(RRF_K, lexical, vector);
    var results := Take(xs, limit);
    forall j, id | 0 <= j < |results| && !FoundByBoth(results[j].chunkId, lexical, vector) && FoundByBoth(id, lexical, vector)
      ensures exists i :: 0 <= i < j && results[i].chunkId == id
    {
      assert xs[j] in xs && SlotOf(RRF_K, id, lexical, vector) in xs;
      BothOutscoresLone(lexical, vector, id, xs[j].chunkId);
      var i := HigherComesFirst(xs, SlotOf(RRF_K, id, lexical, vector), j);
      assert results[i].chunkId == id;
    }
  }

  // ----- and exactly then -----

  const NO_PROVENANCE := Provenance(0, 0, 0, "", "", 0, 0, "")

  function Row(id: Uuid): Candidate {
    Candidate(id, NO_PROVENANCE, 0.0)
  }

  /** 62 rows each: chunk 62 is last in both, chunk 1 is first in the lexical one only. */
  function TieLexical(): seq<Candidate> {
    seq(62, (i: nat) => Row(i + 1))
  }

  function TieVector(): seq<Candidate> {
    seq(61, (i: nat) => Row(i + 101)) + [Row(62)]
  }

  lemma TieChannels()
    ensures DistinctChunks(TieLexical()) && DistinctChunks(TieVector())
    ensures forall id :: Found(id, TieLexical()) <==> 1 <= id <= 62
    ensures forall id :: Found(id, TieVector()) <==> 101 <= id <= 161 || id == 62
    ensures LastRank(1, TieLexical()) == Some(1)
    ensures LastRank(62, TieLexical()) == Some(62) && LastRank(62, TieVector()) == Some(62)
  {
    var lexical, vector := TieLexical(), TieVector();
    forall id ensures Found(id, lexical) <==> 1 <= id <= 62 {
      FoundMeansListed(id, lexical);
      if 1 <= id <= 62 { assert lexical[id - 1].chunkId == id; }
    }
    forall id ensures Found(id, vector) <==> 101 <= id <= 161 || id == 62 {
      FoundMeansListed(id, vector);
      if 101 <= id <= 161 { assert vector[id - 101].chunkId == id; }
      if id == 62 { assert vector[61].chunkId == id; }
    }
    SingleContribution(RRF_K, 1, lexical);
  }

  lemma TieBreaksAgreement(limit: nat)
    requires limit > 0
    ensures !AgreementFirst(Take(Fuse(RRF_K, TieLexical(), TieVector()), limit), TieLexical(), TieVector())
  {
    var lexical, vector := TieLexical(), TieVector();
    TieChannels();
    FuseIsFusion(RRF_K, lexical, vector);
    var xs := Fuse(RRF_K, lexical, vector);
    var lone, both := SlotOf(RRF_K, 1, lexical, vector), SlotOf(RRF_K, 62, lexical, vector);
    SingleContribution(RRF_K, 1, lexical);
    SingleContribution(RRF_K, 1, vector);
    SingleContribution(RRF_K, 62, lexical);
    SingleContribution(RRF_K, 62, vector);
    assert Precedes(lone, both);
    assert lone in xs;
    var j :| 0 <= j < |xs| && xs[j] == lone;
    assert xs[0] in xs;
    assert j == 0 || Precedes(xs[0], xs[j]);
    assert xs[0].chunkId != 62;
    assert !FoundByBoth(xs[0].chunkId, lexical, vector) && FoundByBoth(62, lexical, vector);
    assert Take(xs, limit)[0] == xs[0];
  }

  /** Agreement comes first for all inputs exactly when at most 20 results are requested. */
  lemma AgreementFirstExactlyUpTo20(limit: nat)
    requires 1 <= limit <= MAX_REQUEST_LIMIT
    ensures (forall lexical, vector :: DistinctChunks(lexical) && DistinctChunks(vector) ==>
               AgreementFirst(Retrieved(lexical, vector, limit),
                              Take(lexical, FetchLimit(limit)), Take(vector, FetchLimit(limit))))
            <==> limit <= 20
  {
    if limit <= 20 {
      forall lexical, vector | DistinctChunks(lexical) && DistinctChunks(vector)
        ensures AgreementFirst(Retrieved(lexical, vector, limit),
                               Take(lexical, FetchLimit(limit)), Take(vector, FetchLimit(limit)))
      {
        AgreementDominates(Take(lexical, FetchLimit(limit)), Take(vector, FetchLimit(limit)), limit);
      }
    } else {
      TieChannels();
      TieBreaksAgreement(limit);
      assert Take(TieLexical(), FetchLimit(limit)) == TieLexical();
      assert Take(TieVector(), FetchLimit(limit)) == TieVector();
    }
  }

  // ----- a smaller request limit also fetches fewer candidates -----

  /** Chunk 2 is second in the lexical channel, and one position too low in the vector
      channel for a request of `small` results to fetch it there. */
  function LateLexical(): seq<Candidate> {
    [Row(1), Row(2)]
  }

  function LateVector(small: nat): seq<Candidate> {
    seq(3 * small, (i: nat) => Row(i + 101)) + [Row(2)]
  }

  lemma LateChannels(small: nat)
    ensures DistinctChunks(LateLexical()) && DistinctChunks(LateVector(small))
    ensures LastRank(1, LateLexical()) == Some(1) && LastRank(2, LateLexical()) == Some(2)
    ensures LastRank(2, LateVector(small)) == Some(3 * small + 1)
    ensures forall id :: FoundByBoth(id, LateLexical(), LateVector(small)) ==> id == 2
  {
    var lexical := LateLexical();
    assert lexical[..1] == [Row(1)];
    SingleContribution(RRF_K, 1, lexical);
    forall id | FoundByBoth(id, lexical, LateVector(small)) ensures id == 2 {
      FoundMeansListed(id, lexical);
      FoundMeansListed(id, LateVector(small));
    }
  }

  lemma OnlyHere(id: Uuid, cands: seq<Candidate>)
    requires forall i :: 0 <= i < |cands| ==> cands[i].chunkId != id
    ensures !Found(id, cands)
  {
    FoundMeansListed(id, cands);
  }

  /** Fetched too short, chunk 2 counts once and chunk 1 beats it. */
  lemma ShortFetchHidesAgreement(small: nat)
    requires 1 <= small <= 49
    ensures Retrieved(LateLexical(), LateVector(small), small) != []
    ensures Retrieved(LateLexical(), LateVector(small), small)[0].chunkId != 2
  {
    var lexical, vector := LateLexical(), LateVector(small)[..3 * small];
    assert Take(LateVector(small), FetchLimit(small)) == vector && Take(lexical, FetchLimit(small)) == lexical;
    LateChannels(small);
    SingleContribution(RRF_K, 1, lexical);
    SingleContribution(RRF_K, 2, lexical);
    OnlyHere(1, vector);
    OnlyHere(2, vector);
    AbsentSumsToZero(RRF_K, 1, vector);
    AbsentSumsToZero(RRF_K, 2, vector);
    FirstIsNot(lexical, vector, 1, 2);
  }

  lemma FirstIsNot(lexical: seq<Candidate>, vector: seq<Candidate>, winner: Uuid, loser: Uuid)
    requires FoundByEither(winner, lexical, vector) && FoundByEither(loser, lexical, vector)
    requires SlotOf(RRF_K, winner, lexical, vector).hybridScore > SlotOf(RRF_K, loser, lexical, vector).hybridScore
    ensures Fuse(RRF_K, lexical, vector) != [] && Fuse(RRF_K, lexical, vector)[0].chunkId != loser
  {
    FuseIsFusion(RRF_K, lexical, vector);
    var xs, best := Fuse(RRF_K, lexical, vector), SlotOf(RRF_K, winner, lexical, vector);
    assert best in xs;
    assert xs[0] in xs;
    var j :| 0 <= j < |xs| && xs[j] == best;
    if j > 0 { EarlierIsNotLower(xs, 0, j); }
  }

  /** Fetched far enough, chunk 2 counts twice and beats everything. */
  lemma LongFetchShowsAgreement(small: nat, large: nat)
    requires 1 <= small < large <= 50
    ensures Retrieved(LateLexical(), LateVector(small), large) != []
    ensures Retrieved(LateLexical(), LateVector(small), large)[0].chunkId == 2
  {
    var lexical, vector := LateLexical(), LateVector(small);
    assert Take(vector, FetchLimit(large)) == vector && Take(lexical, FetchLimit(large)) == lexical;
    LateChannels(small);
    AgreedBeatsAll(lexical, vector, 2, 3 * small + 1);
  }

  lemma AgreedBeatsAll(lexical: seq<Candidate>, vector: seq<Candidate>, id: Uuid, rank: nat)
    requires DistinctChunks(lexical) && DistinctChunks(vector)
    requires LastRank(id, lexical) == Some(2) && LastRank(id, vector) == Some(rank) && 1 <= rank <= 148
    requires forall other :: FoundByBoth(other, lexical, vector) ==> other == id
    ensures Fuse(RRF_K, lexical, vector) != [] && Fuse(RRF_K, lexical, vector)[0].chunkId == id
  {
    FuseIsFusion(RRF_K, lexical, vector);
    var xs := Fuse(RRF_K, lexical, vector);
    SingleContribution(RRF_K, id, lexical);
    SingleContribution(RRF_K, id, vector);
    ContributionBounds(rank, 148);
    assert SlotOf(RRF_K, id, lexical, vector) in xs;
    assert xs[0] in xs;
    if xs[0].chunkId != id {
      ScoreOfSingle(xs[0].chunkId, lexical, vector);
      FirstIsNot(lexical, vector, id, xs[0].chunkId);
    }
  }

  /** For the service, unlike for the fusion alone, a smaller limit gives a prefix of a larger
      one for all inputs exactly when the two limits are equal. */
  lemma PrefixExactlyForEqualLimits(small: nat, large: nat)
    requires 1 <= small <= large <= MAX_REQUEST_LIMIT
    ensures (forall lexical, vector :: DistinctChunks(lexical) && DistinctChunks(vector) ==>
               Retrieved(lexical, vector, small) <= Retrieved(lexical, vector, large))
            <==> small == large
  {
    if small < large {
      LateChannels(small);
      ShortFetchHidesAgreement(small);
      LongFetchShowsAgreement(small, large);
    }
  }

  /** For one input it does when the smaller request already fetches both channels whole. */
  lemma PrefixWhenFetchedWhole(lexical: seq<Candidate>, vector: seq<Candidate>, small: nat, large: nat)
    requires small <= large && |lexical| <= FetchLimit(small) && |vector| <= FetchLimit(small)
    ensures Retrieved(lexical, vector, small) <= Retrieved(lexical, vector, large)
  {
    assert Take(lexical, FetchLimit(small)) == lexical == Take(lexical, FetchLimit(large));
    assert Take(vector, FetchLimit(small)) == vector == Take(vector, FetchLimit(large));
    SmallerLimitIsPrefix(RRF_K, lexical, vector, small, large);
  }
}
