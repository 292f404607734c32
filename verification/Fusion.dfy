/** Hybrid retrieval: reciprocal-rank fusion of the lexical and the vector channel.

    Chunk ids are the 128-bit values of the UUIDs: canonical UUID text has a fixed
    length and lower-case digits, so its string order is the order of the numbers.
    Scores are exact reals. */
module Fusion {
  import opened Collections

  type Uuid = nat

  /** What a candidate row says about its chunk besides its score. */
  datatype Provenance = Provenance(
    documentId: Uuid, versionId: Uuid, sourceId: Uuid,
    documentTitle: string, sourceName: string,
    versionNumber: nat, chunkIndex: nat, content: string)

  datatype Candidate = Candidate(chunkId: Uuid, provenance: Provenance, score: real)

  /** The accumulator of one chunk, and the row the caller gets. */
  datatype Slot = Slot(
    chunkId: Uuid, provenance: Provenance,
    lexicalScore: Option<real>, lexicalRank: Option<nat>,
    vectorScore: Option<real>, vectorRank: Option<nat>,
    hybridScore: real)

  const RRF_K: nat := 60

  function Contribution(k: nat, rank: nat): real
    requires rank > 0
  {
    1.0 / (k + rank) as real
  }

  // ----- the specification, chunk by chunk -----

  function ChunkIds(cands: seq<Candidate>): seq<Uuid> {
    seq(|cands|, i requires 0 <= i < |cands| => cands[i].chunkId)
  }

  /** The sum of 1/(k + position) over every position of `id` in the list. */
  function RankSum(k: nat, id: Uuid, cands: seq<Candidate>): real {
    if cands == [] then 0.0
    else
      var n := |cands| - 1;
      RankSum(k, id, cands[..n])
      + (if cands[n].chunkId == id then Contribution(k, n + 1) else 0.0)
  }

  predicate Found(id: Uuid, cands: seq<Candidate>) {
    cands != [] && (cands[|cands| - 1].chunkId == id || Found(id, cands[..|cands| - 1]))
  }

  lemma {:induction false} FoundMeansListed(id: Uuid, cands: seq<Candidate>)
    ensures Found(id, cands) <==> exists i :: 0 <= i < |cands| && cands[i].chunkId == id
  {
    if cands != [] {
      FoundMeansListed(id, cands[..|cands| - 1]);
      assert cands == cands[..|cands| - 1] + [cands[|cands| - 1]];
    }
  }

  /** The 1-based position of the last candidate with this id. */
  function LastRank(id: Uuid, cands: seq<Candidate>): (r: Option<nat>)
    ensures r.Some? ==> 1 <= r.value <= |cands| && cands[r.value - 1].chunkId == id
  {
    if cands == [] then None
    else if cands[|cands| - 1].chunkId == id then Some(|cands|)
    else LastRank(id, cands[..|cands| - 1])
  }

  function LastScore(id: Uuid, cands: seq<Candidate>): Option<real> {
    match LastRank(id, cands)
    case Some(r) => Some(cands[r - 1].score)
    case None => None
  }

  function FirstProvenance(id: Uuid, cands: seq<Candidate>): Provenance
    requires Found(id, cands)
  {
    var n := |cands| - 1;
    if Found(id, cands[..n]) then FirstProvenance(id, cands[..n]) else cands[n].provenance
  }

  predicate FoundByEither(id: Uuid, lexical: seq<Candidate>, vector: seq<Candidate>) {
    Found(id, lexical) || Found(id, vector)
  }

  function SlotOf(k: nat, id: Uuid, lexical: seq<Candidate>, vector: seq<Candidate>): Slot
    requires FoundByEither(id, lexical, vector)
  {
    Slot(id, if Found(id, lexical) then FirstProvenance(id, lexical) else FirstProvenance(id, vector),
         LastScore(id, lexical), LastRank(id, lexical),
         LastScore(id, vector), LastRank(id, vector),
         RankSum(k, id, lexical) + RankSum(k, id, vector))
  }

  /** Higher score first; among equal scores, smaller chunk id first. */
  predicate Precedes(a: Slot, b: Slot) {
    a.hybridScore > b.hybridScore || (a.hybridScore == b.hybridScore && a.chunkId < b.chunkId)
  }

  predicate NotAfter(a: Slot, b: Slot) {
    a.hybridScore > b.hybridScore || (a.hybridScore == b.hybridScore && a.chunkId <= b.chunkId)
  }

  /** What the fused ranking is for: exactly the found chunks, once each, with their
      rank sums, best first. */
  ghost predicate IsFusion(xs: seq<Slot>, k: nat, lexical: seq<Candidate>, vector: seq<Candidate>) {
    && SortedBy(Precedes, xs)
    && (forall x :: x in xs <==> FoundByEither(x.chunkId, lexical, vector) && x == SlotOf(k, x.chunkId, lexical, vector))
  }

  // ----- the fused ranking -----

  function Slots(k: nat, ids: seq<Uuid>, lexical: seq<Candidate>, vector: seq<Candidate>): seq<Slot>
    requires forall i :: 0 <= i < |ids| ==> FoundByEither(ids[i], lexical, vector)
  {
    seq(|ids|, i requires 0 <= i < |ids| => SlotOf(k, ids[i], lexical, vector))
  }

  lemma FirstIdsAreFound(lexical: seq<Candidate>, vector: seq<Candidate>)
    ensures var ids := FirstOccurrences(ChunkIds(lexical + vector));
            && Distinct(ids)
            && forall id :: id in ids <==> FoundByEither(id, lexical, vector)
  {
    var all := lexical + vector;
    FirstOccurrencesIsSetOf(ChunkIds(all));
    forall id ensures id in ChunkIds(all) <==> FoundByEither(id, lexical, vector) {
      FoundConcat(id, lexical, vector);
      FoundMeansListed(id, all);
      if Found(id, all) {
        var i :| 0 <= i < |all| && all[i].chunkId == id;
        assert ChunkIds(all)[i] == id;
      }
    }
  }

  ghost function Fuse(k: nat, lexical: seq<Candidate>, vector: seq<Candidate>): seq<Slot> {
    FirstIdsAreFound(lexical, vector);
    Sort(NotAfter, Slots(k, FirstOccurrences(ChunkIds(lexical + vector)), lexical, vector))
  }

  lemma SlotsDistinct(k: nat, ids: seq<Uuid>, lexical: seq<Candidate>, vector: seq<Candidate>)
    requires Distinct(ids) && forall i :: 0 <= i < |ids| ==> FoundByEither(ids[i], lexical, vector)
    ensures Distinct(Slots(k, ids, lexical, vector))
  {
    var slots := Slots(k, ids, lexical, vector);
    forall i, j | 0 <= i < j < |slots| ensures slots[i] != slots[j] {
      assert slots[i].chunkId == ids[i] && slots[j].chunkId == ids[j];
    }
  }

  lemma SlotsAreThose(k: nat, ids: seq<Uuid>, lexical: seq<Candidate>, vector: seq<Candidate>, x: Slot)
    requires forall id :: id in ids <==> FoundByEither(id, lexical, vector)
    ensures x in Slots(k, ids, lexical, vector) <==>
              FoundByEither(x.chunkId, lexical, vector) && x == SlotOf(k, x.chunkId, lexical, vector)
  {
    var slots := Slots(k, ids, lexical, vector);
    if FoundByEither(x.chunkId, lexical, vector) && x == SlotOf(k, x.chunkId, lexical, vector) {
      assert x.chunkId in ids;
      var i :| 0 <= i < |ids| && ids[i] == x.chunkId;
      assert slots[i] == x;
    }
  }

  /** Distinct slots of one fusion in sorted order strictly precede one another. */
  lemma StrictlySorted(xs: seq<Slot>, k: nat, lexical: seq<Candidate>, vector: seq<Candidate>)
    requires SortedBy(NotAfter, xs) && Distinct(xs)
    requires forall x :: x in xs ==> FoundByEither(x.chunkId, lexical, vector) && x == SlotOf(k, x.chunkId, lexical, vector)
    ensures SortedBy(Precedes, xs)
  {
    forall i, j | 0 <= i < j < |xs| ensures Precedes(xs[i], xs[j]) {
      assert NotAfter(xs[i], xs[j]) && xs[i] != xs[j];
      assert xs[i] in xs && xs[j] in xs;
    }
  }

  lemma FuseIsFusion(k: nat, lexical: seq<Candidate>, vector: seq<Candidate>)
    ensures IsFusion(Fuse(k, lexical, vector), k, lexical, vector)
  {
    FirstIdsAreFound(lexical, vector);
    var ids := FirstOccurrences(ChunkIds(lexical + vector));
    var slots := Slots(k, ids, lexical, vector);
    SortSorts(NotAfter, slots);
    assert TotalOrder(NotAfter);
    SlotsDistinct(k, ids, lexical, vector);
    SortDistinct(NotAfter, slots);
    forall x ensures x in slots <==> FoundByEither(x.chunkId, lexical, vector) && x == SlotOf(k, x.chunkId, lexical, vector) {
      SlotsAreThose(k, ids, lexical, vector, x);
    }
    StrictlySorted(Sort(NotAfter, slots), k, lexical, vector);
  }

  /** The order is unique: whatever lists the same slots best first is the fused ranking. */
  lemma FusionUnique(xs: seq<Slot>, k: nat, lexical: seq<Candidate>, vector: seq<Candidate>)
    requires IsFusion(xs, k, lexical, vector)
    ensures xs == Fuse(k, lexical, vector)
  {
    FuseIsFusion(k, lexical, vector);
    SortedUnique(Precedes, xs, Fuse(k, lexical, vector));
  }

  /** No chunk is returned twice. */
  lemma FusedChunksDistinct(k: nat, lexical: seq<Candidate>, vector: seq<Candidate>)
    ensures forall i, j :: 0 <= i < j < |Fuse(k, lexical, vector)| ==>
              Fuse(k, lexical, vector)[i].chunkId != Fuse(k, lexical, vector)[j].chunkId
  {
    FuseIsFusion(k, lexical, vector);
    var xs := Fuse(k, lexical, vector);
    forall i, j | 0 <= i < j < |xs| ensures xs[i].chunkId != xs[j].chunkId {
      assert xs[i] in xs && xs[j] in xs;
      assert Precedes(xs[i], xs[j]);
    }
  }

  /** What a slot says about one channel: the last position of the chunk there and that row's
      score, or nothing when the channel does not have it. */
  ghost predicate ChannelIs(id: Uuid, cands: seq<Candidate>, rank: Option<nat>, score: Option<real>) {
    match rank
    case None => score.None? && forall i :: 0 <= i < |cands| ==> cands[i].chunkId != id
    case Some(r) =>
      && 1 <= r <= |cands| && cands[r - 1].chunkId == id && score == Some(cands[r - 1].score)
      && forall i :: r <= i < |cands| ==> cands[i].chunkId != id
  }

  /** The provenance is that of the chunk's first row, lexical rows before vector rows. */
  ghost predicate ProvenanceIs(id: Uuid, rows: seq<Candidate>, provenance: Provenance) {
    exists i :: 0 <= i < |rows| && rows[i].chunkId == id && rows[i].provenance == provenance
                && forall j :: 0 <= j < i ==> rows[j].chunkId != id
  }

  lemma {:induction false} LastRankIs(id: Uuid, cands: seq<Candidate>)
    ensures ChannelIs(id, cands, LastRank(id, cands), LastScore(id, cands))
  {
    if cands != [] && cands[|cands| - 1].chunkId != id { LastRankIs(id, cands[..|cands| - 1]); }
  }

  lemma {:induction false} FirstProvenanceIs(id: Uuid, cands: seq<Candidate>) returns (i: nat)
    requires Found(id, cands)
    ensures i < |cands| && cands[i].chunkId == id && cands[i].provenance == FirstProvenance(id, cands)
    ensures forall j :: 0 <= j < i ==> cands[j].chunkId != id
  {
    var n := |cands| - 1;
    if Found(id, cands[..n]) {
      i := FirstProvenanceIs(id, cands[..n]);
    } else {
      i := n;
      FoundMeansListed(id, cands[..n]);
      forall j | 0 <= j < n ensures cands[j].chunkId != id { assert cands[..n][j] == cands[j]; }
    }
  }

  /** Every row of the fused ranking carries its chunk's ranks, scores and provenance. */
  lemma SlotsAreExact(k: nat, lexical: seq<Candidate>, vector: seq<Candidate>, x: Slot)
    requires x in Fuse(k, lexical, vector)
    ensures ChannelIs(x.chunkId, lexical, x.lexicalRank, x.lexicalScore)
    ensures ChannelIs(x.chunkId, vector, x.vectorRank, x.vectorScore)
    ensures ProvenanceIs(x.chunkId, lexical + vector, x.provenance)
  {
    FuseIsFusion(k, lexical, vector);
    LastRankIs(x.chunkId, lexical);
    LastRankIs(x.chunkId, vector);
    var all := lexical + vector;
    if Found(x.chunkId, lexical) {
      var i := FirstProvenanceIs(x.chunkId, lexical);
      assert all[i] == lexical[i];
    } else {
      var i := FirstProvenanceIs(x.chunkId, vector);
      FoundMeansListed(x.chunkId, lexical);
      assert all[|lexical| + i] == vector[i];
    }
  }

  function Ranking(xs: seq<Slot>): seq<(Uuid, real)> {
    seq(|xs|, i requires 0 <= i < |xs| => Ranked(xs[i]))
  }

  predicate PairPrecedes(a: (Uuid, real), b: (Uuid, real)) {
    a.1 > b.1 || (a.1 == b.1 && a.0 < b.0)
  }

  /** The ranking lists exactly the found chunks with the sums of their contributions. */
  lemma RankingCharacterised(k: nat, lexical: seq<Candidate>, vector: seq<Candidate>, p: (Uuid, real))
    ensures p in Ranking(Fuse(k, lexical, vector)) <==>
            FoundByEither(p.0, lexical, vector)
            && p.1 == RankSum(k, p.0, lexical) + RankSum(k, p.0, vector)
  {
    FuseIsFusion(k, lexical, vector);
    var xs := Fuse(k, lexical, vector);
    InRanking(xs, p);
    if FoundByEither(p.0, lexical, vector) {
      assert p.1 == RankSum(k, p.0, lexical) + RankSum(k, p.0, vector) ==>
          SlotOf(k, p.0, lexical, vector) in xs && Ranked(SlotOf(k, p.0, lexical, vector)) == p;
    }
  }

  function Ranked(x: Slot): (Uuid, real) {
    (x.chunkId, x.hybridScore)
  }

  lemma InRanking(xs: seq<Slot>, p: (Uuid, real))
    ensures p in Ranking(xs) <==> exists x :: x in xs && Ranked(x) == p
  {
    if p in Ranking(xs) {
      var i :| 0 <= i < |xs| && Ranking(xs)[i] == p;
      assert xs[i] in xs;
    }
    if x :| x in xs && Ranked(x) == p {
      var i :| 0 <= i < |xs| && xs[i] == x;
      assert Ranking(xs)[i] == p;
    }
  }

  lemma {:induction false} FoundConcat(id: Uuid, xs: seq<Candidate>, ys: seq<Candidate>)
    ensures Found(id, xs + ys) <==> Found(id, xs) || Found(id, ys)
  {
    if ys == [] {
      assert xs + ys == xs;
    } else {
      var n := |ys| - 1;
      FoundConcat(id, xs, ys[..n]);
      assert (xs + ys)[..|xs| + n] == xs + ys[..n];
    }
  }

  /** Swapping the two channels leaves the ranked ids and their scores unchanged. */
  lemma FusionSymmetric(k: nat, lexical: seq<Candidate>, vector: seq<Candidate>)
    ensures Ranking(Fuse(k, lexical, vector)) == Ranking(Fuse(k, vector, lexical))
  {
    var xs, ys := Fuse(k, lexical, vector), Fuse(k, vector, lexical);
    FuseIsFusion(k, lexical, vector);
    FuseIsFusion(k, vector, lexical);
    forall i, j | 0 <= i < j < |xs| ensures PairPrecedes(Ranking(xs)[i], Ranking(xs)[j]) {
      assert Precedes(xs[i], xs[j]);
    }
    forall i, j | 0 <= i < j < |ys| ensures PairPrecedes(Ranking(ys)[i], Ranking(ys)[j]) {
      assert Precedes(ys[i], ys[j]);
    }
    forall p ensures p in Ranking(xs) <==> p in Ranking(ys) {
      RankingCharacterised(k, lexical, vector, p);
      RankingCharacterised(k, vector, lexical, p);
    }
    SortedUnique(PairPrecedes, Ranking(xs), Ranking(ys));
  }

  // ----- the algorithm -----

  /** The two accumulating loops, the sort and the truncation.  `order` is the insertion
      order of the dictionary `slots`. */
  method ReciprocalRankFusion(lexical: seq<Candidate>, vector: seq<Candidate>, k: nat, limit: nat)
    returns (results: seq<Slot>)
    ensures results == Take(Fuse(k, lexical, vector), limit)
  {
    var slots, order := AccumulateLexical(lexical, k);
    slots, order := AccumulateVector(lexical, vector, k, slots, order);
    FirstIdsAreFound(lexical, vector);
    assert Values(slots, order) == Slots(k, order, lexical, vector);
    results := CopyOut(Take(Sort(NotAfter, Values(slots, order)), limit));
  }

  method AccumulateLexical(lexical: seq<Candidate>, k: nat) returns (slots: map<Uuid, Slot>, order: seq<Uuid>)
    ensures Accumulated(slots, order, k, lexical, [])
  {
    slots, order := map[], [];
    for rank0 := 0 to |lexical|
      invariant Accumulated(slots, order, k, lexical[..rank0], [])
    {
      LexicalStep(slots, order, k, lexical, rank0);
      slots, order := Contribute(slots, order, k, rank0 + 1, lexical[rank0], true);
    }
    assert lexical[..|lexical|] == lexical;
  }

  method AccumulateVector(lexical: seq<Candidate>, vector: seq<Candidate>, k: nat,
                          slots0: map<Uuid, Slot>, order0: seq<Uuid>)
    returns (slots: map<Uuid, Slot>, order: seq<Uuid>)
    requires Accumulated(slots0, order0, k, lexical, [])
    ensures Accumulated(slots, order, k, lexical, vector)
  {
    slots, order := slots0, order0;
    for rank0 := 0 to |vector|
      invariant Accumulated(slots, order, k, lexical, vector[..rank0])
    {
      VectorStep(slots, order, k, lexical, vector, rank0);
      slots, order := Contribute(slots, order, k, rank0 + 1, vector[rank0], false);
    }
    assert vector[..|vector|] == vector;
  }

  /** The appending loop over the kept slots. */
  method CopyOut(kept: seq<Slot>) returns (results: seq<Slot>)
    ensures results == kept
  {
    results := [];
    for i := 0 to |kept|
      invariant results == kept[..i]
    {
      results := results + [kept[i]];
    }
  }

  /** The body of both accumulating loops: open the slot on first sight, overwrite the
      channel's score and rank, add the contribution. */
  method Contribute(slots0: map<Uuid, Slot>, order0: seq<Uuid>, k: nat, rank: nat, cand: Candidate, lexicalChannel: bool)
    returns (slots: map<Uuid, Slot>, order: seq<Uuid>)
    requires rank > 0
    ensures slots == Touch(slots0, k, rank, cand, lexicalChannel)
    ensures order == if cand.chunkId in slots0 then order0 else order0 + [cand.chunkId]
  {
    slots, order := slots0, order0;
    if cand.chunkId !in slots {
      slots := slots[cand.chunkId := Slot(cand.chunkId, cand.provenance, None, None, None, None, 0.0)];
      order := order + [cand.chunkId];
    }
    var slot := slots[cand.chunkId];
    if lexicalChannel {
      slot := slot.(lexicalScore := Some(cand.score), lexicalRank := Some(rank));
    } else {
      slot := slot.(vectorScore := Some(cand.score), vectorRank := Some(rank));
    }
    slots := slots[cand.chunkId := slot.(hybridScore := slot.hybridScore + Contribution(k, rank))];
  }

  function Values(slots: map<Uuid, Slot>, order: seq<Uuid>): seq<Slot>
    requires forall id :: id in order ==> id in slots
  {
    seq(|order|, i requires 0 <= i < |order| => slots[order[i]])
  }

  ghost predicate IsSlotOf(slot: Slot, k: nat, id: Uuid, lexical: seq<Candidate>, vector: seq<Candidate>) {
    FoundByEither(id, lexical, vector) && slot == SlotOf(k, id, lexical, vector)
  }

  ghost predicate Tabulated(slots: map<Uuid, Slot>, k: nat, lexical: seq<Candidate>, vector: seq<Candidate>) {
    && (forall id :: id in slots <==> FoundByEither(id, lexical, vector))
    && (forall id :: id in slots ==> IsSlotOf(slots[id], k, id, lexical, vector))
  }

  /** The dictionary after the given prefixes of the two channels. */
  ghost predicate Accumulated(slots: map<Uuid, Slot>, order: seq<Uuid>, k: nat,
                              lexical: seq<Candidate>, vector: seq<Candidate>) {
    order == FirstOccurrences(ChunkIds(lexical + vector)) && Tabulated(slots, k, lexical, vector)
  }

  function TouchSlot(slot: Slot, k: nat, rank: nat, cand: Candidate, lexicalChannel: bool): Slot
    requires rank > 0
  {
    if lexicalChannel
    then slot.(lexicalScore := Some(cand.score), lexicalRank := Some(rank),
               hybridScore := slot.hybridScore + Contribution(k, rank))
    else slot.(vectorScore := Some(cand.score), vectorRank := Some(rank),
               hybridScore := slot.hybridScore + Contribution(k, rank))
  }

  /** What one loop iteration does to the dictionary. */
  function Touch(slots: map<Uuid, Slot>, k: nat, rank: nat, cand: Candidate, lexicalChannel: bool): map<Uuid, Slot>
    requires rank > 0
  {
    var slot := if cand.chunkId in slots then slots[cand.chunkId]
                else Slot(cand.chunkId, cand.provenance, None, None, None, None, 0.0);
    slots[cand.chunkId := TouchSlot(slot, k, rank, cand, lexicalChannel)]
  }

  lemma {:induction false} AbsentSumsToZero(k: nat, id: Uuid, cands: seq<Candidate>)
    requires !Found(id, cands)
    ensures RankSum(k, id, cands) == 0.0 && LastRank(id, cands) == None
  {
    if cands != [] { AbsentSumsToZero(k, id, cands[..|cands| - 1]); }
  }

  /** Each channel's entries of one slot after one candidate more in that channel. */
  lemma ChannelExtends(k: nat, id: Uuid, cands: seq<Candidate>, cand: Candidate)
    ensures LastRank(id, cands + [cand]) == (if id == cand.chunkId then Some(|cands| + 1) else LastRank(id, cands))
    ensures LastScore(id, cands + [cand]) == (if id == cand.chunkId then Some(cand.score) else LastScore(id, cands))
    ensures RankSum(k, id, cands + [cand]) ==
            RankSum(k, id, cands) + (if id == cand.chunkId then Contribution(k, |cands| + 1) else 0.0)
  {
    assert (cands + [cand])[..|cands|] == cands;
  }

  lemma SlotExtends(k: nat, id: Uuid, lexical: seq<Candidate>, vector: seq<Candidate>, cand: Candidate,
                    lexicalChannel: bool, before: Slot)
    requires lexicalChannel ==> vector == []
    requires FoundByEither(id, lexical, vector) || id == cand.chunkId
    requires if FoundByEither(id, lexical, vector) then before == SlotOf(k, id, lexical, vector)
             else before == Slot(id, cand.provenance, None, None, None, None, 0.0)
    ensures if lexicalChannel then
              SlotOf(k, id, lexical + [cand], vector)
              == if id == cand.chunkId then TouchSlot(before, k, |lexical| + 1, cand, true) else before
            else
              SlotOf(k, id, lexical, vector + [cand])
              == if id == cand.chunkId then TouchSlot(before, k, |vector| + 1, cand, false) else before
  {
    var cands := if lexicalChannel then lexical else vector;
    assert (cands + [cand])[..|cands|] == cands;
    ChannelExtends(k, id, cands, cand);
    if !Found(id, lexical) { AbsentSumsToZero(k, id, lexical); }
    if !Found(id, vector) { AbsentSumsToZero(k, id, vector); }
  }

  lemma OrderExtends(cands: seq<Candidate>, cand: Candidate)
    ensures var order := FirstOccurrences(ChunkIds(cands));
            FirstOccurrences(ChunkIds(cands + [cand])) ==
            if Found(cand.chunkId, cands) then order else order + [cand.chunkId]
  {
    var ids, ids' := ChunkIds(cands), ChunkIds(cands + [cand]);
    assert ids'[..|cands|] == ids;
    FoundMeansListed(cand.chunkId, cands);
    if Found(cand.chunkId, cands) {
      var i :| 0 <= i < |cands| && cands[i].chunkId == cand.chunkId;
      assert ids[i] == cand.chunkId;
    }
  }

  lemma FoundExtends(id: Uuid, cands: seq<Candidate>, cand: Candidate)
    ensures Found(id, cands + [cand]) <==> id == cand.chunkId || Found(id, cands)
  {
    assert (cands + [cand])[..|cands|] == cands;
  }

  /** One candidate more at the end of one channel; the lexical channel comes first. */
  ghost predicate Extends(lexical: seq<Candidate>, vector: seq<Candidate>, cand: Candidate, lexicalChannel: bool,
                          lexical': seq<Candidate>, vector': seq<Candidate>, rank: nat) {
    if lexicalChannel then vector == [] && vector' == [] && lexical' == lexical + [cand] && rank == |lexical| + 1
    else lexical' == lexical && vector' == vector + [cand] && rank == |vector| + 1
  }

  lemma TouchedId(slots: map<Uuid, Slot>, k: nat, lexical: seq<Candidate>, vector: seq<Candidate>, cand: Candidate,
                  lexicalChannel: bool, lexical': seq<Candidate>, vector': seq<Candidate>, rank: nat)
    requires Tabulated(slots, k, lexical, vector) && Extends(lexical, vector, cand, lexicalChannel, lexical', vector', rank)
    ensures IsSlotOf(Touch(slots, k, rank, cand, lexicalChannel)[cand.chunkId], k, cand.chunkId, lexical', vector')
  {
    var id := cand.chunkId;
    FoundExtends(id, if lexicalChannel then lexical else vector, cand);
    var before := if id in slots then slots[id] else Slot(id, cand.provenance, None, None, None, None, 0.0);
    assert id in slots ==> IsSlotOf(slots[id], k, id, lexical, vector);
    SlotExtends(k, id, lexical, vector, cand, lexicalChannel, before);
  }

  lemma UntouchedId(slots: map<Uuid, Slot>, k: nat, id: Uuid, lexical: seq<Candidate>, vector: seq<Candidate>, cand: Candidate,
                    lexicalChannel: bool, lexical': seq<Candidate>, vector': seq<Candidate>, rank: nat)
    requires Tabulated(slots, k, lexical, vector) && Extends(lexical, vector, cand, lexicalChannel, lexical', vector', rank)
    requires id != cand.chunkId
    ensures FoundByEither(id, lexical', vector') <==> id in slots
    ensures id in slots ==> IsSlotOf(slots[id], k, id, lexical', vector')
  {
    FoundExtends(id, if lexicalChannel then lexical else vector, cand);
    if id in slots {
      assert IsSlotOf(slots[id], k, id, lexical, vector);
      SlotExtends(k, id, lexical, vector, cand, lexicalChannel, slots[id]);
    }
  }

  lemma DictionaryStep(slots: map<Uuid, Slot>, k: nat, lexical: seq<Candidate>, vector: seq<Candidate>, cand: Candidate,
                       lexicalChannel: bool, lexical': seq<Candidate>, vector': seq<Candidate>, rank: nat)
    requires Tabulated(slots, k, lexical, vector) && Extends(lexical, vector, cand, lexicalChannel, lexical', vector', rank)
    ensures Tabulated(Touch(slots, k, rank, cand, lexicalChannel), k, lexical', vector')
  {
    var slots' := Touch(slots, k, rank, cand, lexicalChannel);
    TouchedId(slots, k, lexical, vector, cand, lexicalChannel, lexical', vector', rank);
    forall id
      ensures id in slots' <==> FoundByEither(id, lexical', vector')
      ensures id in slots' ==> IsSlotOf(slots'[id], k, id, lexical', vector')
    {
      if id != cand.chunkId { UntouchedId(slots, k, id, lexical, vector, cand, lexicalChannel, lexical', vector', rank); }
    }
  }

  lemma OrderStep(order: seq<Uuid>, lexical: seq<Candidate>, vector: seq<Candidate>, cand: Candidate,
                  lexicalChannel: bool, lexical': seq<Candidate>, vector': seq<Candidate>, rank: nat)
    requires order == FirstOccurrences(ChunkIds(lexical + vector))
    requires Extends(lexical, vector, cand, lexicalChannel, lexical', vector', rank)
    ensures FirstOccurrences(ChunkIds(lexical' + vector'))
            == if FoundByEither(cand.chunkId, lexical, vector) then order else order + [cand.chunkId]
  {
    OrderExtends(lexical + vector, cand);
    FoundConcat(cand.chunkId, lexical, vector);
    assert lexical' + vector' == lexical + vector + [cand];
  }

  /** One candidate more in either channel is one dictionary update. */
  lemma AccumulateStep(slots: map<Uuid, Slot>, order: seq<Uuid>, k: nat,
                       lexical: seq<Candidate>, vector: seq<Candidate>, cand: Candidate,
                       lexicalChannel: bool, lexical': seq<Candidate>, vector': seq<Candidate>, rank: nat)
    requires Accumulated(slots, order, k, lexical, vector)
    requires Extends(lexical, vector, cand, lexicalChannel, lexical', vector', rank)
    ensures Accumulated(Touch(slots, k, rank, cand, lexicalChannel),
                        if cand.chunkId in slots then order else order + [cand.chunkId], k, lexical', vector')
  {
    DictionaryStep(slots, k, lexical, vector, cand, lexicalChannel, lexical', vector', rank);
    OrderStep(order, lexical, vector, cand, lexicalChannel, lexical', vector', rank);
  }

  lemma LexicalStep(slots: map<Uuid, Slot>, order: seq<Uuid>, k: nat, lexical: seq<Candidate>, i: nat)
    requires i < |lexical| && Accumulated(slots, order, k, lexical[..i], [])
    ensures Accumulated(Touch(slots, k, i + 1, lexical[i], true),
                        if lexical[i].chunkId in slots then order else order + [lexical[i].chunkId], k, lexical[..i + 1], [])
  {
    AccumulateStep(slots, order, k, lexical[..i], [], lexical[i], true, lexical[..i + 1], [], i + 1);
  }

  lemma VectorStep(slots: map<Uuid, Slot>, order: seq<Uuid>, k: nat, lexical: seq<Candidate>, vector: seq<Candidate>, i: nat)
    requires i < |vector| && Accumulated(slots, order, k, lexical, vector[..i])
    ensures Accumulated(Touch(slots, k, i + 1, vector[i], false),
                        if vector[i].chunkId in slots then order else order + [vector[i].chunkId], k, lexical, vector[..i + 1])
  {
    AccumulateStep(slots, order, k, lexical, vector[..i], vector[i], false, lexical, vector[..i + 1], i + 1);
  }
}
