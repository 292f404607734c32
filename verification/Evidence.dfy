/** From ranked results to the evidence packet and its deterministic confidence band. */
module Evidence {
  import opened Collections
  import opened Fusion
  import Decimal
  import Retrieval

  datatype EvidenceBand = HIGH | MEDIUM | LOW | NONE

  datatype EvidenceItem = EvidenceItem(evidenceId: string, result: Slot, injectionFlags: seq<string>)

  datatype Limitation = SuspiciousPatterns(count: nat) | Capped(maxItems: nat, dropped: nat)

  datatype EvidencePacket = EvidencePacket(
    query: string, items: seq<EvidenceItem>, distinctSources: nat, distinctDocuments: nat,
    band: EvidenceBand, score: real, limitations: seq<Limitation>, suspiciousCount: nat)

  /** `E1`, `E2`, … */
  function EvidenceId(n: nat): string {
    "E" + Decimal.Print(n)
  }

  function AtLeast(minScore: real): Slot -> bool {
    (r: Slot) => r.hybridScore >= minScore
  }

  function Eligible(results: seq<Slot>, maxItems: nat, minScore: real): seq<Slot> {
    Take(Filter(AtLeast(minScore), results), maxItems)
  }

  /** The items numbered in rank order, starting at E1. */
  ghost predicate Numbered(items: seq<EvidenceItem>, eligible: seq<Slot>, detect: string -> seq<string>) {
    && |items| == |eligible|
    && forall i :: 0 <= i < |items| ==>
         items[i] == EvidenceItem(EvidenceId(i + 1), eligible[i], detect(eligible[i].provenance.content))
  }

  function Documents(items: seq<EvidenceItem>): set<Uuid> {
    set i | 0 <= i < |items| :: items[i].result.provenance.documentId
  }

  function Sources(items: seq<EvidenceItem>): set<Uuid> {
    set i | 0 <= i < |items| :: items[i].result.provenance.sourceId
  }

  /** How many items satisfy `p`. */
  function Count(p: EvidenceItem -> bool, items: seq<EvidenceItem>): (n: nat)
    ensures n == |Positions(p, items)|
    ensures n <= |items|
    ensures (forall i :: 0 <= i < |items| ==> !p(items[i])) ==> n == 0
    ensures (forall i :: 0 <= i < |items| ==> p(items[i])) ==> n == |items|
  {
    if items == [] then 0
    else
      var front, last := items[..|items| - 1], items[|items| - 1];
      PositionsAppend(p, front, last);
      assert items == front + [last];
      (if p(last) then 1 else 0) + Count(p, front)
  }

  predicate Flagged(item: EvidenceItem) {
    item.injectionFlags != []
  }

  predicate Agreed(item: EvidenceItem) {
    item.result.lexicalRank.Some? && item.result.vectorRank.Some?
  }

  function Min(a: real, b: real): real {
    if a <= b then a else b
  }

  function Max(a: real, b: real): real {
    if a >= b then a else b
  }

  // ----- the confidence formula -----

  function NormalisedTop(top: real): real {
    Min(top / 0.033, 1.0)
  }

  function Weighted(top: real, diversity: real, agreement: real, breadth: real): real {
    0.40 * top + 0.25 * diversity + 0.20 * agreement + 0.15 * breadth
  }

  function Ratio(part: nat, whole: nat): real
    requires whole > 0
  {
    Min(part as real / whole as real, 1.0)
  }

  function Unpenalised(items: seq<EvidenceItem>, distinctDocs: nat): real
    requires items != []
  {
    Weighted(NormalisedTop(items[0].result.hybridScore), Ratio(distinctDocs, 3),
             Ratio(Count(Agreed, items), |items|), Ratio(|items|, 5))
  }

  function ApplyPenalty(score: real, suspicious: nat, total: nat): real
    requires total > 0
  {
    score * (1.0 - 0.20 * (suspicious as real / total as real))
  }

  function Penalised(items: seq<EvidenceItem>, distinctDocs: nat, suspicious: nat): real
    requires items != []
  {
    ApplyPenalty(Unpenalised(items, distinctDocs), suspicious, |items|)
  }

  function BandOf(score: real): EvidenceBand {
    if score == 0.0 then NONE
    else if score < 0.45 then LOW
    else if score < 0.70 then MEDIUM
    else HIGH
  }

  function CalculateEvidenceBand(items: seq<EvidenceItem>, distinctDocs: nat, suspicious: nat): (EvidenceBand, real) {
    if items == [] then (NONE, 0.0)
    else
      var score := Max(0.0, Min(1.0, Penalised(items, distinctDocs, suspicious)));
      (BandOf(score), score)
  }

  method NumberItems(eligible: seq<Slot>, detect: string -> seq<string>) returns (items: seq<EvidenceItem>)
    ensures Numbered(items, eligible, detect)
  {
    items := [];
    for idx := 0 to |eligible|
      invariant Numbered(items, eligible[..idx], detect)
    {
      items := items + [EvidenceItem(EvidenceId(idx + 1), eligible[idx], detect(eligible[idx].provenance.content))];
    }
    assert eligible[..|eligible|] == eligible;
  }

  method ListLimitations(suspicious: nat, total: nat, maxItems: nat) returns (limitations: seq<Limitation>)
    ensures AreLimitations(limitations, suspicious, total, maxItems)
  {
    limitations := [];
    if suspicious > 0 {
      limitations := limitations + [SuspiciousPatterns(suspicious)];
    }
    if total > maxItems {
      limitations := limitations + [Capped(maxItems, total - maxItems)];
    }
  }

  method BuildEvidencePacket(query: string, results: seq<Slot>, maxItems: nat, minScore: real,
                             detect: string -> seq<string>)
    returns (packet: EvidencePacket)
    ensures IsPacketFor(packet, query, results, maxItems, minScore, detect)
  {
    var items := NumberItems(Eligible(results, maxItems, minScore), detect);
    var suspicious := Count(Flagged, items);
    var (band, score) := CalculateEvidenceBand(items, |Documents(items)|, suspicious);
    var limitations := ListLimitations(suspicious, |results|, maxItems);
    CountsMean(items, |Documents(items)|, |Sources(items)|, suspicious);
    packet := EvidencePacket(query, items, |Sources(items)|, |Documents(items)|, band, score, limitations, suspicious);
  }

  /** The packet: the best eligible results in rank order, numbered from E1, with counts,
      band and score taken from those very items. */
  ghost predicate IsPacketFor(packet: EvidencePacket, query: string, results: seq<Slot>, maxItems: nat, minScore: real,
                              detect: string -> seq<string>) {
    && packet.query == query
    && Numbered(packet.items, Eligible(results, maxItems, minScore), detect)
    && CountsAre(packet.items, packet.distinctDocuments, packet.distinctSources, packet.suspiciousCount)
    && (packet.band, packet.score)
       == CalculateEvidenceBand(packet.items, packet.distinctDocuments, packet.suspiciousCount)
    && AreLimitations(packet.limitations, packet.suspiciousCount, |results|, maxItems)
  }

  /** The different documents and sources of the items, and the items with flags. */
  ghost predicate CountsAre(items: seq<EvidenceItem>, documents: nat, sources: nat, suspicious: nat) {
    && documents == |set i | 0 <= i < |items| :: items[i].result.provenance.documentId|
    && sources == |set i | 0 <= i < |items| :: items[i].result.provenance.sourceId|
    && suspicious == |set i | 0 <= i < |items| && items[i].injectionFlags != []|
  }

  lemma CountsMean(items: seq<EvidenceItem>, documents: nat, sources: nat, suspicious: nat)
    ensures CountsAre(items, documents, sources, suspicious) <==>
              documents == |Documents(items)| && sources == |Sources(items)| && suspicious == Count(Flagged, items)
  {
    assert Documents(items) == set i | 0 <= i < |items| :: items[i].result.provenance.documentId;
    assert Sources(items) == set i | 0 <= i < |items| :: items[i].result.provenance.sourceId;
    assert Positions(Flagged, items) == set i | 0 <= i < |items| && items[i].injectionFlags != [];
  }

  ghost predicate AreLimitations(limitations: seq<Limitation>, suspicious: nat, total: nat, maxItems: nat) {
    limitations == (if suspicious > 0 then [SuspiciousPatterns(suspicious)] else [])
                   + (if total > maxItems then [Capped(maxItems, total - maxItems)] else [])
  }

  // ----- packets of fused results -----

  /** One retrieval and what is made of it: two channels without duplicates, fused. */
  datatype Run = Run(lexical: seq<Candidate>, vector: seq<Candidate>, limit: nat,
                     query: string, maxItems: nat, minScore: real, detect: string -> seq<string>)

  ghost function Results(run: Run): seq<Slot> {
    Take(Fuse(RRF_K, run.lexical, run.vector), run.limit)
  }

  ghost predicate IsPacketOf(packet: EvidencePacket, run: Run) {
    && Retrieval.DistinctChunks(run.lexical) && Retrieval.DistinctChunks(run.vector)
    && IsPacketFor(packet, run.query, Results(run), run.maxItems, run.minScore, run.detect)
  }

  /** Every retrieval of duplicate-free channels yields such a packet. */
  method Gather(run: Run) returns (packet: EvidencePacket)
    requires Retrieval.DistinctChunks(run.lexical) && Retrieval.DistinctChunks(run.vector)
    ensures IsPacketOf(packet, run)
  {
    var results := ReciprocalRankFusion(run.lexical, run.vector, RRF_K, run.limit);
    packet := BuildEvidencePacket(run.query, results, run.maxItems, run.minScore, run.detect);
  }

  predicate IsChannelScore(s: Slot) {
    && 0.0 < s.hybridScore <= 2.0 / 61.0
    && (s.lexicalRank.Some? || s.vectorRank.Some?)
    && (s.lexicalRank.None? || s.vectorRank.None? ==> s.hybridScore <= 1.0 / 61.0)
  }

  lemma ScoreOfSlot(id: Uuid, lexical: seq<Candidate>, vector: seq<Candidate>)
    requires Retrieval.DistinctChunks(lexical) && Retrieval.DistinctChunks(vector)
    requires FoundByEither(id, lexical, vector)
    ensures IsChannelScore(SlotOf(RRF_K, id, lexical, vector))
  {
    Retrieval.SingleContribution(RRF_K, id, lexical);
    Retrieval.SingleContribution(RRF_K, id, vector);
    if Found(id, lexical) {
      Retrieval.ContributionBounds(LastRank(id, lexical).value, LastRank(id, lexical).value);
    }
    if Found(id, vector) {
      Retrieval.ContributionBounds(LastRank(id, vector).value, LastRank(id, vector).value);
    }
  }

  predicate NotLower(a: Slot, b: Slot) {
    a.hybridScore >= b.hybridScore
  }

  lemma RankedResults(run: Run)
    requires Retrieval.DistinctChunks(run.lexical) && Retrieval.DistinctChunks(run.vector)
    ensures forall r :: r in Results(run) ==> IsChannelScore(r)
    ensures SortedBy(NotLower, Results(run))
  {
    FuseIsFusion(RRF_K, run.lexical, run.vector);
    var xs := Fuse(RRF_K, run.lexical, run.vector);
    forall r | r in Results(run) ensures IsChannelScore(r) {
      assert r in xs;
      ScoreOfSlot(r.chunkId, run.lexical, run.vector);
    }
    forall i, j | 0 <= i < j < |Results(run)| ensures NotLower(Results(run)[i], Results(run)[j]) {
      assert Precedes(xs[i], xs[j]);
    }
  }

  lemma EligibleResults(run: Run)
    requires Retrieval.DistinctChunks(run.lexical) && Retrieval.DistinctChunks(run.vector)
    ensures var eligible := Eligible(Results(run), run.maxItems, run.minScore);
            SortedBy(NotLower, eligible) && forall i :: 0 <= i < |eligible| ==> eligible[i] in Results(run) && IsChannelScore(eligible[i])
  {
    RankedResults(run);
    FilterKeepsSorted(AtLeast(run.minScore), NotLower, Results(run));
    var kept := Filter(AtLeast(run.minScore), Results(run));
    forall i | 0 <= i < |kept| ensures kept[i] in Results(run) {
      assert kept[i] in kept;
    }
  }

  lemma PacketItems(packet: EvidencePacket, run: Run)
    requires IsPacketOf(packet, run)
    ensures forall i :: 0 <= i < |packet.items| ==> packet.items[i].result in Results(run)
    ensures forall i :: 0 <= i < |packet.items| ==> IsChannelScore(packet.items[i].result)
  {
    EligibleResults(run);
  }

  /** The item whose score feeds the band is the best item of the packet. */
  lemma FirstItemIsBest(packet: EvidencePacket, run: Run)
    requires IsPacketOf(packet, run)
    ensures forall i :: 0 <= i < |packet.items| ==>
              packet.items[0].result.hybridScore >= packet.items[i].result.hybridScore
  {
    EligibleResults(run);
    var eligible := Eligible(Results(run), run.maxItems, run.minScore);
    forall i | 0 <= i < |packet.items|
      ensures packet.items[0].result.hybridScore >= packet.items[i].result.hybridScore
    {
      assert packet.items[0].result == eligible[0] && packet.items[i].result == eligible[i];
    }
  }

  // ----- what the bands can be -----

  lemma RatioBounds(part: nat, whole: nat)
    requires whole > 0
    ensures 0.0 <= Ratio(part, whole) <= 1.0
    ensures part > 0 ==> Ratio(part, whole) > 0.0
    ensures part <= whole ==> Ratio(part, whole) == part as real / whole as real
    ensures part == 0 ==> Ratio(part, whole) == 0.0
  {
    var q := part as real / whole as real;
    assert q * whole as real == part as real;
    if q <= 0.0 { NonPositiveProduct(q, whole as real); }
    if part <= whole && q > 1.0 { LargeProduct(q, whole as real); }
  }

  lemma NonPositiveProduct(q: real, w: real)
    requires q <= 0.0 && w > 0.0
    ensures q * w <= 0.0 && (q < 0.0 ==> q * w < 0.0)
  {
  }

  lemma LargeProduct(q: real, w: real)
    requires q > 1.0 && w > 0.0
    ensures q * w > w
  {
  }

  lemma ScaledDown(score: real, fraction: real)
    requires 0.0 < score && 0.0 <= fraction <= 1.0
    ensures 0.8 * score <= score * (1.0 - 0.20 * fraction) <= score
  {
    assert score * (1.0 - 0.20 * fraction) == score - 0.20 * (score * fraction);
    assert 0.0 <= score * fraction <= score;
  }

  lemma PenaltyBounds(score: real, suspicious: nat, total: nat)
    requires 0.0 < score && suspicious <= total && total > 0
    ensures 0.8 * score <= ApplyPenalty(score, suspicious, total) <= score
  {
    RatioBounds(suspicious, total);
    ScaledDown(score, suspicious as real / total as real);
  }

  lemma UnpenalisedWithinUnit(items: seq<EvidenceItem>, distinctDocs: nat)
    requires items != [] && items[0].result.hybridScore >= 0.0
    ensures 0.0 < Unpenalised(items, distinctDocs) <= 1.0
  {
    RatioBounds(distinctDocs, 3);
    RatioBounds(Count(Agreed, items), |items|);
    RatioBounds(|items|, 5);
  }

  /** Before the clamp the score is already strictly between 0 and 1, and the injection
      penalty takes away at most a fifth of it. */
  lemma ScoreWithinUnit(items: seq<EvidenceItem>, distinctDocs: nat, suspicious: nat)
    requires items != [] && suspicious <= |items| && items[0].result.hybridScore >= 0.0
    ensures 0.0 < Unpenalised(items, distinctDocs) <= 1.0
    ensures 0.0 < Penalised(items, distinctDocs, suspicious) <= 1.0
    ensures 0.8 * Unpenalised(items, distinctDocs) <= Penalised(items, distinctDocs, suspicious)
            <= Unpenalised(items, distinctDocs)
    ensures CalculateEvidenceBand(items, distinctDocs, suspicious).1 == Penalised(items, distinctDocs, suspicious)
  {
    UnpenalisedWithinUnit(items, distinctDocs);
    PenaltyBounds(Unpenalised(items, distinctDocs), suspicious, |items|);
  }

  lemma BandOfItems(items: seq<EvidenceItem>, distinctDocs: nat, suspicious: nat)
    requires suspicious <= |items| && (items != [] ==> items[0].result.hybridScore >= 0.0)
    ensures var (band, score) := CalculateEvidenceBand(items, distinctDocs, suspicious);
            && (band == NONE <==> items == [])
            && (items != [] ==> 0.0 < score <= 1.0 && score == Penalised(items, distinctDocs, suspicious)
                                && score <= Unpenalised(items, distinctDocs) && band == BandOf(score))
  {
    if items != [] { ScoreWithinUnit(items, distinctDocs, suspicious); }
  }

  lemma PacketFacts(packet: EvidencePacket, run: Run)
    requires IsPacketOf(packet, run)
    ensures packet.suspiciousCount == Count(Flagged, packet.items) <= |packet.items|
    ensures packet.distinctDocuments == |Documents(packet.items)|
    ensures packet.items != [] ==> IsChannelScore(packet.items[0].result)
    ensures (packet.band, packet.score)
            == CalculateEvidenceBand(packet.items, packet.distinctDocuments, packet.suspiciousCount)
  {
    PacketItems(packet, run);
    CountsMean(packet.items, packet.distinctDocuments, packet.distinctSources, packet.suspiciousCount);
  }

  /** The band is NONE exactly when there is no evidence, and the final clamp never changes
      the score. */
  lemma NoneExactlyWhenEmpty(packet: EvidencePacket, run: Run)
    requires IsPacketOf(packet, run)
    ensures packet.band == NONE <==> packet.items == []
    ensures packet.items != [] ==>
              0.0 < packet.score <= 1.0
              && packet.score == Penalised(packet.items, packet.distinctDocuments, packet.suspiciousCount)
  {
    PacketFacts(packet, run);
    BandOfItems(packet.items, packet.distinctDocuments, packet.suspiciousCount);
  }

  lemma NoAgreementBound(items: seq<EvidenceItem>, distinctDocs: nat)
    requires items != [] && items[0].result.hybridScore <= 1.0 / 61.0
    requires Count(Agreed, items) == 0
    ensures Unpenalised(items, distinctDocs) < 0.70
  {
    RatioBounds(distinctDocs, 3);
    RatioBounds(0, |items|);
    RatioBounds(|items|, 5);
  }

  lemma NoAgreementBand(items: seq<EvidenceItem>, distinctDocs: nat, suspicious: nat)
    requires items != [] && suspicious <= |items| && IsChannelScore(items[0].result)
    requires forall i :: 0 <= i < |items| ==> !Agreed(items[i])
    ensures CalculateEvidenceBand(items, distinctDocs, suspicious).0 != HIGH
  {
    NoAgreementBound(items, distinctDocs);
    BandOfItems(items, distinctDocs, suspicious);
  }

  /** Unless some item was found by both channels, the band is never HIGH. */
  lemma NoAgreementNeverHigh(packet: EvidencePacket, run: Run)
    requires IsPacketOf(packet, run)
    requires forall i :: 0 <= i < |packet.items| ==> !Agreed(packet.items[i])
    ensures packet.band != HIGH
  {
    PacketFacts(packet, run);
    if packet.items != [] { NoAgreementBand(packet.items, packet.distinctDocuments, packet.suspiciousCount); }
  }

  /** One lone result that one channel found is always LOW. */
  lemma LoneSingleIsLow(packet: EvidencePacket, run: Run)
    requires IsPacketOf(packet, run)
    requires |packet.items| == 1 && !Agreed(packet.items[0])
    ensures packet.band == LOW
  {
    PacketFacts(packet, run);
    assert Documents(packet.items) == {packet.items[0].result.provenance.documentId};
    ScoreWithinUnit(packet.items, packet.distinctDocuments, packet.suspiciousCount);
  }

  // ----- exactly when a packet reaches a band -----

  /** The part of the weighted score that does not come from the top result. */
  function Support(distinctDocs: nat, agreed: nat, total: nat): real
    requires total > 0
  {
    0.25 * Ratio(distinctDocs, 3) + 0.20 * Ratio(agreed, total) + 0.15 * Ratio(total, 5)
  }

  /** What the injection penalty leaves of a score. */
  function KeptFraction(suspicious: nat, total: nat): (kept: real)
    requires total > 0 && suspicious <= total
    ensures 0.8 <= kept <= 1.0
  {
    RatioBounds(suspicious, total);
    1.0 - 0.20 * (suspicious as real / total as real)
  }

  function TopFor(bound: real, support: real, suspicious: nat, total: nat): real
    requires total > 0 && suspicious <= total
  {
    0.033 * (bound / KeptFraction(suspicious, total) - support) / 0.40
  }

  /** The top score from which a packet with these counts reaches `bound`. */
  function TopScoreNeeded(bound: real, distinctDocs: nat, agreed: nat, suspicious: nat, total: nat): real
    requires total > 0 && suspicious <= total
  {
    TopFor(bound, Support(distinctDocs, agreed, total), suspicious, total)
  }

  lemma ProductReaches(score: real, kept: real, bound: real)
    requires kept > 0.0
    ensures score * kept >= bound <==> score >= bound / kept
  {
    var q := bound / kept;
    assert q * kept == bound;
    if score >= q { ProductGrows(q, score, kept); }
    if score < q { ProductGrowsStrictly(score, q, kept); }
  }

  lemma ProductGrows(a: real, b: real, kept: real)
    requires a <= b && kept > 0.0
    ensures a * kept <= b * kept
  {
  }

  lemma ProductGrowsStrictly(a: real, b: real, kept: real)
    requires a < b && kept > 0.0
    ensures a * kept < b * kept
  {
    assert (b - a) * kept > 0.0;
  }

  lemma TopReaches(top: real, support: real, needed: real)
    ensures 0.40 * (top / 0.033) + support >= needed <==> top >= 0.033 * (needed - support) / 0.40
  {
  }

  lemma ScoreReaches(score: real, top: real, support: real, kept: real, bound: real)
    requires kept > 0.0 && score == 0.40 * (top / 0.033) + support
    ensures score * kept >= bound <==> top >= 0.033 * (bound / kept - support) / 0.40
  {
    ProductReaches(score, kept, bound);
    TopReaches(top, support, bound / kept);
  }

  lemma UnpenalisedIs(items: seq<EvidenceItem>, distinctDocs: nat)
    requires items != [] && 0.0 < items[0].result.hybridScore <= 2.0 / 61.0
    ensures Unpenalised(items, distinctDocs)
            == 0.40 * (items[0].result.hybridScore / 0.033) + Support(distinctDocs, Count(Agreed, items), |items|)
  {
    assert NormalisedTop(items[0].result.hybridScore) == items[0].result.hybridScore / 0.033;
  }

  lemma PenaltyReaches(score: real, top: real, support: real, suspicious: nat, total: nat, bound: real)
    requires total > 0 && suspicious <= total && score == 0.40 * (top / 0.033) + support
    ensures ApplyPenalty(score, suspicious, total) >= bound <==> top >= TopFor(bound, support, suspicious, total)
  {
    ScoreReaches(score, top, support, KeptFraction(suspicious, total), bound);
  }

  lemma PenalisedReaches(items: seq<EvidenceItem>, distinctDocs: nat, suspicious: nat, bound: real)
    requires items != [] && suspicious <= |items| && 0.0 < items[0].result.hybridScore <= 2.0 / 61.0
    ensures Penalised(items, distinctDocs, suspicious) >= bound <==>
              items[0].result.hybridScore >= TopScoreNeeded(bound, distinctDocs, Count(Agreed, items), suspicious, |items|)
  {
    UnpenalisedIs(items, distinctDocs);
    PenaltyReaches(Unpenalised(items, distinctDocs), items[0].result.hybridScore,
                   Support(distinctDocs, Count(Agreed, items), |items|), suspicious, |items|, bound);
  }

  /** Every packet reaches HIGH, and MEDIUM, exactly from the top score that its counts of
      documents, agreed, flagged and all items ask for; two documents or fewer only raise it. */
  lemma BandExactly(packet: EvidencePacket, run: Run)
    requires IsPacketOf(packet, run) && packet.items != []
    ensures packet.suspiciousCount <= |packet.items|
    ensures var top, agreed := packet.items[0].result.hybridScore, |Positions(Agreed, packet.items)|;
            && (packet.band == HIGH <==>
                  top >= TopScoreNeeded(0.70, packet.distinctDocuments, agreed, packet.suspiciousCount, |packet.items|))
            && (packet.band == HIGH || packet.band == MEDIUM <==>
                  top >= TopScoreNeeded(0.45, packet.distinctDocuments, agreed, packet.suspiciousCount, |packet.items|))
  {
    PacketFacts(packet, run);
    BandOfItems(packet.items, packet.distinctDocuments, packet.suspiciousCount);
    PenalisedReaches(packet.items, packet.distinctDocuments, packet.suspiciousCount, 0.70);
    PenalisedReaches(packet.items, packet.distinctDocuments, packet.suspiciousCount, 0.45);
  }

  lemma OneItemCounts(packet: EvidencePacket, run: Run)
    requires IsPacketOf(packet, run) && |packet.items| == 1
    ensures packet.distinctDocuments == 1
    ensures packet.suspiciousCount == if Flagged(packet.items[0]) then 1 else 0
    ensures Count(Agreed, packet.items) == if Agreed(packet.items[0]) then 1 else 0
  {
    PacketFacts(packet, run);
    assert Documents(packet.items) == {packet.items[0].result.provenance.documentId};
    assert packet.items[..0] == [];
  }

  /** A single unflagged result is HIGH exactly when both channels found it near the top. */
  lemma SingleResultIsHighExactlyWhen(packet: EvidencePacket, run: Run)
    requires IsPacketOf(packet, run) && |packet.items| == 1 && !Flagged(packet.items[0])
    ensures packet.band == HIGH <==> Agreed(packet.items[0]) && packet.items[0].result.hybridScore >= 0.0319
  {
    OneItemCounts(packet, run);
    BandExactly(packet, run);
    PacketFacts(packet, run);
    RatioBounds(1, 3);
    RatioBounds(1, 1);
    RatioBounds(0, 1);
    RatioBounds(1, 5);
  }

  // ----- the documented bands, and the configurations in which they hold -----

  ghost function NumberedItems(eligible: seq<Slot>, detect: string -> seq<string>): (items: seq<EvidenceItem>)
    ensures Numbered(items, eligible, detect)
  {
    seq(|eligible|, i requires 0 <= i < |eligible| =>
          EvidenceItem(EvidenceId(i + 1), eligible[i], detect(eligible[i].provenance.content)))
  }

  lemma PacketFor(query: string, results: seq<Slot>, maxItems: nat, minScore: real, detect: string -> seq<string>)
    returns (packet: EvidencePacket)
    ensures IsPacketFor(packet, query, results, maxItems, minScore, detect)
  {
    var items := NumberedItems(Eligible(results, maxItems, minScore), detect);
    var suspicious := Count(Flagged, items);
    var (band, score) := CalculateEvidenceBand(items, |Documents(items)|, suspicious);
    CountsMean(items, |Documents(items)|, |Sources(items)|, suspicious);
    var limitations := (if suspicious > 0 then [SuspiciousPatterns(suspicious)] else [])
                       + (if |results| > maxItems then [Capped(maxItems, |results| - maxItems)] else []);
    packet := EvidencePacket(query, items, |Sources(items)|, |Documents(items)|, band, score, limitations, suspicious);
  }

  /** Every run of duplicate-free channels has its packet. */
  lemma PacketExists(run: Run) returns (packet: EvidencePacket)
    requires Retrieval.DistinctChunks(run.lexical) && Retrieval.DistinctChunks(run.vector)
    ensures IsPacketOf(packet, run)
  {
    packet := PacketFor(run.query, Results(run), run.maxItems, run.minScore, run.detect);
  }

  function NoFlags(content: string): seq<string> {
    []
  }

  function Hit(chunk: Uuid, document: Uuid): Candidate {
    Candidate(chunk, Provenance(document, 0, 0, "", "", 1, 0, ""), 1.0)
  }

  /** One chunk that both channels find first. */
  function OneAgreedHit(limit: nat, maxItems: nat, minScore: real): Run {
    Run([Hit(1, 1)], [Hit(1, 1)], limit, "", maxItems, minScore, NoFlags)
  }

  /** Two chunks of different documents, each found by one channel. */
  function TwoLoneHits(limit: nat, maxItems: nat, minScore: real): Run {
    Run([Hit(1, 1)], [Hit(2, 2)], limit, "", maxItems, minScore, NoFlags)
  }

  lemma SingletonChannel(id: Uuid, c: Candidate)
    ensures Found(id, [c]) <==> id == c.chunkId
    ensures LastRank(id, [c]) == if id == c.chunkId then Some(1) else None
    ensures RankSum(RRF_K, id, [c]) == if id == c.chunkId then 1.0 / 61.0 else 0.0
  {
    assert [c][..0] == [];
    assert RankSum(RRF_K, id, [c][..0]) == 0.0;
  }

  lemma OneAgreedRanking()
    ensures var xs := Fuse(RRF_K, [Hit(1, 1)], [Hit(1, 1)]);
            && |xs| == 1 && xs[0].lexicalRank == Some(1) && xs[0].vectorRank == Some(1) && xs[0].hybridScore == 2.0 / 61.0
  {
    var c := [Hit(1, 1)];
    var xs := Fuse(RRF_K, c, c);
    FuseIsFusion(RRF_K, c, c);
    SingletonChannel(1, Hit(1, 1));
    forall id ensures FoundByEither(id, c, c) <==> id == 1 { SingletonChannel(id, Hit(1, 1)); }
    var x := SlotOf(RRF_K, 1, c, c);
    forall y ensures y in xs <==> y == x {
    }
    SortedUnique(Precedes, xs, [x]);
  }

  lemma KeepsSingle(xs: seq<Slot>, limit: nat, maxItems: nat, minScore: real)
    requires |xs| == 1 && limit > 0 && maxItems > 0 && xs[0].hybridScore >= minScore
    ensures Eligible(Take(xs, limit), maxItems, minScore) == xs
  {
    assert Take(xs, limit) == xs;
    assert xs == [xs[0]] + xs[1..] && xs[1..] == [];
    assert Filter(AtLeast(minScore), xs[1..]) == [];
    assert Filter(AtLeast(minScore), xs) == [xs[0]] + [];
  }

  /** The witness: one result of one document is HIGH. */
  lemma OneDocumentIsHigh(limit: nat, maxItems: nat, minScore: real) returns (packet: EvidencePacket)
    requires limit > 0 && maxItems > 0 && minScore <= 2.0 / 61.0
    ensures IsPacketOf(packet, OneAgreedHit(limit, maxItems, minScore))
    ensures packet.band == HIGH && packet.distinctDocuments == 1
  {
    var run := OneAgreedHit(limit, maxItems, minScore);
    packet := PacketExists(run);
    OneAgreedRanking();
    KeepsSingle(Fuse(RRF_K, [Hit(1, 1)], [Hit(1, 1)]), limit, maxItems, minScore);
    OneItemCounts(packet, run);
    SingleResultIsHighExactlyWhen(packet, run);
  }

  lemma NonemptyHasElement<T>(xs: seq<T>)
    requires xs != []
    ensures exists x :: x in xs
  {
    assert xs[0] in xs;
  }

  lemma NothingEligible(packet: EvidencePacket, run: Run)
    requires IsPacketOf(packet, run)
    requires run.limit == 0 || run.maxItems == 0 || run.minScore > 2.0 / 61.0
    ensures packet.items == []
  {
    RankedResults(run);
    var kept := Filter(AtLeast(run.minScore), Results(run));
    if kept != [] { NonemptyHasElement(kept); }
  }

  /** The configuration of a run. */
  predicate Configures(run: Run, limit: nat, maxItems: nat, minScore: real) {
    run.limit == limit && run.maxItems == maxItems && run.minScore == minScore
  }

  /** The documented rule that HIGH takes three distinct documents holds for every retrieval
      exactly in the configurations that let no evidence through at all. */
  lemma HighNeedsThreeDocumentsExactlyWhen(limit: nat, maxItems: nat, minScore: real)
    ensures (forall packet, run | Configures(run, limit, maxItems, minScore) ::
               IsPacketOf(packet, run) && packet.band == HIGH ==> packet.distinctDocuments >= 3)
            <==> limit == 0 || maxItems == 0 || minScore > 2.0 / 61.0
  {
    if limit == 0 || maxItems == 0 || minScore > 2.0 / 61.0 {
      forall packet, run | Configures(run, limit, maxItems, minScore) && IsPacketOf(packet, run) ensures packet.band != HIGH {
        NothingEligible(packet, run);
        NoneExactlyWhenEmpty(packet, run);
      }
    } else {
      var packet := OneDocumentIsHigh(limit, maxItems, minScore);
      assert Configures(OneAgreedHit(limit, maxItems, minScore), limit, maxItems, minScore);
    }
  }

  lemma TwoLoneRanking()
    ensures var xs := Fuse(RRF_K, [Hit(1, 1)], [Hit(2, 2)]);
            && |xs| == 2
            && xs[0].hybridScore == 1.0 / 61.0 && xs[0].vectorRank.None? && xs[0].provenance.documentId == 1
            && xs[1].hybridScore == 1.0 / 61.0 && xs[1].lexicalRank.None? && xs[1].provenance.documentId == 2
  {
    var a, b := [Hit(1, 1)], [Hit(2, 2)];
    FuseIsFusion(RRF_K, a, b);
    forall id ensures FoundByEither(id, a, b) <==> id == 1 || id == 2 {
      SingletonChannel(id, Hit(1, 1));
      SingletonChannel(id, Hit(2, 2));
    }
    SingletonChannel(1, Hit(1, 1));
    SingletonChannel(2, Hit(2, 2));
    SingletonChannel(1, Hit(2, 2));
    SingletonChannel(2, Hit(1, 1));
    SortedUnique(Precedes, Fuse(RRF_K, a, b), [SlotOf(RRF_K, 1, a, b), SlotOf(RRF_K, 2, a, b)]);
  }

  lemma KeepsPair(xs: seq<Slot>, limit: nat, maxItems: nat, minScore: real)
    requires |xs| == 2 && limit >= 2 && maxItems >= 2 && xs[0].hybridScore >= minScore && xs[1].hybridScore >= minScore
    ensures Eligible(Take(xs, limit), maxItems, minScore) == xs
  {
    assert Take(xs, limit) == xs;
    FilterSplit(AtLeast(minScore), [xs[0]], [xs[1]]);
    assert xs == [xs[0]] + [xs[1]];
    KeepsSingle([xs[0]], 1, 1, minScore);
    KeepsSingle([xs[1]], 1, 1, minScore);
  }

  lemma LowWithoutAgreement(items: seq<EvidenceItem>)
    requires |items| == 2 && items[0].result.hybridScore == 1.0 / 61.0
    requires !Agreed(items[0]) && !Agreed(items[1]) && !Flagged(items[0]) && !Flagged(items[1])
    ensures CalculateEvidenceBand(items, 2, Count(Flagged, items)).0 == LOW
  {
    BandOfItems(items, 2, 0);
    RatioBounds(2, 3);
    RatioBounds(0, 2);
    RatioBounds(2, 5);
  }

  lemma TwoLoneItems(packet: EvidencePacket, limit: nat, maxItems: nat, minScore: real)
    requires limit >= 2 && maxItems >= 2 && minScore <= 1.0 / 61.0
    requires IsPacketOf(packet, TwoLoneHits(limit, maxItems, minScore))
    ensures |packet.items| == 2 && packet.items[0].result.hybridScore == 1.0 / 61.0
    ensures forall i :: 0 <= i < 2 ==> !Agreed(packet.items[i]) && !Flagged(packet.items[i])
                                       && packet.items[i].result.provenance.documentId == i + 1
  {
    TwoLoneRanking();
    KeepsPair(Fuse(RRF_K, [Hit(1, 1)], [Hit(2, 2)]), limit, maxItems, minScore);
  }

  /** The witness: two results of two documents are LOW. */
  lemma TwoDocumentsAreLow(limit: nat, maxItems: nat, minScore: real) returns (packet: EvidencePacket)
    requires limit >= 2 && maxItems >= 2 && minScore <= 1.0 / 61.0
    ensures IsPacketOf(packet, TwoLoneHits(limit, maxItems, minScore))
    ensures packet.band == LOW && packet.distinctDocuments == 2
  {
    packet := PacketExists(TwoLoneHits(limit, maxItems, minScore));
    TwoLoneItems(packet, limit, maxItems, minScore);
    TwoDocuments(packet.items);
    LowWithoutAgreement(packet.items);
  }

  lemma TwoDocuments(items: seq<EvidenceItem>)
    requires |items| == 2
    requires items[0].result.provenance.documentId == 1 && items[1].result.provenance.documentId == 2
    ensures |Documents(items)| == 2
  {
    assert Documents(items) == {1, 2};
  }

  lemma AllAgreed(items: seq<EvidenceItem>)
    requires items != [] && forall i :: 0 <= i < |items| ==> Agreed(items[i])
    ensures Ratio(Count(Agreed, items), |items|) == 1.0
  {
    OwnQuotient(|items| as real);
  }

  lemma OwnQuotient(x: real)
    requires x > 0.0
    ensures x / x == 1.0
  {
  }

  lemma UnpenalisedWithAgreement(items: seq<EvidenceItem>, distinctDocs: nat)
    requires |items| >= 2 && distinctDocs >= 2 && 1.0 / 61.0 < items[0].result.hybridScore
    requires forall i :: 0 <= i < |items| ==> Agreed(items[i])
    ensures Unpenalised(items, distinctDocs) >= 0.62
  {
    AllAgreed(items);
    RatioAtLeast(distinctDocs, 2, 3);
    RatioAtLeast(|items|, 2, 5);
    assert NormalisedTop(items[0].result.hybridScore) >= 0.49;
  }

  lemma MediumWithAgreement(items: seq<EvidenceItem>, distinctDocs: nat, suspicious: nat)
    requires |items| >= 2 && distinctDocs >= 2 && suspicious <= |items| && 1.0 / 61.0 < items[0].result.hybridScore
    requires forall i :: 0 <= i < |items| ==> Agreed(items[i])
    ensures CalculateEvidenceBand(items, distinctDocs, suspicious).0 in {MEDIUM, HIGH}
  {
    UnpenalisedWithAgreement(items, distinctDocs);
    BandOfItems(items, distinctDocs, suspicious);
    ScoreWithinUnit(items, distinctDocs, suspicious);
  }

  lemma RatioAtLeast(part: nat, least: nat, whole: nat)
    requires whole > 0 && least <= whole && least <= part
    ensures Ratio(part, whole) >= least as real / whole as real
  {
    RatioBounds(least, whole);
    QuotientGrows(least as real, part as real, whole as real);
  }

  lemma QuotientGrows(a: real, b: real, whole: real)
    requires a <= b && whole > 0.0
    ensures a / whole <= b / whole
  {
    var p, q := a / whole, b / whole;
    assert p * whole == a && q * whole == b;
    if q < p { ProductGrowsStrictly(q, p, whole); }
  }

  lemma DocumentsAtMostItems(items: seq<EvidenceItem>)
    ensures |Documents(items)| <= |items|
  {
    if items != [] {
      var n := |items| - 1;
      DocumentsAtMostItems(items[..n]);
      assert Documents(items) == Documents(items[..n]) + {items[n].result.provenance.documentId};
    }
  }

  lemma ItemsPassThreshold(packet: EvidencePacket, run: Run)
    requires IsPacketOf(packet, run)
    ensures forall i :: 0 <= i < |packet.items| ==> packet.items[i].result.hybridScore >= run.minScore
  {
    var kept := Filter(AtLeast(run.minScore), Results(run));
    forall i | 0 <= i < |packet.items| ensures packet.items[i].result.hybridScore >= run.minScore {
      assert packet.items[i].result == kept[i] && kept[i] in kept;
    }
  }

  lemma OnlyAgreedPass(packet: EvidencePacket, run: Run)
    requires IsPacketOf(packet, run) && run.minScore > 1.0 / 61.0
    ensures forall i :: 0 <= i < |packet.items| ==> Agreed(packet.items[i])
    ensures packet.items != [] ==> 1.0 / 61.0 < packet.items[0].result.hybridScore
  {
    PacketItems(packet, run);
    ItemsPassThreshold(packet, run);
  }

  /** When only agreed results pass the threshold, two documents reach MEDIUM. */
  lemma AgreedDocumentsReachMedium(packet: EvidencePacket, run: Run)
    requires IsPacketOf(packet, run) && run.minScore > 1.0 / 61.0 && packet.distinctDocuments >= 2
    ensures packet.band in {MEDIUM, HIGH}
  {
    PacketFacts(packet, run);
    OnlyAgreedPass(packet, run);
    DocumentsAtMostItems(packet.items);
    MediumWithAgreement(packet.items, packet.distinctDocuments, packet.suspiciousCount);
  }

  /** The documented rule that two distinct documents give MEDIUM holds for every retrieval
      exactly in the configurations that never let two results of one channel through. */
  lemma TwoDocumentsGiveMediumExactlyWhen(limit: nat, maxItems: nat, minScore: real)
    ensures (forall packet, run | Configures(run, limit, maxItems, minScore) ::
               IsPacketOf(packet, run) && packet.distinctDocuments >= 2 ==> packet.band in {MEDIUM, HIGH})
            <==> limit < 2 || maxItems < 2 || minScore > 1.0 / 61.0
  {
    if limit < 2 || maxItems < 2 || minScore > 1.0 / 61.0 {
      forall packet, run | Configures(run, limit, maxItems, minScore) && IsPacketOf(packet, run) && packet.distinctDocuments >= 2
        ensures packet.band in {MEDIUM, HIGH} {
        DocumentsAtMostItems(packet.items);
        AtMostAsManyItems(packet, run);
        AgreedDocumentsReachMedium(packet, run);
      }
    } else {
      var packet := TwoDocumentsAreLow(limit, maxItems, minScore);
      assert Configures(TwoLoneHits(limit, maxItems, minScore), limit, maxItems, minScore);
    }
  }

  lemma {:induction false} FilterIsNotLonger<T(!new)>(p: T -> bool, xs: seq<T>)
    ensures |Filter(p, xs)| <= |xs|
  {
    if xs != [] { FilterIsNotLonger(p, xs[1..]); }
  }

  lemma AtMostAsManyItems(packet: EvidencePacket, run: Run)
    requires IsPacketOf(packet, run)
    ensures |packet.items| <= run.limit && |packet.items| <= run.maxItems
  {
    FilterIsNotLonger(AtLeast(run.minScore), Results(run));
  }

  // ----- the sufficiency policy that reads the band -----

  datatype SufficiencyOutcome = ANSWER | ABSTAIN_NO_EVIDENCE | ABSTAIN_WEAK_EVIDENCE

  function Assess(packet: EvidencePacket, minItems: nat, requireMedium: bool): SufficiencyOutcome {
    if packet.items == [] || packet.band == NONE then ABSTAIN_NO_EVIDENCE
    else if |packet.items| < minItems then ABSTAIN_NO_EVIDENCE
    else if packet.band == LOW && requireMedium then ABSTAIN_WEAK_EVIDENCE
    else ANSWER
  }

  /** The provider is called exactly on packets of enough items, at least one, whose band is
      good enough; the test for the NONE band never decides anything an empty packet does not. */
  lemma AnswersExactlyWhen(packet: EvidencePacket, run: Run, minItems: nat, requireMedium: bool)
    requires IsPacketOf(packet, run)
    ensures var enough := |packet.items| >= 1 && |packet.items| >= minItems;
            && (Assess(packet, minItems, requireMedium) == ABSTAIN_NO_EVIDENCE <==> !enough)
            && (Assess(packet, minItems, requireMedium) == ABSTAIN_WEAK_EVIDENCE <==> enough && requireMedium && packet.band == LOW)
            && (Assess(packet, minItems, requireMedium) == ANSWER <==> enough && (requireMedium ==> packet.band in {MEDIUM, HIGH}))
  {
    NoneExactlyWhenEmpty(packet, run);
  }

  /** Under the default policy the provider is never called on a lone hit of one channel. */
  lemma LoneSingleAbstains(packet: EvidencePacket, run: Run)
    requires IsPacketOf(packet, run)
    requires |packet.items| == 1 && !Agreed(packet.items[0])
    ensures Assess(packet, 1, true) == ABSTAIN_WEAK_EVIDENCE
  {
    NoneExactlyWhenEmpty(packet, run);
    LoneSingleIsLow(packet, run);
  }
}
