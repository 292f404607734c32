/** Extraction, validation and rewriting of the citations of a generated answer. */
module Citations {
  import opened Collections
  import opened Decimal
  import opened Markers
  import opened Evidence
  import Words

  datatype Citation = Citation(citationId: string, item: EvidenceItem, excerpt: Option<string>)

  datatype CitationError = InvalidFormat(id: string) | NotInPacket(id: string)

  // ----- extraction -----

  function MarkIds(toks: seq<Token>): seq<string> {
    if toks == [] then []
    else (if toks[|toks| - 1].Mark? then MarkIds(toks[..|toks| - 1]) + ["E" + toks[|toks| - 1].digits]
          else MarkIds(toks[..|toks| - 1]))
  }

  /** Some marker of the token sequence names this id. */
  ghost predicate Mentions(toks: seq<Token>, id: string) {
    exists i :: 0 <= i < |toks| && toks[i].Mark? && id == "E" + toks[i].digits
  }

  lemma {:induction false} MarkIdsAre(toks: seq<Token>, id: string)
    ensures id in MarkIds(toks) <==> Mentions(toks, id)
  {
    if toks != [] {
      MarkIdsAre(toks[..|toks| - 1], id);
      assert toks == toks[..|toks| - 1] + [toks[|toks| - 1]];
    }
  }

  lemma MarkIdsStep(toks: seq<Token>, i: nat)
    requires i < |toks|
    ensures var before, after := MarkIds(toks[..i]), MarkIds(toks[..i + 1]);
            if toks[i].Mark? then
              var eid := "E" + toks[i].digits;
              && after == before + [eid]
              && FirstOccurrences(after) == FirstOccurrences(before) + (if eid in before then [] else [eid])
            else after == before
  {
    assert toks[..i + 1][..i] == toks[..i];
    var before, after := MarkIds(toks[..i]), MarkIds(toks[..i + 1]);
    assert toks[i].Mark? ==> after[..|before|] == before;
  }

  ghost function Extracted(text: string): seq<string> {
    FirstOccurrences(MarkIds(Tokens(text)))
  }

  /** Unique ids in order of first appearance. */
  method ExtractCitationIds(text: string) returns (result: seq<string>)
    ensures result == Extracted(text)
    ensures Distinct(result)
    ensures forall id :: id in result <==> Mentions(Tokens(text), id)
    ensures forall i, j :: 0 <= i < j < |result| ==> SeenBefore(result[i], result[j], MarkIds(Tokens(text)))
  {
    var toks := Tokens(text);
    FirstOccurrencesInOrder(MarkIds(toks));
    var seen: set<string> := {};
    result := [];
    for i := 0 to |toks|
      invariant result == FirstOccurrences(MarkIds(toks[..i]))
      invariant forall id :: id in seen <==> id in MarkIds(toks[..i])
    {
      MarkIdsStep(toks, i);
      if toks[i].Mark? {
        var eid := "E" + toks[i].digits;
        if eid !in seen {
          seen := seen + {eid};
          result := result + [eid];
        }
      }
    }
    assert toks[..|toks|] == toks;
    ExtractedAreMentioned(text);
  }

  lemma ExtractedAreMentioned(text: string)
    ensures Distinct(Extracted(text))
    ensures forall id :: id in Extracted(text) <==> Mentions(Tokens(text), id)
  {
    FirstOccurrencesIsSetOf(MarkIds(Tokens(text)));
    forall id ensures id in MarkIds(Tokens(text)) <==> Mentions(Tokens(text), id) {
      MarkIdsAre(Tokens(text), id);
    }
  }

  // ----- validation -----

  /** `^E\d+$` matched at the start; `$` also accepts one final newline. */
  predicate WellFormed(id: string) {
    var core := Core(id);
    |core| >= 2 && core[0] == 'E' && AllDigits(core[1..])
  }

  function Core(id: string): string {
    if id != "" && id[|id| - 1] == '\n' then id[..|id| - 1] else id
  }

  lemma WellFormedExactly(id: string)
    ensures WellFormed(id) <==>
              exists digits :: digits != "" && AllDigits(digits) && (id == "E" + digits || id == "E" + digits + "\n")
  {
    if WellFormed(id) {
      var digits := Core(id)[1..];
      assert Core(id) == "E" + digits;
      assert id == Core(id) || id == Core(id) + "\n";
    }
    if digits :| digits != "" && AllDigits(digits) && (id == "E" + digits || id == "E" + digits + "\n") {
      CoreOfDigits(digits);
      assert ("E" + digits)[1..] == digits;
    }
  }

  lemma CoreOfDigits(digits: string)
    requires digits != "" && AllDigits(digits)
    ensures Core("E" + digits) == "E" + digits && Core("E" + digits + "\n") == "E" + digits
  {
    var s := "E" + digits;
    assert s[|s| - 1] == digits[|digits| - 1];
    assert (s + "\n")[..|s|] == s;
  }

  /** The sort key `int(id[1:])`. */
  function Rank(id: string): nat {
    if WellFormed(id) then Parse(Core(id)[1..]) else 0
  }

  lemma RankOfEvidenceId(n: nat)
    ensures WellFormed(EvidenceId(n)) && Rank(EvidenceId(n)) == n
  {
    ParsePrint(n);
    var id := EvidenceId(n);
    assert id[1..] == Print(n);
    assert id[|id| - 1] == Print(n)[|Print(n)| - 1];
  }

  lemma EvidenceIdInjective(m: nat, n: nat)
    requires EvidenceId(m) == EvidenceId(n)
    ensures m == n
  {
    RankOfEvidenceId(m);
    RankOfEvidenceId(n);
  }

  function EvidenceMap(items: seq<EvidenceItem>): map<string, EvidenceItem> {
    if items == [] then map[]
    else EvidenceMap(items[..|items| - 1])[items[|items| - 1].evidenceId := items[|items| - 1]]
  }

  lemma {:induction false} EvidenceMapKeys(items: seq<EvidenceItem>, id: string)
    ensures id in EvidenceMap(items) <==> exists i :: 0 <= i < |items| && items[i].evidenceId == id
    ensures id in EvidenceMap(items) ==> EvidenceMap(items)[id] in items && EvidenceMap(items)[id].evidenceId == id
  {
    if items != [] {
      EvidenceMapKeys(items[..|items| - 1], id);
      assert items == items[..|items| - 1] + [items[|items| - 1]];
    }
  }

  /** A short excerpt for display, never longer than the limit plus the ellipsis. */
  function MakeExcerpt(content: string, maxChars: nat): Option<string> {
    if content == "" then None
    else
      var s := Words.Trim(Take(content, maxChars));
      Some(if |content| > maxChars then s + "\U{2026}" else s)
  }

  /** The excerpt is the first characters without the whitespace around them, and an ellipsis
      exactly when the content is longer than the limit. */
  lemma ExcerptIs(content: string, maxChars: nat, before: string, core: string, after: string)
    requires content != "" && content[..if |content| <= maxChars then |content| else maxChars] == before + core + after
    requires Words.AllSpaces(before) && Words.AllSpaces(after) && Words.NoOuterSpace(core)
    ensures MakeExcerpt(content, maxChars) == Some(core + if |content| > maxChars then "\U{2026}" else "")
  {
    assert Take(content, maxChars) == before + core + after;
    Words.TrimIs(before, core, after);
    assert core + "" == core;
  }

  /** Every content can be read that way, so it has an excerpt unless it is empty, of at most
      one character more than the limit. */
  lemma ExcerptExists(content: string, maxChars: nat) returns (before: string, core: string, after: string)
    requires content != ""
    ensures content[..if |content| <= maxChars then |content| else maxChars] == before + core + after
    ensures Words.AllSpaces(before) && Words.AllSpaces(after) && Words.NoOuterSpace(core)
    ensures MakeExcerpt(content, maxChars).Some? && |MakeExcerpt(content, maxChars).value| <= maxChars + 1
  {
    before, after := Words.TrimParts(Take(content, maxChars));
    core := Words.Trim(Take(content, maxChars));
    ExcerptIs(content, maxChars, before, core, after);
  }

  function Resolve(item: EvidenceItem, maxChars: nat): Citation {
    Citation(item.evidenceId, item, MakeExcerpt(item.result.provenance.content, maxChars))
  }

  function Check(id: string, evidence: map<string, EvidenceItem>): Option<CitationError> {
    if !WellFormed(id) then Some(InvalidFormat(id))
    else if id !in evidence then Some(NotInPacket(id))
    else None
  }

  function FirstError(ids: seq<string>, evidence: map<string, EvidenceItem>): Option<CitationError> {
    if ids == [] then None
    else
      var before := FirstError(ids[..|ids| - 1], evidence);
      if before.Some? then before else Check(ids[|ids| - 1], evidence)
  }

  predicate RankNotAfter(a: Citation, b: Citation) {
    Rank(a.citationId) <= Rank(b.citationId)
  }

  function ResolveAll(ids: seq<string>, evidence: map<string, EvidenceItem>, maxChars: nat): seq<Citation>
    requires forall i :: 0 <= i < |ids| ==> ids[i] in evidence
  {
    seq(|ids|, i requires 0 <= i < |ids| => Resolve(evidence[ids[i]], maxChars))
  }

  lemma {:induction false} NoErrorMeansAllPass(ids: seq<string>, evidence: map<string, EvidenceItem>, id: string)
    requires FirstError(ids, evidence).None? && id in ids
    ensures Check(id, evidence).None?
  {
    var front := ids[..|ids| - 1];
    assert ids == front + [ids[|ids| - 1]];
    if id in front { NoErrorMeansAllPass(front, evidence, id); }
  }

  /** The reported error is that of one of the cited ids. */
  lemma {:induction false} ErrorIsSomeones(ids: seq<string>, evidence: map<string, EvidenceItem>) returns (id: string)
    requires FirstError(ids, evidence).Some?
    ensures id in ids && Check(id, evidence) == FirstError(ids, evidence)
  {
    var front := ids[..|ids| - 1];
    if FirstError(front, evidence).Some? {
      id := ErrorIsSomeones(front, evidence);
    } else {
      id := ids[|ids| - 1];
    }
  }

  lemma NoErrorMeansListed(ids: seq<string>, evidence: map<string, EvidenceItem>)
    requires FirstError(ids, evidence).None?
    ensures forall i :: 0 <= i < |FirstOccurrences(ids)| ==> FirstOccurrences(ids)[i] in evidence
  {
    FirstOccurrencesIsSetOf(ids);
    var firsts := FirstOccurrences(ids);
    forall i | 0 <= i < |firsts| ensures firsts[i] in evidence {
      assert firsts[i] in firsts;
      NoErrorMeansAllPass(ids, evidence, firsts[i]);
    }
  }

  ghost function Validated(ids: seq<string>, items: seq<EvidenceItem>, maxChars: nat): Result<seq<Citation>, CitationError> {
    var evidence := EvidenceMap(items);
    match FirstError(ids, evidence)
    case Some(e) => Err(e)
    case None =>
      NoErrorMeansListed(ids, evidence);
      Ok(Sort(RankNotAfter, ResolveAll(FirstOccurrences(ids), evidence, maxChars)))
  }

  method Validate(ids: seq<string>, packet: EvidencePacket, maxChars: nat)
    returns (r: Result<seq<Citation>, CitationError>)
    ensures r == Validated(ids, packet.items, maxChars)
  {
    var evidence := EvidenceMap(packet.items);
    var seen: set<string> := {};
    var citations: seq<Citation> := [];
    for i := 0 to |ids|
      invariant Collected(ids[..i], evidence, maxChars, seen, citations)
    {
      CollectStep(ids, i, evidence, maxChars, seen, citations);
      var error := Check(ids[i], evidence);
      if error.Some? {
        return Err(error.value);
      }
      if ids[i] !in seen {
        seen := seen + {ids[i]};
        citations := citations + [Resolve(evidence[ids[i]], maxChars)];
      }
    }
    assert ids[..|ids|] == ids;
    r := Ok(Sort(RankNotAfter, citations));
  }

  ghost predicate Collected(ids: seq<string>, evidence: map<string, EvidenceItem>, maxChars: nat,
                            seen: set<string>, citations: seq<Citation>) {
    && FirstError(ids, evidence).None?
    && (forall id :: id in seen <==> id in ids)
    && (forall i :: 0 <= i < |FirstOccurrences(ids)| ==> FirstOccurrences(ids)[i] in evidence)
    && citations == ResolveAll(FirstOccurrences(ids), evidence, maxChars)
  }

  lemma {:induction false} ErrorPersists(ids: seq<string>, i: nat, evidence: map<string, EvidenceItem>)
    requires i <= |ids| && FirstError(ids[..i], evidence).Some?
    ensures FirstError(ids, evidence) == FirstError(ids[..i], evidence)
    decreases |ids|
  {
    if i < |ids| {
      assert ids[..|ids| - 1][..i] == ids[..i];
      ErrorPersists(ids[..|ids| - 1], i, evidence);
    } else {
      assert ids[..i] == ids;
    }
  }

  lemma CollectRejects(ids: seq<string>, i: nat, evidence: map<string, EvidenceItem>)
    requires i < |ids| && FirstError(ids[..i], evidence).None? && Check(ids[i], evidence).Some?
    ensures FirstError(ids, evidence) == Check(ids[i], evidence)
  {
    assert ids[..i + 1][..i] == ids[..i];
    ErrorPersists(ids, i + 1, evidence);
  }

  lemma FirstOccurrencesStep(ids: seq<string>, id: string)
    ensures FirstOccurrences(ids + [id]) == FirstOccurrences(ids) + (if id in ids then [] else [id])
  {
    assert (ids + [id])[..|ids|] == ids;
  }

  lemma FirstErrorStep(ids: seq<string>, id: string, evidence: map<string, EvidenceItem>)
    requires FirstError(ids, evidence).None?
    ensures FirstError(ids + [id], evidence) == Check(id, evidence)
  {
    assert (ids + [id])[..|ids|] == ids;
  }

  lemma ResolveStep(ids: seq<string>, id: string, evidence: map<string, EvidenceItem>, maxChars: nat)
    requires (forall i :: 0 <= i < |ids| ==> ids[i] in evidence) && id in evidence
    ensures forall i :: 0 <= i < |ids + [id]| ==> (ids + [id])[i] in evidence
    ensures ResolveAll(ids + [id], evidence, maxChars) == ResolveAll(ids, evidence, maxChars) + [Resolve(evidence[id], maxChars)]
  {
  }

  lemma CollectAccepts(ids: seq<string>, id: string, evidence: map<string, EvidenceItem>, maxChars: nat,
                       seen: set<string>, citations: seq<Citation>)
    requires Collected(ids, evidence, maxChars, seen, citations) && Check(id, evidence).None?
    ensures Collected(ids + [id], evidence, maxChars, seen + {id},
                      if id in seen then citations else citations + [Resolve(evidence[id], maxChars)])
  {
    FirstErrorStep(ids, id, evidence);
    FirstOccurrencesStep(ids, id);
    if id in ids {
      assert FirstOccurrences(ids) + [] == FirstOccurrences(ids);
    } else {
      ResolveStep(FirstOccurrences(ids), id, evidence, maxChars);
    }
  }

  lemma CollectStep(ids: seq<string>, i: nat, evidence: map<string, EvidenceItem>, maxChars: nat,
                    seen: set<string>, citations: seq<Citation>)
    requires i < |ids| && Collected(ids[..i], evidence, maxChars, seen, citations)
    ensures Check(ids[i], evidence).Some? ==> FirstError(ids, evidence) == Check(ids[i], evidence)
    ensures Check(ids[i], evidence).None? ==>
              ids[i] in evidence
              && Collected(ids[..i + 1], evidence, maxChars, seen + {ids[i]},
                           if ids[i] in seen then citations else citations + [Resolve(evidence[ids[i]], maxChars)])
  {
    assert ids[..i + 1] == ids[..i] + [ids[i]];
    if Check(ids[i], evidence).Some? {
      CollectRejects(ids, i, evidence);
    } else {
      CollectAccepts(ids[..i], ids[i], evidence, maxChars, seen, citations);
    }
  }

  /** Items numbered E1, E2, … in packet order, as every built packet has them. */
  ghost predicate NumberedFromOne(items: seq<EvidenceItem>) {
    forall i :: 0 <= i < |items| ==> items[i].evidenceId == EvidenceId(i + 1)
  }

  ghost predicate Known(id: string, items: seq<EvidenceItem>) {
    exists i :: 0 <= i < |items| && items[i].evidenceId == id
  }

  function Cited(ids: seq<string>): EvidenceItem -> bool {
    (item: EvidenceItem) => item.evidenceId in ids
  }

  function Resolver(maxChars: nat): EvidenceItem -> Citation {
    (item: EvidenceItem) => Resolve(item, maxChars)
  }

  predicate RankBefore(a: Citation, b: Citation) {
    Rank(a.citationId) < Rank(b.citationId)
  }

  /** What the validated citations must be: the packet's cited items, in packet order. */
  ghost function CitedItems(ids: seq<string>, items: seq<EvidenceItem>, maxChars: nat): seq<Citation> {
    Map(Resolver(maxChars), Filter(Cited(ids), items))
  }

  predicate ItemBefore(a: EvidenceItem, b: EvidenceItem) {
    Rank(a.evidenceId) < Rank(b.evidenceId)
  }

  lemma CitedItemsAreOrdered(ids: seq<string>, items: seq<EvidenceItem>, maxChars: nat)
    requires NumberedFromOne(items)
    ensures SortedBy(RankBefore, CitedItems(ids, items, maxChars))
  {
    forall i, j | 0 <= i < j < |items| ensures ItemBefore(items[i], items[j]) {
      RankOfEvidenceId(i + 1);
      RankOfEvidenceId(j + 1);
    }
    FilterKeepsSorted(Cited(ids), ItemBefore, items);
    var kept := Filter(Cited(ids), items);
    forall i, j | 0 <= i < j < |kept|
      ensures RankBefore(Map(Resolver(maxChars), kept)[i], Map(Resolver(maxChars), kept)[j]) {
      assert ItemBefore(kept[i], kept[j]);
    }
  }

  /** An id is accepted exactly when the packet has it: a known id is always well formed. */
  lemma AcceptedExactlyWhenKnown(ids: seq<string>, items: seq<EvidenceItem>, maxChars: nat)
    requires NumberedFromOne(items)
    ensures Validated(ids, items, maxChars).Ok? <==> forall id :: id in ids ==> Known(id, items)
  {
    var evidence := EvidenceMap(items);
    if FirstError(ids, evidence).None? {
      forall id | id in ids ensures Known(id, items) {
        NoErrorMeansAllPass(ids, evidence, id);
        PassesExactlyWhenKnown(id, items);
      }
    } else {
      var id := ErrorIsSomeones(ids, evidence);
      PassesExactlyWhenKnown(id, items);
    }
  }

  /** The first id that the packet does not have, and whether it even looks like an id. */
  ghost predicate IsFirstUnknown(ids: seq<string>, items: seq<EvidenceItem>, k: nat, error: CitationError) {
    && k < |ids| && !Known(ids[k], items) && (forall i :: 0 <= i < k ==> Known(ids[i], items))
    && error == if WellFormed(ids[k]) then NotInPacket(ids[k]) else InvalidFormat(ids[k])
  }

  lemma {:induction false} FirstErrorAt(ids: seq<string>, items: seq<EvidenceItem>) returns (k: nat)
    requires NumberedFromOne(items) && FirstError(ids, EvidenceMap(items)).Some?
    ensures IsFirstUnknown(ids, items, k, FirstError(ids, EvidenceMap(items)).value)
  {
    var n := |ids| - 1;
    var front, evidence := ids[..n], EvidenceMap(items);
    if FirstError(front, evidence).Some? {
      k := FirstErrorAt(front, items);
    } else {
      k := n;
      PassesExactlyWhenKnown(ids[n], items);
      forall i | 0 <= i < n ensures Known(ids[i], items) {
        assert ids[i] == front[i] && front[i] in front;
        NoErrorMeansAllPass(front, evidence, ids[i]);
        PassesExactlyWhenKnown(ids[i], items);
      }
    }
  }

  /** The error is exactly that of the first id the packet does not have. */
  lemma FirstUnknownIsReported(ids: seq<string>, items: seq<EvidenceItem>, maxChars: nat, error: CitationError)
    requires NumberedFromOne(items)
    ensures Validated(ids, items, maxChars) == Err(error) <==> exists k: nat :: IsFirstUnknown(ids, items, k, error)
  {
    if FirstError(ids, EvidenceMap(items)).Some? {
      var k := FirstErrorAt(ids, items);
      if j: nat :| IsFirstUnknown(ids, items, j, error) { assert j == k; }
    } else if k: nat :| IsFirstUnknown(ids, items, k, error) {
      assert ids[k] in ids;
      AcceptedExactlyWhenKnown(ids, items, maxChars);
    }
  }

  lemma PassesExactlyWhenKnown(id: string, items: seq<EvidenceItem>)
    requires NumberedFromOne(items)
    ensures Check(id, EvidenceMap(items)).None? <==> Known(id, items)
  {
    EvidenceMapKeys(items, id);
    if Known(id, items) {
      var i :| 0 <= i < |items| && items[i].evidenceId == id;
      RankOfEvidenceId(i + 1);
    }
  }

  lemma KnownItem(id: string, items: seq<EvidenceItem>)
    requires NumberedFromOne(items) && Known(id, items)
    ensures id in EvidenceMap(items)
    ensures forall x :: x in items && x.evidenceId == id ==> x == EvidenceMap(items)[id]
    ensures EvidenceMap(items)[id] in items && EvidenceMap(items)[id].evidenceId == id
  {
    EvidenceMapKeys(items, id);
    forall x | x in items && x.evidenceId == id ensures x == EvidenceMap(items)[id] {
      var i :| 0 <= i < |items| && items[i] == x;
      var j :| 0 <= j < |items| && items[j] == EvidenceMap(items)[id];
      EvidenceIdInjective(i + 1, j + 1);
    }
  }

  lemma ResolvedIsCited(ids: seq<string>, items: seq<EvidenceItem>, maxChars: nat, id: string)
    requires NumberedFromOne(items) && id in ids && Known(id, items)
    ensures id in EvidenceMap(items)
    ensures Resolve(EvidenceMap(items)[id], maxChars) in CitedItems(ids, items, maxChars)
  {
    KnownItem(id, items);
    var x, kept := EvidenceMap(items)[id], Filter(Cited(ids), items);
    assert x in kept;
    var j :| 0 <= j < |kept| && kept[j] == x;
    assert Map(Resolver(maxChars), kept)[j] == Resolve(x, maxChars);
  }

  lemma CitedIsResolved(ids: seq<string>, items: seq<EvidenceItem>, maxChars: nat, c: Citation)
    requires NumberedFromOne(items) && c in CitedItems(ids, items, maxChars)
    ensures c.citationId in ids && c.citationId in EvidenceMap(items)
    ensures c == Resolve(EvidenceMap(items)[c.citationId], maxChars)
  {
    var kept := Filter(Cited(ids), items);
    var j :| 0 <= j < |kept| && Map(Resolver(maxChars), kept)[j] == c;
    assert kept[j] in kept && kept[j] in items;
    KnownItem(kept[j].evidenceId, items);
  }

  lemma ResolvedElements(ids: seq<string>, items: seq<EvidenceItem>, maxChars: nat, c: Citation)
    requires NumberedFromOne(items)
    requires forall id :: id in ids ==> Known(id, items)
    requires forall i :: 0 <= i < |FirstOccurrences(ids)| ==> FirstOccurrences(ids)[i] in EvidenceMap(items)
    ensures c in ResolveAll(FirstOccurrences(ids), EvidenceMap(items), maxChars) <==> c in CitedItems(ids, items, maxChars)
  {
    var firsts := FirstOccurrences(ids);
    var resolved := ResolveAll(firsts, EvidenceMap(items), maxChars);
    FirstOccurrencesIsSetOf(ids);
    if c in resolved {
      var i :| 0 <= i < |resolved| && resolved[i] == c;
      assert firsts[i] in firsts;
      ResolvedIsCited(ids, items, maxChars, firsts[i]);
    }
    if c in CitedItems(ids, items, maxChars) {
      CitedIsResolved(ids, items, maxChars, c);
      var i :| 0 <= i < |firsts| && firsts[i] == c.citationId;
      assert resolved[i] == c;
    }
  }

  lemma ResolvedRanksDistinct(ids: seq<string>, items: seq<EvidenceItem>, maxChars: nat)
    requires NumberedFromOne(items)
    requires forall id :: id in ids ==> Known(id, items)
    requires forall i :: 0 <= i < |FirstOccurrences(ids)| ==> FirstOccurrences(ids)[i] in EvidenceMap(items)
    ensures var resolved := ResolveAll(FirstOccurrences(ids), EvidenceMap(items), maxChars);
            && Distinct(resolved)
            && forall a, b :: a in resolved && b in resolved && a != b ==> Rank(a.citationId) != Rank(b.citationId)
  {
    var firsts := FirstOccurrences(ids);
    FirstOccurrencesIsSetOf(ids);
    var resolved := ResolveAll(firsts, EvidenceMap(items), maxChars);
    forall i, j | 0 <= i < j < |resolved| ensures Rank(resolved[i].citationId) != Rank(resolved[j].citationId) {
      assert firsts[i] in ids && firsts[j] in ids && firsts[i] != firsts[j];
      KnownItem(firsts[i], items);
      KnownItem(firsts[j], items);
      var k :| 0 <= k < |items| && items[k].evidenceId == firsts[i];
      var l :| 0 <= l < |items| && items[l].evidenceId == firsts[j];
      RankOfEvidenceId(k + 1);
      RankOfEvidenceId(l + 1);
    }
  }

  /** Validation is a filter: on success the result is the packet's cited items in packet
      order, whatever the order and the repetitions of the cited ids. */
  lemma ValidationIsFilter(ids: seq<string>, items: seq<EvidenceItem>, maxChars: nat)
    requires NumberedFromOne(items)
    requires Validated(ids, items, maxChars).Ok?
    ensures Validated(ids, items, maxChars).value == CitedItems(ids, items, maxChars)
  {
    var evidence := EvidenceMap(items);
    AcceptedExactlyWhenKnown(ids, items, maxChars);
    NoErrorMeansListed(ids, evidence);
    var resolved := ResolveAll(FirstOccurrences(ids), evidence, maxChars);
    var sorted := Sort(RankNotAfter, resolved);
    SortSorts(RankNotAfter, resolved);
    ResolvedRanksDistinct(ids, items, maxChars);
    SortDistinct(RankNotAfter, resolved);
    forall i, j | 0 <= i < j < |sorted| ensures RankBefore(sorted[i], sorted[j]) {
      assert RankNotAfter(sorted[i], sorted[j]) && sorted[i] in sorted && sorted[j] in sorted;
    }
    CitedItemsAreOrdered(ids, items, maxChars);
    forall c ensures c in sorted <==> c in CitedItems(ids, items, maxChars) {
      ResolvedElements(ids, items, maxChars, c);
    }
    SortedUnique(RankBefore, sorted, CitedItems(ids, items, maxChars));
  }
}
