/** Splitting text on whitespace and joining words with single spaces. */
module Words {
  import opened Collections

  /** Whitespace as the language counts it. */
  predicate IsSpace(c: char) {
    || '\t' <= c <= '\r' || '\U{1C}' <= c <= ' ' || c == '\U{85}' || c == '\U{A0}' || c == '\U{1680}'
    || '\U{2000}' <= c <= '\U{200A}' || c == '\U{2028}' || c == '\U{2029}' || c == '\U{202F}'
    || c == '\U{205F}' || c == '\U{3000}'
  }

  predicate IsWord(w: string) {
    w != "" && forall i :: 0 <= i < |w| ==> !IsSpace(w[i])
  }

  ghost predicate AllWords(ws: seq<string>) {
    forall i :: 0 <= i < |ws| ==> IsWord(ws[i])
  }

  function LeadingWord(s: string): (n: nat)
    ensures n <= |s| && (forall i :: 0 <= i < n ==> !IsSpace(s[i])) && (n < |s| ==> IsSpace(s[n]))
  {
    if s == "" || IsSpace(s[0]) then 0 else 1 + LeadingWord(s[1..])
  }

  /** The maximal runs of non-whitespace characters, in order. */
  function Split(s: string): seq<string>
    decreases |s|
  {
    if s == "" then []
    else if IsSpace(s[0]) then Split(s[1..])
    else
      var n := LeadingWord(s);
      [s[..n]] + Split(s[n..])
  }

  function Join(ws: seq<string>): string {
    if ws == [] then ""
    else if |ws| == 1 then ws[0]
    else ws[0] + " " + Join(ws[1..])
  }

  // ----- what the words of a text are -----

  /** Where a word stands: from `start` up to, but not including, `end`. */
  datatype Span = Span(start: nat, end: nat)

  /** A maximal run of non-whitespace characters: it is not empty, and the text begins or a
      space stands before it, and the text ends or a space stands after it. */
  ghost predicate IsRun(s: string, p: Span) {
    && p.start < p.end <= |s|
    && (forall i :: p.start <= i < p.end ==> !IsSpace(s[i]))
    && (p.start == 0 || IsSpace(s[p.start - 1]))
    && (p.end == |s| || IsSpace(s[p.end]))
  }

  /** These are the places of all the runs of the text, from left to right. */
  ghost predicate AreRuns(s: string, spans: seq<Span>) {
    && (forall k :: 0 <= k < |spans| ==> IsRun(s, spans[k]))
    && (forall k, l :: 0 <= k < l < |spans| ==> spans[k].end < spans[l].start)
    && (forall i :: 0 <= i < |s| && !IsSpace(s[i]) ==> Covered(spans, i))
  }

  predicate Inside(p: Span, i: nat) {
    p.start <= i < p.end
  }

  ghost predicate Covered(spans: seq<Span>, i: nat) {
    exists k :: 0 <= k < |spans| && Inside(spans[k], i)
  }

  ghost predicate WordsAt(s: string, spans: seq<Span>, ws: seq<string>) {
    |ws| == |spans| && forall k :: 0 <= k < |ws| ==> spans[k].start <= spans[k].end <= |s| && ws[k] == s[spans[k].start..spans[k].end]
  }

  /** The words of a text: its runs of non-whitespace characters, each once, in order. */
  ghost predicate AreWordsOf(ws: seq<string>, s: string) {
    exists spans :: AreRuns(s, spans) && WordsAt(s, spans, ws)
  }

  function Shifted(spans: seq<Span>, n: nat): (r: seq<Span>)
    ensures |r| == |spans|
    ensures forall k :: 0 <= k < |r| ==> r[k] == Span(spans[k].start + n, spans[k].end + n)
  {
    seq(|spans|, k requires 0 <= k < |spans| => Span(spans[k].start + n, spans[k].end + n))
  }

  /** Runs of the rest of a text are runs of the text when no word is cut. */
  lemma ShiftedRun(s: string, n: nat, p: Span)
    requires 0 < n <= |s| && IsRun(s[n..], p)
    requires p.start == 0 ==> IsSpace(s[n - 1])
    ensures IsRun(s, Span(p.start + n, p.end + n))
  {
    forall i | p.start + n <= i < p.end + n ensures !IsSpace(s[i]) {
      assert s[i] == s[n..][i - n];
    }
  }

  lemma ShiftedCover(s: string, n: nat, spans: seq<Span>, i: nat)
    requires n <= i < |s| && !IsSpace(s[i]) && AreRuns(s[n..], spans)
    ensures Covered(Shifted(spans, n), i)
  {
    assert s[n..][i - n] == s[i];
    assert Covered(spans, i - n);
    var k :| 0 <= k < |spans| && Inside(spans[k], i - n);
    assert Inside(Shifted(spans, n)[k], i);
  }

  lemma RunsAfterSpace(s: string, spans: seq<Span>)
    requires s != "" && IsSpace(s[0]) && AreRuns(s[1..], spans)
    ensures AreRuns(s, Shifted(spans, 1))
  {
    forall k | 0 <= k < |spans| ensures IsRun(s, Shifted(spans, 1)[k]) { ShiftedRun(s, 1, spans[k]); }
    forall i | 0 <= i < |s| && !IsSpace(s[i]) ensures Covered(Shifted(spans, 1), i) { ShiftedCover(s, 1, spans, i); }
  }

  lemma WordsAfter(s: string, n: nat, spans: seq<Span>, ws: seq<string>)
    requires n <= |s| && WordsAt(s[n..], spans, ws)
    ensures WordsAt(s, Shifted(spans, n), ws)
  {
    forall k | 0 <= k < |ws| ensures ws[k] == s[spans[k].start + n..spans[k].end + n] {
      assert s[n..][spans[k].start..spans[k].end] == s[spans[k].start + n..spans[k].end + n];
    }
  }

  /** The first run of the rest does not start at once: a space stands there. */
  lemma LaterRuns(s: string, n: nat, spans: seq<Span>)
    requires 0 < n <= |s| && (n < |s| ==> IsSpace(s[n])) && AreRuns(s[n..], spans)
    ensures forall k :: 0 <= k < |spans| ==> spans[k].start > 0 && IsRun(s, Shifted(spans, n)[k])
  {
    forall k | 0 <= k < |spans| ensures spans[k].start > 0 && IsRun(s, Shifted(spans, n)[k]) {
      assert IsRun(s[n..], spans[k]);
      assert s[n..][0] == s[n];
      ShiftedRun(s, n, spans[k]);
    }
  }

  /** One run before all others. */
  lemma RunsCons(s: string, p: Span, rest: seq<Span>)
    requires IsRun(s, p) && p.start == 0
    requires forall k :: 0 <= k < |rest| ==> IsRun(s, rest[k]) && p.end < rest[k].start
    requires forall k, l :: 0 <= k < l < |rest| ==> rest[k].end < rest[l].start
    requires forall i :: p.end <= i < |s| && !IsSpace(s[i]) ==> Covered(rest, i)
    ensures AreRuns(s, [p] + rest)
  {
    var all := [p] + rest;
    forall i | 0 <= i < |s| && !IsSpace(s[i]) ensures Covered(all, i) {
      if i < p.end {
        assert Inside(all[0], i);
      } else {
        var k :| 0 <= k < |rest| && Inside(rest[k], i);
        assert Inside(all[k + 1], i);
      }
    }
  }

  lemma RunsAfterWord(s: string, n: nat, spans: seq<Span>)
    requires 0 < n <= |s| && (forall i :: 0 <= i < n ==> !IsSpace(s[i])) && (n < |s| ==> IsSpace(s[n]))
    requires AreRuns(s[n..], spans)
    ensures AreRuns(s, [Span(0, n)] + Shifted(spans, n))
  {
    LaterRuns(s, n, spans);
    forall i | n <= i < |s| && !IsSpace(s[i]) ensures Covered(Shifted(spans, n), i) { ShiftedCover(s, n, spans, i); }
    RunsCons(s, Span(0, n), Shifted(spans, n));
  }

  /** These runs and words are those of the text. */
  ghost predicate SplitsAt(s: string, spans: seq<Span>) {
    AreRuns(s, spans) && WordsAt(s, spans, Split(s))
  }

  lemma SplitsAfterSpace(s: string, spans: seq<Span>)
    requires s != "" && IsSpace(s[0]) && SplitsAt(s[1..], spans)
    ensures SplitsAt(s, Shifted(spans, 1))
  {
    RunsAfterSpace(s, spans);
    WordsAfter(s, 1, spans, Split(s[1..]));
  }

  lemma WordsCons(s: string, n: nat, spans: seq<Span>, ws: seq<string>)
    requires n <= |s| && WordsAt(s, spans, ws)
    ensures WordsAt(s, [Span(0, n)] + spans, [s[..n]] + ws)
  {
    var all, words := [Span(0, n)] + spans, [s[..n]] + ws;
    forall k | 0 < k < |words| ensures words[k] == ws[k - 1] && all[k] == spans[k - 1] {
    }
  }

  lemma SplitsAfterWord(s: string, spans: seq<Span>)
    requires s != "" && !IsSpace(s[0]) && SplitsAt(s[LeadingWord(s)..], spans)
    ensures SplitsAt(s, [Span(0, LeadingWord(s))] + Shifted(spans, LeadingWord(s)))
  {
    var n := LeadingWord(s);
    RunsAfterWord(s, n, spans);
    WordsAfter(s, n, spans, Split(s[n..]));
    WordsCons(s, n, Shifted(spans, n), Split(s[n..]));
  }

  lemma {:induction false} SplitRuns(s: string) returns (spans: seq<Span>)
    ensures SplitsAt(s, spans)
    decreases |s|
  {
    if s == "" {
      spans := [];
    } else if IsSpace(s[0]) {
      var rest := SplitRuns(s[1..]);
      spans := Shifted(rest, 1);
      SplitsAfterSpace(s, rest);
    } else {
      var rest := SplitRuns(s[LeadingWord(s)..]);
      spans := [Span(0, LeadingWord(s))] + Shifted(rest, LeadingWord(s));
      SplitsAfterWord(s, rest);
    }
  }

  predicate SpanBefore(p: Span, q: Span) {
    p.start < q.start
  }

  /** A run is the only one through its places. */
  lemma SameRun(s: string, p: Span, q: Span)
    requires IsRun(s, p) && IsRun(s, q) && q.start <= p.start < q.end
    ensures p == q
  {
  }

  lemma RunListed(s: string, spans: seq<Span>, p: Span)
    requires AreRuns(s, spans) && IsRun(s, p)
    ensures p in spans
  {
    assert Covered(spans, p.start);
    var k :| 0 <= k < |spans| && Inside(spans[k], p.start);
    SameRun(s, p, spans[k]);
  }

  lemma RunsUnique(s: string, spans: seq<Span>, spans': seq<Span>)
    requires AreRuns(s, spans) && AreRuns(s, spans')
    ensures spans == spans'
  {
    forall p ensures p in spans <==> p in spans' {
      if p in spans { RunListed(s, spans', p); }
      if p in spans' { RunListed(s, spans, p); }
    }
    SortedUnique(SpanBefore, spans, spans');
  }

  /** Splitting a text yields exactly its words, for every text and every whitespace in it. */
  lemma SplitExactly(s: string, ws: seq<string>)
    ensures AreWordsOf(ws, s) <==> ws == Split(s)
  {
    var spans := SplitRuns(s);
    if AreWordsOf(ws, s) {
      var spans' :| AreRuns(s, spans') && WordsAt(s, spans', ws);
      RunsUnique(s, spans, spans');
    }
  }

  function WithoutSpaces(s: string): string {
    if s == "" then "" else (if IsSpace(s[0]) then "" else [s[0]]) + WithoutSpaces(s[1..])
  }

  function Concatenated(ws: seq<string>): string {
    if ws == [] then "" else ws[0] + Concatenated(ws[1..])
  }

  lemma {:induction false} WordKeepsCharacters(w: string, rest: string)
    requires forall i :: 0 <= i < |w| ==> !IsSpace(w[i])
    ensures WithoutSpaces(w + rest) == w + WithoutSpaces(rest)
  {
    if w == "" {
      assert w + rest == rest;
    } else {
      assert (w + rest)[1..] == w[1..] + rest;
      WordKeepsCharacters(w[1..], rest);
      assert [w[0]] + (w[1..] + WithoutSpaces(rest)) == w + WithoutSpaces(rest);
    }
  }

  lemma ConcatenatedCons(w: string, ws: seq<string>)
    ensures Concatenated([w] + ws) == w + Concatenated(ws)
  {
    assert ([w] + ws)[1..] == ws;
  }

  /** The words together are the text without its whitespace. */
  lemma {:induction false} WordsKeepCharacters(s: string)
    ensures Concatenated(Split(s)) == WithoutSpaces(s)
    decreases |s|
  {
    if s != "" {
      if IsSpace(s[0]) {
        WordsKeepCharacters(s[1..]);
      } else {
        var w, rest := s[..LeadingWord(s)], s[LeadingWord(s)..];
        assert w + rest == s;
        WordKeepsCharacters(w, rest);
        WordsKeepCharacters(rest);
        ConcatenatedCons(w, Split(rest));
      }
    }
  }

  lemma {:induction false} SplitYieldsWords(s: string)
    ensures AllWords(Split(s))
    decreases |s|
  {
    if s != "" {
      if IsSpace(s[0]) { SplitYieldsWords(s[1..]); } else { SplitYieldsWords(s[LeadingWord(s)..]); }
    }
  }

  lemma {:induction false} LeadingWordOf(w: string, rest: string)
    requires forall i :: 0 <= i < |w| ==> !IsSpace(w[i])
    requires rest == "" || IsSpace(rest[0])
    ensures LeadingWord(w + rest) == |w|
  {
    if w == "" {
      assert w + rest == rest;
    } else {
      assert (w + rest)[1..] == w[1..] + rest;
      LeadingWordOf(w[1..], rest);
    }
  }

  /** Joining words and splitting the text again gives the words back. */
  lemma {:induction false} SplitJoin(ws: seq<string>)
    requires AllWords(ws)
    ensures Split(Join(ws)) == ws
  {
    if ws != [] {
      var rest := if |ws| == 1 then "" else " " + Join(ws[1..]);
      var s := ws[0] + rest;
      assert Join(ws) == s;
      LeadingWordOf(ws[0], rest);
      assert s[..|ws[0]|] == ws[0] && s[|ws[0]|..] == rest;
      if |ws| > 1 {
        SplitJoin(ws[1..]);
        assert rest[1..] == Join(ws[1..]);
        assert Split(rest) == ws[1..];
      }
      assert ws == [ws[0]] + ws[1..];
    }
  }

  // ----- trimming -----

  function TrimLeft(s: string): string {
    if s != "" && IsSpace(s[0]) then TrimLeft(s[1..]) else s
  }

  function TrimRight(s: string): string {
    if s != "" && IsSpace(s[|s| - 1]) then TrimRight(s[..|s| - 1]) else s
  }

  ghost predicate AllSpaces(s: string) {
    forall i :: 0 <= i < |s| ==> IsSpace(s[i])
  }

  ghost predicate NoOuterSpace(s: string) {
    s != "" ==> !IsSpace(s[0]) && !IsSpace(s[|s| - 1])
  }

  function Trim(s: string): string {
    TrimRight(TrimLeft(s))
  }

  lemma {:induction false} TrimLeftIs(s: string) returns (n: nat)
    ensures n <= |s| && TrimLeft(s) == s[n..]
    ensures (forall i :: 0 <= i < n ==> IsSpace(s[i])) && (n < |s| ==> !IsSpace(s[n]))
  {
    n := 0;
    if s != "" && IsSpace(s[0]) {
      var m := TrimLeftIs(s[1..]);
      n := m + 1;
      assert s[1..][m..] == s[n..];
      forall i | 0 < i < n ensures IsSpace(s[i]) { assert s[i] == s[1..][i - 1]; }
    }
  }

  lemma {:induction false} TrimRightParts(s: string) returns (after: string)
    ensures s == TrimRight(s) + after && AllSpaces(after)
    ensures TrimRight(s) != "" ==> !IsSpace(TrimRight(s)[|TrimRight(s)| - 1]) && TrimRight(s)[0] == s[0]
  {
    if s != "" && IsSpace(s[|s| - 1]) {
      var rest := TrimRightParts(s[..|s| - 1]);
      after := rest + [s[|s| - 1]];
      assert s == s[..|s| - 1] + [s[|s| - 1]];
    } else {
      after := "";
    }
  }

  /** Trimming takes away whitespace at both ends, and all of it. */
  lemma TrimParts(s: string) returns (before: string, after: string)
    ensures s == before + Trim(s) + after
    ensures AllSpaces(before) && AllSpaces(after) && NoOuterSpace(Trim(s))
  {
    var n := TrimLeftIs(s);
    before := s[..n];
    after := TrimRightParts(TrimLeft(s));
  }

  lemma {:induction false} TrimLeftDrops(before: string, s: string)
    requires AllSpaces(before)
    ensures TrimLeft(before + s) == TrimLeft(s)
  {
    if before == "" {
      assert before + s == s;
    } else {
      assert (before + s)[1..] == before[1..] + s;
      TrimLeftDrops(before[1..], s);
    }
  }

  lemma {:induction false} TrimRightDrops(s: string, after: string)
    requires AllSpaces(after)
    ensures TrimRight(s + after) == TrimRight(s)
  {
    if after == "" {
      assert s + after == s;
    } else {
      assert (s + after)[..|s + after| - 1] == s + after[..|after| - 1];
      TrimRightDrops(s, after[..|after| - 1]);
    }
  }

  lemma TrimLeftKeeps(core: string, after: string)
    requires core != "" && !IsSpace(core[0])
    ensures TrimLeft(core + after) == core + after
  {
  }

  lemma {:induction false} TrimLeftAll(s: string)
    requires AllSpaces(s)
    ensures TrimLeft(s) == ""
  {
    if s != "" { TrimLeftAll(s[1..]); }
  }

  /** Exactly that: the trimmed text is what is left once spaces at both ends are gone. */
  lemma TrimIs(before: string, core: string, after: string)
    requires AllSpaces(before) && AllSpaces(after) && NoOuterSpace(core)
    ensures Trim(before + core + after) == core
  {
    assert before + core + after == before + (core + after);
    TrimLeftDrops(before, core + after);
    if core == "" {
      assert core + after == after;
      TrimLeftAll(after);
    } else {
      TrimLeftKeeps(core, after);
      TrimRightDrops(core, after);
    }
  }
}
