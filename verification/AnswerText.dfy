/** Rewriting `[E<n>]` markers to numeric labels, and the last steps of answering, which
    join extraction, validation and rewriting. */
module AnswerText {
  import opened Collections
  import opened Decimal
  import opened Markers
  import opened Evidence
  import opened Citations

  /** The number given to an id: its 1-based position, the last one if it occurs twice. */
  function LabelOf(id: string, citations: seq<Citation>): (r: Option<nat>)
    ensures r.Some? ==> 1 <= r.value <= |citations| && citations[r.value - 1].citationId == id
    ensures forall i :: (if r.Some? then r.value else 0) <= i < |citations| ==> citations[i].citationId != id
  {
    if citations == [] then None
    else if citations[|citations| - 1].citationId == id then Some(|citations|)
    else LabelOf(id, citations[..|citations| - 1])
  }

  function Label(n: nat): string {
    "[" + Print(n) + "]"
  }

  function Replacement(citations: seq<Citation>): Token -> string {
    (t: Token) =>
      match t
      case Lit(c) => [c]
      case Mark(digits) =>
        match LabelOf("E" + digits, citations)
        case Some(n) => Label(n)
        case None => ""
  }

  function RewriteCitations(text: string, citations: seq<Citation>): string {
    Concat(Replacement(citations), Tokens(text))
  }

  // ----- exactly when the rewritten text still holds a marker -----

  /** The automaton run over the tokens of the original text: a known marker closes
      whatever was open, an unknown one is deleted and leaves it open. */
  function Scan(q: State, toks: seq<Token>, citations: seq<Citation>): State
    decreases |toks|
  {
    if toks == [] then q else Scan(ScanToken(q, toks[0], citations), toks[1..], citations)
  }

  function ScanToken(q: State, t: Token, citations: seq<Citation>): State {
    match t
    case Lit(c) => Step(q, c)
    case Mark(digits) => if q == Found || LabelOf("E" + digits, citations).None? then q else Idle
  }

  lemma {:induction false} DriveIdleDigits(q: State, digits: string)
    requires AllDigits(digits) && (q == Open || q == Idle)
    ensures Drive(q, digits) == if digits == "" then q else Idle
    decreases |digits|
  {
    if digits != "" { DriveIdleDigits(Idle, digits[1..]); }
  }

  lemma DriveLabel(q: State, n: nat)
    ensures Drive(q, Label(n)) == if q == Found then Found else Idle
  {
    ParsePrint(n);
    DriveConcat(q, "[" + Print(n), "]");
    DriveConcat(q, "[", Print(n));
    assert "["[1..] == "" && "]"[1..] == "";
    if q == Found { FoundForever(Print(n)); } else { DriveIdleDigits(Open, Print(n)); }
  }

  lemma {:induction false} ScanIsDrive(q: State, toks: seq<Token>, citations: seq<Citation>)
    ensures Drive(q, Concat(Replacement(citations), toks)) == Scan(q, toks, citations)
    decreases |toks|
  {
    if toks != [] {
      var piece := Replacement(citations)(toks[0]);
      DriveConcat(q, piece, Concat(Replacement(citations), toks[1..]));
      match toks[0] {
        case Lit(c) => assert piece == [c] && piece[1..] == "";
        case Mark(digits) =>
          if LabelOf("E" + digits, citations).Some? {
            DriveLabel(q, LabelOf("E" + digits, citations).value);
          }
      }
      ScanIsDrive(Drive(q, piece), toks[1..], citations);
    }
  }

  /** A marker survives the rewriting exactly when the one-pass scan of the original text
      ends in Found, that is when a deleted marker is nested inside the pieces of another. */
  lemma MarkerSurvivesExactlyWhen(text: string, citations: seq<Citation>)
    ensures HasMarker(RewriteCitations(text, citations)) <==> Scan(Idle, Tokens(text), citations) == Found
  {
    DriveDecides(RewriteCitations(text, citations));
    ScanIsDrive(Idle, Tokens(text), citations);
  }

  // ----- the same condition, on the shape of the original text -----

  predicate IsUnknown(t: Token, citations: seq<Citation>) {
    t.Mark? && LabelOf("E" + t.digits, citations).None?
  }

  predicate IsKnown(t: Token, citations: seq<Citation>) {
    t.Mark? && LabelOf("E" + t.digits, citations).Some?
  }

  ghost predicate NoneKnown(toks: seq<Token>, citations: seq<Citation>) {
    forall i :: 0 <= i < |toks| ==> !IsKnown(toks[i], citations)
  }

  /** The literal characters alone, without the markers between them. */
  function Literals(toks: seq<Token>): string {
    if toks == [] then "" else Literal(toks[0]) + Literals(toks[1..])
  }

  function Literal(t: Token): string {
    if t.Lit? then [t.c] else ""
  }

  /** A stretch of the text whose literal characters spell a marker, and whose only markers
      are unknown ones. */
  ghost predicate HidesMarker(toks: seq<Token>, citations: seq<Citation>, i: nat, j: nat) {
    i <= j <= |toks| && NoneKnown(toks[i..j], citations) && IsMarker(Literals(toks[i..j]))
  }

  lemma {:induction false} LiteralsConcat(a: seq<Token>, b: seq<Token>)
    ensures Literals(a + b) == Literals(a) + Literals(b)
  {
    if a == [] {
      assert a + b == b;
    } else {
      assert (a + b)[1..] == a[1..] + b;
      LiteralsConcat(a[1..], b);
      assert Literal(a[0]) + (Literals(a[1..]) + Literals(b)) == Literal(a[0]) + Literals(a[1..]) + Literals(b);
    }
  }

  lemma {:induction false} ScanConcat(q: State, a: seq<Token>, b: seq<Token>, citations: seq<Citation>)
    ensures Scan(q, a + b, citations) == Scan(Scan(q, a, citations), b, citations)
    decreases |a|
  {
    if a == [] {
      assert a + b == b;
    } else {
      assert (a + b)[1..] == a[1..] + b;
      ScanConcat(ScanToken(q, a[0], citations), a[1..], b, citations);
    }
  }

  lemma {:induction false} ScanFoundForever(toks: seq<Token>, citations: seq<Citation>)
    ensures Scan(Found, toks, citations) == Found
    decreases |toks|
  {
    if toks != [] { ScanFoundForever(toks[1..], citations); }
  }

  lemma NoneKnownRest(toks: seq<Token>, citations: seq<Citation>)
    requires toks != [] && NoneKnown(toks, citations)
    ensures !IsKnown(toks[0], citations) && NoneKnown(toks[1..], citations)
  {
    forall i | 0 <= i < |toks[1..]| ensures !IsKnown(toks[1..][i], citations) { assert toks[1..][i] == toks[i + 1]; }
  }

  /** Where no marker is known, the scan reads just the literal characters. */
  lemma {:induction false} ScanReadsLiterals(q: State, toks: seq<Token>, citations: seq<Citation>)
    requires NoneKnown(toks, citations)
    ensures Scan(q, toks, citations) == Drive(q, Literals(toks))
    decreases |toks|
  {
    if toks != [] {
      NoneKnownRest(toks, citations);
      ScanReadsLiterals(ScanToken(q, toks[0], citations), toks[1..], citations);
      DriveLiteral(q, toks[0], Literals(toks[1..]));
    }
  }

  lemma DriveLiteral(q: State, t: Token, rest: string)
    ensures Drive(q, Literal(t) + rest) == Drive(if t.Lit? then Step(q, t.c) else q, rest)
  {
    if t.Lit? { assert ([t.c] + rest)[1..] == rest; } else { assert "" + rest == rest; }
  }

  lemma HiddenIsFound(toks: seq<Token>, citations: seq<Citation>, i: nat, j: nat)
    requires HidesMarker(toks, citations, i, j)
    ensures Scan(Idle, toks, citations) == Found
  {
    assert toks == toks[..i] + (toks[i..j] + toks[j..]);
    ScanConcat(Idle, toks[..i], toks[i..j] + toks[j..], citations);
    var q := Scan(Idle, toks[..i], citations);
    ScanConcat(q, toks[i..j], toks[j..], citations);
    ScanReadsLiterals(q, toks[i..j], citations);
    DriveMarker(q, Literals(toks[i..j]));
    ScanFoundForever(toks[j..], citations);
  }

  /** The tokens after the last known marker; up to it the scan is idle again, unless it has
      found something there. */
  lemma {:induction false} LastKnown(toks: seq<Token>, citations: seq<Citation>) returns (k: nat)
    ensures k <= |toks| && NoneKnown(toks[k..], citations)
    ensures k == 0 || IsKnown(toks[k - 1], citations)
    decreases |toks|
  {
    if toks == [] {
      k := 0;
    } else if IsKnown(toks[|toks| - 1], citations) {
      k := |toks|;
    } else {
      var front := toks[..|toks| - 1];
      k := LastKnown(front, citations);
      assert toks[k..] == front[k..] + [toks[|toks| - 1]];
    }
  }

  lemma FirstToks(toks: seq<Token>, b: nat)
    requires toks != [] && b < |toks|
    ensures Literals(toks[..b + 1]) == Literal(toks[0]) + Literals(toks[1..][..b])
  {
    assert toks[..b + 1][1..] == toks[1..][..b];
  }

  /** Some prefix of the tokens has exactly this prefix of their literals. */
  lemma {:induction false} PrefixWithLiterals(toks: seq<Token>, n: nat) returns (a: nat)
    requires n <= |Literals(toks)|
    ensures a <= |toks| && Literals(toks[..a]) == Literals(toks)[..n]
    decreases |toks|
  {
    if n == 0 {
      a := 0;
    } else {
      var b := PrefixWithLiterals(toks[1..], n - |Literal(toks[0])|);
      a := b + 1;
      FirstToks(toks, b);
    }
  }

  lemma StretchWithLiterals(toks: seq<Token>, i: nat, j: nat) returns (a: nat, b: nat)
    requires i <= j <= |Literals(toks)|
    ensures a <= b <= |toks| && Literals(toks[a..b]) == Literals(toks)[i..j]
  {
    b := PrefixWithLiterals(toks, j);
    a := PrefixWithLiterals(toks[..b], i);
    assert toks[..b] == toks[..b][..a] + toks[a..b];
    LiteralsConcat(toks[..b][..a], toks[a..b]);
  }

  lemma WithinNoneKnown(toks: seq<Token>, a: nat, b: nat, citations: seq<Citation>)
    requires a <= b <= |toks| && NoneKnown(toks, citations)
    ensures NoneKnown(toks[a..b], citations)
  {
  }

  /** A marker in the literals of tokens none of which is known. */
  lemma HiddenInSegment(seg: seq<Token>, citations: seq<Citation>) returns (a: nat, b: nat)
    requires NoneKnown(seg, citations) && Scan(Idle, seg, citations) == Found
    ensures HidesMarker(seg, citations, a, b)
  {
    ScanReadsLiterals(Idle, seg, citations);
    DriveDecides(Literals(seg));
    var i: nat, j: nat :| i <= j <= |Literals(seg)| && IsMarker(Literals(seg)[i..j]);
    a, b := StretchWithLiterals(seg, i, j);
    WithinNoneKnown(seg, a, b, citations);
  }

  lemma SliceOfSlice<T>(xs: seq<T>, k: nat, n: nat, a: nat, b: nat)
    requires k <= n <= |xs| && a <= b <= n - k
    ensures xs[k..n][a..b] == xs[k + a..k + b]
  {
    forall i | 0 <= i < b - a ensures xs[k..n][a..b][i] == xs[k + a..k + b][i] {
    }
  }

  lemma ShiftHidden(toks: seq<Token>, citations: seq<Citation>, k: nat, n: nat, a: nat, b: nat)
    requires k <= n <= |toks| && HidesMarker(toks[k..n], citations, a, b)
    ensures HidesMarker(toks, citations, k + a, k + b)
  {
    SliceOfSlice(toks, k, n, a, b);
  }

  /** A known marker leaves the scan idle, unless it has found something before. */
  lemma KnownResets(front: seq<Token>, known: Token, rest: seq<Token>, citations: seq<Citation>)
    requires IsKnown(known, citations) && Scan(Idle, front + [known] + rest, citations) == Found
    ensures Scan(Idle, front, citations) == Found || Scan(Idle, rest, citations) == Found
  {
    ScanConcat(Idle, front + [known], rest, citations);
    ScanConcat(Idle, front, [known], citations);
    OneTokenScan(Scan(Idle, front, citations), known, citations);
  }

  lemma OneTokenScan(q: State, t: Token, citations: seq<Citation>)
    ensures Scan(q, [t], citations) == ScanToken(q, t, citations)
  {
    assert [t][1..] == [];
  }

  lemma HiddenBefore(toks: seq<Token>, citations: seq<Citation>, n: nat, i: nat, j: nat)
    requires n <= |toks| && HidesMarker(toks[..n], citations, i, j)
    ensures HidesMarker(toks, citations, i, j)
  {
    assert toks[0..n] == toks[..n];
    ShiftHidden(toks, citations, 0, n, i, j);
  }

  lemma HiddenAfter(toks: seq<Token>, k: nat, citations: seq<Citation>) returns (i: nat, j: nat)
    requires k <= |toks| && NoneKnown(toks[k..], citations) && Scan(Idle, toks[k..], citations) == Found
    ensures HidesMarker(toks, citations, i, j)
  {
    var a, b := HiddenInSegment(toks[k..], citations);
    assert toks[k..|toks|] == toks[k..];
    ShiftHidden(toks, citations, k, |toks|, a, b);
    i, j := k + a, k + b;
  }

  lemma {:induction false} FoundIsHidden(toks: seq<Token>, citations: seq<Citation>) returns (i: nat, j: nat)
    requires Scan(Idle, toks, citations) == Found
    ensures HidesMarker(toks, citations, i, j)
    decreases |toks|
  {
    var k := LastKnown(toks, citations);
    if k > 0 {
      assert toks == toks[..k - 1] + [toks[k - 1]] + toks[k..];
      KnownResets(toks[..k - 1], toks[k - 1], toks[k..], citations);
    } else {
      assert toks[0..] == toks;
    }
    if k > 0 && Scan(Idle, toks[..k - 1], citations) == Found {
      i, j := FoundIsHidden(toks[..k - 1], citations);
      HiddenBefore(toks, citations, k - 1, i, j);
    } else {
      i, j := HiddenAfter(toks, k, citations);
    }
  }

  /** A marker survives the rewriting exactly when some stretch of the original text has
      literal characters that spell a marker and no markers but unknown ones. */
  lemma SurvivesExactlyWhenHidden(text: string, citations: seq<Citation>)
    ensures HasMarker(RewriteCitations(text, citations))
            <==> exists i: nat, j: nat :: HidesMarker(Tokens(text), citations, i, j)
  {
    MarkerSurvivesExactlyWhen(text, citations);
    if Scan(Idle, Tokens(text), citations) == Found {
      var i, j := FoundIsHidden(Tokens(text), citations);
      assert HidesMarker(Tokens(text), citations, i, j);
    }
    if i: nat, j: nat :| HidesMarker(Tokens(text), citations, i, j) {
      HiddenIsFound(Tokens(text), citations, i, j);
    }
  }

  // ----- known markers leave none -----

  /** The text `open` is what a marker in the making has read so far. */
  ghost predicate Pending(q: State, open: string) {
    match q
    case Idle => open == ""
    case Open => open == "["
    case OpenE => open == "[E"
    case Digits => |open| >= 3 && open[..2] == "[E" && AllDigits(open[2..])
    case Found => false
  }

  ghost predicate AllKnown(toks: seq<Token>, citations: seq<Citation>) {
    forall i :: 0 <= i < |toks| && toks[i].Mark? ==> LabelOf("E" + toks[i].digits, citations).Some?
  }

  function NextOpen(q: State, open: string, c: char): string {
    match Step(q, c)
    case Idle => ""
    case Open => "["
    case _ => open + [c]
  }

  lemma PendingStep(q: State, open: string, c: char)
    requires Pending(q, open) && Step(q, c) != Found
    ensures Pending(Step(q, c), NextOpen(q, open, c))
  {
    if q == Digits && IsDigit(c) {
      assert (open + [c])[2..] == open[2..] + [c] && (open + [c])[..2] == open[..2];
    } else if q == OpenE && IsDigit(c) {
      assert (open + [c])[2..] == [c];
    }
  }

  /** If a literal character completed a marker, that marker would have been read as one. */
  lemma LiteralNeverCompletes(q: State, open: string, c: char, rest: string)
    requires Pending(q, open) && Step(q, c) == Found
    ensures MarkerLength(open + [c] + rest) > 0
  {
    assert open + [c] == "[E" + open[2..] + "]";
    MarkerIsMatched(open[2..], rest);
  }

  lemma RestKnown(text: string, citations: seq<Citation>)
    requires text != "" && AllKnown(Tokens(text), citations)
    ensures AllKnown(Tokens(Rest(text)), citations)
    ensures FirstToken(text).Mark? ==> LabelOf("E" + FirstToken(text).digits, citations).Some?
  {
    var toks := Tokens(text);
    assert toks[0] == FirstToken(text);
    forall i | 0 <= i < |Tokens(Rest(text))| && Tokens(Rest(text))[i].Mark?
      ensures LabelOf("E" + Tokens(Rest(text))[i].digits, citations).Some?
    {
      assert toks[i + 1] == Tokens(Rest(text))[i];
    }
  }

  lemma ScanStep(q: State, text: string, citations: seq<Citation>)
    requires text != ""
    requires FirstToken(text).Mark? ==> q != Found && LabelOf("E" + FirstToken(text).digits, citations).Some?
    ensures Scan(q, Tokens(text), citations)
            == Scan(match FirstToken(text) case Lit(c) => Step(q, c) case Mark(_) => Idle, Tokens(Rest(text)), citations)
  {
    assert Tokens(text)[0] == FirstToken(text) && Tokens(text)[1..] == Tokens(Rest(text));
  }

  lemma NextOpenIsPrefix(q: State, open: string, text: string)
    requires text != "" && Pending(q, open)
    ensures var next := NextOpen(q, open, text[0]);
            next != "" ==> next + text[1..] == text || (open != "" && next + text[1..] == open + text)
  {
    assert [text[0]] + text[1..] == text;
    assert open + [text[0]] + text[1..] == open + text;
  }

  lemma LiteralStaysPending(q: State, open: string, text: string)
    requires text != "" && Pending(q, open)
    requires open != "" ==> MarkerLength(open + text) == 0
    ensures Step(q, text[0]) != Found && Pending(Step(q, text[0]), NextOpen(q, open, text[0]))
  {
    var c := text[0];
    assert open + [c] + text[1..] == open + text;
    if Step(q, c) == Found { LiteralNeverCompletes(q, open, c, text[1..]); } else { PendingStep(q, open, c); }
  }

  lemma LiteralStep(q: State, open: string, text: string)
    requires text != "" && MarkerLength(text) == 0
    requires Pending(q, open)
    requires open != "" ==> MarkerLength(open + text) == 0
    ensures Step(q, text[0]) != Found
    ensures Pending(Step(q, text[0]), NextOpen(q, open, text[0]))
    ensures NextOpen(q, open, text[0]) != "" ==> MarkerLength(NextOpen(q, open, text[0]) + text[1..]) == 0
  {
    LiteralStaysPending(q, open, text);
    NextOpenIsPrefix(q, open, text);
  }

  /** Scanning a text in which every marker is known never completes a marker: literal
      characters alone cannot, or they would have been read as one. */
  lemma {:induction false} KnownMarkersLeaveNone(q: State, open: string, text: string, citations: seq<Citation>)
    requires Pending(q, open)
    requires open != "" ==> MarkerLength(open + text) == 0
    requires AllKnown(Tokens(text), citations)
    ensures Scan(q, Tokens(text), citations) != Found
    decreases |text|
  {
    if text != "" {
      RestKnown(text, citations);
      ScanStep(q, text, citations);
      if MarkerLength(text) > 0 {
        KnownMarkersLeaveNone(Idle, "", Rest(text), citations);
      } else {
        LiteralStep(q, open, text);
        KnownMarkersLeaveNone(Step(q, text[0]), NextOpen(q, open, text[0]), text[1..], citations);
      }
    }
  }

  lemma LiteralFirst(c: char, rest: string)
    requires MarkerLength([c] + rest) == 0
    ensures Tokens([c] + rest) == [Lit(c)] + Tokens(rest)
  {
    assert ([c] + rest)[1..] == rest;
  }

  lemma RewriteLiteral(c: char, rest: string, citations: seq<Citation>)
    requires MarkerLength([c] + rest) == 0
    ensures RewriteCitations([c] + rest, citations) == [c] + RewriteCitations(rest, citations)
  {
    LiteralFirst(c, rest);
    ConcatCons(Replacement(citations), Lit(c), Tokens(rest));
  }

  lemma RewriteMark(digits: string, rest: string, citations: seq<Citation>)
    requires AllDigits(digits) && digits != ""
    ensures RewriteCitations("[E" + digits + "]" + rest, citations)
            == Replacement(citations)(Mark(digits)) + RewriteCitations(rest, citations)
  {
    var s := "[E" + digits + "]" + rest;
    MarkerIsMatched(digits, rest);
    assert s[2..MarkerLength(s) - 1] == digits && s[MarkerLength(s)..] == rest;
    ConcatCons(Replacement(citations), Mark(digits), Tokens(rest));
  }

  lemma {:induction false} NoBracketUnchanged(s: string, citations: seq<Citation>)
    requires '[' !in s
    ensures RewriteCitations(s, citations) == s
  {
    if s != "" {
      assert s == [s[0]] + s[1..];
      NoBracketUnchanged(s[1..], citations);
      RewriteLiteral(s[0], s[1..], citations);
    }
  }

  lemma NoDigitNoMarker(inner: string)
    requires inner != "" && inner[0] == '['
    ensures MarkerLength(['['] + (['E'] + inner)) == 0
  {
    var t := ['['] + (['E'] + inner);
    assert t[2..] == inner && DigitRun(inner) == 0;
  }

  lemma HalfOpenMarker(inner: string, rewritten: string, citations: seq<Citation>)
    requires inner != "" && inner[0] == '[' && RewriteCitations(inner, citations) == rewritten
    ensures RewriteCitations(['['] + (['E'] + inner), citations) == ['['] + (['E'] + rewritten)
  {
    RewriteLiteral('E', inner, citations);
    NoDigitNoMarker(inner);
    RewriteLiteral('[', ['E'] + inner, citations);
  }

  lemma UnknownIsDeleted(unknown: string, citations: seq<Citation>)
    requires LabelOf("E" + unknown, citations).None?
    ensures Replacement(citations)(Mark(unknown)) == ""
  {
  }

  lemma UnknownMarkerDeleted(unknown: string, rest: string, citations: seq<Citation>)
    requires AllDigits(unknown) && unknown != "" && LabelOf("E" + unknown, citations).None?
    requires RewriteCitations(rest, citations) == rest
    ensures RewriteCitations("[E" + unknown + "]" + rest, citations) == rest
  {
    RewriteMark(unknown, rest, citations);
    UnknownIsDeleted(unknown, citations);
    assert "" + rest == rest;
  }

  /** `[E[E<unknown>]<digits>]` */
  function NestedMarker(unknown: string, digits: string): string {
    ['['] + (['E'] + ("[E" + unknown + "]" + (digits + "]")))
  }

  /** The documented promise that unknown markers are removed can fail: deleting an unknown
      marker that stands inside another one, as in `[E[E9]1]`, puts a new one together. */
  lemma DeletionForgesMarkers(unknown: string, digits: string, citations: seq<Citation>)
    requires AllDigits(unknown) && unknown != "" && LabelOf("E" + unknown, citations).None?
    requires AllDigits(digits) && digits != ""
    ensures RewriteCitations(NestedMarker(unknown, digits), citations) == "[E" + digits + "]"
    ensures HasMarker("[E" + digits + "]")
  {
    var rest := digits + "]";
    NoBracketUnchanged(rest, citations);
    UnknownMarkerDeleted(unknown, rest, citations);
    HalfOpenMarker("[E" + unknown + "]" + rest, rest, citations);
    HalfOpenText(digits);
    OneMarker(digits);
  }

  lemma HalfOpenText(digits: string)
    ensures ['['] + (['E'] + (digits + "]")) == "[E" + digits + "]"
  {
  }

  lemma OneMarker(digits: string)
    requires AllDigits(digits) && digits != ""
    ensures HasMarker("[E" + digits + "]")
  {
    var m := "[E" + digits + "]";
    assert m[0..|m|] == m && m[2..|m| - 1] == digits;
  }

  // ----- what the rewritten text is guaranteed to be -----

  /** What a reader gets: every marker became the label of the citation it named, every
      citation is referred to, nothing else changed, and no marker is left. */
  ghost predicate Faithful(original: string, text: string, citations: seq<Citation>) {
    && !HasMarker(text)
    && exists pieces: seq<string> ::
         Flatten(pieces) == text && PiecewiseRewritten(Tokens(original), pieces, citations)
  }

  function Flatten(pieces: seq<string>): string {
    if pieces == [] then "" else pieces[0] + Flatten(pieces[1..])
  }

  ghost predicate PiecewiseRewritten(toks: seq<Token>, pieces: seq<string>, citations: seq<Citation>) {
    LiteralsKept(toks, pieces) && MarksLabelled(toks, pieces, citations) && AllReferred(toks, citations)
  }

  ghost predicate LiteralsKept(toks: seq<Token>, pieces: seq<string>) {
    |pieces| == |toks| && forall i :: 0 <= i < |toks| && toks[i].Lit? ==> pieces[i] == [toks[i].c]
  }

  ghost predicate MarksLabelled(toks: seq<Token>, pieces: seq<string>, citations: seq<Citation>) {
    |pieces| == |toks| && forall i :: 0 <= i < |toks| && toks[i].Mark? ==> IsLabelFor(pieces[i], "E" + toks[i].digits, citations)
  }

  /** The piece is the number of the citation with this id. */
  ghost predicate IsLabelFor(piece: string, id: string, citations: seq<Citation>) {
    exists n: nat :: 1 <= n <= |citations| && citations[n - 1].citationId == id && piece == Label(n)
  }

  ghost predicate AllReferred(toks: seq<Token>, citations: seq<Citation>) {
    forall n :: 0 <= n < |citations| ==> Mentions(toks, citations[n].citationId)
  }

  lemma {:induction false} FlattenMap(f: Token -> string, toks: seq<Token>)
    ensures Flatten(Map(f, toks)) == Concat(f, toks)
  {
    if toks != [] {
      assert Map(f, toks)[1..] == Map(f, toks[1..]);
      FlattenMap(f, toks[1..]);
    }
  }

  lemma CitationsAreTheMarks(text: string, items: seq<EvidenceItem>, maxChars: nat)
    requires NumberedFromOne(items)
    requires Validated(Extracted(text), items, maxChars).Ok?
    ensures var citations := Validated(Extracted(text), items, maxChars).value;
            forall id :: (exists n :: 0 <= n < |citations| && citations[n].citationId == id) <==> id in MarkIds(Tokens(text))
  {
    var ids := Extracted(text);
    var citations := Validated(ids, items, maxChars).value;
    ValidationIsFilter(ids, items, maxChars);
    AcceptedExactlyWhenKnown(ids, items, maxChars);
    ExtractedAreMentioned(text);
    forall id ensures (exists n :: 0 <= n < |citations| && citations[n].citationId == id) <==> id in ids {
      CitedExactly(ids, items, maxChars, id);
    }
    forall id ensures id in MarkIds(Tokens(text)) <==> id in ids {
      MarkIdsAre(Tokens(text), id);
    }
  }

  lemma CitedExactly(ids: seq<string>, items: seq<EvidenceItem>, maxChars: nat, id: string)
    requires NumberedFromOne(items) && forall i :: i in ids ==> Known(i, items)
    ensures var citations := CitedItems(ids, items, maxChars);
            (exists n :: 0 <= n < |citations| && citations[n].citationId == id) <==> id in ids
  {
    var citations := CitedItems(ids, items, maxChars);
    if n :| 0 <= n < |citations| && citations[n].citationId == id {
      CitedIsResolved(ids, items, maxChars, citations[n]);
    }
    if id in ids {
      ResolvedIsCited(ids, items, maxChars, id);
      KnownItem(id, items);
      var n :| 0 <= n < |citations| && citations[n] == Resolve(EvidenceMap(items)[id], maxChars);
    }
  }

  lemma MarksAreLabelled(text: string, citations: seq<Citation>)
    requires forall id :: (exists n :: 0 <= n < |citations| && citations[n].citationId == id) <==> id in MarkIds(Tokens(text))
    ensures AllKnown(Tokens(text), citations)
  {
    var toks := Tokens(text);
    forall i | 0 <= i < |toks| && toks[i].Mark? ensures LabelOf("E" + toks[i].digits, citations).Some? {
      MarkIdsAre(toks, "E" + toks[i].digits);
    }
  }

  lemma LabelsAreRight(toks: seq<Token>, citations: seq<Citation>)
    requires AllKnown(toks, citations)
    ensures MarksLabelled(toks, Map(Replacement(citations), toks), citations)
  {
    var pieces := Map(Replacement(citations), toks);
    forall i | 0 <= i < |toks| && toks[i].Mark? ensures IsLabelFor(pieces[i], "E" + toks[i].digits, citations) {
      var n := LabelOf("E" + toks[i].digits, citations).value;
      assert pieces[i] == Label(n);
    }
  }

  lemma CitationsAreReferred(toks: seq<Token>, citations: seq<Citation>)
    requires forall n :: 0 <= n < |citations| ==> citations[n].citationId in MarkIds(toks)
    ensures AllReferred(toks, citations)
  {
    forall n | 0 <= n < |citations| ensures Mentions(toks, citations[n].citationId) {
      MarkIdsAre(toks, citations[n].citationId);
    }
  }

  lemma LiteralsAreRight(toks: seq<Token>, citations: seq<Citation>)
    ensures LiteralsKept(toks, Map(Replacement(citations), toks))
  {
  }

  lemma PiecesAreRight(text: string, citations: seq<Citation>)
    requires AllKnown(Tokens(text), citations)
    requires forall n :: 0 <= n < |citations| ==> citations[n].citationId in MarkIds(Tokens(text))
    ensures PiecewiseRewritten(Tokens(text), Map(Replacement(citations), Tokens(text)), citations)
  {
    LiteralsAreRight(Tokens(text), citations);
    LabelsAreRight(Tokens(text), citations);
    CitationsAreReferred(Tokens(text), citations);
  }

  lemma NumberedIsFaithful(text: string, items: seq<EvidenceItem>, maxChars: nat)
    requires NumberedFromOne(items)
    requires Validated(Extracted(text), items, maxChars).Ok?
    ensures var citations := Validated(Extracted(text), items, maxChars).value;
            Faithful(text, RewriteCitations(text, citations), citations)
  {
    var citations := Validated(Extracted(text), items, maxChars).value;
    CitationsAreTheMarks(text, items, maxChars);
    MarksAreLabelled(text, citations);
    PiecesAreRight(text, citations);
    KnownMarkersLeaveNone(Idle, "", text, citations);
    MarkerSurvivesExactlyWhen(text, citations);
    FlattenMap(Replacement(citations), Tokens(text));
  }

  /** A packet as the packet builder makes it, from whatever results. */
  ghost predicate Built(packet: EvidencePacket) {
    exists query, results, maxItems, minScore, detect :: IsPacketFor(packet, query, results, maxItems, minScore, detect)
  }

  lemma BuiltIsNumbered(packet: EvidencePacket)
    requires Built(packet)
    ensures NumberedFromOne(packet.items)
  {
    var query, results, maxItems, minScore, detect :| IsPacketFor(packet, query, results, maxItems, minScore, detect);
    assert Numbered(packet.items, Eligible(results, maxItems, minScore), detect);
  }

  /** Rewriting is complete: when the ids extracted from a text validate against a built
      packet, the rewritten text is a faithful rendering of it. */
  lemma RewritingIsComplete(text: string, packet: EvidencePacket, maxChars: nat)
    requires Built(packet) && Validated(Extracted(text), packet.items, maxChars).Ok?
    ensures var citations := Validated(Extracted(text), packet.items, maxChars).value;
            Faithful(text, RewriteCitations(text, citations), citations)
  {
    BuiltIsNumbered(packet);
    NumberedIsFaithful(text, packet.items, maxChars);
  }

  // ----- steps 7 to 9 of answering -----

  /** Every marker of the text names an item of the packet. */
  ghost predicate AllCited(text: string, packet: EvidencePacket) {
    forall id :: Mentions(Tokens(text), id) ==> Known(id, packet.items)
  }

  /** Validate the provider's ids, fall back to no citations on an error, rewrite.  With the
      ids extracted from the text and a built packet, the result is faithful when every
      marker names an item; otherwise there are no citations, and a marker is left exactly
      when the text hides one. */
  method FinishAnswer(answerText: string, citationIds: seq<string>, packet: EvidencePacket, maxChars: nat)
    returns (text: string, citations: seq<Citation>)
    ensures citations == match Validated(citationIds, packet.items, maxChars) case Ok(cs) => cs case Err(_) => []
    ensures text == RewriteCitations(answerText, citations)
    ensures Built(packet) && citationIds == Extracted(answerText) ==>
              if AllCited(answerText, packet) then Faithful(answerText, text, citations)
              else
                && citations == []
                && (HasMarker(text) <==> exists i: nat, j: nat :: HidesMarker(Tokens(answerText), [], i, j))
  {
    var validated := Validate(citationIds, packet, maxChars);
    match validated {
      case Ok(cs) => citations := cs;
      case Err(_) => citations := [];
    }
    text := RewriteCitations(answerText, citations);
    AnswerIsAsPromised(answerText, packet, maxChars);
    SurvivesExactlyWhenHidden(answerText, []);
  }

  lemma AnswerIsAsPromised(text: string, packet: EvidencePacket, maxChars: nat)
    ensures Built(packet) ==>
              (Validated(Extracted(text), packet.items, maxChars).Ok? <==> AllCited(text, packet))
    ensures Built(packet) && AllCited(text, packet) ==>
              var citations := Validated(Extracted(text), packet.items, maxChars).value;
              Faithful(text, RewriteCitations(text, citations), citations)
  {
    if Built(packet) {
      BuiltIsNumbered(packet);
      ExtractedAreMentioned(text);
      AcceptedExactlyWhenKnown(Extracted(text), packet.items, maxChars);
      if AllCited(text, packet) { RewritingIsComplete(text, packet, maxChars); }
    }
  }
}
