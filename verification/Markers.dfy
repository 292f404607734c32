/** The citation markers `[E<digits>]` of an answer text: what the pattern matches, and a
    one-pass automaton that recognises texts holding a marker. */
module Markers {
  import opened Decimal

  /** A text is read as literal characters and complete markers. */
  datatype Token = Lit(c: char) | Mark(digits: string)

  predicate IsMarker(m: string) {
    |m| >= 4 && m[0] == '[' && m[1] == 'E' && AllDigits(m[2..|m| - 1]) && m[|m| - 1] == ']'
  }

  ghost predicate HasMarker(s: string) {
    exists i, j :: 0 <= i <= j <= |s| && IsMarker(s[i..j])
  }

  function DigitRun(s: string): (n: nat)
    ensures n <= |s| && AllDigits(s[..n]) && (n < |s| ==> !IsDigit(s[n]))
  {
    if s == "" || !IsDigit(s[0]) then 0
    else
      var n := DigitRun(s[1..]);
      assert s[..n + 1] == [s[0]] + s[1..][..n];
      n + 1
  }

  /** Length of the marker that starts the text, 0 when there is none. */
  function MarkerLength(s: string): (n: nat)
    ensures n <= |s| && (n > 0 ==> IsMarker(s[..n]))
  {
    if |s| >= 4 && s[0] == '[' && s[1] == 'E' then
      var n := DigitRun(s[2..]);
      if n > 0 && n + 2 < |s| && s[n + 2] == ']' then
        assert s[..n + 3][2..n + 2] == s[2..][..n];
        n + 3
      else 0
    else 0
  }

  function FirstToken(s: string): Token
    requires s != ""
  {
    var n := MarkerLength(s);
    if n > 0 then Mark(s[2..n - 1]) else Lit(s[0])
  }

  function Rest(s: string): (r: string)
    requires s != ""
    ensures |r| < |s|
  {
    if MarkerLength(s) > 0 then s[MarkerLength(s)..] else s[1..]
  }

  /** What scanning for non-overlapping matches from the left finds. */
  function Tokens(s: string): seq<Token>
    decreases |s|
  {
    if s == "" then [] else [FirstToken(s)] + Tokens(Rest(s))
  }

  function Source(t: Token): string {
    match t
    case Lit(c) => [c]
    case Mark(digits) => "[E" + digits + "]"
  }

  function Concat(f: Token -> string, toks: seq<Token>): string {
    if toks == [] then "" else f(toks[0]) + Concat(f, toks[1..])
  }

  lemma MarkIsItsSource(s: string)
    requires MarkerLength(s) > 0
    ensures Source(Mark(s[2..MarkerLength(s) - 1])) == s[..MarkerLength(s)]
    ensures AllDigits(s[2..MarkerLength(s) - 1]) && MarkerLength(s) >= 4
  {
    var n := MarkerLength(s);
    var m := s[..n];
    assert m[2..n - 1] == s[2..n - 1];
    assert m == "[E" + m[2..n - 1] + "]";
  }

  lemma FirstTokenIsItsSource(s: string)
    requires s != ""
    ensures s == Source(FirstToken(s)) + Rest(s)
  {
    if MarkerLength(s) > 0 { MarkIsItsSource(s); }
  }

  /** Reading loses nothing. */
  lemma {:induction false} TokensAreTheText(s: string)
    ensures Concat(Source, Tokens(s)) == s
    decreases |s|
  {
    if s != "" {
      TokensAreTheText(Rest(s));
      FirstTokenIsItsSource(s);
      ConcatCons(Source, FirstToken(s), Tokens(Rest(s)));
    }
  }

  lemma ConcatCons(f: Token -> string, t: Token, toks: seq<Token>)
    ensures Concat(f, [t] + toks) == f(t) + Concat(f, toks)
  {
    assert ([t] + toks)[1..] == toks;
  }

  /** Every Mark stands for a marker. */
  lemma {:induction false} MarksAreMarkers(s: string, t: Token)
    requires t in Tokens(s) && t.Mark?
    ensures t.digits != "" && AllDigits(t.digits)
    decreases |s|
  {
    if t == FirstToken(s) { MarkIsItsSource(s); } else { MarksAreMarkers(Rest(s), t); }
  }

  lemma {:induction false} DigitRunOfMarker(digits: string, rest: string)
    requires AllDigits(digits)
    requires rest != "" && !IsDigit(rest[0])
    ensures DigitRun(digits + rest) == |digits|
  {
    if digits == "" {
      assert digits + rest == rest;
    } else {
      assert (digits + rest)[1..] == digits[1..] + rest;
      DigitRunOfMarker(digits[1..], rest);
    }
  }

  /** The scanner's test is complete: a text that starts with a marker is matched there. */
  lemma MarkerIsMatched(digits: string, rest: string)
    requires AllDigits(digits) && digits != ""
    ensures MarkerLength("[E" + digits + "]" + rest) == |digits| + 3
  {
    var s := "[E" + digits + "]" + rest;
    assert s[2..] == digits + ("]" + rest);
    DigitRunOfMarker(digits, "]" + rest);
  }

  // ----- the automaton -----

  /** How much of a marker has just been read. */
  datatype State = Idle | Open | OpenE | Digits | Found

  function Step(q: State, c: char): State {
    if q == Found then Found
    else if c == '[' then Open
    else if q == Open && c == 'E' then OpenE
    else if (q == OpenE || q == Digits) && IsDigit(c) then Digits
    else if q == Digits && c == ']' then Found
    else Idle
  }

  function Drive(q: State, s: string): State
    decreases |s|
  {
    if s == "" then q else Drive(Step(q, s[0]), s[1..])
  }

  lemma {:induction false} DriveConcat(q: State, a: string, b: string)
    ensures Drive(q, a + b) == Drive(Drive(q, a), b)
    decreases |a|
  {
    if a == "" {
      assert a + b == b;
    } else {
      assert (a + b)[1..] == a[1..] + b;
      DriveConcat(Step(q, a[0]), a[1..], b);
    }
  }

  lemma {:induction false} FoundForever(s: string)
    ensures Drive(Found, s) == Found
  {
    if s != "" { FoundForever(s[1..]); }
  }

  lemma {:induction false} DriveDigits(q: State, digits: string)
    requires q == OpenE || q == Digits
    requires AllDigits(digits)
    ensures Drive(q, digits) == if digits == "" then q else Digits
    decreases |digits|
  {
    if digits != "" { DriveDigits(Digits, digits[1..]); }
  }

  lemma DriveMarker(q: State, m: string)
    requires IsMarker(m)
    ensures Drive(q, m) == Found
  {
    var digits := m[2..|m| - 1];
    assert m == "[E" + digits + "]";
    if q == Found {
      FoundForever(m);
    } else {
      DriveConcat(q, "[E" + digits, "]");
      DriveConcat(q, "[E", digits);
      assert Drive(q, "[E") == OpenE by {
        assert "[E"[1..] == "E" && "E"[1..] == "";
      }
      DriveDigits(OpenE, digits);
      assert "]"[1..] == "";
    }
  }

  /** What the state says about the text read so far. */
  ghost predicate Trace(q: State, s: string) {
    match q
    case Idle => true
    case Open => s != "" && s[|s| - 1] == '['
    case OpenE => |s| >= 2 && s[|s| - 2] == '[' && s[|s| - 1] == 'E'
    case Digits => exists i :: 0 <= i && i + 3 <= |s| && s[i] == '[' && s[i + 1] == 'E' && AllDigits(s[i + 2..])
    case Found => HasMarker(s)
  }

  lemma CompletedMarker(s: string, i: nat)
    requires i + 3 <= |s| && s[i] == '[' && s[i + 1] == 'E' && AllDigits(s[i + 2..])
    ensures HasMarker(s + "]")
  {
    var t := s + "]";
    var m := t[i..|t|];
    assert m == s[i..] + "]";
    assert m[2..|m| - 1] == s[i..][2..] == s[i + 2..];
    assert IsMarker(m);
  }

  lemma ExtendedDigits(s: string, i: nat, c: char)
    requires i + 2 <= |s| && s[i] == '[' && s[i + 1] == 'E' && AllDigits(s[i + 2..]) && IsDigit(c)
    ensures Trace(Digits, s + [c])
  {
    var t := s + [c];
    assert t[i + 2..] == s[i + 2..] + [c];
    assert t[i] == '[' && t[i + 1] == 'E' && AllDigits(t[i + 2..]);
  }

  lemma MarkerStays(s: string, c: char)
    requires HasMarker(s)
    ensures HasMarker(s + [c])
  {
    var i, j :| 0 <= i <= j <= |s| && IsMarker(s[i..j]);
    assert (s + [c])[i..j] == s[i..j];
  }

  lemma StepTrace(q: State, s: string, c: char)
    requires Trace(q, s)
    ensures Trace(Step(q, c), s + [c])
  {
    match q
    case Found => MarkerStays(s, c);
    case Digits =>
      var i :| 0 <= i && i + 3 <= |s| && s[i] == '[' && s[i + 1] == 'E' && AllDigits(s[i + 2..]);
      if IsDigit(c) { ExtendedDigits(s, i, c); }
      if c == ']' { CompletedMarker(s, i); }
    case OpenE =>
      if IsDigit(c) { ExtendedDigits(s, |s| - 2, c); }
    case _ =>
  }

  lemma {:induction false} DriveTrace(s: string)
    ensures Trace(Drive(Idle, s), s)
  {
    if s != "" {
      var n := |s| - 1;
      DriveTrace(s[..n]);
      assert s == s[..n] + [s[n]];
      DriveConcat(Idle, s[..n], [s[n]]);
      assert [s[n]][1..] == "";
      StepTrace(Drive(Idle, s[..n]), s[..n], s[n]);
    }
  }

  /** The automaton decides whether a text holds a marker. */
  lemma DriveDecides(s: string)
    ensures HasMarker(s) <==> Drive(Idle, s) == Found
  {
    DriveTrace(s);
    if HasMarker(s) {
      var i, j :| 0 <= i <= j <= |s| && IsMarker(s[i..j]);
      assert s == s[..i] + s[i..j] + s[j..];
      DriveConcat(Idle, s[..i] + s[i..j], s[j..]);
      DriveConcat(Idle, s[..i], s[i..j]);
      DriveMarker(Drive(Idle, s[..i]), s[i..j]);
      FoundForever(s[j..]);
    }
  }
}
