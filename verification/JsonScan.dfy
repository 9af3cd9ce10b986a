/** Finding a JSON object in noisy model output (internal/ai/service.go). */
module JsonScan {
  import opened Sequences
  import opened Team

  datatype Scanner = Scanner(depth: int, inString: bool, escaped: bool)

  const START := Scanner(0, false, false)

  /** Braces count only outside strings; escapes are those of section 7 of RFC 8259. */
  function Fed(st: Scanner, c: char): Scanner {
    if st.inString then
      if st.escaped then st.(escaped := false)
      else if c == '\\' then st.(escaped := true)
      else if c == '"' then st.(inString := false)
      else st
    else if c == '"' then st.(inString := true)
    else if c == '{' then st.(depth := st.depth + 1)
    else if c == '}' then st.(depth := st.depth - 1)
    else st
  }

  function FedAll(st: Scanner, s: string): Scanner
    decreases |s|
  {
    if s == "" then st else FedAll(Fed(st, s[0]), s[1..])
  }

  predicate Closes(st: Scanner, c: char) {
    !st.inString && c == '}' && st.depth == 1
  }

  /** Where the brace opened before `at` closes, or -1. */
  function EndFrom(s: string, at: nat, st: Scanner): (e: int)
    requires at <= |s|
    ensures e == -1 || at <= e < |s|
    decreases |s| - at
  {
    if at == |s| then -1
    else if Closes(st, s[at]) then at
    else EndFrom(s, at + 1, Fed(st, s[at]))
  }

  function Candidate(s: string, start: nat): Option<string> {
    if start >= |s| || s[start] != '{' || EndFrom(s, start, START) < 0 then None
    else Some(s[start..EndFrom(s, start, START) + 1])
  }

  // ---------- where an object ends ----------

  /** Back at depth zero, outside strings. */
  predicate Balanced(t: string) {
    var st := FedAll(START, t);
    st.depth == 0 && !st.inString
  }

  lemma {:induction false} FedSnoc(st: Scanner, t: string, c: char)
    ensures FedAll(st, t + [c]) == Fed(FedAll(st, t), c)
    decreases |t|
  {
    if t == "" {
      assert (t + [c])[1..] == "";
    } else {
      FedSnoc(Fed(st, t[0]), t[1..], c);
      assert (t + [c])[1..] == t[1..] + [c];
    }
  }

  /** The text from `start` up to and including position `k` is balanced. */
  predicate BalancedTo(s: string, start: nat, k: nat) {
    start <= k < |s| && Balanced(s[start..k + 1])
  }

  lemma StaysOpen(s: string, start: nat, at: nat)
    requires start <= at < |s| && FedAll(START, s[start..at]).depth >= 1
    ensures FedAll(START, s[start..at + 1]) == Fed(FedAll(START, s[start..at]), s[at])
    ensures BalancedTo(s, start, at) <==> Closes(FedAll(START, s[start..at]), s[at])
    ensures !BalancedTo(s, start, at) ==> FedAll(START, s[start..at + 1]).depth >= 1
  {
    FedSnoc(START, s[start..at], s[at]);
    assert s[start..at] + [s[at]] == s[start..at + 1];
  }

  /** The scan from `at` continues the reading of what lies before it. */
  lemma {:induction false} EndContinues(s: string, start: nat, at: nat)
    requires start < at <= |s| && FedAll(START, s[start..at]).depth >= 1
    ensures var e := EndFrom(s, at, FedAll(START, s[start..at]));
      if e < 0 then forall k :: k >= at ==> !BalancedTo(s, start, k)
      else BalancedTo(s, start, e) && forall k :: at <= k < e ==> !BalancedTo(s, start, k)
    decreases |s| - at
  {
    if at < |s| {
      StaysOpen(s, start, at);
      hide BalancedTo, FedAll, Closes;
      if !BalancedTo(s, start, at) {
        EndContinues(s, start, at + 1);
      }
    }
  }

  /** From a brace, the scan ends at the first position where the text so far is balanced, if there is one. */
  lemma EndIsFirstBalance(s: string, start: nat)
    requires start < |s| && s[start] == '{'
    ensures var e := EndFrom(s, start, START);
      if e < 0 then forall k: nat :: !BalancedTo(s, start, k)
      else BalancedTo(s, start, e) && forall k: nat :: k < e ==> !BalancedTo(s, start, k)
  {
    assert s[start..start + 1] == "{" && "{"[1..] == "";
    assert FedAll(START, "{") == Scanner(1, false, false);
    assert !BalancedTo(s, start, start);
    hide FedAll, Balanced;
    EndContinues(s, start, start + 1);
  }

  // ---------- objects in noise ----------

  datatype StringChar = Raw(c: char) | Escaped(c: char)

  /** Text with matched braces and closed strings. */
  datatype Body =
    | Nothing
    | Char(c: char, rest: Body)
    | Text(chars: seq<StringChar>, rest: Body)
    | Object(inner: Body, rest: Body)

  predicate WellFormed(b: Body) {
    match b
    case Nothing => true
    case Char(c, rest) => c != '"' && c != '{' && c != '}' && WellFormed(rest)
    case Text(chars, rest) => (forall k :: 0 <= k < |chars| ==> chars[k].Raw? ==> chars[k].c != '"' && chars[k].c != '\\') && WellFormed(rest)
    case Object(inner, rest) => WellFormed(inner) && WellFormed(rest)
  }

  function Quoted(chars: seq<StringChar>): string {
    if chars == [] then "\""
    else (if chars[0].Raw? then [chars[0].c] else ['\\', chars[0].c]) + Quoted(chars[1..])
  }

  function Rendered(b: Body): string {
    match b
    case Nothing => ""
    case Char(c, rest) => [c] + Rendered(rest)
    case Text(chars, rest) => "\"" + Quoted(chars) + Rendered(rest)
    case Object(inner, rest) => "{" + Rendered(inner) + "}" + Rendered(rest)
  }

  /** `s` reads `t` at position `at`. */
  predicate ReadsAt(s: string, at: nat, t: string) {
    at + |t| <= |s| && s[at..at + |t|] == t
  }

  lemma ReadsSplit(s: string, at: nat, t: string, u: string)
    requires ReadsAt(s, at, t + u)
    ensures ReadsAt(s, at, t) && ReadsAt(s, at + |t|, u)
  {
    assert s[at..at + |t|] == (t + u)[..|t|];
    assert s[at + |t|..at + |t| + |u|] == (t + u)[|t|..];
  }

  lemma ReadsChar(s: string, at: nat, c: char, st: Scanner)
    requires ReadsAt(s, at, [c]) && !Closes(st, c)
    ensures at < |s| && s[at] == c && EndFrom(s, at, st) == EndFrom(s, at + 1, Fed(st, c))
  {
    assert s[at..at + 1][0] == c;
  }

  /** A quoted text is skipped whole, whatever braces and escaped quotes it holds. */
  lemma {:induction false} SkipsQuoted(s: string, at: nat, chars: seq<StringChar>, d: int)
    requires ReadsAt(s, at, Quoted(chars)) && (forall k :: 0 <= k < |chars| ==> chars[k].Raw? ==> chars[k].c != '"' && chars[k].c != '\\')
    ensures EndFrom(s, at, Scanner(d, true, false)) == EndFrom(s, at + |Quoted(chars)|, Scanner(d, false, false))
    decreases |chars|
  {
    hide EndFrom;
    if chars == [] {
      ReadsChar(s, at, '"', Scanner(d, true, false));
    } else {
      var rest := Quoted(chars[1..]);
      if chars[0].Raw? {
        ReadsSplit(s, at, [chars[0].c], rest);
        ReadsChar(s, at, chars[0].c, Scanner(d, true, false));
        SkipsQuoted(s, at + 1, chars[1..], d);
      } else {
        assert ['\\', chars[0].c] + rest == ['\\'] + ([chars[0].c] + rest);
        ReadsSplit(s, at, ['\\'], [chars[0].c] + rest);
        ReadsSplit(s, at + 1, [chars[0].c], rest);
        ReadsChar(s, at, '\\', Scanner(d, true, false));
        ReadsChar(s, at + 1, chars[0].c, Scanner(d, true, true));
        SkipsQuoted(s, at + 2, chars[1..], d);
      }
    }
  }

  lemma SkipsText(s: string, at: nat, chars: seq<StringChar>, tail: string, d: int)
    requires d >= 1 && ReadsAt(s, at, "\"" + Quoted(chars) + tail)
    requires forall k :: 0 <= k < |chars| ==> chars[k].Raw? ==> chars[k].c != '"' && chars[k].c != '\\'
    ensures var n := 1 + |Quoted(chars)|;
      EndFrom(s, at, Scanner(d, false, false)) == EndFrom(s, at + n, Scanner(d, false, false)) && ReadsAt(s, at + n, tail)
  {
    hide EndFrom, Quoted, ReadsAt;
    Associative("\"", Quoted(chars), tail);
    ReadsSplit(s, at, "\"", Quoted(chars) + tail);
    ReadsSplit(s, at + 1, Quoted(chars), tail);
    ReadsChar(s, at, '"', Scanner(d, false, false));
    SkipsQuoted(s, at + 1, chars, d);
  }

  lemma ObjectParts(s: string, at: nat, inner: string, tail: string)
    requires ReadsAt(s, at, "{" + inner + "}" + tail)
    ensures ReadsAt(s, at, "{") && ReadsAt(s, at + 1, inner) && ReadsAt(s, at + 1 + |inner|, "}") && ReadsAt(s, at + 2 + |inner|, tail)
  {
    assert "{" + inner + "}" + tail == "{" + (inner + ("}" + tail));
    ReadsSplit(s, at, "{", inner + ("}" + tail));
    ReadsSplit(s, at + 1, inner, "}" + tail);
    ReadsSplit(s, at + 1 + |inner|, "}", tail);
  }

  /** A balanced body is skipped whole at any depth. */
  lemma {:induction false} SkipsBody(s: string, at: nat, b: Body, d: int)
    requires WellFormed(b) && d >= 1 && ReadsAt(s, at, Rendered(b))
    ensures at + |Rendered(b)| <= |s|
    ensures EndFrom(s, at, Scanner(d, false, false)) == EndFrom(s, at + |Rendered(b)|, Scanner(d, false, false))
    decreases b, 1
  {
    hide EndFrom, Quoted;
    match b
    case Nothing =>
    case Char(c, rest) =>
      ReadsSplit(s, at, [c], Rendered(rest));
      hide ReadsAt;
      ReadsChar(s, at, c, Scanner(d, false, false));
      SkipsBody(s, at + 1, rest, d);
    case Text(chars, rest) =>
      hide ReadsAt;
      SkipsText(s, at, chars, Rendered(rest), d);
      SkipsBody(s, at + 1 + |Quoted(chars)|, rest, d);
    case Object(inner, rest) =>
      hide ReadsAt;
      SkipsObject(s, at, inner, rest, d);
  }

  lemma {:induction false} SkipsObject(s: string, at: nat, inner: Body, rest: Body, d: int)
    requires WellFormed(inner) && WellFormed(rest) && d >= 1 && ReadsAt(s, at, "{" + Rendered(inner) + "}" + Rendered(rest))
    ensures var n := 2 + |Rendered(inner)| + |Rendered(rest)|;
      at + n <= |s| && EndFrom(s, at, Scanner(d, false, false)) == EndFrom(s, at + n, Scanner(d, false, false))
    decreases Object(inner, rest), 0
  {
    hide EndFrom, Rendered, WellFormed, ReadsAt;
    var n := |Rendered(inner)|;
    ObjectParts(s, at, Rendered(inner), Rendered(rest));
    ReadsChar(s, at, '{', Scanner(d, false, false));
    SkipsBody(s, at + 1, inner, d + 1);
    ReadsChar(s, at + 1 + n, '}', Scanner(d + 1, false, false));
    SkipsBody(s, at + 2 + n, rest, d);
  }

  function Braced(b: Body): string {
    "{" + Rendered(b) + "}"
  }

  /** An object embedded in any noise is the candidate found at its opening brace. */
  lemma ObjectIsCandidate(s: string, at: nat, b: Body)
    requires WellFormed(b) && ReadsAt(s, at, Braced(b))
    ensures Candidate(s, at) == Some(Braced(b))
  {
    var n := |Rendered(b)|;
    hide EndFrom, Rendered, WellFormed;
    assert Braced(b) + "" == Braced(b);
    assert s[at..at + |Braced(b)|] == Braced(b);
    ObjectParts(s, at, Rendered(b), "");
    EndsHere(s, at + 1 + n);
    hide ReadsAt;
    ReadsChar(s, at, '{', START);
    SkipsBody(s, at + 1, b, 1);
  }

  lemma EndsHere(s: string, at: nat)
    requires ReadsAt(s, at, "}")
    ensures EndFrom(s, at, Scanner(1, false, false)) == at
  {
    assert s[at..at + 1][0] == '}';
  }

  // ---------- the extraction ----------

  /** What decoding accepts: the text is JSON, and it fits the expected result. */
  datatype Decoder = Decoder(trim: string -> string, valid: string -> bool, decodes: string -> bool)

  predicate Accepts(d: Decoder, c: Option<string>) {
    c.Some? && d.valid(c.value) && d.decodes(c.value)
  }

  /** The longest accepted candidate so far; the earliest one among equals. */
  predicate IsBest(d: Decoder, s: string, limit: nat, best: string, at: nat) {
    && at < limit && Candidate(s, at) == Some(best) && Accepts(d, Some(best))
    && forall k :: 0 <= k < limit && Accepts(d, Candidate(s, k)) ==>
         |Candidate(s, k).value| < |best| || (|Candidate(s, k).value| == |best| && at <= k)
  }

  predicate NoneAccepted(d: Decoder, s: string, limit: nat) {
    forall k :: 0 <= k < limit ==> !Accepts(d, Candidate(s, k))
  }

  /** The scan of one opening brace. */
  method FindEnd(s: string, start: nat) returns (end: int)
    requires start < |s|
    ensures end == EndFrom(s, start, START)
  {
    var st := START;
    for k := start to |s|
      invariant EndFrom(s, k, st) == EndFrom(s, start, START)
    {
      var c := s[k];
      if st.inString {
        if st.escaped {
          st := st.(escaped := false);
        } else if c == '\\' {
          st := st.(escaped := true);
        } else if c == '"' {
          st := st.(inString := false);
        }
        continue;
      }
      if c == '"' {
        st := st.(inString := true);
      } else if c == '{' {
        st := st.(depth := st.depth + 1);
      } else if c == '}' {
        st := st.(depth := st.depth - 1);
        if st.depth == 0 {
          return k;
        }
      }
    }
    end := -1;
  }

  /**
   * The whole trimmed text when it decodes; otherwise the longest decodable candidate, the earliest on
   * ties; and a failure only when there is none.
   */
  method ExtractJSONObject(output: string, d: Decoder) returns (r: Option<string>)
    ensures d.decodes(d.trim(output)) ==> r == Some(d.trim(output))
    ensures !d.decodes(d.trim(output)) ==> (r.None? <==> NoneAccepted(d, output, |output|))
    ensures !d.decodes(d.trim(output)) && r.Some? ==> exists at :: IsBest(d, output, |output|, r.value, at)
  {
    hide EndFrom;
    var trimmed := d.trim(output);
    if d.decodes(trimmed) {
      return Some(trimmed);
    }
    var best := "";
    ghost var at := 0;
    for start := 0 to |output|
      invariant if best == "" then NoneAccepted(d, output, start) else IsBest(d, output, start, best, at)
    {
      if output[start] != '{' {
        continue;
      }
      var end := FindEnd(output, start);
      if end >= 0 {
        var candidate := output[start..end + 1];
        if |candidate| > |best| && d.valid(candidate) && d.decodes(candidate) {
          best, at := candidate, start;
        }
      }
    }
    r := if best != "" then Some(best) else None;
  }

  /** When an object that decodes is embedded anywhere, extraction succeeds, with at least as much text. */
  lemma EmbeddedIsFound(d: Decoder, s: string, at: nat, b: Body, r: Option<string>)
    requires WellFormed(b) && ReadsAt(s, at, Braced(b)) && Accepts(d, Some(Braced(b)))
    requires r.None? ==> NoneAccepted(d, s, |s|)
    requires r.Some? ==> exists k :: IsBest(d, s, |s|, r.value, k)
    ensures r.Some? && |r.value| >= |Braced(b)|
  {
    ObjectIsCandidate(s, at, b);
    assert at < |s|;
    hide Rendered, WellFormed, EndFrom;
    assert Accepts(d, Candidate(s, at));
  }
}
