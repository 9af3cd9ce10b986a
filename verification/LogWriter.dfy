/** Bounded logs: the in-memory tail, the bounded file and the line-redacting stream (internal/app/log_writer.go). */
module LogWriter {
  import opened Sequences

  /** One character per byte. */
  type Bytes = string

  function Marker(): Bytes {
    "[older agent output truncated]\n"
  }

  const MAX_LOG: nat := 0xA0_0000

  function Concat(writes: seq<Bytes>): Bytes {
    if writes == [] then "" else Concat(writes[..|writes| - 1]) + writes[|writes| - 1]
  }

  lemma ConcatSnoc(writes: seq<Bytes>, w: Bytes)
    ensures Concat(writes + [w]) == Concat(writes) + w
  {
    assert (writes + [w])[..|writes|] == writes;
  }

  /** The last bytes of a stream, at most `n` of them. */
  function Last(s: Bytes, n: nat): Bytes {
    if |s| <= n then s else s[|s| - n..]
  }

  lemma LastAppend(t: Bytes, d: Bytes, n: nat)
    ensures |d| <= n ==> Last(t + d, n) == Last(t, n - |d|) + d
    ensures |d| >= n ==> Last(t + d, n) == Last(d, n)
  {
  }

  lemma LastShorter(s: Bytes, n: nat, m: nat)
    requires m <= n
    ensures Last(Last(s, n), m) == Last(s, m) && |Last(s, n)| == if |s| < n then |s| else n
  {
  }

  // ---------- the in-memory tail ----------

  /** Keeps the newest output in place, in a buffer of fixed size. */
  class TailBuffer {
    const buf: array<char>
    var len: nat
    var truncated: bool
    ghost var writes: seq<Bytes>

    ghost predicate Valid()
      reads this, buf
    {
      && 0 < buf.Length && len <= buf.Length
      && buf[..len] == Last(Concat(writes), buf.Length)
      && (truncated <==> |Concat(writes)| > buf.Length || Flooded())
    }

    /** Some single write filled the whole buffer by itself; it counts as truncation even when nothing was lost. */
    ghost predicate Flooded()
      reads this, buf
    {
      exists k :: 0 <= k < |writes| && |writes[k]| >= buf.Length
    }

    constructor (maximum: int)
      ensures Valid() && fresh(buf) && writes == [] && !truncated
      ensures buf.Length == if maximum <= 0 then 32768 else maximum
    {
      buf := new char[if maximum <= 0 then 32768 else maximum];
      len, truncated, writes := 0, false, [];
    }

    /** After any writes, the buffer holds exactly the last bytes of everything written. */
    method Write(data: Bytes) returns (n: nat)
      requires Valid()
      modifies this, buf
      ensures Valid() && writes == old(writes) + [data] && n == |data|
    {
      n := |data|;
      ghost var total := Concat(writes);
      ConcatSnoc(writes, data);
      FloodStep(writes, data, buf.Length);
      hide Concat, Last;
      if |data| >= buf.Length {
        LastAppend(total, data, buf.Length);
        Replace(data);
      } else {
        Append(data, total);
      }
      writes := writes + [data];
    }

    /** A write smaller than the buffer. */
    method Append(data: Bytes, ghost total: Bytes)
      requires |data| < buf.Length && len <= buf.Length && buf[..len] == Last(total, buf.Length)
      modifies this`len, this`truncated, buf
      ensures len <= buf.Length && buf[..len] == Last(total + data, buf.Length)
      ensures truncated <==> old(truncated) || (if |total| < buf.Length then |total| else buf.Length) + |data| > buf.Length
    {
      LastAppend(total, data, buf.Length);
      LastShorter(total, buf.Length, buf.Length - |data|);
      hide Last;
      MakeRoom(|data|, total);
      Fill(data, len);
      assert buf[..len + |data|] == buf[..len] + buf[len..len + |data|];
      len := len + |data|;
    }

    /** A write that fills the buffer replaces all of it. */
    method Replace(data: Bytes)
      requires |data| >= buf.Length
      modifies this`len, this`truncated, buf
      ensures len == buf.Length && buf[..len] == Last(data, buf.Length) && truncated
    {
      Fill(data[|data| - buf.Length..], 0);
      len, truncated := buf.Length, true;
    }

    /** Drops as many of the oldest bytes as do not fit beside `k` new ones. */
    method MakeRoom(k: nat, ghost total: Bytes)
      requires k < buf.Length && len <= buf.Length && buf[..len] == Last(total, buf.Length)
      modifies this`len, this`truncated, buf
      ensures len <= buf.Length - k && buf[..len] == Last(Last(total, buf.Length), buf.Length - k)
      ensures truncated <==> old(truncated) || |Last(total, buf.Length)| + k > buf.Length
    {
      ghost var before := buf[..len];
      if len + k > buf.Length {
        var overflow := len + k - buf.Length;
        ShiftDown(overflow);
        len, truncated := len - overflow, true;
        assert buf[..len] == before[overflow..];
      }
    }

    static lemma FloodStep(writes: seq<Bytes>, data: Bytes, maximum: nat)
      ensures (exists k :: 0 <= k < |writes + [data]| && |(writes + [data])[k]| >= maximum) <==>
        |data| >= maximum || (exists k :: 0 <= k < |writes| && |writes[k]| >= maximum)
    {
      assert (writes + [data])[|writes|] == data;
      if k :| 0 <= k < |writes| && |writes[k]| >= maximum {
        assert (writes + [data])[k] == writes[k];
      }
    }

    /** Copies `data` into the buffer from position `at`. */
    method Fill(data: Bytes, at: nat)
      requires at + |data| <= buf.Length
      modifies buf
      ensures buf[..at] == old(buf[..at]) && buf[at..at + |data|] == data
    {
      for k := 0 to |data|
        invariant buf[..at] == old(buf[..at]) && buf[at..at + k] == data[..k]
      {
        buf[at + k] := data[k];
      }
    }

    /** Moves the kept bytes to the front, overlapping regions included. */
    method ShiftDown(overflow: nat)
      requires overflow <= len <= buf.Length
      modifies buf
      ensures buf[..len - overflow] == old(buf[overflow..len])
    {
      for k := 0 to len - overflow
        invariant buf[..k] == old(buf[overflow..overflow + k])
        invariant buf[k..] == old(buf[k..])
      {
        buf[k] := buf[k + overflow];
      }
    }
  }

  // ---------- the bounded file ----------

  predicate EndsWith(s: Bytes, end: Bytes) {
    |end| <= |s| && s[|s| - |end|..] == end
  }

  lemma EndsTransitive(s: Bytes, e: Bytes, f: Bytes)
    requires EndsWith(s, e) && EndsWith(e, f)
    ensures EndsWith(s, f)
  {
  }

  lemma EndsExtended(x: Bytes, s: Bytes, e: Bytes, d: Bytes)
    requires EndsWith(s, e)
    ensures EndsWith(x + s + d, e + d)
  {
  }

  lemma LastNest(t: Bytes, m: nat, n: nat)
    requires m <= n
    ensures EndsWith(Last(t, n), Last(t, m)) && EndsWith(t, Last(t, n))
  {
    if |t| <= n {
      assert t[0..] == t;
    } else {
      var a := |t| - n;
      assert t[a..][n - m..] == t[|t| - m..];
    }
  }

  datatype LogState = LogState(contents: Bytes, truncated: bool)

  function Half(maximum: nat): nat {
    if maximum / 2 < 1 then 1 else maximum / 2
  }

  /** The newest half of a full file, behind a marker when there is room for it. */
  function Cut(maximum: nat, contents: Bytes): Bytes {
    var tail := Last(contents, Half(maximum));
    (if |Marker()| + |tail| > maximum then "" else Marker()) + tail
  }

  /** A cut file is its newest half, at least a byte, after the marker, or without it where the marker leaves no room. */
  lemma CutExactly(maximum: nat, contents: Bytes)
    requires maximum > 0
    ensures var half := if maximum == 1 then 1 else maximum / 2;
      var kept := if |contents| < half then |contents| else half;
      var tail := contents[|contents| - kept..];
      Cut(maximum, contents) == if kept + |"[older agent output truncated]\n"| <= maximum then "[older agent output truncated]\n" + tail else tail
  {
    assert "" + Last(contents, Half(maximum)) == Last(contents, Half(maximum));
  }

  /** What one write makes of the file. A file whose size cannot be read again before the write counts as having all its room left. */
  function Appended(maximum: nat, s: LogState, data: Bytes, sized: bool): LogState
    requires maximum > 0
  {
    if |data| >= maximum then LogState(Last(data, maximum), s.truncated || |data| > maximum || s.contents != "")
    else if |s.contents| + |data| > maximum then
      var base := Cut(maximum, s.contents);
      LogState(if sized && |base| >= maximum then base else base + Last(data, if sized then maximum - |base| else maximum), true)
    else if sized && |s.contents| >= maximum then LogState(s.contents, true)
    else LogState(s.contents + data, s.truncated)
  }

  /** What is kept of a cut file and the new data together do not fit. */
  predicate Overflows(maximum: nat, s: LogState, data: Bytes) {
    |data| < maximum && |s.contents| + |data| > maximum && |Cut(maximum, s.contents)| + |data| > maximum
  }

  /** How much of the newest output survives every truncation. */
  function Window(maximum: nat): nat {
    if maximum > Half(maximum) + |Marker()| then maximum - Half(maximum) - |Marker()| else 0
  }

  predicate NoneEmpty(writes: seq<Bytes>) {
    forall k :: 0 <= k < |writes| ==> writes[k] != ""
  }

  /**
   * The file ends with the newest output; unless truncated it is everything written; it is truncated
   * whenever more than the maximum was written, and for non-empty writes only then.
   */
  predicate LogOk(maximum: nat, writes: seq<Bytes>, s: LogState) {
    && SizesOk(maximum, Concat(writes), NoneEmpty(writes), s)
    && EndsWith(s.contents, Last(Concat(writes), Window(maximum)))
  }

  predicate SizesOk(maximum: nat, total: Bytes, noneEmpty: bool, s: LogState) {
    && (!s.truncated ==> s.contents == total)
    && (|total| > maximum ==> s.truncated)
    && (s.truncated ==> |total| >= maximum)
    && (s.truncated && noneEmpty ==> |total| > maximum)
    && (s.contents == "" ==> total == "")
  }

  lemma CutSize(maximum: nat, contents: Bytes)
    requires maximum > 0
    ensures |Cut(maximum, contents)| <= maximum && (Cut(maximum, contents) == "" ==> contents == "")
    ensures Window(maximum) > 0 ==>
      Cut(maximum, contents) == Marker() + Last(contents, Half(maximum)) && maximum - |Cut(maximum, contents)| >= Window(maximum) && Half(maximum) >= Window(maximum)
  {
  }

  /** A cut file still ends with the newest window after more is written. */
  lemma CutEnds(maximum: nat, contents: Bytes, total: Bytes, data: Bytes, room: nat)
    requires Window(maximum) > 0 && maximum > 0 && EndsWith(contents, Last(total, Window(maximum)))
    requires room >= maximum - |Cut(maximum, contents)|
    ensures var base := Cut(maximum, contents);
      |base| < maximum && EndsWith(base + Last(data, room), Last(total + data, Window(maximum)))
  {
    var base := Cut(maximum, contents);
    var w := Window(maximum);
    CutSize(maximum, contents);
    hide Cut, Last, Window, EndsWith, Marker, Half;
    LastAppend(total, data, w);
    if |data| >= w {
      LastNest(data, w, room);
      EndsPrefixed(base, Last(data, room), Last(data, w));
    } else {
      LastSizes(data, room);
      TailGrows(Marker(), contents, Half(maximum), total, data, w);
    }
  }

  lemma TailGrows(marker: Bytes, contents: Bytes, half: nat, total: Bytes, data: Bytes, w: nat)
    requires EndsWith(contents, Last(total, w)) && |data| < w <= half
    ensures EndsWith(marker + Last(contents, half) + data, Last(total, w - |data|) + data)
  {
    hide Last, EndsWith;
    LastNest(total, w - |data|, w);
    EndsTransitive(contents, Last(total, w), Last(total, w - |data|));
    LastSizes(total, w - |data|);
    TailEnds(contents, half, Last(total, w - |data|));
    EndsExtended(marker, Last(contents, half), Last(total, w - |data|), data);
  }

  lemma EndsPrefixed(x: Bytes, s: Bytes, e: Bytes)
    requires EndsWith(s, e)
    ensures EndsWith(x + s, e)
  {
  }

  lemma TailEnds(s: Bytes, n: nat, e: Bytes)
    requires EndsWith(s, e) && |e| <= n
    ensures EndsWith(Last(s, n), e)
  {
  }

  lemma NonEmptyMore(writes: seq<Bytes>, data: Bytes)
    ensures NoneEmpty(writes + [data]) <==> NoneEmpty(writes) && data != ""
  {
    assert (writes + [data])[|writes|] == data;
    forall k | 0 <= k < |writes| ensures (writes + [data])[k] == writes[k] {
    }
  }

  lemma EmptyWindow(s: Bytes, t: Bytes, w: nat)
    requires w == 0
    ensures EndsWith(s, Last(t, w))
  {
  }

  lemma GrowEnds(s: Bytes, total: Bytes, data: Bytes, w: nat)
    requires EndsWith(s, Last(total, w))
    ensures EndsWith(s + data, Last(total + data, w))
  {
    hide Last, EndsWith;
    LastAppend(total, data, w);
    if |data| >= w {
      LastNest(data, w, |data|);
      LastSizes(data, |data|);
      EndsPrefixed(s, data, Last(data, w));
    } else {
      LastNest(total, w - |data|, w);
      EndsTransitive(s, Last(total, w), Last(total, w - |data|));
      EndsExtended("", s, Last(total, w - |data|), data);
      assert "" + s + data == s + data;
    }
  }

  lemma FloodEnds(total: Bytes, data: Bytes, maximum: nat, w: nat)
    requires |data| >= maximum >= w
    ensures EndsWith(Last(data, maximum), Last(total + data, w))
  {
    LastAppend(total, data, w);
    LastNest(data, w, maximum);
  }

  /** A write keeps the newest output at the end of the file. */
  lemma AppendEnds(maximum: nat, s: LogState, total: Bytes, data: Bytes, sized: bool)
    requires maximum > 0 && EndsWith(s.contents, Last(total, Window(maximum)))
    ensures EndsWith(Appended(maximum, s, data, sized).contents, Last(total + data, Window(maximum)))
  {
    var w := Window(maximum);
    assert w <= maximum;
    if w == 0 {
      EmptyWindow(Appended(maximum, s, data, sized).contents, total + data, w);
    } else {
      hide Cut, EndsWith, Last, Window;
      if |data| >= maximum {
        FloodEnds(total, data, maximum, w);
      } else if |s.contents| + |data| > maximum {
        var base := Cut(maximum, s.contents);
        CutSize(maximum, s.contents);
        CutEnds(maximum, s.contents, total, data, if sized then maximum - |base| else maximum);
      } else {
        GrowEnds(s.contents, total, data, w);
        assert data == "" ==> s.contents + data == s.contents;
      }
    }
  }

  lemma SizesKeep(maximum: nat, total: Bytes, noneEmpty: bool, s: LogState, data: Bytes, sized: bool)
    requires maximum > 0 && SizesOk(maximum, total, noneEmpty, s)
    ensures SizesOk(maximum, total + data, noneEmpty && data != "", Appended(maximum, s, data, sized))
  {
    hide Cut, Last, Window, Half, Marker, EndsWith;
    CutSize(maximum, s.contents);
    var base := Cut(maximum, s.contents);
    LastSizes(data, maximum);
    if |base| < maximum {
      LastSizes(data, maximum - |base|);
    }
    if |data| >= maximum {
      assert |data| == maximum && s.contents == "" ==> total + data == data;
    } else if |s.contents| + |data| > maximum {
    } else {
      assert data == "" ==> total + data == total;
    }
  }

  /** A write that knows the file's size leaves it within its maximum; one that does not exceeds it exactly on an overflow. */
  lemma AppendFits(maximum: nat, s: LogState, data: Bytes)
    requires maximum > 0
    ensures |Appended(maximum, s, data, true).contents| <= maximum
    ensures |Appended(maximum, s, data, false).contents| > maximum <==> Overflows(maximum, s, data)
    ensures |Appended(maximum, s, data, false).contents| < 2 * maximum
  {
    hide Cut, Last, Window, Half, Marker, EndsWith;
    CutSize(maximum, s.contents);
    var base := Cut(maximum, s.contents);
    LastSizes(data, maximum);
    if |base| < maximum {
      LastSizes(data, maximum - |base|);
    }
  }

  /** Every write keeps what the file promises, and its size as far as the file's own is known. */
  lemma AppendKeeps(maximum: nat, writes: seq<Bytes>, s: LogState, data: Bytes, sized: bool)
    requires maximum > 0 && LogOk(maximum, writes, s)
    ensures LogOk(maximum, writes + [data], Appended(maximum, s, data, sized))
    ensures |Appended(maximum, s, data, sized).contents| > maximum <==> !sized && Overflows(maximum, s, data)
  {
    hide Concat, NoneEmpty, EndsWith, Cut, Window, Last, Appended, SizesOk, Overflows;
    ConcatSnoc(writes, data);
    NonEmptyMore(writes, data);
    SizesKeep(maximum, Concat(writes), NoneEmpty(writes), s, data, sized);
    AppendEnds(maximum, s, Concat(writes), data, sized);
    AppendFits(maximum, s, data);
  }

  lemma LastSizes(s: Bytes, n: nat)
    ensures |Last(s, n)| <= n && (|s| <= n ==> Last(s, n) == s) && (n > 0 && Last(s, n) == "" ==> s == "")
  {
  }

  /**
   * What the disk does during a write: everything, everything but the second query of the file's size,
   * or a failing operation with what it leaves in the file.
   */
  datatype Disk = Works | Unsized | Fails(left: Bytes)

  /** A log file that keeps its newest half, behind a marker, whenever it would grow past its maximum. */
  class BoundedLog {
    const maximum: nat
    /** What the disk does at each write. */
    const disk: nat -> Disk
    var contents: Bytes
    var truncated: bool
    var open: bool
    var attempts: nat
    ghost var writes: seq<Bytes>
    ghost var faulty: bool

    ghost predicate Valid()
      reads this
    {
      0 < maximum && (!faulty ==> LogOk(maximum, writes, LogState(contents, truncated)) && |contents| < 2 * maximum)
    }

    constructor (maximum: int, disk: nat -> Disk)
      ensures Valid() && writes == [] && !faulty && !truncated && open && contents == "" && attempts == 0
      ensures this.maximum == (if maximum <= 0 then MAX_LOG else maximum) && this.disk == disk
    {
      this.maximum, this.disk := if maximum <= 0 then MAX_LOG else maximum, disk;
      contents, truncated, open, attempts, writes, faulty := "", false, true, 0, [], false;
    }

    method Write(data: Bytes) returns (ok: bool)
      requires Valid()
      modifies this
      ensures Valid() && open == old(open) && attempts == old(attempts) + 1
      ensures ok <==> old(open) && !disk(old(attempts)).Fails?
      ensures ok ==> writes == old(writes) + [data] && faulty == old(faulty)
      ensures ok ==> LogState(contents, truncated) == Appended(maximum, old(LogState(contents, truncated)), data, disk(old(attempts)).Works?)
      ensures ok ==> (|contents| > maximum <==> disk(old(attempts)).Unsized? && Overflows(maximum, old(LogState(contents, truncated)), data))
      ensures !ok && old(open) ==> faulty
    {
      hide LogOk, Appended, Overflows;
      var fate := disk(attempts);
      attempts := attempts + 1;
      if !open {
        return false;
      }
      if fate.Fails? {
        contents, faulty := fate.left, true;
        return false;
      }
      AppendFits(maximum, LogState(contents, truncated), data);
      if !faulty {
        AppendKeeps(maximum, writes, LogState(contents, truncated), data, fate.Works?);
      }
      Put(data, fate.Works?);
      ok, writes := true, writes + [data];
    }

    /** The file operations of one write, of which only the second query of the size may fail. */
    method Put(data: Bytes, sized: bool)
      requires maximum > 0
      modifies this`contents, this`truncated
      ensures LogState(contents, truncated) == Appended(maximum, old(LogState(contents, truncated)), data, sized)
    {
      hide Cut;
      if |data| >= maximum {
        if |data| > maximum || |contents| > 0 {
          truncated := true;
        }
        TailIsLast(data, maximum, maximum);
        contents := data[|data| - maximum..];
        return;
      }
      if |contents| + |data| > maximum {
        truncated := true;
        CutToHalf();
      }
      var remaining, rest := maximum as int, data;
      if sized {
        remaining := remaining - |contents|;
      }
      if remaining <= 0 {
        truncated := true;
        return;
      }
      LastSizes(data, remaining);
      if |data| > remaining {
        truncated := true;
        TailIsLast(data, remaining, remaining);
        rest := data[|data| - remaining..];
      }
      hide Last;
      contents := contents + rest;
    }

    /** Rewrites the file as the marker and its newest half. */
    method CutToHalf()
      requires maximum > 0
      modifies this`contents
      ensures contents == Cut(maximum, old(contents))
    {
      hide Marker, Half;
      var keep := Half(maximum);
      if |contents| < keep {
        keep := |contents|;
      }
      var tail := contents[|contents| - keep..];
      TailIsLast(contents, keep, Half(maximum));
      hide Last;
      contents := (if |Marker()| > maximum - keep then "" else Marker()) + tail;
    }

    static lemma TailIsLast(s: Bytes, keep: nat, n: nat)
      requires keep == if |s| < n then |s| else n
      ensures s[|s| - keep..] == Last(s, n) && |Last(s, n)| == keep
    {
    }

    method Close()
      requires Valid()
      modifies this`open
      ensures Valid() && !open
    {
      open := false;
    }
  }

  // ---------- redacting line by line ----------

  /** The redaction patterns: each applies to one line. */
  datatype Rules = Rules(redact: Bytes -> Bytes, begins: Bytes -> bool, ends: Bytes -> bool, isKey: Bytes -> bool)

  function KeyNotice(): Bytes {
    "[REDACTED PRIVATE KEY]\n"
  }

  /** The private-key state and everything written to the log so far. */
  datatype Lane = Lane(inKey: bool, out: seq<Bytes>)

  function Emit(rules: Rules, lane: Lane, line: Bytes): Lane {
    if lane.inKey then Lane(!(rules.ends(line) && rules.isKey(line)), lane.out)
    else if rules.begins(line) && rules.isKey(line) then Lane(!rules.ends(line), lane.out + [KeyNotice()])
    else Lane(false, lane.out + [rules.redact(line)])
  }

  function Emitted(rules: Rules, lines: seq<Bytes>): Lane {
    if lines == [] then Lane(false, []) else Emit(rules, Emitted(rules, lines[..|lines| - 1]), lines[|lines| - 1])
  }

  /** The first line break, or -1. */
  function LineEnd(s: Bytes): (r: int)
    ensures -1 <= r < |s|
    ensures r >= 0 ==> s[r] == '\n' && forall k :: 0 <= k < r ==> s[k] != '\n'
    ensures r < 0 ==> forall k :: 0 <= k < |s| ==> s[k] != '\n'
  {
    if s == "" then -1
    else if s[0] == '\n' then 0
    else
      var rest := LineEnd(s[1..]);
      if rest < 0 then -1 else rest + 1
  }

  /** The complete lines of a stream. */
  function Lines(s: Bytes): seq<Bytes> {
    var e := LineEnd(s);
    if e < 0 then [] else [s[..e + 1]] + Lines(s[e + 1..])
  }

  /** What follows the last line break. */
  function Rest(s: Bytes): Bytes {
    var e := LineEnd(s);
    if e < 0 then s else Rest(s[e + 1..])
  }

  function AllLines(s: Bytes): seq<Bytes> {
    Lines(s) + if Rest(s) == "" then [] else [Rest(s)]
  }

  /** The redaction of a whole text, a function of the text alone. */
  function RedactedText(rules: Rules, s: Bytes): Bytes {
    Concat(Emitted(rules, AllLines(s)).out)
  }

  lemma LineEndOf(s: Bytes, e: int)
    requires 0 <= e < |s| && s[e] == '\n' && forall k :: 0 <= k < e ==> s[k] != '\n'
    ensures LineEnd(s) == e
  {
  }

  lemma SplitFirst(s: Bytes)
    requires LineEnd(s) >= 0
    ensures var e := LineEnd(s);
      Lines(s) == [s[..e + 1]] + Lines(s[e + 1..]) && Rest(s) == Rest(s[e + 1..])
  {
  }

  lemma SplitFirstOf(s: Bytes, d: Bytes)
    requires LineEnd(s) >= 0
    ensures var e := LineEnd(s);
      Lines(s + d) == [s[..e + 1]] + Lines(s[e + 1..] + d) && Rest(s + d) == Rest(s[e + 1..] + d)
  {
    var e := LineEnd(s);
    LineEndOf(s + d, e);
    assert (s + d)[..e + 1] == s[..e + 1] && (s + d)[e + 1..] == s[e + 1..] + d;
    hide LineEnd, Lines, Rest;
    SplitFirst(s + d);
  }

  /** Splitting a stream does not depend on where it was cut: the rest of one piece joins the next. */
  lemma {:induction false} SplitAppend(s: Bytes, d: Bytes)
    ensures Lines(s + d) == Lines(s) + Lines(Rest(s) + d) && Rest(s + d) == Rest(Rest(s) + d)
    decreases |s|
  {
    var e := LineEnd(s);
    if e < 0 {
      NoBreakSplit(s);
    } else {
      hide LineEnd, Lines, Rest;
      SplitFirst(s);
      SplitFirstOf(s, d);
      SplitAppend(s[e + 1..], d);
      Associative([s[..e + 1]], Lines(s[e + 1..]), Lines(Rest(s[e + 1..]) + d));
    }
  }

  lemma {:induction false} RestHasNoBreak(s: Bytes)
    ensures LineEnd(Rest(s)) < 0 && |Rest(s)| <= |s|
    decreases |s|
  {
    var e := LineEnd(s);
    if e >= 0 {
      RestHasNoBreak(s[e + 1..]);
    }
  }

  lemma NoBreakSplit(s: Bytes)
    requires LineEnd(s) < 0
    ensures Lines(s) == [] && Rest(s) == s
  {
  }

  lemma EmittedSnoc(rules: Rules, lines: seq<Bytes>, line: Bytes)
    ensures Emitted(rules, lines + [line]) == Emit(rules, Emitted(rules, lines), line)
  {
    assert (lines + [line])[..|lines|] == lines;
  }

  lemma {:induction false} ConcatCons(w: Bytes, writes: seq<Bytes>)
    ensures Concat([w] + writes) == w + Concat(writes)
  {
    if writes == [] {
      assert [w] + writes == [w] && [w][..0] == [];
      assert Concat([]) == "" && w + "" == w && "" + w == w;
    } else {
      var front, last := writes[..|writes| - 1], writes[|writes| - 1];
      ConcatCons(w, front);
      assert ([w] + writes)[..|writes|] == [w] + front && ([w] + writes)[|writes|] == last;
      Associative(w, Concat(front), last);
    }
  }

  /** One line: it ends with its only line break. */
  predicate IsLine(s: Bytes) {
    s != "" && s[|s| - 1] == '\n' && forall k :: 0 <= k < |s| - 1 ==> s[k] != '\n'
  }

  /** Splitting loses nothing: the complete lines and the rest are the stream, each with one break at its end, the rest with none. */
  lemma {:induction false} LinesExactly(s: Bytes)
    ensures Concat(Lines(s)) + Rest(s) == s
    ensures forall k :: 0 <= k < |Lines(s)| ==> IsLine(Lines(s)[k])
    ensures forall k :: 0 <= k < |Rest(s)| ==> Rest(s)[k] != '\n'
    decreases |s|
  {
    hide IsLine, Concat, LineEnd, Lines, Rest;
    var e := LineEnd(s);
    if e < 0 {
      NoBreakSplit(s);
      NoWrites();
      assert "" + s == s;
    } else {
      var more := s[e + 1..];
      SplitFirst(s);
      LinesExactly(more);
      FirstIsLine(s, e);
      ConcatCons(s[..e + 1], Lines(more));
      Associative(s[..e + 1], Concat(Lines(more)), Rest(more));
      assert s[..e + 1] + more == s;
      forall k | 0 <= k < |Lines(s)| ensures IsLine(Lines(s)[k]) {
        assert k > 0 ==> Lines(s)[k] == Lines(more)[k - 1];
      }
    }
  }

  lemma NoWrites()
    ensures Concat([]) == ""
  {
  }

  lemma FirstIsLine(s: Bytes, e: nat)
    requires e < |s| && s[e] == '\n' && forall k :: 0 <= k < e ==> s[k] != '\n'
    ensures IsLine(s[..e + 1])
  {
  }

  // ---------- what reaches the log ----------

  /** A line that begins a private key and does not end it as well. */
  predicate Opens(rules: Rules, line: Bytes) {
    rules.begins(line) && rules.isKey(line) && !rules.ends(line)
  }

  predicate Closes(rules: Rules, line: Bytes) {
    rules.ends(line) && rules.isKey(line)
  }

  /** Position `k` lies inside a private key: a line before it opens one, and no line in between closes it. */
  predicate InBlock(rules: Rules, lines: seq<Bytes>, k: nat)
    requires k <= |lines|
  {
    exists b :: 0 <= b < k && Opens(rules, lines[b]) && forall j :: b < j < k ==> !Closes(rules, lines[j])
  }

  /** What a line outside every private key leaves in the log: the notice where a key begins, otherwise its redaction. */
  function Shown(rules: Rules, line: Bytes): Bytes {
    if rules.begins(line) && rules.isKey(line) then KeyNotice() else rules.redact(line)
  }

  lemma BlockStep(rules: Rules, lines: seq<Bytes>, line: Bytes)
    ensures InBlock(rules, lines + [line], |lines| + 1) <==>
      Opens(rules, line) || (InBlock(rules, lines, |lines|) && !Closes(rules, line))
    ensures forall k: nat :: k <= |lines| ==> (InBlock(rules, lines + [line], k) <==> InBlock(rules, lines, k))
  {
    var more := lines + [line];
    hide Opens, Closes;
    assert more[|lines|] == line && forall k :: 0 <= k < |lines| ==> more[k] == lines[k];
    if Opens(rules, line) {
      assert Opens(rules, more[|lines|]);
    }
    if InBlock(rules, lines, |lines|) && !Closes(rules, line) {
      var b :| 0 <= b < |lines| && Opens(rules, lines[b]) && forall j :: b < j < |lines| ==> !Closes(rules, lines[j]);
      assert Opens(rules, more[b]);
    }
    forall k: nat | k <= |lines| ensures InBlock(rules, more, k) <==> InBlock(rules, lines, k) {
      if b :| 0 <= b < k && Opens(rules, lines[b]) && forall j :: b < j < k ==> !Closes(rules, lines[j]) {
        assert Opens(rules, more[b]);
      }
      if b :| 0 <= b < k && Opens(rules, more[b]) && forall j :: b < j < k ==> !Closes(rules, more[j]) {
        assert Opens(rules, lines[b]);
      }
    }
  }

  /**
   * The writes of a redacted stream are exactly those of the lines outside every private key, in order
   * and one each: `at` lists those lines, and no line inside a key reaches the log in any form.
   */
  lemma {:induction false} LinesShown(rules: Rules, lines: seq<Bytes>) returns (at: seq<nat>)
    ensures Emitted(rules, lines).inKey <==> InBlock(rules, lines, |lines|)
    ensures |at| == |Emitted(rules, lines).out|
    ensures forall i :: 0 <= i < |at| ==> at[i] < |lines| && !InBlock(rules, lines, at[i]) && Emitted(rules, lines).out[i] == Shown(rules, lines[at[i]])
    ensures forall i, j :: 0 <= i < j < |at| ==> at[i] < at[j]
    ensures forall k: nat :: k < |lines| && !InBlock(rules, lines, k) ==> k in at
  {
    if lines == [] {
      at := [];
    } else {
      var front, last := lines[..|lines| - 1], lines[|lines| - 1];
      assert lines == front + [last];
      at := LinesShown(rules, front);
      BlockStep(rules, front, last);
      EmittedSnoc(rules, front, last);
      hide InBlock, Emitted;
      if !InBlock(rules, front, |front|) {
        at := at + [|front|];
      }
    }
  }

  /** A key is replaced by one notice, whatever its lines say, when it ends and also when it does not. */
  lemma KeyIsNoticed(rules: Rules, lines: seq<Bytes>, first: Bytes, body: seq<Bytes>, last: Bytes)
    requires !InBlock(rules, lines, |lines|) && Opens(rules, first) && Closes(rules, last)
    requires forall k :: 0 <= k < |body| ==> !Closes(rules, body[k])
    ensures var open := Emitted(rules, lines + [first] + body);
      open.inKey && open.out == Emitted(rules, lines).out + [KeyNotice()]
    ensures var over := Emitted(rules, lines + [first] + body + [last]);
      !over.inKey && over.out == Emitted(rules, lines).out + [KeyNotice()]
  {
    var at := LinesShown(rules, lines);
    EmittedSnoc(rules, lines, first);
    BodyHidden(rules, lines + [first], body);
    EmittedSnoc(rules, lines + [first] + body, last);
    hide InBlock, Emitted;
  }

  lemma {:induction false} BodyHidden(rules: Rules, lines: seq<Bytes>, body: seq<Bytes>)
    requires Emitted(rules, lines).inKey && forall k :: 0 <= k < |body| ==> !Closes(rules, body[k])
    ensures Emitted(rules, lines + body) == Emitted(rules, lines)
  {
    if body == [] {
      assert lines + body == lines;
    } else {
      var front, line := body[..|body| - 1], body[|body| - 1];
      BodyHidden(rules, lines, front);
      assert lines + body == lines + front + [line];
      EmittedSnoc(rules, lines + front, line);
      hide Emitted;
    }
  }

  /** Redacts a stream line by line into a bounded log, however the stream is cut into writes. */
  class RedactingLog {
    const rules: Rules
    const log: BoundedLog
    var pending: Bytes
    var inKey: bool
    var closed: bool
    ghost var stream: Bytes
    /** No write failed and no unfinished line had to be flushed. */
    ghost var intact: bool

    /** `done` are the lines handed on so far. */
    ghost predicate Tracks(done: seq<Bytes>)
      reads `inKey, `intact, log
    {
      intact ==> !log.faulty && inKey == Emitted(rules, done).inKey && log.writes == Emitted(rules, done).out
    }

    ghost predicate Valid()
      reads this, log
    {
      && log.Valid() && log.open == !closed
      && (!closed ==> Tracks(Lines(stream)) && (intact ==> pending == Rest(stream)))
    }

    constructor (rules: Rules, maximum: int, disk: nat -> Disk)
      ensures Valid() && fresh(log) && stream == "" && intact && !closed && this.rules == rules
      ensures log.maximum == (if maximum <= 0 then MAX_LOG else maximum) && log.disk == disk
    {
      this.rules := rules;
      log := new BoundedLog(maximum, disk);
      pending, inKey, closed, stream, intact := "", false, false, "", true;
    }

    method WriteRedactedLine(line: Bytes, ghost done: seq<Bytes>) returns (ok: bool)
      requires log.Valid() && log.open && Tracks(done)
      modifies this`inKey, this`intact, log
      ensures log.Valid() && log.open && Tracks(done + [line])
      ensures intact <==> old(intact) && ok
      ensures (forall k :: !log.disk(k).Fails?) ==> ok
    {
      EmittedSnoc(rules, done, line);
      hide Emitted;
      ok := true;
      if inKey {
        if rules.ends(line) && rules.isKey(line) {
          inKey := false;
        }
      } else if rules.begins(line) && rules.isKey(line) {
        inKey := !rules.ends(line);
        ok := log.Write(KeyNotice());
      } else {
        ok := log.Write(rules.redact(line));
      }
      intact := intact && ok;
    }

    /** Hands on the complete lines of what is pending; `done` are those handed on before. */
    method DrainLines(ghost done: seq<Bytes>) returns (ok: bool)
      requires log.Valid() && log.open && Tracks(done)
      modifies this`pending, this`inKey, this`intact, log
      ensures log.Valid() && log.open && Tracks(done + Lines(old(pending)))
      ensures intact <==> old(intact) && ok
      ensures ok ==> pending == Rest(old(pending))
      ensures (forall k :: !log.disk(k).Fails?) ==> ok
    {
      hide Emitted, Lines, Rest, LineEnd, Tracks;
      ghost var handed := done;
      var e := LineEnd(pending);
      while e >= 0
        invariant log.Valid() && log.open && Tracks(handed) && intact == old(intact) && e == LineEnd(pending)
        invariant handed + Lines(pending) == done + Lines(old(pending)) && Rest(pending) == Rest(old(pending))
        decreases |pending|
      {
        SplitFirst(pending);
        var line := pending[..e + 1];
        Associative(handed, [line], Lines(pending[e + 1..]));
        pending := pending[e + 1..];
        ok := WriteRedactedLine(line, handed);
        if !ok {
          assert Tracks(done + Lines(old(pending))) by { NothingTracked(done + Lines(old(pending))); }
          return;
        }
        handed := handed + [line];
        e := LineEnd(pending);
      }
      NoBreakSplit(pending);
      assert handed + [] == handed;
      ok := true;
    }

    /** Nothing is claimed about a log that lost something. */
    lemma NothingTracked(done: seq<Bytes>)
      requires !intact
      ensures Tracks(done)
    {
    }

    method Write(data: Bytes) returns (ok: bool)
      requires Valid() && !closed
      modifies this, log
      ensures Valid() && !closed && stream == old(stream) + data
      ensures intact ==> old(intact) && ok
      ensures old(intact) && ok && |stream| <= MAX_LOG ==> intact
      ensures (forall k :: !log.disk(k).Fails?) ==> ok
    {
      SplitAppend(stream, data);
      RestHasNoBreak(stream + data);
      hide Lines, Rest, Emitted, LineEnd;
      pending := pending + data;
      ok := DrainLines(Lines(stream));
      stream := stream + data;
      if ok && |pending| > MAX_LOG {
        intact := false;
        ok := log.Write(rules.redact(pending));
        pending := "";
      }
    }

    /** Redacts what is left of the last line and closes the log. */
    method Close() returns (ok: bool)
      requires Valid() && !closed
      modifies this, log
      ensures Valid() && closed && stream == old(stream)
      ensures intact <==> old(intact) && ok
      ensures intact ==> !log.faulty && Concat(log.writes) == RedactedText(rules, stream) && log.writes == Emitted(rules, AllLines(stream)).out
      ensures (forall k :: !log.disk(k).Fails?) ==> ok
    {
      hide Lines, Rest, Emitted, Concat;
      ok := true;
      if |pending| > 0 {
        ok := WriteRedactedLine(pending, Lines(stream));
      }
      log.Close();
      closed := true;
      assert Lines(stream) + [] == Lines(stream);
      pending := "";
    }
  }
}
