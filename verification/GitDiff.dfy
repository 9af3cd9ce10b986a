/** Reading NUL-separated diff metadata (internal/git/diff.go). */
module GitDiff {
  import opened Decimals
  import opened Sequences
  import opened Team

  const NUL := '\U{0}'

  datatype FileDiff = FileDiff(path: string, oldPath: string, status: string, additions: int, deletions: int, binary: bool, untracked: bool)

  datatype Stat = Stat(additions: int, deletions: int, binary: bool)

  predicate HasNul(s: string) {
    NUL in s
  }

  // ---------- tokens ----------

  function IndexOf(s: string, c: char): (r: int)
    ensures -1 <= r < |s|
    ensures r >= 0 ==> s[r] == c && c !in s[..r]
    ensures r < 0 ==> c !in s
  {
    if s == "" then -1
    else if s[0] == c then 0
    else
      var rest := IndexOf(s[1..], c);
      if rest < 0 then -1 else rest + 1
  }

  /** Splitting at every separator: one piece more than there are separators. */
  function Split(s: string, c: char): (r: seq<string>)
    ensures r != []
  {
    var i := IndexOf(s, c);
    if i < 0 then [s] else [s[..i]] + Split(s[i + 1..], c)
  }

  /** Terminated tokens: an empty piece after the last terminator is no token. */
  function Tokens(value: string): seq<string> {
    if value == "" then []
    else
      var pieces := Split(value, NUL);
      if pieces[|pieces| - 1] == "" then pieces[..|pieces| - 1] else pieces
  }

  function Terminated(tokens: seq<string>): string {
    if tokens == [] then "" else tokens[0] + [NUL] + Terminated(tokens[1..])
  }

  lemma {:induction false} IndexOfFirst(s: string, rest: string, c: char)
    requires c !in s
    ensures IndexOf(s + [c] + rest, c) == |s|
  {
    var t := s + [c] + rest;
    if s != "" {
      IndexOfFirst(s[1..], rest, c);
      assert t[0] == s[0] && t[1..] == s[1..] + [c] + rest;
    }
  }

  lemma SplitPiece(s: string, rest: string, c: char)
    requires c !in s
    ensures Split(s + [c] + rest, c) == [s] + Split(rest, c)
  {
    var t := s + [c] + rest;
    IndexOfFirst(s, rest, c);
    assert t[..|s|] == s && t[|s| + 1..] == rest;
    hide IndexOf;
  }

  lemma {:induction false} SplitTerminated(tokens: seq<string>)
    requires forall k :: 0 <= k < |tokens| ==> !HasNul(tokens[k])
    ensures Split(Terminated(tokens), NUL) == tokens + [""]
  {
    if tokens != [] {
      hide Split;
      SplitTerminated(tokens[1..]);
      assert !HasNul(tokens[0]);
      SplitPiece(tokens[0], Terminated(tokens[1..]), NUL);
      Front(tokens, "");
      hide HasNul;
    }
  }

  lemma Front(tokens: seq<string>, last: string)
    requires tokens != []
    ensures [tokens[0]] + (tokens[1..] + [last]) == tokens + [last]
  {
  }

  /** Tokens written with terminators are read back exactly, empty ones included. */
  lemma TokensReadBack(tokens: seq<string>)
    requires forall k :: 0 <= k < |tokens| ==> !HasNul(tokens[k])
    ensures Tokens(Terminated(tokens)) == tokens
  {
    SplitTerminated(tokens);
  }

  // ---------- names and numbers ----------

  predicate IsMove(status: string) {
    status != "" && (status[0] == 'R' || status[0] == 'C')
  }

  /** Files from name-status tokens, without their numbers. */
  function Names(tokens: seq<string>): Option<seq<FileDiff>>
    decreases |tokens|
  {
    if tokens == [] then Some([])
    else if tokens[0] == "" || |tokens| < 2 then None
    else if IsMove(tokens[0]) then
      if |tokens| < 3 then None
      else
        match Names(tokens[3..])
        case None => None
        case Some(more) => Some([FileDiff(tokens[2], tokens[1], tokens[0], 0, 0, false, false)] + more)
    else
      match Names(tokens[2..])
      case None => None
      case Some(more) => Some([FileDiff(tokens[1], "", tokens[0], 0, 0, false, false)] + more)
  }

  datatype Fields = Malformed | Fields(first: string, second: string, rest: string)

  /** At most three pieces: the last one keeps its own tabs. */
  function SplitTabs(token: string): Fields {
    var i := IndexOf(token, '\t');
    if i < 0 then Malformed
    else
      var tail := token[i + 1..];
      var j := IndexOf(tail, '\t');
      if j < 0 then Malformed else Fields(token[..i], tail[..j], tail[j + 1..])
  }

  function StatOf(f: Fields): Option<Stat>
    requires f.Fields?
  {
    if f.first == "-" || f.second == "-" then Some(Stat(0, 0, true))
    else if Atoi(f.first).None? || Atoi(f.second).None? then None
    else Some(Stat(Atoi(f.first).value, Atoi(f.second).value, false))
  }

  /** The statistics by path; a moved file's two paths follow as tokens of their own. */
  function Numbers(tokens: seq<string>, stats: map<string, Stat>): Option<map<string, Stat>>
    decreases |tokens|
  {
    if tokens == [] then Some(stats)
    else
      var f := SplitTabs(tokens[0]);
      if f.Malformed? || StatOf(f).None? then None
      else if f.rest != "" then Numbers(tokens[1..], stats[f.rest := StatOf(f).value])
      else if |tokens| < 3 then None
      else Numbers(tokens[3..], stats[tokens[2] := StatOf(f).value])
  }

  function Counted(f: FileDiff, stats: map<string, Stat>): FileDiff {
    if f.path in stats
    then f.(additions := stats[f.path].additions, deletions := stats[f.path].deletions, binary := stats[f.path].binary)
    else f
  }

  function Parsed(names: string, numbers: string): Option<seq<FileDiff>> {
    match Names(Tokens(names))
    case None => None
    case Some(files) =>
      match Numbers(Tokens(numbers), map[])
      case None => None
      case Some(stats) => Some(seq(|files|, k requires 0 <= k < |files| => Counted(files[k], stats)))
  }

  // ---------- what Git writes ----------

  function NameTokens(f: FileDiff): seq<string> {
    if IsMove(f.status) then [f.status, f.oldPath, f.path] else [f.status, f.path]
  }

  function Count(n: int, binary: bool): string
    requires n >= 0
  {
    if binary then "-" else Decimal(n)
  }

  function NumberTokens(f: FileDiff): seq<string>
    requires f.additions >= 0 && f.deletions >= 0
  {
    var head := Count(f.additions, f.binary) + "\t" + Count(f.deletions, f.binary) + "\t";
    if IsMove(f.status) then [head, f.oldPath, f.path] else [head + f.path]
  }

  /** A change Git can report: paths may contain spaces and tabs, but no NUL. */
  predicate IsChange(f: FileDiff) {
    && f.status != "" && !HasNul(f.status) && f.path != "" && !HasNul(f.path) && !HasNul(f.oldPath)
    && (IsMove(f.status) <==> f.oldPath != "")
    && 0 <= f.additions < INT64_LIMIT && 0 <= f.deletions < INT64_LIMIT
    && (f.binary ==> f.additions == 0 && f.deletions == 0) && !f.untracked
  }

  predicate AreChanges(files: seq<FileDiff>) {
    forall k :: 0 <= k < |files| ==> IsChange(files[k])
  }

  predicate DistinctPaths(files: seq<FileDiff>) {
    forall i, j :: 0 <= i < j < |files| ==> files[i].path != files[j].path
  }

  function AllNames(files: seq<FileDiff>): seq<string> {
    if files == [] then [] else NameTokens(files[0]) + AllNames(files[1..])
  }

  function AllNumbers(files: seq<FileDiff>): seq<string>
    requires AreChanges(files)
  {
    if files == [] then [] else NumberTokens(files[0]) + AllNumbers(files[1..])
  }

  function NameStatus(files: seq<FileDiff>): string {
    Terminated(AllNames(files))
  }

  function NumStat(files: seq<FileDiff>): string
    requires AreChanges(files)
  {
    Terminated(AllNumbers(files))
  }

  // ---------- reading back ----------

  function Bare(f: FileDiff): FileDiff {
    FileDiff(f.path, f.oldPath, f.status, 0, 0, false, false)
  }

  function AllBare(files: seq<FileDiff>): seq<FileDiff> {
    seq(|files|, k requires 0 <= k < |files| => Bare(files[k]))
  }

  lemma NamesStep(f: FileDiff, more: seq<string>)
    requires IsChange(f)
    ensures Names(NameTokens(f) + more) == match Names(more) case None => None case Some(files) => Some([Bare(f)] + files)
  {
    var tokens := NameTokens(f) + more;
    assert tokens[|NameTokens(f)|..] == more;
  }

  lemma {:induction false} NamesReadBack(files: seq<FileDiff>)
    requires AreChanges(files)
    ensures Names(AllNames(files)) == Some(AllBare(files))
  {
    if files == [] {
      assert AllBare(files) == [];
    } else {
      NamesReadBack(files[1..]);
      NamesStep(files[0], AllNames(files[1..]));
      hide NameTokens, Bare;
      assert AllBare(files) == [Bare(files[0])] + AllBare(files[1..]);
    }
  }

  predicate NoTab(s: string) {
    '\t' !in s
  }

  lemma {:induction false} DecimalNoTab(n: nat)
    ensures NoTab(Decimal(n)) && !HasNul(Decimal(n)) && Decimal(n) != "-" && Decimal(n) != ""
  {
    if n >= 10 {
      DecimalNoTab(n / 10);
    }
  }

  lemma CountFacts(n: int, binary: bool)
    requires 0 <= n < INT64_LIMIT
    ensures NoTab(Count(n, binary)) && !HasNul(Count(n, binary))
    ensures binary <==> Count(n, binary) == "-"
    ensures !binary ==> Atoi(Count(n, binary)) == Some(n)
  {
    DecimalNoTab(n);
    AtoiOfDecimal(n);
  }

  lemma SplitTabsOf(a: string, b: string, rest: string)
    requires NoTab(a) && NoTab(b)
    ensures SplitTabs(a + "\t" + b + "\t" + rest) == Fields(a, b, rest)
  {
    var tail := b + "\t" + rest;
    var token := a + "\t" + b + "\t" + rest;
    assert token == a + ['\t'] + tail && tail == b + ['\t'] + rest;
    IndexOfFirst(a, tail, '\t');
    IndexOfFirst(b, rest, '\t');
    assert token[|a| + 1..] == tail && token[..|a|] == a && tail[..|b|] == b && tail[|b| + 1..] == rest;
  }

  function StatFor(f: FileDiff): Stat {
    Stat(f.additions, f.deletions, f.binary)
  }

  lemma FieldsReadBack(f: FileDiff)
    requires IsChange(f)
    ensures var token := NumberTokens(f)[0];
      var fields := SplitTabs(token);
      fields.Fields? && StatOf(fields) == Some(StatFor(f)) && fields.rest == if IsMove(f.status) then "" else f.path
  {
    CountFacts(f.additions, f.binary);
    CountFacts(f.deletions, f.binary);
    hide Count, Atoi;
    var a, b := Count(f.additions, f.binary), Count(f.deletions, f.binary);
    var rest := if IsMove(f.status) then "" else f.path;
    SplitTabsOf(a, b, rest);
    assert NumberTokens(f)[0] == a + "\t" + b + "\t" + rest;
  }

  /** The statistics after reading the given files on top of others. */
  function StatsWith(files: seq<FileDiff>, stats: map<string, Stat>): map<string, Stat> {
    if files == [] then stats else StatsWith(files[1..], stats[files[0].path := StatFor(files[0])])
  }

  lemma {:induction false} NumbersReadBack(files: seq<FileDiff>, stats: map<string, Stat>)
    requires AreChanges(files)
    ensures Numbers(AllNumbers(files), stats) == Some(StatsWith(files, stats))
    decreases |files|
  {
    if files != [] {
      var f := files[0];
      FieldsReadBack(f);
      NumbersReadBack(files[1..], stats[f.path := StatFor(f)]);
      var tokens := AllNumbers(files);
      assert tokens[|NumberTokens(f)|..] == AllNumbers(files[1..]);
      assert tokens[0] == NumberTokens(f)[0];
      hide SplitTabs, StatOf, Count;
    }
  }

  lemma {:induction false} StatsKept(files: seq<FileDiff>, stats: map<string, Stat>, path: string)
    requires path in stats && forall k :: 0 <= k < |files| ==> files[k].path != path
    ensures path in StatsWith(files, stats) && StatsWith(files, stats)[path] == stats[path]
    decreases |files|
  {
    if files != [] {
      StatsKept(files[1..], stats[files[0].path := StatFor(files[0])], path);
    }
  }

  lemma {:induction false} StatsAt(files: seq<FileDiff>, stats: map<string, Stat>, k: nat)
    requires DistinctPaths(files) && k < |files|
    ensures files[k].path in StatsWith(files, stats) && StatsWith(files, stats)[files[k].path] == StatFor(files[k])
    decreases |files|
  {
    var more := stats[files[0].path := StatFor(files[0])];
    if k == 0 {
      StatsKept(files[1..], more, files[0].path);
    } else {
      StatsAt(files[1..], more, k - 1);
    }
  }

  lemma {:induction false} NamesAreTokens(files: seq<FileDiff>)
    requires AreChanges(files)
    ensures forall k :: 0 <= k < |AllNames(files)| ==> !HasNul(AllNames(files)[k])
  {
    if files != [] {
      NamesAreTokens(files[1..]);
    }
  }

  lemma NumberIsToken(f: FileDiff)
    requires IsChange(f)
    ensures forall k :: 0 <= k < |NumberTokens(f)| ==> !HasNul(NumberTokens(f)[k])
  {
    CountFacts(f.additions, f.binary);
    CountFacts(f.deletions, f.binary);
    hide Count;
  }

  lemma {:induction false} NumbersAreTokens(files: seq<FileDiff>)
    requires AreChanges(files)
    ensures forall k :: 0 <= k < |AllNumbers(files)| ==> !HasNul(AllNumbers(files)[k])
  {
    if files != [] {
      NumberIsToken(files[0]);
      NumbersAreTokens(files[1..]);
      hide NumberTokens, HasNul;
    }
  }

  /**
   * Round trip: any list of changes with distinct paths, with renames, copies, binary files and paths
   * with tabs or spaces, is read back exactly from what Git writes for it.
   */
  lemma DiffReadsBack(files: seq<FileDiff>)
    requires AreChanges(files) && DistinctPaths(files)
    ensures Parsed(NameStatus(files), NumStat(files)) == Some(files)
  {
    hide Names, Numbers, Tokens, HasNul, AllNames, AllNumbers, Terminated, StatsWith, IsChange;
    NamesAreTokens(files);
    NumbersAreTokens(files);
    TokensReadBack(AllNames(files));
    TokensReadBack(AllNumbers(files));
    NamesReadBack(files);
    NumbersReadBack(files, map[]);
    var stats := StatsWith(files, map[]);
    var r := Parsed(NameStatus(files), NumStat(files)).value;
    forall k | 0 <= k < |files| ensures r[k] == files[k] {
      StatsAt(files, map[], k);
      assert IsChange(files[k]);
      Restored(files[k], stats);
    }
    assert r == files;
  }

  lemma Restored(f: FileDiff, stats: map<string, Stat>)
    requires IsChange(f) && f.path in stats && stats[f.path] == StatFor(f)
    ensures Counted(Bare(f), stats) == f
  {
  }

  // ---------- the parsers as they run ----------

  /** Splits at the terminators and drops the empty piece after the last one. */
  method NulTokens(value: string) returns (tokens: seq<string>)
    ensures tokens == Tokens(value)
  {
    if value == "" {
      return [];
    }
    tokens := SplitAll(value);
    hide Split;
    if tokens[|tokens| - 1] == "" {
      tokens := tokens[..|tokens| - 1];
    }
  }

  method SplitAll(value: string) returns (pieces: seq<string>)
    ensures pieces == Split(value, NUL)
  {
    hide IndexOf, Split;
    pieces := [];
    var rest := value;
    var i := IndexOf(rest, NUL);
    while i >= 0
      invariant i == IndexOf(rest, NUL) && pieces + Split(rest, NUL) == Split(value, NUL)
      decreases |rest|
    {
      PieceMoves(pieces, rest);
      pieces := pieces + [rest[..i]];
      rest := rest[i + 1..];
      i := IndexOf(rest, NUL);
    }
    LastPiece(rest);
    pieces := pieces + [rest];
  }

  lemma LastPiece(rest: string)
    requires IndexOf(rest, NUL) < 0
    ensures Split(rest, NUL) == [rest]
  {
  }

  lemma PieceMoves(pieces: seq<string>, rest: string)
    requires IndexOf(rest, NUL) >= 0
    ensures var i := IndexOf(rest, NUL);
      (pieces + [rest[..i]]) + Split(rest[i + 1..], NUL) == pieces + Split(rest, NUL)
  {
    var i := IndexOf(rest, NUL);
    assert Split(rest, NUL) == [rest[..i]] + Split(rest[i + 1..], NUL);
    hide Split, IndexOf;
    Associative(pieces, [rest[..i]], Split(rest[i + 1..], NUL));
  }

  /** `files` are those read from the tokens before `index`. */
  ghost predicate NamesSoFar(tokens: seq<string>, index: nat, files: seq<FileDiff>) {
    index <= |tokens| &&
    match Names(tokens[index..])
    case None => Names(tokens).None?
    case Some(more) => Names(tokens) == Some(files + more)
  }

  method ParseNames(tokens: seq<string>) returns (r: Option<seq<FileDiff>>)
    ensures r == Names(tokens)
  {
    var files := [];
    var index := 0;
    NamesStart(tokens);
    while index < |tokens|
      invariant NamesSoFar(tokens, index, files)
    {
      ghost var rest := tokens[index..];
      var status := tokens[index];
      if status == "" || index + 1 >= |tokens| {
        return None;
      }
      if IsMove(status) {
        if index + 2 >= |tokens| {
          return None;
        }
        NamesMoves(tokens, index, files, 3);
        files := files + [FileDiff(tokens[index + 2], tokens[index + 1], status, 0, 0, false, false)];
        index := index + 3;
      } else {
        NamesMoves(tokens, index, files, 2);
        files := files + [FileDiff(tokens[index + 1], "", status, 0, 0, false, false)];
        index := index + 2;
      }
    }
    assert tokens[index..] == [] && files + [] == files;
    r := Some(files);
  }

  lemma NamesStart(tokens: seq<string>)
    ensures NamesSoFar(tokens, 0, [])
  {
    assert tokens[0..] == tokens;
    if Names(tokens).Some? {
      assert [] + Names(tokens).value == Names(tokens).value;
    }
  }

  lemma NamesMoves(tokens: seq<string>, index: nat, files: seq<FileDiff>, width: nat)
    requires NamesSoFar(tokens, index, files) && index + width <= |tokens| && 0 < width && tokens[index] != ""
    requires width == if IsMove(tokens[index]) then 3 else 2
    ensures var f := if IsMove(tokens[index]) then FileDiff(tokens[index + 2], tokens[index + 1], tokens[index], 0, 0, false, false)
                     else FileDiff(tokens[index + 1], "", tokens[index], 0, 0, false, false);
      NamesSoFar(tokens, index + width, files + [f])
  {
    var rest := tokens[index..];
    assert rest[width..] == tokens[index + width..];
    var f := if IsMove(tokens[index]) then FileDiff(tokens[index + 2], tokens[index + 1], tokens[index], 0, 0, false, false)
             else FileDiff(tokens[index + 1], "", tokens[index], 0, 0, false, false);
    NamesOnce(rest, width, f);
    hide Names, IsMove;
    if Names(rest[width..]).Some? {
      Associative(files, [f], Names(rest[width..]).value);
    }
  }

  lemma NamesOnce(tokens: seq<string>, width: nat, f: FileDiff)
    requires tokens != [] && tokens[0] != "" && width <= |tokens| && width == if IsMove(tokens[0]) then 3 else 2
    requires f == if IsMove(tokens[0]) then FileDiff(tokens[2], tokens[1], tokens[0], 0, 0, false, false)
                  else FileDiff(tokens[1], "", tokens[0], 0, 0, false, false)
    ensures Names(tokens) == match Names(tokens[width..]) case None => None case Some(more) => Some([f] + more)
  {
  }

  method ParseNumbers(tokens: seq<string>) returns (r: Option<map<string, Stat>>)
    ensures r == Numbers(tokens, map[])
  {
    var stats := map[];
    var index := 0;
    assert tokens[0..] == tokens;
    while index < |tokens|
      invariant index <= |tokens| && Numbers(tokens[index..], stats) == Numbers(tokens, map[])
      decreases |tokens| - index
    {
      ghost var rest := tokens[index..];
      assert rest[0] == tokens[index] && rest[1..] == tokens[index + 1..];
      hide SplitTabs, StatOf;
      var fields := SplitTabs(tokens[index]);
      if fields.Malformed? {
        return None;
      }
      var stat := StatOf(fields);
      if stat.None? {
        return None;
      }
      var path := fields.rest;
      if path == "" {
        if index + 2 >= |tokens| {
          return None;
        }
        assert rest[3..] == tokens[index + 3..] && rest[2] == tokens[index + 2];
        path := tokens[index + 2];
        index := index + 2;
      }
      stats := stats[path := stat.value];
      index := index + 1;
    }
    assert tokens[index..] == [];
    r := Some(stats);
  }

  method ParseStructuredDiff(names: string, numbers: string) returns (r: Option<seq<FileDiff>>)
    ensures r == Parsed(names, numbers)
    ensures forall files :: AreChanges(files) && DistinctPaths(files) && names == NameStatus(files) && numbers == NumStat(files) ==> r == Some(files)
  {
    hide Names, Numbers, Tokens;
    forall files | AreChanges(files) && DistinctPaths(files) && names == NameStatus(files) && numbers == NumStat(files)
      ensures Parsed(names, numbers) == Some(files)
    {
      DiffReadsBack(files);
    }
    hide NameStatus, NumStat, AreChanges;
    var nameTokens := NulTokens(names);
    var parsed := ParseNames(nameTokens);
    if parsed.None? {
      return None;
    }
    var numberTokens := NulTokens(numbers);
    var stats := ParseNumbers(numberTokens);
    if stats.None? {
      return None;
    }
    var files := parsed.value;
    for k := 0 to |files|
      invariant |files| == |parsed.value|
      invariant forall j :: 0 <= j < k ==> files[j] == Counted(parsed.value[j], stats.value)
      invariant forall j :: k <= j < |files| ==> files[j] == parsed.value[j]
    {
      files := files[k := Counted(files[k], stats.value)];
    }
    r := Some(files);
    assert files == Parsed(names, numbers).value;
  }

  // ---------- totals ----------

  function SumAdditions(files: seq<FileDiff>): int {
    if files == [] then 0 else SumAdditions(files[..|files| - 1]) + files[|files| - 1].additions
  }

  function SumDeletions(files: seq<FileDiff>): int {
    if files == [] then 0 else SumDeletions(files[..|files| - 1]) + files[|files| - 1].deletions
  }

  datatype Totals = Totals(additions: int, deletions: int, binaries: nat, untracked: nat)

  function CountBinary(files: seq<FileDiff>): nat {
    if files == [] then 0 else CountBinary(files[..|files| - 1]) + if files[|files| - 1].binary then 1 else 0
  }

  function CountUntracked(files: seq<FileDiff>): nat {
    if files == [] then 0 else CountUntracked(files[..|files| - 1]) + if files[|files| - 1].untracked then 1 else 0
  }

  function Untracked(paths: seq<string>): seq<FileDiff> {
    seq(|paths|, k requires 0 <= k < |paths| => FileDiff(paths[k], "", "??", 0, 0, false, true))
  }

  /** Appends the untracked files, which carry no counts. */
  method WithUntracked(files: seq<FileDiff>, paths: seq<string>) returns (all: seq<FileDiff>)
    ensures all == files + Untracked(paths)
  {
    all := files;
    for k := 0 to |paths|
      invariant all == files + Untracked(paths)[..k]
    {
      all := all + [FileDiff(paths[k], "", "??", 0, 0, false, true)];
    }
  }

  method Total(files: seq<FileDiff>) returns (t: Totals)
    ensures t == Totals(SumAdditions(files), SumDeletions(files), CountBinary(files), CountUntracked(files))
  {
    t := Totals(0, 0, 0, 0);
    for k := 0 to |files|
      invariant t == Totals(SumAdditions(files[..k]), SumDeletions(files[..k]), CountBinary(files[..k]), CountUntracked(files[..k]))
    {
      assert files[..k + 1][..k] == files[..k];
      var f := files[k];
      t := Totals(t.additions + f.additions, t.deletions + f.deletions, t.binaries + if f.binary then 1 else 0, t.untracked + if f.untracked then 1 else 0);
    }
    assert files[..|files|] == files;
  }

  /** Untracked files raise no count but their own. */
  lemma {:induction false} UntrackedAddNothing(files: seq<FileDiff>, paths: seq<string>)
    requires forall k :: 0 <= k < |files| ==> !files[k].untracked
    ensures var all := files + Untracked(paths);
      && SumAdditions(all) == SumAdditions(files) && SumDeletions(all) == SumDeletions(files)
      && CountBinary(all) == CountBinary(files) && CountUntracked(all) == |paths|
  {
    var all := files + Untracked(paths);
    if paths == [] {
      assert all == files;
      NoneUntracked(files);
    } else {
      var n := |paths| - 1;
      UntrackedAddNothing(files, paths[..n]);
      assert all[..|all| - 1] == files + Untracked(paths[..n]) && all[|all| - 1] == Untracked(paths)[n];
    }
  }

  lemma {:induction false} NoneUntracked(files: seq<FileDiff>)
    requires forall k :: 0 <= k < |files| ==> !files[k].untracked
    ensures CountUntracked(files) == 0
  {
    if files != [] {
      NoneUntracked(files[..|files| - 1]);
    }
  }

  /** The answer for a worktree: the parsed changes and the untracked paths, and totals in which the latter count only as themselves. */
  method Complete(files: seq<FileDiff>, paths: seq<string>) returns (all: seq<FileDiff>, t: Totals)
    requires forall k :: 0 <= k < |files| ==> !files[k].untracked
    ensures |all| == |files| + |paths| && all[..|files|] == files
    ensures forall k :: 0 <= k < |paths| ==> all[|files| + k].path == paths[k] && all[|files| + k].untracked
    ensures t == Totals(SumAdditions(files), SumDeletions(files), CountBinary(files), |paths|)
  {
    all := WithUntracked(files, paths);
    UntrackedAddNothing(files, paths);
    t := Total(all);
  }

  // ---------- exactly what is accepted ----------

  /** A change as the names alone tell it: a status, an old path only for a move, and no counts. */
  predicate IsNamed(f: FileDiff) {
    f.status != "" && (!IsMove(f.status) ==> f.oldPath == "") && f == Bare(f)
  }

  lemma NamedStep(f: FileDiff, more: seq<string>)
    requires IsNamed(f)
    ensures Names(NameTokens(f) + more) == match Names(more) case None => None case Some(files) => Some([f] + files)
  {
    var tokens := NameTokens(f) + more;
    assert tokens[|NameTokens(f)|..] == more;
  }

  predicate AllNamed(files: seq<FileDiff>) {
    forall k :: 0 <= k < |files| ==> IsNamed(files[k])
  }

  /** The first change of accepted tokens. */
  lemma FirstNamed(tokens: seq<string>, files: seq<FileDiff>) returns (more: seq<string>)
    requires tokens != [] && Names(tokens) == Some(files)
    ensures files != [] && IsNamed(files[0]) && tokens == NameTokens(files[0]) + more && |more| < |tokens| && Names(more) == Some(files[1..])
  {
    if IsMove(tokens[0]) {
      more := tokens[3..];
      assert tokens == [tokens[0], tokens[1], tokens[2]] + more;
    } else {
      more := tokens[2..];
      assert tokens == [tokens[0], tokens[1]] + more;
    }
  }

  lemma {:induction false} NamesFound(tokens: seq<string>, files: seq<FileDiff>)
    requires Names(tokens) == Some(files)
    ensures AllNamed(files) && tokens == AllNames(files)
    decreases |tokens|
  {
    if tokens != [] {
      var more := FirstNamed(tokens, files);
      NamesFound(more, files[1..]);
      hide Names, IsNamed, NameTokens;
      forall k | 0 <= k < |files| ensures IsNamed(files[k]) {
        assert k > 0 ==> files[k] == files[1..][k - 1];
      }
    }
  }

  lemma {:induction false} NamesAccepted(files: seq<FileDiff>)
    requires AllNamed(files)
    ensures Names(AllNames(files)) == Some(files)
  {
    if files != [] {
      hide Names, IsNamed, NameTokens;
      NamesAccepted(files[1..]);
      NamedStep(files[0], AllNames(files[1..]));
      assert [files[0]] + files[1..] == files;
    }
  }

  /** Name tokens are read as exactly the changes whose printed names they are, and refused when there are none. */
  lemma NamesExactly(tokens: seq<string>, files: seq<FileDiff>)
    ensures Names(tokens) == Some(files) <==> AllNamed(files) && tokens == AllNames(files)
  {
    hide Names, AllNames, AllNamed;
    if Names(tokens) == Some(files) {
      NamesFound(tokens, files);
    }
    if AllNamed(files) {
      NamesAccepted(files);
    }
  }

  /** One line of statistics: two columns and a path, or for a move an empty path followed by the old and the new one. */
  datatype Line = Line(first: string, second: string, moved: bool, oldPath: string, path: string)

  /** The columns hold no tab and are two numbers, unless one of them marks a binary file; only a move has an old path. */
  predicate IsStatistic(x: Line) {
    && NoTab(x.first) && NoTab(x.second) && (!x.moved ==> x.oldPath == "" && x.path != "")
    && (x.first == "-" || x.second == "-" || (Atoi(x.first).Some? && Atoi(x.second).Some?))
  }

  function LineTokens(x: Line): seq<string> {
    var head := x.first + "\t" + x.second + "\t";
    if x.moved then [head, x.oldPath, x.path] else [head + x.path]
  }

  function AllLines(xs: seq<Line>): seq<string> {
    if xs == [] then [] else LineTokens(xs[0]) + AllLines(xs[1..])
  }

  /** The statistics of a line; a binary file counts nothing. */
  function StatOfLine(x: Line): Stat
    requires IsStatistic(x)
  {
    if x.first == "-" || x.second == "-" then Stat(0, 0, true) else Stat(Atoi(x.first).value, Atoi(x.second).value, false)
  }

  predicate AllStatistics(xs: seq<Line>) {
    forall k :: 0 <= k < |xs| ==> IsStatistic(xs[k])
  }

  /** By path, the last line of a path counting. */
  function Recorded(xs: seq<Line>, stats: map<string, Stat>): map<string, Stat>
    requires AllStatistics(xs)
  {
    if xs == [] then stats else Recorded(xs[1..], stats[xs[0].path := StatOfLine(xs[0])])
  }

  lemma CutAt(s: string, i: nat)
    requires i < |s| && s[i] == '\t'
    ensures s == s[..i] + "\t" + s[i + 1..]
  {
  }

  lemma TabsExactly(token: string)
    ensures var f := SplitTabs(token);
      f.Fields? ==> NoTab(f.first) && NoTab(f.second) && token == f.first + "\t" + f.second + "\t" + f.rest
  {
    var i := IndexOf(token, '\t');
    if i >= 0 {
      var tail := token[i + 1..];
      var j := IndexOf(tail, '\t');
      hide IndexOf;
      CutAt(token, i);
      if j >= 0 {
        CutAt(tail, j);
        Associative(token[..i] + "\t", tail[..j] + "\t", tail[j + 1..]);
        Associative(token[..i] + "\t", tail[..j], "\t");
      }
    }
  }

  lemma LineStep(x: Line, more: seq<string>, stats: map<string, Stat>)
    requires IsStatistic(x)
    ensures Numbers(LineTokens(x) + more, stats) == Numbers(more, stats[x.path := StatOfLine(x)])
  {
    hide SplitTabs, IndexOf, Atoi, Numbers;
    var tokens, head := LineTokens(x) + more, x.first + "\t" + x.second + "\t";
    var rest := if x.moved then "" else x.path;
    SplitTabsOf(x.first, x.second, rest);
    assert head + "" == head;
    assert tokens[0] == head + rest && tokens[|LineTokens(x)|..] == more;
    NumbersStep(tokens, stats);
  }

  lemma NumbersStep(tokens: seq<string>, stats: map<string, Stat>)
    requires tokens != [] && SplitTabs(tokens[0]).Fields? && StatOf(SplitTabs(tokens[0])).Some?
    ensures var f := SplitTabs(tokens[0]);
      Numbers(tokens, stats) ==
        if f.rest != "" then Numbers(tokens[1..], stats[f.rest := StatOf(f).value])
        else if |tokens| < 3 then None else Numbers(tokens[3..], stats[tokens[2] := StatOf(f).value])
  {
    hide SplitTabs, StatOf;
  }

  lemma NumbersFirst(tokens: seq<string>, stats: map<string, Stat>)
    requires tokens != [] && Numbers(tokens, stats).Some?
    ensures SplitTabs(tokens[0]).Fields? && StatOf(SplitTabs(tokens[0])).Some? && (SplitTabs(tokens[0]).rest == "" ==> |tokens| >= 3)
  {
    hide SplitTabs, StatOf;
  }

  /** The first line of accepted tokens. */
  lemma FirstLine(tokens: seq<string>, stats: map<string, Stat>) returns (x: Line, more: seq<string>)
    requires tokens != [] && Numbers(tokens, stats).Some?
    ensures IsStatistic(x) && tokens == LineTokens(x) + more && |more| < |tokens|
  {
    hide SplitTabs, IndexOf, Numbers, Atoi;
    var f := SplitTabs(tokens[0]);
    NumbersFirst(tokens, stats);
    TabsExactly(tokens[0]);
    var head := f.first + "\t" + f.second + "\t";
    if f.rest != "" {
      x, more := Line(f.first, f.second, false, "", f.rest), tokens[1..];
      assert tokens == [tokens[0]] + more && LineTokens(x) == [head + f.rest];
    } else {
      assert tokens[0] == head + "" == head;
      x, more := Line(f.first, f.second, true, tokens[1], tokens[2]), tokens[3..];
      assert tokens == [tokens[0], tokens[1], tokens[2]] + more;
    }
  }

  /** Accepted tokens are lines of statistics. */
  lemma {:induction false} LinesFound(tokens: seq<string>, stats: map<string, Stat>) returns (xs: seq<Line>)
    ensures Numbers(tokens, stats).Some? ==>
      AllStatistics(xs) && tokens == AllLines(xs) && Numbers(tokens, stats).value == Recorded(xs, stats)
    decreases |tokens|
  {
    xs := [];
    if tokens != [] && Numbers(tokens, stats).Some? {
      var x, more := FirstLine(tokens, stats);
      LineStep(x, more, stats);
      var rest := LinesFound(more, stats[x.path := StatOfLine(x)]);
      xs := [x] + rest;
      assert xs[1..] == rest;
      hide Numbers, LineTokens, IsStatistic, StatOfLine;
    }
  }

  /** All lines of statistics are accepted. */
  lemma {:induction false} LinesAccepted(xs: seq<Line>, stats: map<string, Stat>)
    requires AllStatistics(xs)
    ensures Numbers(AllLines(xs), stats) == Some(Recorded(xs, stats))
  {
    if xs != [] {
      hide Numbers, LineTokens, IsStatistic, StatOfLine;
      LineStep(xs[0], AllLines(xs[1..]), stats);
      LinesAccepted(xs[1..], stats[xs[0].path := StatOfLine(xs[0])]);
    } else {
    }
  }

  /** Statistic tokens are accepted exactly when they are lines of statistics, and then recorded by path. */
  lemma NumbersExactly(tokens: seq<string>, stats: map<string, Stat>, r: map<string, Stat>)
    ensures Numbers(tokens, stats) == Some(r) <==> exists xs :: AllStatistics(xs) && tokens == AllLines(xs) && r == Recorded(xs, stats)
  {
    hide Numbers, AllLines, AllStatistics, Recorded;
    if Numbers(tokens, stats) == Some(r) {
      var xs := LinesFound(tokens, stats);
    }
    if xs :| AllStatistics(xs) && tokens == AllLines(xs) && r == Recorded(xs, stats) {
      LinesAccepted(xs, stats);
    }
  }
}
