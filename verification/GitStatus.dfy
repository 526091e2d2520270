/**
 Reading the output of git status in its second porcelain format.  Lines end where Python's
 splitlines ends them, which is at more places than a newline.
 */
module GitStatus {
  import opened Prelude
  import opened Text

  // -------------------------------------------------------------------- lines

  /** The characters at which str.splitlines breaks. */
  predicate IsBreak(ch: char) {
    ch in {'\n', '\r', '\U{0B}', '\U{0C}', '\U{1C}', '\U{1D}', '\U{1E}', '\U{85}', '\U{2028}', '\U{2029}'}
  }

  predicate OneLine(s: string) {
    forall k | 0 <= k < |s| :: !IsBreak(s[k])
  }

  /** The text up to the first break. */
  function Line(s: string): (line: string)
    ensures line <= s && OneLine(line) && (|line| < |s| ==> IsBreak(s[|line|]))
  {
    if s == "" || IsBreak(s[0]) then "" else [s[0]] + Line(s[1..])
  }

  /** How long the break is: a carriage return and a newline count as one. */
  function BreakLength(s: string): (n: nat)
    requires s != ""
    ensures 0 < n <= |s|
  {
    if |s| > 1 && s[0] == '\r' && s[1] == '\n' then 2 else 1
  }

  function SplitLines(s: string): (lines: seq<string>)
    ensures forall k | 0 <= k < |lines| :: OneLine(lines[k])
    decreases |s|
  {
    if s == "" then []
    else
      var line := Line(s);
      var rest := s[|line|..];
      [line] + if rest == "" then [] else SplitLines(rest[BreakLength(rest)..])
  }

  /** The characters that end a line for Python's splitlines. */
  lemma BreaksAre(c: char)
    ensures SplitLines("a" + ([c] + "b")) == ["a", "b"]
       <==> c == '\n' || c == '\r' || c == '\U{0B}' || c == '\U{0C}' || c == '\U{1C}' || c == '\U{1D}' || c == '\U{1E}'
            || c == '\U{85}' || c == '\U{2028}' || c == '\U{2029}'
    ensures SplitLines("a" + ("\r\n" + "b")) == ["a", "b"]
  {
    var s, t := "a" + ([c] + "b"), "a" + ("\r\n" + "b");
    LastLine("b");
    LineIs("a", "\r\n" + "b");
    assert t[1..] == "\r\n" + "b" && t[1..][2..] == "b";
    if IsBreak(c) {
      LineIs("a", [c] + "b");
      assert s[1..] == [c] + "b" && s[1..][1..] == "b";
    } else {
      LastLine(s);
    }
  }

  lemma LastLine(s: string)
    requires s != "" && OneLine(s)
    ensures SplitLines(s) == [s]
  {
    LineIs(s, "");
    assert s + "" == s;
  }

  lemma {:induction false} LineIs(line: string, rest: string)
    requires OneLine(line) && (rest == "" || IsBreak(rest[0]))
    ensures Line(line + rest) == line
  {
    if line == "" {
      assert line + rest == rest;
    } else {
      assert (line + rest)[1..] == line[1..] + rest;
      LineIs(line[1..], rest);
    }
  }

  lemma FirstLine(line: string, rest: string)
    requires OneLine(line)
    ensures SplitLines(line + ("\n" + rest)) == [line] + SplitLines(rest)
  {
    hide Line;
    var s := line + ("\n" + rest);
    LineIs(line, "\n" + rest);
    assert s[|line|..] == "\n" + rest;
    assert ("\n" + rest)[1..] == rest;
  }

  /** The lines, each with a newline behind it. */
  function Joined(lines: seq<string>): string {
    if lines == [] then "" else lines[0] + ("\n" + Joined(lines[1..]))
  }

  lemma {:induction false} SplitJoined(lines: seq<string>)
    requires forall k | 0 <= k < |lines| :: OneLine(lines[k])
    ensures SplitLines(Joined(lines)) == lines
  {
    hide IsBreak;
    if lines != [] {
      FirstLine(lines[0], Joined(lines[1..]));
      SplitJoined(lines[1..]);
    }
  }

  // ------------------------------------------------------------------- reading

  const AHEAD_BEHIND := "# branch.ab "
  const BRANCH := "# branch.head "
  const COMMIT := "# branch.oid "

  datatype Report = Report(clean: bool, ahead: int, behind: int, branch: string, commit: string)

  const START := Report(true, 0, 0, "", "")

  /** Python's int, on a sign and decimal digits. */
  function ParseInt(s: string): Option<int> {
    var sign := s != "" && (s[0] == '-' || s[0] == '+');
    var digits := if sign then s[1..] else s;
    if digits == "" || !Digits(digits) then None
    else Some(if sign && s[0] == '-' then -(DigitsValue(digits) as int) else DigitsValue(digits))
  }

  /** Python's split at single blanks. */
  function Words(s: string): (words: seq<string>)
    ensures words != []
  {
    if s == "" then [""]
    else
      var rest := Words(s[1..]);
      if s[0] == ' ' then [""] + rest else [[s[0]] + rest[0]] + rest[1..]
  }

  function Tail(s: string): string {
    if s == "" then "" else s[1..]
  }

  /** The two counts, each behind its sign; anything else raises ValueError. */
  function Counts(s: string): Option<(int, int)> {
    var words := Words(s);
    if |words| != 2 then None
    else
      match (ParseInt(Tail(words[0])), ParseInt(Tail(words[1])))
      case (Some(ahead), Some(behind)) => Some((ahead, behind))
      case _ => None
  }

  function ReadLine(r: Report, line: string): Option<Report> {
    if line == "" then Some(r)
    else if AHEAD_BEHIND <= line then
      match Counts(line[|AHEAD_BEHIND|..])
      case None => None
      case Some(counts) => Some(r.(ahead := counts.0, behind := counts.1))
    else if BRANCH <= line then Some(r.(branch := line[|BRANCH|..]))
    else if COMMIT <= line then Some(r.(commit := line[|COMMIT|..]))
    else if line[0] == '1' || line[0] == '2' || line[0] == '?' then Some(r.(clean := false))
    else Some(r)
  }

  function ReadLines(r: Report, lines: seq<string>): Option<Report>
    decreases |lines|
  {
    if lines == [] then Some(r)
    else
      match ReadLine(r, lines[0])
      case None => None
      case Some(r') => ReadLines(r', lines[1..])
  }

  lemma {:induction false} ReadSnoc(r: Report, lines: seq<string>, line: string)
    ensures ReadLines(r, lines + [line])
      == match ReadLines(r, lines) case None => None case Some(r') => ReadLine(r', line)
    decreases |lines|
  {
    hide ReadLine;
    if lines == [] {
      assert [line][1..] == [];
      assert lines + [line] == [line];
    } else {
      assert (lines + [line])[1..] == lines[1..] + [line];
      match ReadLine(r, lines[0])
      case None =>
      case Some(r') => ReadSnoc(r', lines[1..], line);
    }
  }

  lemma {:induction false} ReadThen(r: Report, a: seq<string>, b: seq<string>)
    ensures ReadLines(r, a + b) == match ReadLines(r, a) case None => None case Some(r') => ReadLines(r', b)
    decreases |a|
  {
    hide ReadLine;
    if a == [] {
      assert a + b == b;
    } else {
      assert (a + b)[1..] == a[1..] + b;
      match ReadLine(r, a[0])
      case None =>
      case Some(r') => ReadThen(r', a[1..], b);
    }
  }

  lemma ReadTwo(r: Report, a: string, b: string, r1: Report, r2: Report)
    requires ReadLine(r, a) == Some(r1) && ReadLine(r1, b) == Some(r2)
    ensures ReadLines(r, [a, b]) == Some(r2)
  {
    hide ReadLine;
    assert [a, b][1..] == [b];
    assert ReadLines(r1, [b]) == Some(r2);
  }

  lemma NothingRead()
    ensures ReadLines(START, []) == Some(START)
  {
  }

  lemma ReadNext(lines: seq<string>, k: nat, before: Report)
    requires k < |lines| && ReadLines(START, lines[..k]) == Some(before)
    ensures ReadLines(START, lines[..k + 1]) == ReadLine(before, lines[k])
    ensures ReadLine(before, lines[k]).None? ==> ReadLines(START, lines).None?
  {
    hide ReadLine;
    assert lines[..k + 1] == lines[..k] + [lines[k]];
    ReadSnoc(START, lines[..k], lines[k]);
    assert lines == lines[..k] + lines[k..];
    ReadThen(START, lines[..k], lines[k..]);
  }

  /** The parser as it runs, with None for a ValueError. */
  method Status(output: string) returns (r: Option<Report>)
    ensures r == ReadLines(START, SplitLines(output))
  {
    hide SplitLines, ReadLines, Counts;
    var clean, ahead, behind, branch, commit := true, 0, 0, "", "";
    var lines := SplitLines(output);
    NothingRead();
    for k := 0 to |lines|
      invariant ReadLines(START, lines[..k]) == Some(Report(clean, ahead, behind, branch, commit))
    {
      var line := lines[k];
      ReadNext(lines, k, Report(clean, ahead, behind, branch, commit));
      if |line| == 0 {
        continue;
      }
      if AHEAD_BEHIND <= line {
        var counts := Counts(line[|AHEAD_BEHIND|..]);
        if counts.None? {
          return None;
        }
        ahead, behind := counts.value.0, counts.value.1;
      } else if BRANCH <= line {
        branch := line[|BRANCH|..];
      } else if COMMIT <= line {
        commit := line[|COMMIT|..];
      } else if line[0] == '1' || line[0] == '2' || line[0] == '?' {
        clean := false;
      }
    }
    assert lines[..|lines|] == lines;
    return Some(Report(clean, ahead, behind, branch, commit));
  }

  // ----------------------------------------------------------------- rendering

  datatype Kind = Changed | Renamed | Untracked | Unmerged | Ignored

  /** An entry, with what git writes behind its first two characters. */
  datatype Entry = Entry(kind: Kind, detail: string)

  /** An upstream, with counts unless the upstream is gone. */
  datatype Upstream = Upstream(name: string, counts: Option<(nat, nat)>)

  datatype Repository = Repository(commit: string, branch: string, upstream: Option<Upstream>, entries: seq<Entry>)

  function EntryLine(e: Entry): string {
    (match e.kind
     case Changed => "1 "
     case Renamed => "2 "
     case Untracked => "? "
     case Unmerged => "u "
     case Ignored => "! ") + e.detail
  }

  function UpstreamLines(u: Option<Upstream>): seq<string> {
    if u.None? then []
    else
      ["# branch.upstream " + u.value.name]
      + match u.value.counts
        case None => []
        case Some(counts) => ["# branch.ab " + ("+" + (Decimal(counts.0) + (" -" + Decimal(counts.1))))]
  }

  function EntryLines(entries: seq<Entry>): seq<string> {
    if entries == [] then [] else [EntryLine(entries[0])] + EntryLines(entries[1..])
  }

  function Lines(repo: Repository): seq<string> {
    ["# branch.oid " + repo.commit, "# branch.head " + repo.branch] + UpstreamLines(repo.upstream)
      + EntryLines(repo.entries)
  }

  /** What git status --porcelain=v2 --branch prints. */
  function Render(repo: Repository): string {
    Joined(Lines(repo))
  }

  /** The kinds of entries that the parser notices. */
  predicate Noticed(kind: Kind) {
    kind.Changed? || kind.Renamed? || kind.Untracked?
  }

  ghost predicate AnyNoticed(entries: seq<Entry>) {
    exists k | 0 <= k < |entries| :: Noticed(entries[k].kind)
  }

  ghost function CountsOf(repo: Repository): (nat, nat) {
    if repo.upstream.Some? && repo.upstream.value.counts.Some? then repo.upstream.value.counts.value else (0, 0)
  }

  /** What should be read from the repository. */
  ghost function Expected(repo: Repository): Report {
    Report(!AnyNoticed(repo.entries), CountsOf(repo).0, CountsOf(repo).1, repo.branch, repo.commit)
  }

  /** No text but that of the branch has a line break in it. */
  ghost predicate Clean(repo: Repository) {
    && OneLine(repo.commit)
    && (repo.upstream.Some? ==> OneLine(repo.upstream.value.name))
    && (forall k | 0 <= k < |repo.entries| :: OneLine(repo.entries[k].detail))
  }

  lemma ReadHeaders(r: Report, text: string)
    ensures ReadLine(r, "# branch.oid " + text) == Some(r.(commit := text))
    ensures ReadLine(r, "# branch.head " + text) == Some(r.(branch := text))
    ensures ReadLine(r, "# branch.upstream " + text) == Some(r)
  {
    var c, b, u := COMMIT + text, BRANCH + text, "# branch.upstream " + text;
    assert c[9] == 'o' && b[9] == 'h' && u[9] == 'u' && u[0] == '#';
    assert c[|COMMIT|..] == text && b[|BRANCH|..] == text;
  }

  lemma {:induction false} OneWord(b: string)
    requires ' ' !in b
    ensures Words(b) == [b]
  {
    if b != "" {
      OneWord(b[1..]);
      assert [b[0]] + b[1..] == b;
    }
  }

  lemma {:induction false} WordsOf(a: string, b: string)
    requires ' ' !in a && ' ' !in b
    ensures Words(a + (" " + b)) == [a, b]
    decreases |a|
  {
    var s := a + (" " + b);
    if a == "" {
      OneWord(b);
      assert s == " " + b && s[1..] == b;
    } else {
      WordsOf(a[1..], b);
      assert s[0] == a[0] && s[1..] == a[1..] + (" " + b);
      assert [a[0]] + a[1..] == a;
    }
  }

  lemma ParseSigned(sign: char, n: nat)
    ensures ' ' !in Decimal(n) && (sign != ' ' ==> ' ' !in [sign] + Decimal(n))
    ensures Tail([sign] + Decimal(n)) == Decimal(n) && ParseInt(Decimal(n)) == Some(n)
    ensures ParseInt("+" + Decimal(n)) == Some(n) && ParseInt("-" + Decimal(n)) == Some(0 - n)
  {
    DecimalValue(n);
    assert IsDigit(Decimal(n)[0]);
    assert ("+" + Decimal(n))[1..] == Decimal(n) && ("-" + Decimal(n))[1..] == Decimal(n);
  }

  lemma CountsRead(ahead: nat, behind: nat)
    ensures Counts("+" + (Decimal(ahead) + (" -" + Decimal(behind)))) == Some((ahead, behind))
  {
    hide Words, Decimal, ParseInt, Tail;
    var a, b := ['+'] + Decimal(ahead), ['-'] + Decimal(behind);
    assert "+" + (Decimal(ahead) + (" -" + Decimal(behind))) == a + (" " + b);
    ParseSigned('+', ahead);
    ParseSigned('-', behind);
    WordsOf(a, b);
  }

  lemma ReadUpstream(r: Report, repo: Repository)
    requires r.ahead == 0 && r.behind == 0
    ensures ReadLines(r, UpstreamLines(repo.upstream))
      == Some(r.(ahead := CountsOf(repo).0, behind := CountsOf(repo).1))
  {
    hide Counts, Decimal;
    if repo.upstream.Some? {
      var u := repo.upstream.value;
      ReadHeaders(r, u.name);
      assert UpstreamLines(repo.upstream)[0] == "# branch.upstream " + u.name;
      if u.counts.Some? {
        var (ahead, behind) := u.counts.value;
        var text := "+" + (Decimal(ahead) + (" -" + Decimal(behind)));
        CountsRead(ahead, behind);
        var line := AHEAD_BEHIND + text;
        assert line[|AHEAD_BEHIND|..] == text && AHEAD_BEHIND <= line;
        assert UpstreamLines(repo.upstream) == ["# branch.upstream " + u.name, line];
        ReadTwo(r, "# branch.upstream " + u.name, line, r, r.(ahead := ahead, behind := behind));
      } else {
        assert UpstreamLines(repo.upstream)[1..] == [];
      }
    }
  }

  lemma ReadEntry(r: Report, e: Entry)
    ensures ReadLine(r, EntryLine(e)) == Some(r.(clean := r.clean && !Noticed(e.kind)))
  {
    var line := EntryLine(e);
    assert line[0] != '#';
  }

  lemma {:induction false} ReadEntries(r: Report, entries: seq<Entry>)
    ensures ReadLines(r, EntryLines(entries)) == Some(r.(clean := r.clean && !AnyNoticed(entries)))
    decreases |entries|
  {
    hide ReadLine, EntryLine, Noticed;
    if entries != [] {
      var r' := r.(clean := r.clean && !Noticed(entries[0].kind));
      ReadEntry(r, entries[0]);
      ReadEntries(r', entries[1..]);
      assert AnyNoticed(entries) <==> Noticed(entries[0].kind) || AnyNoticed(entries[1..]) by {
        if AnyNoticed(entries[1..]) {
          var k :| 0 <= k < |entries| - 1 && Noticed(entries[1..][k].kind);
          assert Noticed(entries[k + 1].kind);
        }
        if k :| 0 <= k < |entries| && Noticed(entries[k].kind) && k > 0 {
          assert Noticed(entries[1..][k - 1].kind);
        }
      }
    }
  }

  lemma ReadAll(repo: Repository)
    ensures ReadLines(START, Lines(repo)) == Some(Expected(repo))
  {
    hide ReadLine, UpstreamLines, EntryLines, AnyNoticed, CountsOf;
    var head := [COMMIT + repo.commit, BRANCH + repo.branch];
    var r1 := START.(commit := repo.commit);
    var r2 := r1.(branch := repo.branch);
    ReadHeaders(START, repo.commit);
    ReadHeaders(r1, repo.branch);
    ReadTwo(START, COMMIT + repo.commit, BRANCH + repo.branch, r1, r2);
    ReadThen(START, head + UpstreamLines(repo.upstream), EntryLines(repo.entries));
    ReadThen(START, head, UpstreamLines(repo.upstream));
    ReadUpstream(r2, repo);
    ReadEntries(r2.(ahead := CountsOf(repo).0, behind := CountsOf(repo).1), repo.entries);
  }

  // -------------------------------------------------------------- line by line

  lemma JoinedIsOneLine(a: string, b: string)
    requires OneLine(a) && OneLine(b)
    ensures OneLine(a + b)
  {
  }

  lemma DigitsAreOneLine(s: string)
    requires Digits(s)
    ensures OneLine(s)
  {
  }

  lemma HeadersAreOneLine()
    ensures OneLine(AHEAD_BEHIND) && OneLine(BRANCH) && OneLine(COMMIT) && OneLine("# branch.upstream ")
    ensures OneLine("+") && OneLine(" -")
  {
  }

  lemma UpstreamIsLines(repo: Repository)
    requires Clean(repo)
    ensures forall k | 0 <= k < |UpstreamLines(repo.upstream)| :: OneLine(UpstreamLines(repo.upstream)[k])
  {
    hide OneLine, Decimal;
    HeadersAreOneLine();
    if repo.upstream.Some? {
      var u := repo.upstream.value;
      JoinedIsOneLine("# branch.upstream ", u.name);
      if u.counts.Some? {
        var (ahead, behind) := u.counts.value;
        DigitsAreOneLine(Decimal(ahead));
        DigitsAreOneLine(Decimal(behind));
        JoinedIsOneLine(" -", Decimal(behind));
        JoinedIsOneLine(Decimal(ahead), " -" + Decimal(behind));
        JoinedIsOneLine("+", Decimal(ahead) + (" -" + Decimal(behind)));
        JoinedIsOneLine(AHEAD_BEHIND, "+" + (Decimal(ahead) + (" -" + Decimal(behind))));
      }
    }
  }

  lemma {:induction false} EntriesAreLines(entries: seq<Entry>)
    requires forall k | 0 <= k < |entries| :: OneLine(entries[k].detail)
    ensures forall k | 0 <= k < |EntryLines(entries)| :: OneLine(EntryLines(entries)[k])
  {
    hide IsBreak;
    if entries != [] {
      EntryIsLine(entries[0]);
      EntriesAreLines(entries[1..]);
    }
  }

  lemma EntryIsLine(e: Entry)
    requires OneLine(e.detail)
    ensures OneLine(EntryLine(e))
  {
    assert OneLine("1 ") && OneLine("2 ") && OneLine("? ") && OneLine("u ") && OneLine("! ");
  }

  lemma LinesAreLines(repo: Repository)
    requires Clean(repo) && OneLine(repo.branch)
    ensures forall k | 0 <= k < |Lines(repo)| :: OneLine(Lines(repo)[k])
  {
    hide OneLine, UpstreamLines, EntryLines;
    HeadersAreOneLine();
    JoinedIsOneLine(COMMIT, repo.commit);
    JoinedIsOneLine(BRANCH, repo.branch);
    UpstreamIsLines(repo);
    EntriesAreLines(repo.entries);
  }

  /**
   What is rendered is read back: the branch, the commit, the counts (zero without an upstream), and
   clean exactly when no changed, renamed or untracked entry is there.
   */
  lemma RoundTrip(repo: Repository)
    requires Clean(repo) && OneLine(repo.branch)
    ensures ReadLines(START, SplitLines(Render(repo))) == Some(Expected(repo))
    ensures var r := ReadLines(START, SplitLines(Render(repo))).value;
      && r.branch == repo.branch && r.commit == repo.commit
      && (if repo.upstream.Some? && repo.upstream.value.counts.Some? then
            r.ahead == repo.upstream.value.counts.value.0 && r.behind == repo.upstream.value.counts.value.1
          else r.ahead == 0 && r.behind == 0)
      && (r.clean <==> forall k | 0 <= k < |repo.entries| ::
            repo.entries[k].kind.Unmerged? || repo.entries[k].kind.Ignored?)
  {
    hide SplitLines, OneLine, Lines, ReadLines;
    LinesAreLines(repo);
    SplitJoined(Lines(repo));
    ReadAll(repo);
  }

  /** The porcelain format in characters: the headers, the two counts, one entry of each kind, and the newline. */
  lemma LinesSpelledOut(commit: string, branch: string, name: string, ahead: nat, behind: nat, detail: string)
    ensures Lines(Repository(commit, branch, Some(Upstream(name, Some((ahead, behind)))),
                             [Entry(Changed, detail), Entry(Renamed, detail), Entry(Untracked, detail),
                              Entry(Unmerged, detail), Entry(Ignored, detail)]))
         == ["# branch.oid " + commit, "# branch.head " + branch, "# branch.upstream " + name,
             "# branch.ab " + ("+" + (Decimal(ahead) + (" -" + Decimal(behind)))),
             "1 " + detail, "2 " + detail, "? " + detail, "u " + detail, "! " + detail]
    ensures Joined([detail]) == detail + "\n"
  {
    hide Decimal;
    var changed, renamed, untracked := Entry(Changed, detail), Entry(Renamed, detail), Entry(Untracked, detail);
    var unmerged, ignored := Entry(Unmerged, detail), Entry(Ignored, detail);
    OneEntryMore(ignored, []);
    OneEntryMore(unmerged, [ignored]);
    OneEntryMore(untracked, [unmerged, ignored]);
    OneEntryMore(renamed, [untracked, unmerged, ignored]);
    OneEntryMore(changed, [renamed, untracked, unmerged, ignored]);
    assert [detail][1..] == [];
  }

  lemma OneEntryMore(e: Entry, entries: seq<Entry>)
    ensures EntryLines([e] + entries) == [EntryLine(e)] + EntryLines(entries)
  {
    assert ([e] + entries)[1..] == entries;
  }

  /** A repository counts as clean exactly when all its entries are unmerged or ignored; these are not noticed. */
  lemma CleanIff(repo: Repository)
    requires Clean(repo) && OneLine(repo.branch)
    ensures ReadLines(START, SplitLines(Render(repo))).Some?
    ensures ReadLines(START, SplitLines(Render(repo))).value.clean
        <==> forall k | 0 <= k < |repo.entries| :: repo.entries[k].kind.Unmerged? || repo.entries[k].kind.Ignored?
  {
    hide SplitLines, OneLine, Render, ReadLines;
    RoundTrip(repo);
  }

  /** A conflict alone leaves the repository clean in the report. */
  lemma ConflictCountsAsClean(detail: string)
    requires OneLine(detail)
    ensures var repo := Repository("0123abc", "main", None, [Entry(Unmerged, detail)]);
      ReadLines(START, SplitLines(Render(repo))) == Some(Report(true, 0, 0, "main", "0123abc"))
  {
    hide SplitLines, Render, ReadLines, IsBreak;
    var repo := Repository("0123abc", "main", None, [Entry(Unmerged, detail)]);
    ShortNames();
    RoundTrip(repo);
  }

  lemma ShortNames()
    ensures OneLine("main") && OneLine("0123abc")
  {
  }

  lemma {:induction false} BranchIsOneLine(r: Report, lines: seq<string>)
    requires OneLine(r.branch) && forall k | 0 <= k < |lines| :: OneLine(lines[k])
    ensures ReadLines(r, lines).Some? ==> OneLine(ReadLines(r, lines).value.branch)
    decreases |lines|
  {
    hide IsBreak, Counts;
    if lines != [] && ReadLine(r, lines[0]).Some? {
      BranchIsOneLine(ReadLine(r, lines[0]).value, lines[1..]);
    }
  }

  // --------------------------------------------------- names with line breaks

  /** Git allows no blank in the name of a branch, but it does allow most characters at which lines end here. */
  ghost predicate RefName(name: string) {
    OneLine(name) || ' ' !in name
  }

  /** No text but those of the branch and its upstream has a line break in it. */
  ghost predicate CleanButRefs(repo: Repository) {
    && OneLine(repo.commit)
    && (repo.upstream.Some? ==> RefName(repo.upstream.value.name))
    && (forall k | 0 <= k < |repo.entries| :: OneLine(repo.entries[k].detail))
  }

  lemma {:induction false} LineAfter(head: string, s: string)
    requires OneLine(head)
    ensures Line(head + s) == head + Line(s)
  {
    if head == "" {
      assert head + s == s;
    } else {
      assert (head + s)[1..] == head[1..] + s;
      LineAfter(head[1..], s);
    }
  }

  lemma SplitAt(line: string, more: string)
    requires OneLine(line) && more != "" && IsBreak(more[0])
    ensures SplitLines(line + more) == [line] + SplitLines(more[BreakLength(more)..])
  {
    hide Line, IsBreak;
    LineIs(line, more);
    assert (line + more)[|line|..] == more;
  }

  /** A break that ends the text, and one with something behind it. */
  lemma BreakBefore(more: string, rest: string)
    requires more != ""
    ensures var all := more + ("\n" + rest);
      all[BreakLength(all)..] == if more == "\r" then rest else more[BreakLength(more)..] + ("\n" + rest)
  {
    var all := more + ("\n" + rest);
    if more == "\r" {
      assert all[1] == '\n';
    } else if |more| == 1 {
      assert BreakLength(all) == 1;
    } else {
      assert all[1] == more[1];
    }
  }

  /** The first line of a text that a newline ends, and what is left of the text. */
  lemma FirstPiece(text: string, rest: string)
    ensures var line := Line(text); var more := text[|line|..];
      SplitLines(text + ("\n" + rest)) == [line]
        + if more == "" || more == "\r" then SplitLines(rest) else SplitLines(more[BreakLength(more)..] + ("\n" + rest))
  {
    hide Line, IsBreak, SplitLines, BreakLength, OneLine;
    var line := Line(text);
    var more := text[|line|..];
    if more == "" {
      FirstLine(line, rest);
      assert text == line;
    } else {
      assert text + ("\n" + rest) == line + (more + ("\n" + rest));
      SplitAt(line, more + ("\n" + rest));
      BreakBefore(more, rest);
    }
  }

  /** Lines without a blank are none of the three headers: they can only make the repository unclean. */
  lemma {:induction false} BlanklessIsHarmless(r: Report, text: string, rest: string) returns (clean: bool)
    requires ' ' !in text
    ensures ReadLines(r, SplitLines(text + ("\n" + rest))) == ReadLines(r.(clean := clean), SplitLines(rest))
    ensures clean ==> r.clean
    decreases |text|
  {
    hide Line, IsBreak, SplitLines;
    var line := Line(text);
    var more := text[|line|..];
    FirstPiece(text, rest);
    BlanklessLine(r, line);
    clean := ReadLine(r, line).value.clean;
    if more != "" && more != "\r" {
      clean := BlanklessIsHarmless(r.(clean := clean), more[BreakLength(more)..], rest);
    }
  }

  lemma BlanklessLine(r: Report, line: string)
    requires ' ' !in line
    ensures ReadLine(r, line) == Some(r) || ReadLine(r, line) == Some(r.(clean := false))
  {
    assert AHEAD_BEHIND[1] == BRANCH[1] == COMMIT[1] == ' ';
  }

  /** A header with a name that may have line breaks: the header is read with the first line of the name. */
  lemma HeaderIsCutOff(r: Report, head: string, name: string, rest: string, r': Report) returns (clean: bool)
    requires OneLine(head) && RefName(name) && ReadLine(r, head + Line(name)) == Some(r')
    ensures ReadLines(r, SplitLines((head + name) + ("\n" + rest))) == ReadLines(r'.(clean := clean), SplitLines(rest))
    ensures clean ==> r'.clean
  {
    hide IsBreak, SplitLines, ReadLine;
    var text := head + name;
    LineAfter(head, name);
    FirstPiece(text, rest);
    var line := Line(text);
    var more := text[|line|..];
    assert more == name[|Line(name)|..];
    clean := r'.clean;
    if more != "" && more != "\r" {
      clean := BlanklessIsHarmless(r', more[BreakLength(more)..], rest);
    }
  }

  /** What follows the name of the upstream: its counts, and the entries. */
  lemma CountsAndEntriesRead(r: Report, repo: Repository)
    requires CleanButRefs(repo) && repo.upstream.Some? && r.ahead == 0 && r.behind == 0
    ensures ReadLines(r, SplitLines(Joined(UpstreamLines(repo.upstream)[1..] + EntryLines(repo.entries))))
         == Some(r.(ahead := CountsOf(repo).0, behind := CountsOf(repo).1,
                    clean := r.clean && !AnyNoticed(repo.entries)))
  {
    hide IsBreak, SplitLines, Decimal, ReadLine, AnyNoticed;
    var nameless := repo.(upstream := Some(repo.upstream.value.(name := "")));
    var up, entries := UpstreamLines(nameless.upstream), EntryLines(repo.entries);
    assert UpstreamLines(repo.upstream)[1..] == up[1..];
    UpstreamIsLines(nameless);
    EntriesAreLines(repo.entries);
    SplitJoined(up[1..] + entries);
    ReadHeaders(r, "");
    ReadUpstream(r, nameless);
    var r' := r.(ahead := CountsOf(repo).0, behind := CountsOf(repo).1);
    assert ReadLines(r, up[1..]) == Some(r');
    ReadThen(r, up[1..], entries);
    ReadEntries(r', repo.entries);
  }

  /** Everything behind the branch. */
  lemma TailRead(r: Report, repo: Repository) returns (clean: bool)
    requires CleanButRefs(repo) && r.ahead == 0 && r.behind == 0
    ensures ReadLines(r, SplitLines(Joined(UpstreamLines(repo.upstream) + EntryLines(repo.entries))))
         == Some(r.(ahead := CountsOf(repo).0, behind := CountsOf(repo).1, clean := clean))
    ensures clean ==> r.clean && !AnyNoticed(repo.entries)
  {
    hide IsBreak, SplitLines, ReadLine, AnyNoticed, Joined, ReadLines;
    var up, entries := UpstreamLines(repo.upstream), EntryLines(repo.entries);
    if repo.upstream.None? {
      assert up + entries == entries;
      EntriesAreLines(repo.entries);
      SplitJoined(entries);
      ReadEntries(r, repo.entries);
      clean := r.clean && !AnyNoticed(repo.entries);
    } else {
      var name := repo.upstream.value.name;
      HeadersAreOneLine();
      ReadHeaders(r, Line(name));
      JoinedFirst(up + entries);
      assert (up + entries)[1..] == up[1..] + entries;
      var c := HeaderIsCutOff(r, "# branch.upstream ", name, Joined(up[1..] + entries), r);
      CountsAndEntriesRead(r.(clean := c), repo);
      clean := c && !AnyNoticed(repo.entries);
    }
  }

  lemma JoinedFirst(lines: seq<string>)
    requires lines != []
    ensures Joined(lines) == lines[0] + ("\n" + Joined(lines[1..]))
  {
  }

  /**
   The branch that is read is the first line of its name, also when its upstream repeats that name:
   commit and counts are read as they are, and no unclean repository is reported as clean.
   */
  lemma BranchIsCutOff(repo: Repository)
    requires CleanButRefs(repo) && RefName(repo.branch)
    ensures var r := ReadLines(START, SplitLines(Render(repo)));
      && r.Some?
      && r.value.branch == Line(repo.branch) && r.value.commit == repo.commit
      && (r.value.ahead, r.value.behind) == CountsOf(repo)
      && (r.value.clean ==> !AnyNoticed(repo.entries))
  {
    hide IsBreak, SplitLines, ReadLine, AnyNoticed, Joined, UpstreamLines, EntryLines, CountsOf;
    var lines, tail := Lines(repo), UpstreamLines(repo.upstream) + EntryLines(repo.entries);
    var r1 := START.(commit := repo.commit);
    var r2 := r1.(branch := Line(repo.branch));
    HeadersAreOneLine();
    JoinedIsOneLine(COMMIT, repo.commit);
    assert lines[0] == COMMIT + repo.commit && lines[1..][0] == BRANCH + repo.branch && lines[1..][1..] == tail;
    JoinedFirst(lines);
    JoinedFirst(lines[1..]);
    FirstLine(lines[0], Joined(lines[1..]));
    ReadHeaders(START, repo.commit);
    ReadHeaders(r1, Line(repo.branch));
    ReadFirst(START, lines[0], r1, SplitLines(Joined(lines[1..])));
    var c := HeaderIsCutOff(r1, BRANCH, repo.branch, Joined(tail), r2);
    var clean := TailRead(r2.(clean := c), repo);
  }

  lemma ReadFirst(r: Report, line: string, r': Report, rest: seq<string>)
    requires ReadLine(r, line) == Some(r')
    ensures ReadLines(r, [line] + rest) == ReadLines(r', rest)
  {
    hide ReadLine;
    assert ([line] + rest)[1..] == rest;
  }

  lemma LineIsWhole(s: string)
    ensures Line(s) == s <==> OneLine(s)
  {
    if OneLine(s) {
      assert s + "" == s;
      LineIs(s, "");
    }
  }

  /**
   The branch is recovered if and only if its name has no line break in it, whatever the upstream is
   called.
   */
  lemma BranchRecoveredIff(repo: Repository)
    requires CleanButRefs(repo)
    ensures var r := ReadLines(START, SplitLines(Render(repo)));
      r.Some? && r.value.branch == repo.branch <==> OneLine(repo.branch)
  {
    hide SplitLines, IsBreak, Render, ReadLines, Line;
    if OneLine(repo.branch) {
      BranchIsCutOff(repo);
      LineIsWhole(repo.branch);
    }
    BranchIsOneLine(START, SplitLines(Render(repo)));
  }

  /** A branch that is cut off, with the upstream of the same name. */
  lemma BranchIsLost()
    ensures var repo := Repository("0123abc", "a\U{2028}b", Some(Upstream("origin/a\U{2028}b", Some((0, 0)))), []);
      var r := ReadLines(START, SplitLines(Render(repo)));
      r.Some? && r.value.branch == "a" && r.value.commit == "0123abc"
  {
    hide SplitLines, Render, ReadLines, IsBreak, OneLine;
    var repo := Repository("0123abc", "a\U{2028}b", Some(Upstream("origin/a\U{2028}b", Some((0, 0)))), []);
    ShortNames();
    BranchIsCutOff(repo);
    ShortLine();
  }

  lemma ShortLine()
    ensures Line("a\U{2028}b") == "a"
  {
    assert OneLine("a") && IsBreak('\U{2028}');
    LineIs("a", "\U{2028}b");
    assert "a" + "\U{2028}b" == "a\U{2028}b";
  }
}
