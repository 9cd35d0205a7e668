/**
 * The integration audit script: a walk over the source tree that reports lines using browser
 * storage, and a walk that flags which portal source files mention the hosted back end.
 */
module StorageAudit {
  import opened Strings
  import opened Seqs

  /** A directory entry of the walked tree. */
  datatype Entry = File(name: string, content: string) | Dir(name: string, entries: seq<Entry>)

  datatype StorageKind = LocalStorage | SessionStorage

  /** One reported use: the file, its 1-based line number, the kind, and the trimmed line. */
  datatype Issue = Issue(file: string, line: nat, kind: StorageKind, text: string)

  function Keyword(kind: StorageKind): string {
    match kind
    case LocalStorage => "localStorage"
    case SessionStorage => "sessionStorage"
  }

  /** `path.join(dir, name)` for a plain entry name. */
  function JoinPath(dir: string, name: string): (p: string)
    ensures EndsWith(name, ".ts") ==> EndsWith(p, ".ts")
    ensures EndsWith(name, ".tsx") ==> EndsWith(p, ".tsx")
  {
    var p := dir + "/" + name;
    assert EndsWith(name, ".ts") ==> p[|p| - 3..] == name[|name| - 3..];
    assert EndsWith(name, ".tsx") ==> p[|p| - 4..] == name[|name| - 4..];
    p
  }

  /** Entries the walks never enter or read. */
  predicate IsSkippedName(name: string) {
    name == "node_modules" || name == ".next" || name == ".git"
  }

  /** The files the walks read. */
  predicate IsSourceFile(name: string) {
    EndsWith(name, ".tsx") || EndsWith(name, ".ts")
  }

  /** A line is reported when it holds the keyword and, trimmed, starts with neither `//` nor `*`. */
  predicate FlagsLine(line: string, kind: StorageKind) {
    Contains(line, Keyword(kind)) && !StartsWith(Trim(line), "//") && !StartsWith(Trim(line), "*")
  }

  /** The reports for the lines `lines`, numbered from 1 in order. */
  function Flagged(file: string, lines: seq<string>, kind: StorageKind): seq<Issue> {
    if lines == [] then []
    else
      var last := lines[|lines| - 1];
      Flagged(file, lines[..|lines| - 1], kind)
        + (if FlagsLine(last, kind) then [Issue(file, |lines|, kind, Trim(last))] else [])
  }

  /** A report is a flagged line of `lines`, at its 1-based number, of the given kind, with its trimmed text. */
  predicate ReportsLine(file: string, lines: seq<string>, kind: StorageKind, r: Issue) {
    && r.file == file && r.kind == kind && 1 <= r.line <= |lines|
    && FlagsLine(lines[r.line - 1], kind) && r.text == Trim(lines[r.line - 1])
  }

  /** One report at a time: each report describes the line it was made for. */
  lemma {:induction false} FlaggedSoundAt(file: string, lines: seq<string>, kind: StorageKind, r: Issue)
    requires r in Flagged(file, lines, kind)
    ensures ReportsLine(file, lines, kind, r)
  {
    var init, last := lines[..|lines| - 1], lines[|lines| - 1];
    var added := if FlagsLine(last, kind) then [Issue(file, |lines|, kind, Trim(last))] else [];
    assert Flagged(file, lines, kind) == Flagged(file, init, kind) + added;
    if r in Flagged(file, init, kind) {
      FlaggedSoundAt(file, init, kind, r);
      assert lines[r.line - 1] == init[r.line - 1];
    } else {
      assert r in added;
    }
  }

  /** A report is a flagged line, at its 1-based number, of the given kind, with its trimmed text. */
  lemma FlaggedSound(file: string, lines: seq<string>, kind: StorageKind)
    ensures forall r :: r in Flagged(file, lines, kind) ==>
              && r.file == file && r.kind == kind && 1 <= r.line <= |lines|
              && FlagsLine(lines[r.line - 1], kind) && r.text == Trim(lines[r.line - 1])
  {
    forall r | r in Flagged(file, lines, kind)
      ensures ReportsLine(file, lines, kind, r)
    {
      FlaggedSoundAt(file, lines, kind, r);
    }
  }

  /** Every flagged line is reported. */
  lemma FlaggedComplete(file: string, lines: seq<string>, kind: StorageKind)
    ensures forall i :: 0 <= i < |lines| && FlagsLine(lines[i], kind) ==>
              Issue(file, i + 1, kind, Trim(lines[i])) in Flagged(file, lines, kind)
  {
    forall i | 0 <= i < |lines| && FlagsLine(lines[i], kind)
      ensures Issue(file, i + 1, kind, Trim(lines[i])) in Flagged(file, lines, kind)
    {
      FlaggedLine(file, lines, kind, i);
    }
  }

  /** One flagged line is reported. */
  lemma {:induction false} FlaggedLine(file: string, lines: seq<string>, kind: StorageKind, i: nat)
    requires i < |lines| && FlagsLine(lines[i], kind)
    ensures Issue(file, i + 1, kind, Trim(lines[i])) in Flagged(file, lines, kind)
    decreases |lines|
  {
    var init := lines[..|lines| - 1];
    if i < |init| {
      assert init[i] == lines[i];
      FlaggedLine(file, init, kind, i);
    }
  }

  /** The per-line scan of one kind: a loop over the split lines pushing each report. */
  method ScanLines(file: string, lines: seq<string>, kind: StorageKind) returns (issues: seq<Issue>)
    ensures issues == Flagged(file, lines, kind)
  {
    issues := [];
    var i := 0;
    while i < |lines|
      invariant 0 <= i <= |lines|
      invariant issues == Flagged(file, lines[..i], kind)
    {
      assert lines[..i + 1][..i] == lines[..i];
      if FlagsLine(lines[i], kind) {
        issues := issues + [Issue(file, i + 1, kind, Trim(lines[i]))];
      }
      i := i + 1;
    }
    assert lines[..i] == lines;
  }

  /**
   * The reports for one file. The local-storage scan runs only when the file mentions the keyword
   * and contains `// ` nowhere; the session-storage scan has no such exclusion.
   */
  function FileIssues(file: string, content: string): seq<Issue> {
    var lines := Split(content, '\n');
    (if Contains(content, "localStorage") && !Contains(content, "// ") then Flagged(file, lines, LocalStorage) else [])
      + (if Contains(content, "sessionStorage") then Flagged(file, lines, SessionStorage) else [])
  }

  /** The scan of one file's content, as the script runs it. */
  method CheckFile(file: string, content: string) returns (issues: seq<Issue>)
    ensures issues == FileIssues(file, content)
  {
    var lines := Split(content, '\n');
    issues := [];
    if Contains(content, "localStorage") && !Contains(content, "// ") {
      issues := ScanLines(file, lines, LocalStorage);
    }
    if Contains(content, "sessionStorage") {
      var more := ScanLines(file, lines, SessionStorage);
      issues := issues + more;
    }
  }

  /** A file holding `// ` anywhere yields no local-storage report, whatever its lines say. */
  lemma CommentedFileHidesLocalStorage(file: string, content: string)
    requires Contains(content, "// ")
    ensures forall r :: r in FileIssues(file, content) ==> r.kind == SessionStorage
  {
    FlaggedSound(file, Split(content, '\n'), SessionStorage);
  }

  /**
   * Every flagged line of a file holding `localStorage` and no `// ` is reported, and every
   * flagged session-storage line of a file holding `sessionStorage` is reported, comments or not.
   */
  lemma FileIssuesComplete(file: string, content: string)
    ensures Contains(content, "localStorage") && !Contains(content, "// ") ==>
              forall i :: 0 <= i < |Split(content, '\n')| && FlagsLine(Split(content, '\n')[i], LocalStorage) ==>
                Issue(file, i + 1, LocalStorage, Trim(Split(content, '\n')[i])) in FileIssues(file, content)
    ensures Contains(content, "sessionStorage") ==>
              forall i :: 0 <= i < |Split(content, '\n')| && FlagsLine(Split(content, '\n')[i], SessionStorage) ==>
                Issue(file, i + 1, SessionStorage, Trim(Split(content, '\n')[i])) in FileIssues(file, content)
  {
    FlaggedComplete(file, Split(content, '\n'), LocalStorage);
    FlaggedComplete(file, Split(content, '\n'), SessionStorage);
  }

  /** Every report of a file is an actual use on the numbered line of that file. */
  lemma FileIssuesSound(file: string, content: string)
    ensures forall r :: r in FileIssues(file, content) ==>
              && r.file == file && 1 <= r.line <= |Split(content, '\n')|
              && FlagsLine(Split(content, '\n')[r.line - 1], r.kind)
  {
    FlaggedSound(file, Split(content, '\n'), LocalStorage);
    FlaggedSound(file, Split(content, '\n'), SessionStorage);
  }

  /** The reports for a directory's entries, in listing order. */
  function TreeIssues(entries: seq<Entry>, dir: string): seq<Issue>
    decreases entries
  {
    if entries == [] then [] else EntryIssues(entries[0], dir) + TreeIssues(entries[1..], dir)
  }

  /** The reports for one entry: skipped names yield none, directories are walked, source files scanned. */
  function EntryIssues(e: Entry, dir: string): seq<Issue>
    decreases e
  {
    if IsSkippedName(e.name) then []
    else match e
      case Dir(name, entries) => TreeIssues(entries, JoinPath(dir, name))
      case File(name, content) => if IsSourceFile(name) then FileIssues(JoinPath(dir, name), content) else []
  }

  /** The walk goes entry by entry: the reports for a listing extended by one entry gain that entry's. */
  lemma {:induction false} TreeIssuesSnoc(entries: seq<Entry>, e: Entry, dir: string)
    ensures TreeIssues(entries + [e], dir) == TreeIssues(entries, dir) + EntryIssues(e, dir)
  {
    if entries == [] {
      assert [e][1..] == [];
    } else {
      assert (entries + [e])[1..] == entries[1..] + [e];
      TreeIssuesSnoc(entries[1..], e, dir);
    }
  }

  /** Only source files are ever reported, so no report names a file of another type. */
  lemma {:induction false} TreeReportsSourceFiles(entries: seq<Entry>, dir: string)
    ensures forall r :: r in TreeIssues(entries, dir) ==> IsSourceFile(r.file)
    decreases entries
  {
    if entries != [] {
      EntryReportsSourceFiles(entries[0], dir);
      TreeReportsSourceFiles(entries[1..], dir);
    }
  }

  lemma {:induction false} EntryReportsSourceFiles(e: Entry, dir: string)
    ensures forall r :: r in EntryIssues(e, dir) ==> IsSourceFile(r.file)
    decreases e
  {
    if !IsSkippedName(e.name) {
      match e
      case Dir(name, entries) =>
        TreeReportsSourceFiles(entries, JoinPath(dir, name));
      case File(name, content) =>
        if IsSourceFile(name) {
          FileIssuesSound(JoinPath(dir, name), content);
        }
    }
  }

  /** A skipped entry contributes nothing, whatever it holds. */
  lemma SkippedEntryIgnored(e: Entry, rest: seq<Entry>, dir: string)
    requires IsSkippedName(e.name)
    ensures TreeIssues([e] + rest, dir) == TreeIssues(rest, dir)
  {
    assert ([e] + rest)[1..] == rest;
  }

  /** `checkForLocalStorage`: the walk over a directory listing, concatenating each entry's reports. */
  method CheckTree(entries: seq<Entry>, dir: string) returns (issues: seq<Issue>)
    ensures issues == TreeIssues(entries, dir)
    decreases entries
  {
    issues := [];
    var i := 0;
    while i < |entries|
      invariant 0 <= i <= |entries|
      invariant issues == TreeIssues(entries[..i], dir)
    {
      var e := entries[i];
      var more := CheckEntry(e, dir);
      TreeIssuesSnoc(entries[..i], e, dir);
      TakeOneMore(entries, i);
      issues := issues + more;
      i := i + 1;
    }
    assert entries[..i] == entries;
  }

  method CheckEntry(e: Entry, dir: string) returns (issues: seq<Issue>)
    ensures issues == EntryIssues(e, dir)
    decreases e
  {
    if IsSkippedName(e.name) {
      return [];
    }
    match e {
      case Dir(name, entries) =>
        issues := CheckTree(entries, JoinPath(dir, name));
      case File(name, content) =>
        if IsSourceFile(name) {
          issues := CheckFile(JoinPath(dir, name), content);
        } else {
          issues := [];
        }
    }
  }

  /** The record kept for a portal source file. */
  datatype PortalFile = PortalFile(file: string, hasSupabase: bool, hasAuth: bool)

  /** `fullPath.replace(cwd, '.')`: the first occurrence of the working directory becomes `.`. */
  function Relative(path: string, cwd: string): (r: string)
    ensures cwd == [] ==> r == "." + path
    ensures cwd != [] && StartsWith(path, cwd) ==> r == "." + path[|cwd|..]
    ensures cwd != [] && !Contains(path, cwd) ==> r == path
  {
    if cwd == [] then "." + path else ReplaceFirst(path, cwd, ".")
  }

  /** The two flags of a portal file, each a plain substring test on the content. */
  function PortalRecord(path: string, cwd: string, content: string): PortalFile {
    PortalFile(Relative(path, cwd), Contains(content, "supabase") || Contains(content, "Supabase"),
               Contains(content, "auth") || Contains(content, "Auth"))
  }

  /** The back-end flag is a case-sensitive test of two spellings: `Supabase` counts, `SUPABASE` does not. */
  lemma SupabaseFlagSpellings(path: string, cwd: string)
    ensures PortalRecord(path, cwd, "Supabase").hasSupabase
    ensures !PortalRecord(path, cwd, "SUPABASE").hasSupabase
  {
    assert StartsWith("Supabase", "Supabase");
    assert !Contains("SUPABASE", "supabase") && !Contains("SUPABASE", "Supabase") by {
      NoLowerCaseU("SUPABASE");
    }
  }

  /** A text without the letter `u` contains neither spelling. */
  lemma {:induction false} NoLowerCaseU(s: string)
    requires forall k :: 0 <= k < |s| ==> s[k] != 'u'
    ensures !Contains(s, "supabase") && !Contains(s, "Supabase")
    decreases |s|
  {
    if s != [] {
      assert !StartsWith(s, "supabase") && !StartsWith(s, "Supabase") by {
        if |s| >= 8 {
          assert s[..8][1] == s[1] != 'u';
        }
      }
      NoLowerCaseU(s[1..]);
    }
  }

  /** `checkSupabaseIntegration`: source files whose full path contains `/portal/`. */
  function PortalFiles(entries: seq<Entry>, dir: string, cwd: string): seq<PortalFile>
    decreases entries
  {
    if entries == [] then [] else PortalEntry(entries[0], dir, cwd) + PortalFiles(entries[1..], dir, cwd)
  }

  function PortalEntry(e: Entry, dir: string, cwd: string): seq<PortalFile>
    decreases e
  {
    if IsSkippedName(e.name) then []
    else match e
      case Dir(name, entries) => PortalFiles(entries, JoinPath(dir, name), cwd)
      case File(name, content) =>
        var path := JoinPath(dir, name);
        if Contains(path, "/portal/") && IsSourceFile(name) then [PortalRecord(path, cwd, content)] else []
  }

  /** A file the walk reaches: its joined path, its own name and its content. */
  datatype Reached = Reached(path: string, name: string, content: string)

  /** Every file under `entries` that the walk reaches, in walk order; skipped names are not entered. */
  function ReachedFiles(entries: seq<Entry>, dir: string): seq<Reached>
    decreases entries
  {
    if entries == [] then [] else ReachedInEntry(entries[0], dir) + ReachedFiles(entries[1..], dir)
  }

  function ReachedInEntry(e: Entry, dir: string): seq<Reached>
    decreases e
  {
    if IsSkippedName(e.name) then []
    else match e
      case Dir(name, entries) => ReachedFiles(entries, JoinPath(dir, name))
      case File(name, content) => [Reached(JoinPath(dir, name), name, content)]
  }

  /** The files `checkSupabaseIntegration` records: a source file whose full path contains `/portal/`. */
  predicate IsPortalSource(f: Reached) {
    Contains(f.path, "/portal/") && IsSourceFile(f.name)
  }

  /** Every reached file is under a name the walk does not skip, joined onto a directory path. */
  lemma {:induction false} ReachedNotSkipped(entries: seq<Entry>, dir: string)
    ensures forall f :: f in ReachedFiles(entries, dir) ==> !IsSkippedName(f.name) && EndsWith(f.path, "/" + f.name)
    decreases entries
  {
    if entries != [] {
      ReachedInEntryNotSkipped(entries[0], dir);
      ReachedNotSkipped(entries[1..], dir);
    }
  }

  lemma {:induction false} ReachedInEntryNotSkipped(e: Entry, dir: string)
    ensures forall f :: f in ReachedInEntry(e, dir) ==> !IsSkippedName(f.name) && EndsWith(f.path, "/" + f.name)
    decreases e
  {
    if !IsSkippedName(e.name) {
      match e
      case Dir(name, entries) =>
        ReachedNotSkipped(entries, JoinPath(dir, name));
      case File(name, content) =>
        assert (dir + "/" + name)[|dir|..] == "/" + name;
    }
  }

  /** Every record is that of a reached portal source file. */
  lemma {:induction false} PortalFilesSound(entries: seq<Entry>, dir: string, cwd: string)
    ensures forall r :: r in PortalFiles(entries, dir, cwd) ==>
              exists f :: f in ReachedFiles(entries, dir) && IsPortalSource(f) && r == PortalRecord(f.path, cwd, f.content)
    decreases entries
  {
    if entries != [] {
      PortalEntrySound(entries[0], dir, cwd);
      PortalFilesSound(entries[1..], dir, cwd);
    }
  }

  lemma {:induction false} PortalEntrySound(e: Entry, dir: string, cwd: string)
    ensures forall r :: r in PortalEntry(e, dir, cwd) ==>
              exists f :: f in ReachedInEntry(e, dir) && IsPortalSource(f) && r == PortalRecord(f.path, cwd, f.content)
    decreases e
  {
    if !IsSkippedName(e.name) {
      match e
      case Dir(name, entries) =>
        PortalFilesSound(entries, JoinPath(dir, name), cwd);
      case File(name, content) =>
        var f := Reached(JoinPath(dir, name), name, content);
        assert f in ReachedInEntry(e, dir);
    }
  }

  /** Every reached portal source file is recorded. */
  lemma {:induction false} PortalFilesComplete(entries: seq<Entry>, dir: string, cwd: string)
    ensures forall f :: f in ReachedFiles(entries, dir) && IsPortalSource(f) ==>
              PortalRecord(f.path, cwd, f.content) in PortalFiles(entries, dir, cwd)
    decreases entries
  {
    if entries != [] {
      PortalEntryComplete(entries[0], dir, cwd);
      PortalFilesComplete(entries[1..], dir, cwd);
    }
  }

  lemma {:induction false} PortalEntryComplete(e: Entry, dir: string, cwd: string)
    ensures forall f :: f in ReachedInEntry(e, dir) && IsPortalSource(f) ==>
              PortalRecord(f.path, cwd, f.content) in PortalEntry(e, dir, cwd)
    decreases e
  {
    if !IsSkippedName(e.name) {
      match e
      case Dir(name, entries) =>
        PortalFilesComplete(entries, JoinPath(dir, name), cwd);
      case File(name, content) =>
    }
  }

  /** `checkDir` of `checkSupabaseIntegration`: the loop over a listing, pushing each portal record. */
  method CheckPortalTree(entries: seq<Entry>, dir: string, cwd: string) returns (found: seq<PortalFile>)
    ensures found == PortalFiles(entries, dir, cwd)
    decreases entries
  {
    found := [];
    var i := 0;
    while i < |entries|
      invariant 0 <= i <= |entries|
      invariant found == PortalFiles(entries[..i], dir, cwd)
    {
      var e := entries[i];
      var more := CheckPortalEntry(e, dir, cwd);
      PortalFilesSnoc(entries[..i], e, dir, cwd);
      TakeOneMore(entries, i);
      found := found + more;
      i := i + 1;
    }
    assert entries[..i] == entries;
  }

  method CheckPortalEntry(e: Entry, dir: string, cwd: string) returns (found: seq<PortalFile>)
    ensures found == PortalEntry(e, dir, cwd)
    decreases e
  {
    if IsSkippedName(e.name) {
      return [];
    }
    match e {
      case Dir(name, entries) =>
        found := CheckPortalTree(entries, JoinPath(dir, name), cwd);
      case File(name, content) =>
        var path := JoinPath(dir, name);
        if Contains(path, "/portal/") && IsSourceFile(name) {
          found := [PortalRecord(path, cwd, content)];
        } else {
          found := [];
        }
    }
  }

  /** The records for a listing extended by one entry gain that entry's records. */
  lemma {:induction false} PortalFilesSnoc(entries: seq<Entry>, e: Entry, dir: string, cwd: string)
    ensures PortalFiles(entries + [e], dir, cwd) == PortalFiles(entries, dir, cwd) + PortalEntry(e, dir, cwd)
  {
    if entries == [] {
      assert [e][1..] == [];
    } else {
      assert (entries + [e])[1..] == entries[1..] + [e];
      PortalFilesSnoc(entries[1..], e, dir, cwd);
    }
  }

  /** The pages listed in the report: records whose relative path contains `/portal/` and ends in `.tsx`. */
  function PortalPages(files: seq<PortalFile>): (r: seq<PortalFile>)
    ensures forall k :: 0 <= k < |r| ==> r[k] in files && Contains(r[k].file, "/portal/") && EndsWith(r[k].file, ".tsx")
    ensures forall k :: 0 <= k < |files| && Contains(files[k].file, "/portal/") && EndsWith(files[k].file, ".tsx") ==> files[k] in r
  {
    Filter(files, (f: PortalFile) => Contains(f.file, "/portal/") && EndsWith(f.file, ".tsx"))
  }

  /** The summary checks run on each known portal page. */
  datatype PageChecks = PageChecks(
    supabaseImport: bool, supabaseAuth: bool, profilesTable: bool, messagesTable: bool, signOut: bool, getUser: bool)

  function SummaryChecks(content: string): PageChecks {
    PageChecks(Contains(content, "from '@/lib/supabase"), Contains(content, "supabase.auth"),
               Contains(content, "from('profiles')"), Contains(content, "from('messages')"),
               Contains(content, "signOut"), Contains(content, "getUser"))
  }

  /** A text containing `big`, which holds `small` at position `j`, contains `small`. */
  lemma ContainsWithin(s: string, big: string, small: string, j: nat)
    requires Contains(s, big) && OccursAt(big, small, j)
    ensures Contains(s, small)
  {
    var i := IndexOf(s, big);
    assert OccursAt(s, big, i);
    assert s[i..i + |big|] == big;
    forall k | 0 <= k < |small| ensures s[i + j + k] == small[k] {
      assert small[k] == big[j + k];
      assert big[j + k] == s[i..i + |big|][j + k];
    }
    assert s[i + j..i + j + |small|] == small;
    ContainsAt(s, small, i + j);
  }

  /**
   * The summary and the earlier scan agree: a page importing the back-end client, or calling
   * `supabase.auth`, is also flagged as using it, and `supabase.auth` also counts as auth logic.
   */
  lemma SummaryAgreesWithFlags(path: string, cwd: string, content: string)
    ensures SummaryChecks(content).supabaseImport ==> PortalRecord(path, cwd, content).hasSupabase
    ensures SummaryChecks(content).supabaseAuth ==>
              PortalRecord(path, cwd, content).hasSupabase && PortalRecord(path, cwd, content).hasAuth
  {
    var imp := "from '@/lib/supabase";
    var use := "supabase.auth";
    if Contains(content, imp) {
      assert imp[12..20] == "supabase";
      ContainsWithin(content, imp, "supabase", 12);
    }
    if Contains(content, use) {
      assert use[0..8] == "supabase";
      assert use[9..13] == "auth";
      ContainsWithin(content, use, "supabase", 0);
      ContainsWithin(content, use, "auth", 9);
    }
  }
}
