/** The command-line front end (app/Sources/ccost-cli/main.swift): date
    normalisation, the argument scan, and the scan → diff → parse → write →
    query driver. The arguments, the discovered files, file contents and the
    clock reach the model as parameters; printing is not part of it. */
module Cli {
  import opened Wrappers
  import opened Strings
  import opened Models
  import opened Scanner
  import opened Parser
  import opened Pricing
  import opened Database

  // ---------------------------------------------------------------------
  // Dates given on the command line.

  /** YYYYMMDD becomes YYYY-MM-DD; anything else is kept as typed. */
  function NormalizeDate(d: string): (r: string)
    ensures |d| == 8 && '-' !in d ==> |r| == 10 && r[4] == '-' && r[7] == '-' && Without(r, '-') == d
    ensures !(|d| == 8 && '-' !in d) ==> r == d
  {
    if |d| == 8 && '-' !in d then
      SeparatorsOnly(d[..4], d[4..6], d[6..], '-');
      assert d[..4] + d[4..6] + d[6..] == d;
      d[..4] + "-" + d[4..6] + "-" + d[6..]
    else d
  }

  /** Joining separator-free pieces with the separator adds nothing but the
      separators. */
  lemma SeparatorsOnly(a: string, b: string, c: string, sep: char)
    requires sep !in a && sep !in b && sep !in c
    ensures Without(a + [sep] + b + [sep] + c, sep) == a + b + c
  {
    SeparatorAppend(a + [sep] + b, c, sep);
    SeparatorAppend(a, b, sep);
    WithoutAbsent(a, sep);
  }

  /** A separator and a separator-free tail contribute just the tail. */
  lemma SeparatorAppend(x: string, y: string, sep: char)
    requires sep !in y
    ensures Without(x + [sep] + y, sep) == Without(x, sep) + y
  {
    assert x + [sep] + y == x + ([sep] + y);
    WithoutAppend(x, [sep] + y, sep);
    SeparatorThen(y, sep);
  }

  lemma SeparatorThen(y: string, sep: char)
    requires sep !in y
    ensures Without([sep] + y, sep) == y
  {
    assert ([sep] + y)[0] == sep && ([sep] + y)[1..] == y;
    WithoutAbsent(y, sep);
  }

  /** Normalising twice is normalising once: the 10-character result holds a '-'. */
  lemma NormalizeDateIdempotent(d: string)
    ensures NormalizeDate(NormalizeDate(d)) == NormalizeDate(d)
  {
    var r := NormalizeDate(d);
    if |d| == 8 && '-' !in d {
      assert r[4] == '-';
    }
  }

  lemma NormalizeDateExamples(compact: string, dashed: string)
    requires compact == "20250105" && dashed == "2025-01-05"
    ensures NormalizeDate(compact) == dashed
    ensures NormalizeDate(dashed) == dashed
  {
    assert '-' !in compact;
    assert dashed[4] == '-';
  }

  // ---------------------------------------------------------------------
  // The argument scan.

  /** How the scan reads each argument (or argument pair). */
  datatype Arg =
    | Help
    | SinceArg(value: string)
    | UntilArg(value: string)
    | ProjectArg(value: string)
    | JsonFlag
    | RebuildFlag
    | Ignored(arg: string)

  /** How the scan reads the argument at `i`: an option taking a value
      takes the next argument when there is one; an option without its value,
      and every unknown argument, is skipped. */
  function ScanAt(args: seq<string>, i: nat): (t: Arg)
    requires i < |args|
    ensures i + Width(t) <= |args|
  {
    var a := args[i];
    if a == "-h" || a == "--help" then Help
    else if a == "--since" && i + 1 < |args| then SinceArg(args[i + 1])
    else if a == "--until" && i + 1 < |args| then UntilArg(args[i + 1])
    else if a == "--project" && i + 1 < |args| then ProjectArg(args[i + 1])
    else if a == "--json" then JsonFlag
    else if a == "--rebuild" then RebuildFlag
    else Ignored(a)
  }

  /** How many arguments a token stands for. */
  function Width(t: Arg): nat {
    if t.SinceArg? || t.UntilArg? || t.ProjectArg? then 2 else 1
  }

  /** The tokens from argument `i` on. */
  function TokenizeFrom(args: seq<string>, i: nat): seq<Arg>
    requires i <= |args|
    decreases |args| - i
  {
    if i == |args| then []
    else
      var t := ScanAt(args, i);
      [t] + TokenizeFrom(args, i + Width(t))
  }

  /** The arguments as the scan groups them. */
  function Tokenize(args: seq<string>): seq<Arg> {
    TokenizeFrom(args, 0)
  }

  /** The options after one more token. */
  function Apply(o: CliOptions, t: Arg): CliOptions {
    match t
    case SinceArg(v) => o.(since := Some(NormalizeDate(v)))
    case UntilArg(v) => o.(until := Some(NormalizeDate(v)))
    case ProjectArg(v) => o.(project := Some(v))
    case JsonFlag => o.(json := true)
    case RebuildFlag => o.(rebuild := true)
    case _ => o
  }

  /** The options the tokens set, starting from the defaults. */
  function Options(toks: seq<Arg>): CliOptions
    decreases |toks|
  {
    if toks == [] then DefaultOptions else Apply(Options(toks[..|toks| - 1]), toks[|toks| - 1])
  }

  /** What parseArgs returns: nothing when help was asked for, otherwise the
      options. */
  function Parse(args: seq<string>): Option<CliOptions> {
    var toks := Tokenize(args);
    if Help in toks then None else Some(Options(toks))
  }

  /** parseArgs over `args` (the command line without the program name). */
  method ParseArgs(args: seq<string>) returns (r: Option<CliOptions>)
    ensures r == Parse(args)
  {
    var since: Option<string> := None;
    var until: Option<string> := None;
    var json := false;
    var project: Option<string> := None;
    var rebuild := false;
    var i := 0;
    ghost var done: seq<Arg> := [];
    while i < |args|
      invariant 0 <= i <= |args|
      invariant Tokenize(args) == done + TokenizeFrom(args, i)
      invariant Help !in done
      invariant CliOptions(since, until, json, project, rebuild) == Options(done)
      decreases |args| - i
    {
      var arg := args[i];
      ghost var t := ScanAt(args, i);
      ghost var next := i + Width(t);
      ScanStep(args, i, done);
      if arg == "-h" || arg == "--help" {
        assert Help in Tokenize(args);
        return None;
      }
      if arg == "--since" && i + 1 < |args| {
        assert t == SinceArg(args[i + 1]);
        i := i + 1;
        since := Some(NormalizeDate(args[i]));
        i := i + 1;
      } else if arg == "--until" && i + 1 < |args| {
        assert t == UntilArg(args[i + 1]);
        i := i + 1;
        until := Some(NormalizeDate(args[i]));
        i := i + 1;
      } else if arg == "--project" && i + 1 < |args| {
        assert t == ProjectArg(args[i + 1]);
        i := i + 1;
        project := Some(args[i]);
        i := i + 1;
      } else if arg == "--json" {
        assert t == JsonFlag;
        json := true;
        i := i + 1;
      } else if arg == "--rebuild" {
        assert t == RebuildFlag;
        rebuild := true;
        i := i + 1;
      } else {
        assert t == Ignored(arg);
        i := i + 1;
      }
      done := done + [t];
    }
    assert done == Tokenize(args);
    r := Some(CliOptions(since, until, json, project, rebuild));
  }

  /** One step of the scan: the token at `i` joins the tokens read so far
      and updates the options they set. */
  lemma ScanStep(args: seq<string>, i: nat, done: seq<Arg>)
    requires i < |args| && Tokenize(args) == done + TokenizeFrom(args, i)
    ensures var t := ScanAt(args, i);
      && Tokenize(args) == (done + [t]) + TokenizeFrom(args, i + Width(t))
      && Options(done + [t]) == Apply(Options(done), t)
  {
    var t := ScanAt(args, i);
    var rest := TokenizeFrom(args, i + Width(t));
    TokenizeFromUnfold(args, i);
    SeqAssoc(done, [t], rest);
    OptionsAppendOne(done, t);
  }

  lemma TokenizeFromUnfold(args: seq<string>, i: nat)
    requires i < |args|
    ensures TokenizeFrom(args, i) == [ScanAt(args, i)] + TokenizeFrom(args, i + Width(ScanAt(args, i)))
  {
  }

  lemma SeqAssoc<T>(a: seq<T>, b: seq<T>, c: seq<T>)
    ensures a + (b + c) == (a + b) + c
  {
  }

  function TotalWidth(toks: seq<Arg>): nat
    decreases |toks|
  {
    if toks == [] then 0 else Width(toks[0]) + TotalWidth(toks[1..])
  }

  /** The scan reads every argument exactly once. */
  lemma {:induction false} TokenizeFromCovers(args: seq<string>, i: nat)
    requires i <= |args|
    ensures TotalWidth(TokenizeFrom(args, i)) == |args| - i
    decreases |args| - i
  {
    if i < |args| {
      var t := ScanAt(args, i);
      assert TokenizeFrom(args, i)[1..] == TokenizeFrom(args, i + Width(t));
      TokenizeFromCovers(args, i + Width(t));
    }
  }

  lemma TokenizeCoversArgs(args: seq<string>)
    ensures TotalWidth(Tokenize(args)) == |args|
  {
    TokenizeFromCovers(args, 0);
  }

  /** "-h" or "--help" after any run of value-less flags stops the scan with
      no options, whatever follows. */
  lemma {:induction false} HelpAfterFlagsFrom(args: seq<string>, i: nat, h: nat)
    requires i <= h < |args|
    requires forall j :: i <= j < h ==> args[j] == "--json" || args[j] == "--rebuild"
    requires args[h] == "-h" || args[h] == "--help"
    ensures Help in TokenizeFrom(args, i)
    decreases h - i
  {
    if i < h {
      HelpAfterFlagsFrom(args, i + 1, h);
      assert TokenizeFrom(args, i) == [ScanAt(args, i)] + TokenizeFrom(args, i + 1);
    } else {
      assert TokenizeFrom(args, i)[0] == Help;
    }
  }

  lemma HelpAfterFlags(flags: seq<string>, help: string, rest: seq<string>)
    requires forall i :: 0 <= i < |flags| ==> flags[i] == "--json" || flags[i] == "--rebuild"
    requires help == "-h" || help == "--help"
    ensures Parse(flags + [help] + rest) == None
  {
    var args := flags + [help] + rest;
    HelpAfterFlagsFrom(args, 0, |flags|);
  }

  /** The argument after --since is its value even when it reads "-h". */
  lemma OptionValueNotScanned(since: string, h: string)
    requires since == "--since" && h == "-h"
    ensures Parse([since, h]) == Some(DefaultOptions.(since := Some(h)))
  {
    var args := [since, h];
    assert ScanAt(args, 0) == SinceArg(h);
    assert TokenizeFrom(args, 2) == [];
    assert Tokenize(args) == [SinceArg(h)];
    assert NormalizeDate(h) == h;
    OptionsAppendOne([], SinceArg(h));
    assert [] + [SinceArg(h)] == [SinceArg(h)];
  }

  /** An option at the end, with no value after it, is ignored. */
  lemma DanglingOption(opt: string)
    requires opt == "--since" || opt == "--until" || opt == "--project"
    ensures Parse([opt]) == Some(DefaultOptions)
  {
    var args := [opt];
    assert ScanAt(args, 0) == Ignored(opt);
    assert TokenizeFrom(args, 1) == [];
    assert Tokenize(args) == [Ignored(opt)];
    OptionsAppendOne([], Ignored(opt));
    assert [] + [Ignored(opt)] == [Ignored(opt)];
  }

  /** Options of a concatenation: the second part's tokens applied on top. */
  lemma {:induction false} OptionsAppendOne(t1: seq<Arg>, t: Arg)
    ensures Options(t1 + [t]) == Apply(Options(t1), t)
  {
    assert (t1 + [t])[..|t1|] == t1;
  }

  /** The last --since wins. */
  lemma {:induction false} LastSinceWins(t1: seq<Arg>, v: string, t2: seq<Arg>)
    requires forall i :: 0 <= i < |t2| ==> !t2[i].SinceArg?
    ensures Options(t1 + [SinceArg(v)] + t2).since == Some(NormalizeDate(v))
    decreases |t2|
  {
    if t2 == [] {
      assert t1 + [SinceArg(v)] + t2 == t1 + [SinceArg(v)];
      OptionsAppendOne(t1, SinceArg(v));
    } else {
      var front := t2[..|t2| - 1];
      assert t1 + [SinceArg(v)] + t2 == (t1 + [SinceArg(v)] + front) + [t2[|t2| - 1]];
      OptionsAppendOne(t1 + [SinceArg(v)] + front, t2[|t2| - 1]);
      LastSinceWins(t1, v, front);
    }
  }

  /** The last --until wins. */
  lemma {:induction false} LastUntilWins(t1: seq<Arg>, v: string, t2: seq<Arg>)
    requires forall i :: 0 <= i < |t2| ==> !t2[i].UntilArg?
    ensures Options(t1 + [UntilArg(v)] + t2).until == Some(NormalizeDate(v))
    decreases |t2|
  {
    if t2 == [] {
      assert t1 + [UntilArg(v)] + t2 == t1 + [UntilArg(v)];
      OptionsAppendOne(t1, UntilArg(v));
    } else {
      var front := t2[..|t2| - 1];
      assert t1 + [UntilArg(v)] + t2 == (t1 + [UntilArg(v)] + front) + [t2[|t2| - 1]];
      OptionsAppendOne(t1 + [UntilArg(v)] + front, t2[|t2| - 1]);
      LastUntilWins(t1, v, front);
    }
  }

  /** The last --project wins, and its value is taken as typed. */
  lemma {:induction false} LastProjectWins(t1: seq<Arg>, v: string, t2: seq<Arg>)
    requires forall i :: 0 <= i < |t2| ==> !t2[i].ProjectArg?
    ensures Options(t1 + [ProjectArg(v)] + t2).project == Some(v)
    decreases |t2|
  {
    if t2 == [] {
      assert t1 + [ProjectArg(v)] + t2 == t1 + [ProjectArg(v)];
      OptionsAppendOne(t1, ProjectArg(v));
    } else {
      var front := t2[..|t2| - 1];
      assert t1 + [ProjectArg(v)] + t2 == (t1 + [ProjectArg(v)] + front) + [t2[|t2| - 1]];
      OptionsAppendOne(t1 + [ProjectArg(v)] + front, t2[|t2| - 1]);
      LastProjectWins(t1, v, front);
    }
  }

  /** --json and --rebuild are set exactly when they occur, and an option
      with a value is unset when it never occurs. */
  lemma OptionsFlags(toks: seq<Arg>)
    ensures Options(toks).json <==> JsonFlag in toks
    ensures Options(toks).rebuild <==> RebuildFlag in toks
    ensures Options(toks).since.Some? <==> exists i :: 0 <= i < |toks| && toks[i].SinceArg?
    ensures Options(toks).until.Some? <==> exists i :: 0 <= i < |toks| && toks[i].UntilArg?
    ensures Options(toks).project.Some? <==> exists i :: 0 <= i < |toks| && toks[i].ProjectArg?
  {
    OptionsSwitches(toks);
    OptionsValues(toks);
  }

  lemma {:induction false} OptionsSwitches(toks: seq<Arg>)
    ensures Options(toks).json <==> JsonFlag in toks
    ensures Options(toks).rebuild <==> RebuildFlag in toks
    decreases |toks|
  {
    if toks != [] {
      var front := toks[..|toks| - 1];
      var last := toks[|toks| - 1];
      OptionsSwitches(front);
      assert toks == front + [last];
      assert Options(toks) == Apply(Options(front), last);
    }
  }

  lemma {:induction false} OptionsValues(toks: seq<Arg>)
    ensures Options(toks).since.Some? <==> exists i :: 0 <= i < |toks| && toks[i].SinceArg?
    ensures Options(toks).until.Some? <==> exists i :: 0 <= i < |toks| && toks[i].UntilArg?
    ensures Options(toks).project.Some? <==> exists i :: 0 <= i < |toks| && toks[i].ProjectArg?
    decreases |toks|
  {
    if toks != [] {
      var front := toks[..|toks| - 1];
      var last := toks[|toks| - 1];
      OptionsValues(front);
      assert Options(toks) == Apply(Options(front), last);
      ApplyValues(Options(front), last);
      SomeTokenSnoc(toks, front, (a: Arg) => a.SinceArg?);
      SomeTokenSnoc(toks, front, (a: Arg) => a.UntilArg?);
      SomeTokenSnoc(toks, front, (a: Arg) => a.ProjectArg?);
    }
  }

  /** A token of some kind occurs exactly when it occurs before the last
      token or is the last token. */
  lemma SomeTokenSnoc(toks: seq<Arg>, front: seq<Arg>, kind: Arg -> bool)
    requires toks != [] && front == toks[..|toks| - 1]
    ensures (exists i :: 0 <= i < |toks| && kind(toks[i]))
      <==> (exists i :: 0 <= i < |front| && kind(front[i])) || kind(toks[|toks| - 1])
  {
    if i :| 0 <= i < |toks| && kind(toks[i]) {
      if i < |toks| - 1 {
        assert kind(front[i]);
      }
    }
    if i :| 0 <= i < |front| && kind(front[i]) {
      assert kind(toks[i]);
    }
  }

  /** One token sets an option with a value exactly when it is that option. */
  lemma ApplyValues(o: CliOptions, t: Arg)
    ensures Apply(o, t).since.Some? <==> o.since.Some? || t.SinceArg?
    ensures Apply(o, t).until.Some? <==> o.until.Some? || t.UntilArg?
    ensures Apply(o, t).project.Some? <==> o.project.Some? || t.ProjectArg?
  {
  }

  // ---------------------------------------------------------------------
  // The driver.

  /** The cache agrees with the discovered files: each discovered file has a
      row with its mtime and size, and every row belongs to a discovered file. */
  ghost predicate CacheCurrent(files: map<string, FileRow>, discovered: seq<FileInfo>) {
    && (forall f :: f in discovered ==>
          f.filePath in files && files[f.filePath].mtimeMs == f.mtimeMs && files[f.filePath].size == f.size)
    && (forall p :: p in files ==> p in Paths(discovered))
  }

  /** Two discovered files with the same path are the same file. */
  lemma SamePathSameFile(discovered: seq<FileInfo>, f: FileInfo, g: FileInfo)
    requires NoDuplicates(Paths(discovered)) && f in discovered && g in discovered
    requires f.filePath == g.filePath
    ensures f == g
  {
    var i :| 0 <= i < |discovered| && discovered[i] == f;
    var j :| 0 <= j < |discovered| && discovered[j] == g;
    assert Paths(discovered)[i] == Paths(discovered)[j];
  }

  /** The files still to process: the added and the changed ones. */
  function ToProcess(discovered: seq<FileInfo>, cached: map<string, CachedMeta>): seq<FileInfo> {
    WithStatus(discovered, cached, Added) + WithStatus(discovered, cached, Changed)
  }

  lemma ToProcessMember(discovered: seq<FileInfo>, cached: map<string, CachedMeta>, g: FileInfo)
    ensures g in ToProcess(discovered, cached) <==> g in discovered && StatusOf(g, cached) != Unchanged
  {
    WithStatusMember(discovered, cached, Added, g);
    WithStatusMember(discovered, cached, Changed, g);
  }

  /** An unchanged file keeps its row through the write. */
  lemma UnchangedFileAfterWrite(start: map<string, FileRow>, discovered: seq<FileInfo>, removed: seq<string>, f: FileInfo)
    requires NoDuplicates(Paths(discovered))
    requires IsRemovedList(removed, discovered, CachedOf(start))
    requires f in discovered && StatusOf(f, CachedOf(start)) == Unchanged
    ensures var after := FilesAfterWrite(start, ToProcess(discovered, CachedOf(start)), removed);
      f.filePath in after && after[f.filePath].mtimeMs == f.mtimeMs && after[f.filePath].size == f.size
  {
    var toProcess := ToProcess(discovered, CachedOf(start));
    var j :| 0 <= j < |discovered| && discovered[j] == f;
    assert Paths(discovered)[j] == f.filePath;
    assert f.filePath !in removed;
    if g :| g in toProcess && g.filePath == f.filePath {
      ToProcessMember(discovered, CachedOf(start), g);
      SamePathSameFile(discovered, f, g);
    }
    assert f.filePath !in StalePaths(toProcess, removed);
    UntouchedFilesKept(start, toProcess, removed, f.filePath);
  }

  /** An added or changed file gets the row of its discovered metadata. */
  lemma ProcessedFileAfterWrite(start: map<string, FileRow>, discovered: seq<FileInfo>, removed: seq<string>, f: FileInfo)
    requires NoDuplicates(Paths(discovered))
    requires f in ToProcess(discovered, CachedOf(start))
    ensures var after := FilesAfterWrite(start, ToProcess(discovered, CachedOf(start)), removed);
      f.filePath in after && after[f.filePath].mtimeMs == f.mtimeMs && after[f.filePath].size == f.size
  {
    var toProcess := ToProcess(discovered, CachedOf(start));
    var stale := StalePaths(toProcess, removed);
    var after := FilesAfterWrite(start, toProcess, removed);
    ToProcessMember(discovered, CachedOf(start), f);
    var entries := FileEntries(toProcess);
    var n :| 0 <= n < |toProcess| && toProcess[n] == f;
    assert entries[n].0 == f.filePath;
    assert f.filePath !in start - stale;
    InsertAllFromEntry(start - stale, entries, f.filePath);
    var i :| 0 <= i < |entries| && entries[i].0 == f.filePath && after[f.filePath] == entries[i].1;
    assert toProcess[i] in toProcess;
    ToProcessMember(discovered, CachedOf(start), toProcess[i]);
    SamePathSameFile(discovered, f, toProcess[i]);
  }

  /** After the write every row belongs to a discovered file. */
  lemma RowsAfterWriteDiscovered(start: map<string, FileRow>, discovered: seq<FileInfo>, removed: seq<string>, p: string)
    requires IsRemovedList(removed, discovered, CachedOf(start))
    requires p in FilesAfterWrite(start, ToProcess(discovered, CachedOf(start)), removed)
    ensures p in Paths(discovered)
  {
    var toProcess := ToProcess(discovered, CachedOf(start));
    var stale := StalePaths(toProcess, removed);
    InsertAllKeys(start - stale, FileEntries(toProcess));
    if p !in start - stale {
      var i :| 0 <= i < |toProcess| && FileEntries(toProcess)[i].0 == p;
      assert toProcess[i] in toProcess;
      ToProcessMember(discovered, CachedOf(start), toProcess[i]);
      var j :| 0 <= j < |discovered| && discovered[j] == toProcess[i];
      assert Paths(discovered)[j] == p;
    }
  }

  /** After writing the added and changed files and deleting the removed ones,
      the cache is current. */
  lemma CacheCurrentAfterWrite(start: map<string, FileRow>, discovered: seq<FileInfo>, removed: seq<string>)
    requires NoDuplicates(Paths(discovered))
    requires IsRemovedList(removed, discovered, CachedOf(start))
    ensures CacheCurrent(FilesAfterWrite(start, ToProcess(discovered, CachedOf(start)), removed), discovered)
  {
    var after := FilesAfterWrite(start, ToProcess(discovered, CachedOf(start)), removed);
    forall f | f in discovered
      ensures f.filePath in after && after[f.filePath].mtimeMs == f.mtimeMs && after[f.filePath].size == f.size
    {
      if StatusOf(f, CachedOf(start)) == Unchanged {
        UnchangedFileAfterWrite(start, discovered, removed, f);
      } else {
        ToProcessMember(discovered, CachedOf(start), f);
        ProcessedFileAfterWrite(start, discovered, removed, f);
      }
    }
    forall p | p in after ensures p in Paths(discovered) {
      RowsAfterWriteDiscovered(start, discovered, removed, p);
    }
  }

  /** With nothing to process and nothing removed, the cache already is current. */
  lemma CacheCurrentWithoutWrite(start: map<string, FileRow>, discovered: seq<FileInfo>, removed: seq<string>)
    requires IsRemovedList(removed, discovered, CachedOf(start))
    requires ToProcess(discovered, CachedOf(start)) == []
    requires removed == []
    ensures CacheCurrent(start, discovered)
  {
    var cached := CachedOf(start);
    forall f | f in discovered
      ensures f.filePath in start && start[f.filePath].mtimeMs == f.mtimeMs && start[f.filePath].size == f.size
    {
      ToProcessMember(discovered, cached, f);
    }
  }

  /** Diffing the same files against a current cache finds nothing to do. */
  lemma SecondDiffEmpty(files: map<string, FileRow>, discovered: seq<FileInfo>, removed: seq<string>)
    requires CacheCurrent(files, discovered)
    requires IsRemovedList(removed, discovered, CachedOf(files))
    ensures WithStatus(discovered, CachedOf(files), Added) == []
    ensures WithStatus(discovered, CachedOf(files), Changed) == []
    ensures forall p :: p !in removed
  {
    CacheMatchesNothingToDo(discovered, CachedOf(files));
  }

  /** When the files SELECT fails the diff sees an empty cache: every file
      is processed, nothing is removed, and the row of a file that is no
      longer discovered survives the write, so the cache is not current. */
  lemma FailedSelectKeepsStaleRows(start: map<string, FileRow>, discovered: seq<FileInfo>, removed: seq<string>, p: string)
    requires IsRemovedList(removed, discovered, map[])
    requires p in start && p !in Paths(discovered)
    ensures ToProcess(discovered, map[]) == discovered && forall q :: q !in removed
    ensures p in FilesAfterWrite(start, discovered, removed)
    ensures !CacheCurrent(FilesAfterWrite(start, discovered, removed), discovered)
  {
    AllAddedWithoutCache(discovered);
    forall f | f in discovered ensures f.filePath != p {
      var j :| 0 <= j < |discovered| && discovered[j] == f;
      assert Paths(discovered)[j] == f.filePath;
    }
    assert p !in StalePaths(discovered, removed);
    UntouchedFilesKept(start, discovered, removed, p);
  }

  /** Against an empty cache every discovered file is added. */
  lemma AllAddedWithoutCache(discovered: seq<FileInfo>)
    ensures ToProcess(discovered, map[]) == discovered
  {
    AddedWithoutCache(discovered);
    ChangedWithoutCache(discovered);
  }

  lemma {:induction false} AddedWithoutCache(discovered: seq<FileInfo>)
    ensures WithStatus(discovered, map[], Added) == discovered
    decreases |discovered|
  {
    if discovered != [] {
      var front := discovered[..|discovered| - 1];
      var last := discovered[|discovered| - 1];
      AddedWithoutCache(front);
      assert StatusOf(last, map[]) == Added;
      assert discovered == front + [last];
    }
  }

  lemma {:induction false} ChangedWithoutCache(discovered: seq<FileInfo>)
    ensures WithStatus(discovered, map[], Changed) == []
    decreases |discovered|
  {
    if discovered != [] {
      ChangedWithoutCache(discovered[..|discovered| - 1]);
      assert StatusOf(discovered[|discovered| - 1], map[]) == Added;
    }
  }

  /** The cache update of one run (clear when rebuilding, diff against the
      cached files, parse the added and changed ones, write the results):
      `read` gives each file's lines and `toLocalDate` the local date of a
      timestamp; the flags say whether each SQL statement prepares. */
  method UpdateCache(rebuild: bool, db: CostDatabase, discovered: seq<FileInfo>,
                     read: string -> Option<seq<Line>>, toLocalDate: string -> string,
                     selectStmtOk: bool, fileStmtOk: bool, usageStmtOk: bool)
    returns (filesToProcess: seq<FileInfo>, diff: DiffResult, records: seq<UsageRecord>, ghost parts: seq<seq<UsageRecord>>)
    modifies db
    // The diff against the cache as read (empty when the SELECT failed).
    ensures var start := if rebuild then map[] else old(db.files);
      var cached := if selectStmtOk then CachedOf(start) else map[];
      && diff.added == WithStatus(discovered, cached, Added)
      && diff.changed == WithStatus(discovered, cached, Changed)
      && diff.unchangedPaths == Paths(WithStatus(discovered, cached, Unchanged))
      && IsRemovedList(diff.removed, discovered, cached)
    ensures filesToProcess == diff.added + diff.changed
    // The records parsed from the files to process.
    ensures |parts| == |filesToProcess| && records == Flatten(parts)
    ensures forall i :: 0 <= i < |filesToProcess| ==>
      IsFileListing(parts[i], filesToProcess[i], BatchAggregate(filesToProcess, read, toLocalDate, i))
    // The tables after the write: committed, or left as they were.
    ensures var start := if rebuild then map[] else old(db.files);
      var startUsage := if rebuild then map[] else old(db.usage);
      if fileStmtOk && usageStmtOk && (filesToProcess != [] || diff.removed != []) then
        db.files == FilesAfterWrite(start, filesToProcess, diff.removed)
        && db.usage == UsageAfterWrite(startUsage, filesToProcess, records, diff.removed)
      else db.files == start && db.usage == startUsage
    ensures rebuild || Integrity(old(db.files), old(db.usage)) ==> Integrity(db.files, db.usage)
    ensures selectStmtOk && fileStmtOk && usageStmtOk && NoDuplicates(Paths(discovered)) ==>
      CacheCurrent(db.files, discovered)
  {
    if rebuild {
      db.ClearCache();
    }
    ghost var start := db.files;
    ghost var startUsage := db.usage;
    assert start == (if rebuild then map[] else old(db.files));
    assert startUsage == (if rebuild then map[] else old(db.usage));
    assert Integrity(old(db.files), old(db.usage)) ==> Integrity(start, startUsage);
    var cached := db.GetCachedFiles(selectStmtOk);
    diff := DiffFiles(discovered, cached);
    filesToProcess := diff.added + diff.changed;
    assert filesToProcess == ToProcess(discovered, cached);
    records, parts := ParseFiles(filesToProcess, read, toLocalDate);
    if filesToProcess != [] || diff.removed != [] {
      db.WriteResults(filesToProcess, records, diff.removed, fileStmtOk, usageStmtOk);
      if selectStmtOk && fileStmtOk && usageStmtOk && NoDuplicates(Paths(discovered)) {
        CacheCurrentAfterWrite(start, discovered, diff.removed);
      }
    } else if selectStmtOk && fileStmtOk && usageStmtOk && NoDuplicates(Paths(discovered)) {
      CacheCurrentWithoutWrite(start, discovered, diff.removed);
    }
  }

  /** One run of ccost: the cache update, then the daily summaries of the
      rows the options select, priced by `pricing`. */
  method Run(opts: CliOptions, db: CostDatabase, pricing: PricingTable, discovered: seq<FileInfo>,
             read: string -> Option<seq<Line>>, toLocalDate: string -> string,
             selectStmtOk: bool, fileStmtOk: bool, usageStmtOk: bool, queryStmtOk: bool, sessionStmtOk: bool)
    returns (summaries: seq<DailySummary>, filesToProcess: seq<FileInfo>, diff: DiffResult,
             records: seq<UsageRecord>, ghost parts: seq<seq<UsageRecord>>)
    requires pricing.Valid()
    modifies db, pricing
    ensures pricing.Valid()
    ensures pricing.pricing == old(pricing.pricing) && pricing.keyOrder == old(pricing.keyOrder)
    // The cache update.
    ensures var start := if opts.rebuild then map[] else old(db.files);
      var cached := if selectStmtOk then CachedOf(start) else map[];
      && diff.added == WithStatus(discovered, cached, Added)
      && diff.changed == WithStatus(discovered, cached, Changed)
      && diff.unchangedPaths == Paths(WithStatus(discovered, cached, Unchanged))
      && IsRemovedList(diff.removed, discovered, cached)
    ensures filesToProcess == diff.added + diff.changed
    ensures |parts| == |filesToProcess| && records == Flatten(parts)
    ensures forall i :: 0 <= i < |filesToProcess| ==>
      IsFileListing(parts[i], filesToProcess[i], BatchAggregate(filesToProcess, read, toLocalDate, i))
    ensures var start := if opts.rebuild then map[] else old(db.files);
      var startUsage := if opts.rebuild then map[] else old(db.usage);
      if fileStmtOk && usageStmtOk && (filesToProcess != [] || diff.removed != []) then
        db.files == FilesAfterWrite(start, filesToProcess, diff.removed)
        && db.usage == UsageAfterWrite(startUsage, filesToProcess, records, diff.removed)
      else db.files == start && db.usage == startUsage
    ensures opts.rebuild || Integrity(old(db.files), old(db.usage)) ==> Integrity(db.files, db.usage)
    ensures selectStmtOk && fileStmtOk && usageStmtOk && NoDuplicates(Paths(discovered)) ==>
      CacheCurrent(db.files, discovered)
    // The report.
    ensures !queryStmtOk ==> summaries == []
    ensures queryStmtOk ==> AscendingDates(summaries)
    ensures queryStmtOk ==> forall i :: 0 <= i < |summaries| ==>
      summaries[i].date in Dates(Selected(db.usage, opts.since, opts.until, opts.project))
      && summaries[i] == Reported(db.usage, Selected(db.usage, opts.since, opts.until, opts.project),
                                  pricing.pricing, pricing.keyOrder, sessionStmtOk, summaries[i].date)
    ensures queryStmtOk ==> forall d :: d in Dates(Selected(db.usage, opts.since, opts.until, opts.project)) ==>
      exists i :: 0 <= i < |summaries| && summaries[i].date == d
    ensures pricing.unknownModels == old(pricing.unknownModels)
      + (if queryStmtOk then NewUnknown(pricing.pricing, Groups(Selected(db.usage, opts.since, opts.until, opts.project)))
         else {})
  {
    filesToProcess, diff, records, parts :=
      UpdateCache(opts.rebuild, db, discovered, read, toLocalDate, selectStmtOk, fileStmtOk, usageStmtOk);
    summaries := db.QueryDailySummaries(opts.since, opts.until, opts.project, pricing,
                                        queryStmtOk, sessionStmtOk);
  }
}
