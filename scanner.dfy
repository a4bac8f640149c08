/** File scanner (app/Sources/CCostLib/Scanner.swift): classification of the
    discovered log files against the cached (mtime, size) metadata, and the
    session id and project directory derived from a file's path. The directory
    walk itself (discoverFiles, walkJsonl) reads the filesystem and is not part
    of this model; its result is the `discovered` parameter. */
module Scanner {
  import opened Wrappers
  import opened Strings
  import opened Models

  /** How one discovered file compares with the cache. */
  datatype Status = Added | Changed | Unchanged

  function StatusOf(f: FileInfo, cached: map<string, CachedMeta>): Status {
    if f.filePath !in cached then Added
    else if cached[f.filePath].mtimeMs != f.mtimeMs || cached[f.filePath].size != f.size then Changed
    else Unchanged
  }

  /** The discovered files whose status is `st`, in discovery order. */
  function WithStatus(discovered: seq<FileInfo>, cached: map<string, CachedMeta>, st: Status): seq<FileInfo>
    decreases |discovered|
  {
    if discovered == [] then []
    else
      var last := discovered[|discovered| - 1];
      WithStatus(discovered[..|discovered| - 1], cached, st) + (if StatusOf(last, cached) == st then [last] else [])
  }

  /** The removed list: every cached path that was not discovered, each once,
      in some order (the source filters the dictionary's keys, whose order is
      unspecified). */
  ghost predicate IsRemovedList(removed: seq<string>, discovered: seq<FileInfo>, cached: map<string, CachedMeta>) {
    && NoDuplicates(removed)
    && forall p :: p in removed <==> p in cached && p !in Paths(discovered)
  }

  /** Classifies the discovered files against the cache. */
  method DiffFiles(discovered: seq<FileInfo>, cached: map<string, CachedMeta>) returns (r: DiffResult)
    ensures r.added == WithStatus(discovered, cached, Added)
    ensures r.changed == WithStatus(discovered, cached, Changed)
    ensures r.unchangedPaths == Paths(WithStatus(discovered, cached, Unchanged))
    ensures IsRemovedList(r.removed, discovered, cached)
  {
    var added: seq<FileInfo> := [];
    var changed: seq<FileInfo> := [];
    var unchangedFiles: seq<FileInfo> := [];
    var seenPaths: set<string> := {};
    for i := 0 to |discovered|
      invariant added == WithStatus(discovered[..i], cached, Added)
      invariant changed == WithStatus(discovered[..i], cached, Changed)
      invariant unchangedFiles == WithStatus(discovered[..i], cached, Unchanged)
      invariant seenPaths == set f | f in discovered[..i] :: f.filePath
    {
      var file := discovered[i];
      assert discovered[..i + 1][..i] == discovered[..i];
      seenPaths := seenPaths + {file.filePath};
      if file.filePath !in cached {
        added := added + [file];
      } else if cached[file.filePath].mtimeMs != file.mtimeMs || cached[file.filePath].size != file.size {
        changed := changed + [file];
      } else {
        unchangedFiles := unchangedFiles + [file];
      }
    }
    assert discovered[..|discovered|] == discovered;
    var removed: seq<string> := [];
    var rest := cached.Keys;
    while rest != {}
      invariant rest <= cached.Keys
      invariant NoDuplicates(removed)
      invariant forall p :: p in removed <==> p in cached.Keys - rest && p !in seenPaths
      decreases rest
    {
      var key :| key in rest;
      if key !in seenPaths {
        removed := removed + [key];
      }
      rest := rest - {key};
    }
    forall p ensures p in seenPaths <==> p in Paths(discovered) {
      if p in Paths(discovered) {
        var i :| 0 <= i < |discovered| && Paths(discovered)[i] == p;
        assert discovered[i] in discovered;
      }
    }
    r := DiffResult(added, changed, removed, Paths(unchangedFiles));
  }

  /** A discovered file lands in the list of its status, and only there. */
  lemma {:induction false} WithStatusMember(discovered: seq<FileInfo>, cached: map<string, CachedMeta>, st: Status, f: FileInfo)
    ensures f in WithStatus(discovered, cached, st) <==> f in discovered && StatusOf(f, cached) == st
    decreases |discovered|
  {
    if discovered != [] {
      var front := discovered[..|discovered| - 1];
      WithStatusMember(front, cached, st, f);
      assert discovered == front + [discovered[|discovered| - 1]];
    }
  }

  /** Classification is order-preserving: the lists of a concatenation are the
      concatenations of the lists. */
  lemma {:induction false} WithStatusAppend(d1: seq<FileInfo>, d2: seq<FileInfo>, cached: map<string, CachedMeta>, st: Status)
    ensures WithStatus(d1 + d2, cached, st) == WithStatus(d1, cached, st) + WithStatus(d2, cached, st)
    decreases |d2|
  {
    if d2 == [] {
      assert d1 + d2 == d1;
    } else {
      var front := d2[..|d2| - 1];
      assert (d1 + d2)[..|d1 + d2| - 1] == d1 + front;
      WithStatusAppend(d1, front, cached, st);
    }
  }

  /** added, changed and unchanged together hold exactly as many entries as
      were discovered. */
  lemma {:induction false} DiffCounts(discovered: seq<FileInfo>, cached: map<string, CachedMeta>)
    ensures |WithStatus(discovered, cached, Added)| + |WithStatus(discovered, cached, Changed)|
            + |WithStatus(discovered, cached, Unchanged)| == |discovered|
    decreases |discovered|
  {
    if discovered != [] {
      DiffCounts(discovered[..|discovered| - 1], cached);
    }
  }

  /** Every discovered file is in exactly one of added, changed, unchanged,
      chosen by its cache entry. */
  lemma DiffPartition(discovered: seq<FileInfo>, cached: map<string, CachedMeta>, f: FileInfo)
    requires f in discovered
    ensures f in WithStatus(discovered, cached, Added) <==> f.filePath !in cached
    ensures f in WithStatus(discovered, cached, Changed) <==>
      f.filePath in cached && (cached[f.filePath].mtimeMs != f.mtimeMs || cached[f.filePath].size != f.size)
    ensures f in WithStatus(discovered, cached, Unchanged) <==>
      f.filePath in cached && cached[f.filePath] == CachedMeta(f.mtimeMs, f.size)
  {
    WithStatusMember(discovered, cached, Added, f);
    WithStatusMember(discovered, cached, Changed, f);
    WithStatusMember(discovered, cached, Unchanged, f);
  }

  /** A removed path is a cached path no discovered file has, so it is in none
      of the other three lists; and every cached path is either removed or the
      path of a discovered file. */
  lemma RemovedDisjoint(removed: seq<string>, discovered: seq<FileInfo>, cached: map<string, CachedMeta>, st: Status, p: string)
    requires IsRemovedList(removed, discovered, cached)
    ensures p in removed ==> p !in Paths(WithStatus(discovered, cached, st))
    ensures p in cached ==> p in removed || p in Paths(discovered)
  {
    var files := WithStatus(discovered, cached, st);
    if p in Paths(files) {
      var i :| 0 <= i < |files| && Paths(files)[i] == p;
      WithStatusMember(discovered, cached, st, files[i]);
      var j :| 0 <= j < |discovered| && discovered[j] == files[i];
      assert Paths(discovered)[j] == p;
    }
  }

  /** When every discovered file has a matching cache entry, nothing is added
      or changed. */
  lemma CacheMatchesNothingToDo(discovered: seq<FileInfo>, cached: map<string, CachedMeta>)
    requires forall f :: f in discovered ==> f.filePath in cached && cached[f.filePath] == CachedMeta(f.mtimeMs, f.size)
    ensures WithStatus(discovered, cached, Added) == []
    ensures WithStatus(discovered, cached, Changed) == []
  {
    var a := WithStatus(discovered, cached, Added);
    var c := WithStatus(discovered, cached, Changed);
    if a != [] {
      WithStatusMember(discovered, cached, Added, a[0]);
    }
    if c != [] {
      WithStatusMember(discovered, cached, Changed, c[0]);
    }
  }

  // ---------------------------------------------------------------------
  // Path-derived fields.

  /** NSString.lastPathComponent for the paths the walk produces
      (never ending in '/'). */
  function LastPathComponent(filePath: string): (r: string)
    ensures '/' !in r
  {
    AfterLast(filePath, '/')
  }

  /** The file name without a trailing ".jsonl". */
  function ExtractSessionId(filePath: string): (r: string)
    ensures HasSuffix(LastPathComponent(filePath), ".jsonl") ==> r + ".jsonl" == LastPathComponent(filePath)
    ensures !HasSuffix(LastPathComponent(filePath), ".jsonl") ==> r == LastPathComponent(filePath)
    ensures '/' !in r
  {
    var name := LastPathComponent(filePath);
    if HasSuffix(name, ".jsonl") then
      assert name == name[..|name| - 6] + name[|name| - 6..];
      name[..|name| - 6]
    else name
  }

  /** A log file named `<id>.jsonl` in any directory has session id `<id>`. */
  lemma SessionIdOfLogFile(dir: string, id: string)
    requires '/' !in id
    ensures ExtractSessionId(dir + "/" + id + ".jsonl") == id
  {
    var name := id + ".jsonl";
    assert '/' !in name by {
      assert forall i :: 0 <= i < |name| ==> name[i] != '/' by {
        forall i | 0 <= i < |name| ensures name[i] != '/' {
          if i >= |id| { assert name[i] == ".jsonl"[i - |id|]; }
        }
      }
    }
    assert dir + "/" + id + ".jsonl" == dir + ['/'] + name;
    AfterLastAppend(dir, '/', name);
    assert name[|name| - 6..] == ".jsonl";
    assert name[..|name| - 6] == id;
  }

  /** The first path segment under `projectsDir`, or the path itself when it is
      not under `projectsDir`. */
  function ExtractProjectDir(projectsDir: string, filePath: string): (r: string)
    ensures !HasPrefix(filePath, projectsDir + "/") ==> r == filePath
    ensures HasPrefix(filePath, projectsDir + "/") ==>
      var relative := filePath[|projectsDir| + 1..];
      && '/' !in r
      && HasPrefix(relative, r)
      && (r == relative || relative[|r|] == '/')
  {
    var prefix := projectsDir + "/";
    if !HasPrefix(filePath, prefix) then filePath
    else
      var relative := filePath[|prefix|..];
      match FirstIndex(relative, '/')
      case None => relative
      case Some(slash) => relative[..slash]
  }

  /** A file under `<projectsDir>/<project>/` belongs to `<project>`. */
  lemma ProjectDirOfLogFile(projectsDir: string, project: string, rest: string)
    requires '/' !in project
    ensures ExtractProjectDir(projectsDir, projectsDir + "/" + project + "/" + rest) == project
  {
    var path := projectsDir + "/" + project + "/" + rest;
    var prefix := projectsDir + "/";
    assert path[..|prefix|] == prefix;
    var relative := path[|prefix|..];
    assert relative == project + ['/'] + rest;
    FirstIndexAfter(project, '/', rest);
    assert relative[..|project|] == project;
  }
}
