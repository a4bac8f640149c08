/** The SQLite cache (app/Sources/CCostLib/Database.swift). The `files` table
    is a map keyed by file_path and the `usage` table a map keyed by
    (file_path, date, model), the two primary keys. An INSERT that hits an
    existing primary key fails and its error is ignored, so the first row per
    key wins. Whether each prepared INSERT and SELECT statement (the files
    SELECT of getCachedFiles, the two INSERTs of writeResults, the two SELECTs
    of the daily query) prepares is a parameter; the one-parameter DELETE
    statements are taken to succeed. */
module Database {
  import opened Wrappers
  import opened Strings
  import opened Models
  import opened Pricing

  datatype FileRow = FileRow(mtimeMs: int, size: int, sessionId: string, projectDir: string)

  datatype UsageKey = UsageKey(filePath: string, date: string, model: string)

  /** The four token columns. */
  datatype Tokens = Tokens(input: int, output: int, cacheCreation: int, cacheRead: int)

  datatype UsageRow = UsageRow(sessionId: string, projectDir: string, tokens: Tokens, messageCount: int)

  const NoTokens: Tokens := Tokens(0, 0, 0, 0)

  function AddTokens(a: Tokens, b: Tokens): Tokens {
    Tokens(a.input + b.input, a.output + b.output, a.cacheCreation + b.cacheCreation, a.cacheRead + b.cacheRead)
  }

  function FileRowOf(f: FileInfo): FileRow {
    FileRow(f.mtimeMs, f.size, f.sessionId, f.projectDir)
  }

  /** The files table projected to path → (mtime, size). */
  function CachedOf(files: map<string, FileRow>): (r: map<string, CachedMeta>)
    ensures r.Keys == files.Keys
  {
    map p | p in files :: CachedMeta(files[p].mtimeMs, files[p].size)
  }

  function UsageKeyOf(r: UsageRecord): UsageKey {
    UsageKey(r.filePath, r.date, r.model)
  }

  function UsageRowOf(r: UsageRecord): UsageRow {
    UsageRow(r.sessionId, r.projectDir,
      Tokens(r.inputTokens, r.outputTokens, r.cacheCreationInputTokens, r.cacheReadInputTokens), r.messageCount)
  }

  // ---------------------------------------------------------------------
  // Table updates.

  /** The keys of a list of entries, in order. */
  function KeysOfEntries<K, V>(es: seq<(K, V)>): (r: seq<K>)
    ensures |r| == |es| && forall i :: 0 <= i < |es| ==> r[i] == es[i].0
  {
    seq(|es|, i requires 0 <= i < |es| => es[i].0)
  }

  /** Inserting the entries in order, each only when its key is absent. */
  function InsertAll<K(==), V>(m: map<K, V>, es: seq<(K, V)>): map<K, V>
    decreases |es|
  {
    if es == [] then m
    else
      var front := InsertAll(m, es[..|es| - 1]);
      var e := es[|es| - 1];
      if e.0 in front then front else front[e.0 := e.1]
  }

  function FileEntries(infos: seq<FileInfo>): (r: seq<(string, FileRow)>)
    ensures |r| == |infos| && forall i :: 0 <= i < |infos| ==> r[i] == (infos[i].filePath, FileRowOf(infos[i]))
  {
    seq(|infos|, i requires 0 <= i < |infos| => (infos[i].filePath, FileRowOf(infos[i])))
  }

  function UsageEntries(records: seq<UsageRecord>): (r: seq<(UsageKey, UsageRow)>)
    ensures |r| == |records| && forall i :: 0 <= i < |records| ==> r[i] == (UsageKeyOf(records[i]), UsageRowOf(records[i]))
  {
    seq(|records|, i requires 0 <= i < |records| => (UsageKeyOf(records[i]), UsageRowOf(records[i])))
  }

  /** `DELETE FROM usage WHERE file_path = ?` for every path in `paths`. */
  function UsageWithout(usage: map<UsageKey, UsageRow>, paths: set<string>): map<UsageKey, UsageRow> {
    map k | k in usage && k.filePath !in paths :: usage[k]
  }

  /** The paths whose rows writeResults deletes: the removed paths and the
      paths of the files being written. */
  function StalePaths(infos: seq<FileInfo>, removedPaths: seq<string>): set<string> {
    (set p | p in removedPaths) + (set f | f in infos :: f.filePath)
  }

  /** The files table after a committed writeResults. */
  function FilesAfterWrite(files: map<string, FileRow>, infos: seq<FileInfo>, removedPaths: seq<string>): map<string, FileRow> {
    InsertAll(files - StalePaths(infos, removedPaths), FileEntries(infos))
  }

  /** The usage table after a committed writeResults. */
  function UsageAfterWrite(usage: map<UsageKey, UsageRow>, infos: seq<FileInfo>, records: seq<UsageRecord>,
                           removedPaths: seq<string>): map<UsageKey, UsageRow>
  {
    InsertAll(UsageWithout(usage, StalePaths(infos, removedPaths)), UsageEntries(records))
  }

  // ---------------------------------------------------------------------
  // The daily-summary query.

  /** `date >= since AND date <= until`, each bound only when given. */
  predicate InRange(date: string, since: Option<string>, until: Option<string>) {
    (since.None? || !Less(date, since.value)) && (until.None? || !Less(until.value, date))
  }

  /** `project_dir LIKE '%project%'`, read as plain substring containment. */
  predicate ProjectMatches(projectDir: string, project: Option<string>) {
    project.None? || Contains(projectDir, project.value)
  }

  /** The usage rows the WHERE clause keeps. */
  function Selected(usage: map<UsageKey, UsageRow>, since: Option<string>, until: Option<string>,
                    project: Option<string>): (r: set<UsageKey>)
    ensures r <= usage.Keys
  {
    set k | k in usage && InRange(k.date, since, until) && ProjectMatches(usage[k].projectDir, project)
  }

  datatype Group = Group(date: string, model: string)

  function GroupOf(k: UsageKey): Group {
    Group(k.date, k.model)
  }

  /** `GROUP BY date, model`. */
  function Groups(keys: set<UsageKey>): set<Group> {
    set k | k in keys :: GroupOf(k)
  }

  function RowsIn(keys: set<UsageKey>, g: Group): (r: set<UsageKey>)
    ensures r <= keys
  {
    set k | k in keys && GroupOf(k) == g
  }

  function RowsOfGroups(keys: set<UsageKey>, gs: set<Group>): (r: set<UsageKey>)
    ensures r <= keys
  {
    set k | k in keys && GroupOf(k) in gs
  }

  function RowsOn(keys: set<UsageKey>, date: string): (r: set<UsageKey>)
    ensures r <= keys
  {
    set k | k in keys && k.date == date
  }

  function GroupsOn(gs: set<Group>, date: string): (r: set<Group>)
    ensures r <= gs
  {
    set g | g in gs && g.date == date
  }

  function Dates(keys: set<UsageKey>): set<string> {
    set k | k in keys :: k.date
  }

  /** `SUM(...)` of the token columns over a set of rows. */
  ghost function SumTokens(usage: map<UsageKey, UsageRow>, keys: set<UsageKey>): Tokens
    requires keys <= usage.Keys
    decreases keys
  {
    if keys == {} then NoTokens
    else
      var k :| k in keys;
      AddTokens(usage[k].tokens, SumTokens(usage, keys - {k}))
  }

  /** The cost of one (date, model) group: its summed tokens at its model's rates. */
  ghost function GroupCost(usage: map<UsageKey, UsageRow>, keys: set<UsageKey>,
                           table: map<string, ModelPricing>, order: seq<string>, g: Group): real
    requires keys <= usage.Keys && IsKeyOrder(order, table)
  {
    var t := SumTokens(usage, RowsIn(keys, g));
    Cost(PriceOf(table, order, g.model), t.input, t.output, t.cacheCreation, t.cacheRead)
  }

  /** Each group's cost. */
  ghost function GroupCosts(usage: map<UsageKey, UsageRow>, keys: set<UsageKey>,
                            table: map<string, ModelPricing>, order: seq<string>): (r: map<Group, real>)
    requires keys <= usage.Keys && IsKeyOrder(order, table)
    ensures r.Keys == Groups(keys)
  {
    map g | g in Groups(keys) :: GroupCost(usage, keys, table, order, g)
  }

  /** The total cost of the groups `gs`. */
  ghost function SumCost(costs: map<Group, real>, gs: set<Group>): real
    requires gs <= costs.Keys
    decreases gs
  {
    if gs == {} then 0.0
    else
      var g :| g in gs;
      costs[g] + SumCost(costs, gs - {g})
  }

  /** `COUNT(DISTINCT session_id)` over the rows of one date. */
  function Sessions(usage: map<UsageKey, UsageRow>, keys: set<UsageKey>, date: string): nat
    requires keys <= usage.Keys
  {
    |set k | k in RowsOn(keys, date) :: usage[k].sessionId|
  }

  /** The summary the query reports for `date`. */
  ghost function DaySummary(usage: map<UsageKey, UsageRow>, keys: set<UsageKey>,
                            table: map<string, ModelPricing>, order: seq<string>, date: string): DailySummary
    requires keys <= usage.Keys && IsKeyOrder(order, table)
  {
    var t := SumTokens(usage, RowsOn(keys, date));
    DailySummary(date, SumCost(GroupCosts(usage, keys, table, order), GroupsOn(Groups(keys), date)),
      t.input, t.output, t.cacheCreation, t.cacheRead, Sessions(usage, keys, date))
  }

  /** The summary accumulated for `date` once the groups in `done` are read. */
  ghost function PartialDay(usage: map<UsageKey, UsageRow>, keys: set<UsageKey>, costs: map<Group, real>,
                            done: set<Group>, date: string): DailySummary
    requires keys <= usage.Keys && done <= costs.Keys
  {
    var t := SumTokens(usage, RowsOfGroups(keys, GroupsOn(done, date)));
    DailySummary(date, SumCost(costs, GroupsOn(done, date)),
      t.input, t.output, t.cacheCreation, t.cacheRead, 0)
  }

  /** A summary with one more group's cost and tokens added. */
  function AddGroup(s: DailySummary, cost: real, t: Tokens): DailySummary {
    s.(cost := s.cost + cost,
       inputTokens := s.inputTokens + t.input,
       outputTokens := s.outputTokens + t.output,
       cacheCreationInputTokens := s.cacheCreationInputTokens + t.cacheCreation,
       cacheReadInputTokens := s.cacheReadInputTokens + t.cacheRead)
  }

  /** One group's cost and tokens added to its date's summary. */
  function AddToDays(dayMap: map<string, DailySummary>, date: string, cost: real, t: Tokens): map<string, DailySummary> {
    if date in dayMap then dayMap[date := AddGroup(dayMap[date], cost, t)]
    else dayMap[date := DailySummary(date, cost, t.input, t.output, t.cacheCreation, t.cacheRead, 0)]
  }

  /** The model names of `gs` that pricing records as unknown. */
  function NewUnknown(table: map<string, ModelPricing>, gs: set<Group>): set<string> {
    set g | g in gs && g.model !in table && !HasFuzzyMatch(table, g.model) && HasPrefix(g.model, "claude-") :: g.model
  }

  /** What the query reports for `date`: the day's summary, with its session
      count left at 0 when the session query does not prepare. */
  ghost function Reported(usage: map<UsageKey, UsageRow>, keys: set<UsageKey>,
                          table: map<string, ModelPricing>, order: seq<string>, sessionsOk: bool, date: string): DailySummary
    requires keys <= usage.Keys && IsKeyOrder(order, table)
  {
    var s := DaySummary(usage, keys, table, order, date);
    if sessionsOk then s else s.(sessions := 0)
  }

  predicate AscendingDates(s: seq<DailySummary>) {
    forall i, j :: 0 <= i < j < |s| ==> Less(s[i].date, s[j].date)
  }

  // ---------------------------------------------------------------------
  // The store.

  /** Every usage row belongs to a file the files table holds. */
  predicate Integrity(files: map<string, FileRow>, usage: map<UsageKey, UsageRow>) {
    forall k :: k in usage ==> k.filePath in files
  }

  class CostDatabase {
    var files: map<string, FileRow>
    var usage: map<UsageKey, UsageRow>

    /** Opens the store holding the tables persisted by earlier runs
        (`CREATE TABLE IF NOT EXISTS` keeps existing rows). */
    constructor(files0: map<string, FileRow>, usage0: map<UsageKey, UsageRow>)
      ensures files == files0 && usage == usage0
    {
      files := files0;
      usage := usage0;
    }

    /** The files table projected to path → (mtime, size); empty when the
        SELECT fails to prepare. */
    method GetCachedFiles(selectStmtOk: bool) returns (r: map<string, CachedMeta>)
      ensures selectStmtOk ==> r.Keys == files.Keys
      ensures selectStmtOk ==> forall p :: p in r ==> r[p] == CachedMeta(files[p].mtimeMs, files[p].size)
      ensures selectStmtOk ==> r == CachedOf(files)
      ensures !selectStmtOk ==> r == map[]
    {
      r := map[];
      if !selectStmtOk {
        return;
      }
      var rest := files.Keys;
      while rest != {}
        invariant rest <= files.Keys
        invariant r.Keys == files.Keys - rest
        invariant forall p :: p in r ==> r[p] == CachedMeta(files[p].mtimeMs, files[p].size)
        decreases rest
      {
        var path :| path in rest;
        r := r[path := CachedMeta(files[path].mtimeMs, files[path].size)];
        rest := rest - {path};
      }
      assert r == CachedOf(files);
    }

    /** `DELETE FROM files / usage WHERE file_path = ?`. */
    method DeletePath(path: string)
      modifies this
      ensures files == old(files) - {path}
      ensures usage == UsageWithout(old(usage), {path})
    {
      files := files - {path};
      usage := map k | k in usage && k.filePath != path :: usage[k];
    }

    /** The two delete loops of writeResults. */
    method DeleteStale(infos: seq<FileInfo>, removedPaths: seq<string>)
      modifies this
      ensures files == old(files) - StalePaths(infos, removedPaths)
      ensures usage == UsageWithout(old(usage), StalePaths(infos, removedPaths))
    {
      ghost var deleted: set<string> := {};
      for i := 0 to |removedPaths|
        invariant deleted == set j | 0 <= j < i :: removedPaths[j]
        invariant files == old(files) - deleted
        invariant usage == UsageWithout(old(usage), deleted)
      {
        DeletePath(removedPaths[i]);
        UsageWithoutTwice(old(usage), deleted, removedPaths[i]);
        deleted := deleted + {removedPaths[i]};
      }
      ghost var deletedRemoved := deleted;
      for i := 0 to |infos|
        invariant deleted == deletedRemoved + set j | 0 <= j < i :: infos[j].filePath
        invariant files == old(files) - deleted
        invariant usage == UsageWithout(old(usage), deleted)
      {
        DeletePath(infos[i].filePath);
        UsageWithoutTwice(old(usage), deleted, infos[i].filePath);
        deleted := deleted + {infos[i].filePath};
      }
      StalePathsByIndex(infos, removedPaths);
    }

    /** The file-row insert loop. */
    method InsertFiles(infos: seq<FileInfo>)
      modifies this
      ensures files == InsertAll(old(files), FileEntries(infos))
      ensures usage == old(usage)
    {
      for i := 0 to |infos|
        invariant files == InsertAll(old(files), FileEntries(infos)[..i])
        invariant usage == old(usage)
      {
        var file := infos[i];
        InsertAllPrefix(old(files), FileEntries(infos), i);
        if file.filePath !in files {
          files := files[file.filePath := FileRow(file.mtimeMs, file.size, file.sessionId, file.projectDir)];
        }
      }
      assert FileEntries(infos)[..|infos|] == FileEntries(infos);
    }

    /** The usage-row insert loop. */
    method InsertUsage(records: seq<UsageRecord>)
      modifies this
      ensures usage == InsertAll(old(usage), UsageEntries(records))
      ensures files == old(files)
    {
      for i := 0 to |records|
        invariant usage == InsertAll(old(usage), UsageEntries(records)[..i])
        invariant files == old(files)
      {
        var r := records[i];
        InsertAllPrefix(old(usage), UsageEntries(records), i);
        var key := UsageKey(r.filePath, r.date, r.model);
        if key !in usage {
          usage := usage[key := UsageRow(r.sessionId, r.projectDir,
            Tokens(r.inputTokens, r.outputTokens, r.cacheCreationInputTokens, r.cacheReadInputTokens),
            r.messageCount)];
        }
      }
      assert UsageEntries(records)[..|records|] == UsageEntries(records);
    }

    /** One transaction: delete the rows of the removed paths and of the
        files being written, insert the new file rows and usage rows, and
        commit. A failed preparation of either INSERT statement rolls
        everything back; a failed DELETE is ignored. */
    method WriteResults(infos: seq<FileInfo>, records: seq<UsageRecord>, removedPaths: seq<string>,
                        fileStmtOk: bool, usageStmtOk: bool)
      modifies this
      ensures fileStmtOk && usageStmtOk ==>
        files == FilesAfterWrite(old(files), infos, removedPaths)
        && usage == UsageAfterWrite(old(usage), infos, records, removedPaths)
      ensures !(fileStmtOk && usageStmtOk) ==> files == old(files) && usage == old(usage)
      ensures Integrity(old(files), old(usage)) && (forall r :: r in records ==> r.filePath in Paths(infos))
        ==> Integrity(files, usage)
    {
      // BEGIN TRANSACTION
      var savedFiles := files;
      var savedUsage := usage;
      DeleteStale(infos, removedPaths);
      if !fileStmtOk {
        // ROLLBACK
        files, usage := savedFiles, savedUsage;
        return;
      }
      InsertFiles(infos);
      if !usageStmtOk {
        // ROLLBACK
        files, usage := savedFiles, savedUsage;
        return;
      }
      InsertUsage(records);
      // COMMIT
      if Integrity(savedFiles, savedUsage) && forall r :: r in records ==> r.filePath in Paths(infos) {
        IntegrityAfterWrite(savedFiles, savedUsage, infos, records, removedPaths);
      }
    }

    /** `SUM(...)` over a set of usage rows, as the SQL engine folds it. */
    method SumRows(keys: set<UsageKey>) returns (t: Tokens)
      requires keys <= usage.Keys
      ensures t == SumTokens(usage, keys)
    {
      t := NoTokens;
      var rest := keys;
      while rest != {}
        invariant rest <= keys
        invariant AddTokens(t, SumTokens(usage, rest)) == SumTokens(usage, keys)
        decreases rest
      {
        var k :| k in rest;
        SumTokensRemove(usage, rest, k);
        t := AddTokens(t, usage[k].tokens);
        rest := rest - {k};
      }
    }

    /** One row of the grouped query: the group's summed tokens and their
        cost at the group's model's rates. */
    method PriceGroup(keys: set<UsageKey>, g: Group, pricing: PricingTable) returns (t: Tokens, cost: real)
      requires keys <= usage.Keys && pricing.Valid() && g in Groups(keys)
      modifies pricing
      ensures pricing.pricing == old(pricing.pricing) && pricing.keyOrder == old(pricing.keyOrder)
      ensures pricing.unknownModels == UnknownAfter(pricing.pricing, old(pricing.unknownModels), g.model)
      ensures t == SumTokens(usage, RowsIn(keys, g))
      ensures cost == GroupCosts(usage, keys, pricing.pricing, pricing.keyOrder)[g]
    {
      t := SumRows(RowsIn(keys, g));
      cost := pricing.CalculateCost(g.model, t.input, t.output, t.cacheCreation, t.cacheRead);
    }

    /** The per-(date, model) loop of queryDailySummaries: each group is
        priced on its own and its cost and tokens are added to its date. */
    method AccumulateDays(keys: set<UsageKey>, pricing: PricingTable) returns (dayMap: map<string, DailySummary>)
      requires keys <= usage.Keys && pricing.Valid()
      modifies pricing
      ensures pricing.pricing == old(pricing.pricing) && pricing.keyOrder == old(pricing.keyOrder)
      ensures pricing.unknownModels == old(pricing.unknownModels) + NewUnknown(pricing.pricing, Groups(keys))
      ensures dayMap.Keys == Dates(keys)
      ensures forall d :: d in dayMap ==>
        dayMap[d] == PartialDay(usage, keys, GroupCosts(usage, keys, pricing.pricing, pricing.keyOrder), Groups(keys), d)
    {
      dayMap := map[];
      var groups := Groups(keys);
      ghost var costs := GroupCosts(usage, keys, pricing.pricing, pricing.keyOrder);
      var rest := groups;
      while rest != {}
        invariant rest <= groups
        invariant pricing.pricing == old(pricing.pricing) && pricing.keyOrder == old(pricing.keyOrder)
        invariant pricing.Valid()
        invariant pricing.unknownModels == old(pricing.unknownModels) + NewUnknown(pricing.pricing, groups - rest)
        invariant dayMap.Keys == set g | g in groups - rest :: g.date
        invariant forall d :: d in dayMap ==> dayMap[d] == PartialDay(usage, keys, costs, groups - rest, d)
        decreases rest
      {
        var g :| g in rest;
        ghost var done := groups - rest;
        ghost var before := dayMap;
        ghost var unknownBefore := pricing.unknownModels;
        var t, cost := PriceGroup(keys, g, pricing);
        dayMap := AddToDayMap(dayMap, g.date, cost, t);
        AddToDaysStep(usage, keys, costs, done, g, before);
        NewUnknownStep(pricing.pricing, old(pricing.unknownModels), done, g);
        assert groups - (rest - {g}) == done + {g};
        rest := rest - {g};
      }
      assert groups - rest == groups;
      assert (set g | g in groups :: g.date) == Dates(keys) by {
        forall d | d in Dates(keys) ensures d in set g | g in groups :: g.date {
          var k :| k in keys && k.date == d;
          assert GroupOf(k) in groups;
        }
      }
    }

    /** The second query: `COUNT(DISTINCT session_id)` per date, written into
        the date's summary. */
    method SetSessions(keys: set<UsageKey>, dayMap: map<string, DailySummary>) returns (r: map<string, DailySummary>)
      requires keys <= usage.Keys
      ensures r.Keys == dayMap.Keys
      ensures forall d :: d in r ==>
        r[d] == if d in Dates(keys) then dayMap[d].(sessions := Sessions(usage, keys, d)) else dayMap[d]
    {
      r := dayMap;
      var dates := Dates(keys);
      var rest := dates;
      while rest != {}
        invariant rest <= dates
        invariant r.Keys == dayMap.Keys
        invariant forall d :: d in r ==>
          r[d] == if d in dates - rest then dayMap[d].(sessions := Sessions(usage, keys, d)) else dayMap[d]
        decreases rest
      {
        var date :| date in rest;
        var sessions := |set k | k in RowsOn(keys, date) :: usage[k].sessionId|;
        if date in r {
          r := r[date := r[date].(sessions := sessions)];
        }
        rest := rest - {date};
      }
    }

    /** Daily summaries of the rows within [since, until] whose project
        directory contains `project`, ascending by date. */
    method QueryDailySummaries(since: Option<string>, until: Option<string>, project: Option<string>,
                               pricing: PricingTable, queryStmtOk: bool, sessionStmtOk: bool)
      returns (result: seq<DailySummary>)
      requires pricing.Valid()
      modifies pricing
      ensures pricing.pricing == old(pricing.pricing) && pricing.keyOrder == old(pricing.keyOrder)
      ensures !queryStmtOk ==> result == []
      ensures queryStmtOk ==> AscendingDates(result)
      ensures queryStmtOk ==> forall i :: 0 <= i < |result| ==>
        result[i].date in Dates(Selected(usage, since, until, project))
        && result[i] == Reported(usage, Selected(usage, since, until, project),
                                 pricing.pricing, pricing.keyOrder, sessionStmtOk, result[i].date)
      ensures queryStmtOk ==> forall d :: d in Dates(Selected(usage, since, until, project)) ==>
        exists i :: 0 <= i < |result| && result[i].date == d
      ensures pricing.unknownModels == old(pricing.unknownModels)
        + (if queryStmtOk then NewUnknown(pricing.pricing, Groups(Selected(usage, since, until, project))) else {})
    {
      if !queryStmtOk {
        return [];
      }
      var keys := set k | k in usage && InRange(k.date, since, until) && ProjectMatches(usage[k].projectDir, project);
      assert keys == Selected(usage, since, until, project);
      var dayMap := AccumulateDays(keys, pricing);
      if sessionStmtOk {
        dayMap := SetSessions(keys, dayMap);
      }
      forall d | d in dayMap
        ensures dayMap[d] == Reported(usage, keys, pricing.pricing, pricing.keyOrder, sessionStmtOk, d)
      {
        DayComplete(usage, keys, pricing.pricing, pricing.keyOrder, d);
      }
      result := SortByDate(dayMap);
    }

    /** Empties both tables. */
    method ClearCache()
      modifies this
      ensures files == map[] && usage == map[]
      ensures Integrity(files, usage)
    {
      files := map[];
      usage := map[];
    }
  }

  // ---------------------------------------------------------------------
  // Helper facts for the write loops.

  lemma UsageWithoutTwice(usage: map<UsageKey, UsageRow>, paths: set<string>, path: string)
    ensures UsageWithout(UsageWithout(usage, paths), {path}) == UsageWithout(usage, paths + {path})
  {
  }

  lemma StalePathsByIndex(infos: seq<FileInfo>, removedPaths: seq<string>)
    ensures StalePaths(infos, removedPaths)
      == (set j | 0 <= j < |removedPaths| :: removedPaths[j]) + (set j | 0 <= j < |infos| :: infos[j].filePath)
  {
    forall p | p in removedPaths ensures p in set j | 0 <= j < |removedPaths| :: removedPaths[j] {
      var j :| 0 <= j < |removedPaths| && removedPaths[j] == p;
    }
    forall f | f in infos ensures f.filePath in set j | 0 <= j < |infos| :: infos[j].filePath {
      var j :| 0 <= j < |infos| && infos[j] == f;
    }
  }

  lemma InsertAllPrefix<K, V>(m: map<K, V>, es: seq<(K, V)>, i: nat)
    requires i < |es|
    ensures var next := InsertAll(m, es[..i]);
      InsertAll(m, es[..i + 1]) == if es[i].0 in next then next else next[es[i].0 := es[i].1]
  {
    assert es[..i + 1][..i] == es[..i];
  }

  /** `if var existing = dayMap[date] { existing.cost += cost; … }`. */
  method AddToDayMap(dayMap: map<string, DailySummary>, date: string, cost: real, t: Tokens)
    returns (r: map<string, DailySummary>)
    ensures r == AddToDays(dayMap, date, cost, t)
  {
    r := dayMap;
    if date in r {
      var existing := r[date];
      existing := existing.(
        cost := existing.cost + cost,
        inputTokens := existing.inputTokens + t.input,
        outputTokens := existing.outputTokens + t.output,
        cacheCreationInputTokens := existing.cacheCreationInputTokens + t.cacheCreation,
        cacheReadInputTokens := existing.cacheReadInputTokens + t.cacheRead);
      r := r[date := existing];
    } else {
      r := r[date := DailySummary(date, cost, t.input, t.output, t.cacheCreation, t.cacheRead, 0)];
    }
  }

  // ---------------------------------------------------------------------
  // Sorting the summaries: `dayMap.values.sorted { $0.date < $1.date }`.

  /** Inserts `x` into a date-ascending list at its place. */
  method InsertByDate(s: seq<DailySummary>, x: DailySummary) returns (r: seq<DailySummary>)
    requires AscendingDates(s)
    requires forall i :: 0 <= i < |s| ==> s[i].date != x.date
    ensures AscendingDates(r)
    ensures forall y :: y in r <==> y in s || y == x
    ensures |r| == |s| + 1
  {
    var j := 0;
    while j < |s| && Less(s[j].date, x.date)
      invariant 0 <= j <= |s|
      invariant forall i :: 0 <= i < j ==> Less(s[i].date, x.date)
    {
      j := j + 1;
    }
    forall i | j <= i < |s| ensures Less(x.date, s[i].date) {
      LessTotal(s[j].date, x.date);
      if i > j {
        LessTransitive(x.date, s[j].date, s[i].date);
      }
    }
    r := s[..j] + [x] + s[j..];
    assert forall i :: 0 <= i < j ==> r[i] == s[i];
    assert r[j] == x;
    assert forall i :: j < i < |r| ==> r[i] == s[i - 1];
    forall a, b | 0 <= a < b < |r| ensures Less(r[a].date, r[b].date) {
      if b < j {
      } else if a < j && b == j {
      } else if a < j {
        LessTransitive(r[a].date, x.date, r[b].date);
      } else if a == j {
      }
    }
    assert s == s[..j] + s[j..];
  }

  /** The values of a date-keyed map, ascending by date. */
  method SortByDate(m: map<string, DailySummary>) returns (r: seq<DailySummary>)
    requires forall d :: d in m ==> m[d].date == d
    ensures AscendingDates(r)
    ensures forall i :: 0 <= i < |r| ==> r[i].date in m && r[i] == m[r[i].date]
    ensures forall d :: d in m ==> exists i :: 0 <= i < |r| && r[i].date == d
  {
    r := [];
    var rest := m.Keys;
    while rest != {}
      invariant rest <= m.Keys
      invariant AscendingDates(r)
      invariant forall i :: 0 <= i < |r| ==> r[i].date in m.Keys - rest && r[i] == m[r[i].date]
      invariant forall d :: d in m.Keys - rest ==> exists i :: 0 <= i < |r| && r[i].date == d
      decreases rest
    {
      var d :| d in rest;
      ghost var prev := r;
      r := InsertByDate(r, m[d]);
      forall e | e in m.Keys - (rest - {d}) ensures exists i :: 0 <= i < |r| && r[i].date == e {
        if e == d {
          assert m[d] in r;
          var i :| 0 <= i < |r| && r[i] == m[d];
        } else {
          assert e in m.Keys - rest;
          var i :| 0 <= i < |prev| && prev[i].date == e;
          assert prev[i] in r;
        }
      }
      forall i | 0 <= i < |r| ensures r[i].date in m.Keys - (rest - {d}) && r[i] == m[r[i].date] {
        assert r[i] in prev || r[i] == m[d];
        if r[i] != m[d] {
          var j :| 0 <= j < |prev| && prev[j] == r[i];
        }
      }
      rest := rest - {d};
    }
    assert m.Keys - rest == m.Keys;
  }

  // ---------------------------------------------------------------------
  // Sums over sets of rows and groups.

  /** Any row can be taken out of a sum first. */
  lemma {:induction false} SumTokensRemove(usage: map<UsageKey, UsageRow>, keys: set<UsageKey>, k: UsageKey)
    requires keys <= usage.Keys && k in keys
    ensures SumTokens(usage, keys) == AddTokens(usage[k].tokens, SumTokens(usage, keys - {k}))
    decreases keys
  {
    var k0 :| k0 in keys && SumTokens(usage, keys) == AddTokens(usage[k0].tokens, SumTokens(usage, keys - {k0}));
    if k0 != k {
      var rest := keys - {k0} - {k};
      assert keys - {k} - {k0} == rest;
      SumTokensRemove(usage, keys - {k0}, k);
      SumTokensRemove(usage, keys - {k}, k0);
      var r := SumTokens(usage, rest);
      assert SumTokens(usage, keys) == AddTokens(usage[k0].tokens, AddTokens(usage[k].tokens, r));
      assert SumTokens(usage, keys - {k}) == AddTokens(usage[k0].tokens, r);
    }
  }

  /** The sum over two disjoint sets of rows is the sum of their sums. */
  lemma {:induction false} SumTokensUnion(usage: map<UsageKey, UsageRow>, a: set<UsageKey>, b: set<UsageKey>)
    requires a + b <= usage.Keys && a !! b
    ensures SumTokens(usage, a + b) == AddTokens(SumTokens(usage, a), SumTokens(usage, b))
    decreases b
  {
    if b == {} {
      assert a + b == a;
    } else {
      var y :| y in b;
      SumTokensUnion(usage, a, b - {y});
      SumTokensUnionStep(usage, a, b, y);
    }
  }

  lemma SumTokensUnionStep(usage: map<UsageKey, UsageRow>, a: set<UsageKey>, b: set<UsageKey>, y: UsageKey)
    requires a + b <= usage.Keys && a !! b && y in b
    requires SumTokens(usage, a + (b - {y})) == AddTokens(SumTokens(usage, a), SumTokens(usage, b - {y}))
    ensures SumTokens(usage, a + b) == AddTokens(SumTokens(usage, a), SumTokens(usage, b))
  {
    SumTokensRemove(usage, a + b, y);
    assert (a + b) - {y} == a + (b - {y});
    SumTokensRemove(usage, b, y);
  }

  lemma {:induction false} SumCostRemove(costs: map<Group, real>, gs: set<Group>, g: Group)
    requires gs <= costs.Keys && g in gs
    ensures SumCost(costs, gs) == costs[g] + SumCost(costs, gs - {g})
    decreases gs
  {
    var g0 :| g0 in gs && SumCost(costs, gs) == costs[g0] + SumCost(costs, gs - {g0});
    if g0 != g {
      var rest := gs - {g0} - {g};
      assert gs - {g} - {g0} == rest;
      SumCostRemove(costs, gs - {g0}, g);
      SumCostRemove(costs, gs - {g}, g0);
    }
  }

  lemma PartialDayEmpty(usage: map<UsageKey, UsageRow>, keys: set<UsageKey>, costs: map<Group, real>,
                        done: set<Group>, date: string)
    requires keys <= usage.Keys && done <= costs.Keys
    requires forall g :: g in done ==> g.date != date
    ensures PartialDay(usage, keys, costs, done, date) == DailySummary(date, 0.0, 0, 0, 0, 0, 0)
  {
    assert GroupsOn(done, date) == {};
    assert RowsOfGroups(keys, {}) == {};
  }

  /** Reading one more group changes only its own date's summary, by adding
      the group's cost and tokens. */
  lemma PartialDayStep(usage: map<UsageKey, UsageRow>, keys: set<UsageKey>, costs: map<Group, real>,
                       done: set<Group>, g: Group, d: string)
    requires keys <= usage.Keys && done <= costs.Keys && g in costs && g !in done
    ensures PartialDay(usage, keys, costs, done + {g}, d)
      == if d != g.date then PartialDay(usage, keys, costs, done, d)
         else AddGroup(PartialDay(usage, keys, costs, done, d), costs[g], SumTokens(usage, RowsIn(keys, g)))
  {
    if d != g.date {
      assert GroupsOn(done + {g}, d) == GroupsOn(done, d);
    } else {
      PartialDaySameDate(usage, keys, costs, done, g);
    }
  }

  lemma PartialDaySameDate(usage: map<UsageKey, UsageRow>, keys: set<UsageKey>, costs: map<Group, real>,
                           done: set<Group>, g: Group)
    requires keys <= usage.Keys && done <= costs.Keys && g in costs && g !in done
    ensures PartialDay(usage, keys, costs, done + {g}, g.date)
      == AddGroup(PartialDay(usage, keys, costs, done, g.date), costs[g], SumTokens(usage, RowsIn(keys, g)))
  {
    var d := g.date;
    var before := GroupsOn(done, d);
    assert GroupsOn(done + {g}, d) == before + {g};
    SumCostAdd(costs, before, g);
    SumTokensAddGroup(usage, keys, before, g);
    var c0, c1 := SumCost(costs, before), SumCost(costs, before + {g});
    var t0, t1 := SumTokens(usage, RowsOfGroups(keys, before)), SumTokens(usage, RowsOfGroups(keys, before + {g}));
    AssembleDay(d, c0, c1, costs[g], t0, t1, SumTokens(usage, RowsIn(keys, g)));
  }

  lemma AssembleDay(d: string, c0: real, c1: real, cg: real, t0: Tokens, t1: Tokens, tg: Tokens)
    requires c1 == c0 + cg && t1 == AddTokens(t0, tg)
    ensures DailySummary(d, c1, t1.input, t1.output, t1.cacheCreation, t1.cacheRead, 0)
      == AddGroup(DailySummary(d, c0, t0.input, t0.output, t0.cacheCreation, t0.cacheRead, 0), cg, tg)
  {
  }

  lemma SumCostAdd(costs: map<Group, real>, gs: set<Group>, g: Group)
    requires gs <= costs.Keys && g in costs && g !in gs
    ensures SumCost(costs, gs + {g}) == SumCost(costs, gs) + costs[g]
  {
    SumCostRemove(costs, gs + {g}, g);
    assert (gs + {g}) - {g} == gs;
  }

  /** Adding one group's cost and tokens to the day map keeps it equal to
      the partial summaries of the groups read so far. */
  lemma AddToDaysStep(usage: map<UsageKey, UsageRow>, keys: set<UsageKey>, costs: map<Group, real>,
                      done: set<Group>, g: Group, dayMap: map<string, DailySummary>)
    requires keys <= usage.Keys && done <= costs.Keys && g in costs && g !in done
    requires dayMap.Keys == set h | h in done :: h.date
    requires forall d :: d in dayMap ==> dayMap[d] == PartialDay(usage, keys, costs, done, d)
    ensures var m := AddToDays(dayMap, g.date, costs[g], SumTokens(usage, RowsIn(keys, g)));
      && m.Keys == (set h | h in done + {g} :: h.date)
      && forall d :: d in m ==> m[d] == PartialDay(usage, keys, costs, done + {g}, d)
  {
    var m := AddToDays(dayMap, g.date, costs[g], SumTokens(usage, RowsIn(keys, g)));
    if g.date !in dayMap {
      PartialDayEmpty(usage, keys, costs, done, g.date);
    }
    forall d | d in m ensures m[d] == PartialDay(usage, keys, costs, done + {g}, d) {
      PartialDayStep(usage, keys, costs, done, g, d);
    }
  }

  lemma NewUnknownStep(table: map<string, ModelPricing>, unknown: set<string>, done: set<Group>, g: Group)
    ensures UnknownAfter(table, unknown + NewUnknown(table, done), g.model) == unknown + NewUnknown(table, done + {g})
  {
  }

  /** A group's rows add to the rows of the other groups. */
  lemma SumTokensAddGroup(usage: map<UsageKey, UsageRow>, keys: set<UsageKey>, gs: set<Group>, g: Group)
    requires keys <= usage.Keys && g !in gs
    ensures SumTokens(usage, RowsOfGroups(keys, gs + {g}))
      == AddTokens(SumTokens(usage, RowsOfGroups(keys, gs)), SumTokens(usage, RowsIn(keys, g)))
  {
    assert RowsOfGroups(keys, gs + {g}) == RowsOfGroups(keys, gs) + RowsIn(keys, g);
    SumTokensUnion(usage, RowsOfGroups(keys, gs), RowsIn(keys, g));
  }

  /** Once every group is read, the accumulated summary is the day's. */
  lemma DayComplete(usage: map<UsageKey, UsageRow>, keys: set<UsageKey>,
                    table: map<string, ModelPricing>, order: seq<string>, d: string)
    requires keys <= usage.Keys && IsKeyOrder(order, table)
    ensures var p := PartialDay(usage, keys, GroupCosts(usage, keys, table, order), Groups(keys), d);
      && p.(sessions := Sessions(usage, keys, d)) == DaySummary(usage, keys, table, order, d)
      && p == DaySummary(usage, keys, table, order, d).(sessions := 0)
  {
    assert RowsOfGroups(keys, GroupsOn(Groups(keys), d)) == RowsOn(keys, d) by {
      forall k | k in RowsOn(keys, d) ensures k in RowsOfGroups(keys, GroupsOn(Groups(keys), d)) {
        assert GroupOf(k) in Groups(keys);
      }
    }
  }

  // ---------------------------------------------------------------------
  // What a committed writeResults leaves in the tables.

  /** Insert-if-absent adds exactly the keys of the entries. */
  lemma {:induction false} InsertAllKeys<K, V>(m: map<K, V>, es: seq<(K, V)>)
    ensures InsertAll(m, es).Keys == m.Keys + set i | 0 <= i < |es| :: es[i].0
    decreases |es|
  {
    if es != [] {
      var front := es[..|es| - 1];
      InsertAllKeys(m, front);
      assert (set i | 0 <= i < |es| :: es[i].0) == (set i | 0 <= i < |front| :: front[i].0) + {es[|es| - 1].0} by {
        forall i | 0 <= i < |front| ensures front[i].0 == es[i].0 {}
      }
    }
  }

  /** A key that was already present keeps its value. */
  lemma {:induction false} InsertAllKeeps<K, V>(m: map<K, V>, es: seq<(K, V)>, k: K)
    requires k in m
    ensures k in InsertAll(m, es) && InsertAll(m, es)[k] == m[k]
    decreases |es|
  {
    if es != [] {
      InsertAllKeeps(m, es[..|es| - 1], k);
    }
  }

  /** For a key that was absent, the first entry carrying it wins. */
  lemma {:induction false} InsertAllFirstWins<K, V>(m: map<K, V>, es: seq<(K, V)>, i: nat)
    requires i < |es| && es[i].0 !in m
    requires forall j :: 0 <= j < i ==> es[j].0 != es[i].0
    ensures es[i].0 in InsertAll(m, es) && InsertAll(m, es)[es[i].0] == es[i].1
    decreases |es|
  {
    var front := es[..|es| - 1];
    if i == |es| - 1 {
      InsertAllKeys(m, front);
      assert es[i].0 !in InsertAll(m, front);
    } else {
      InsertAllFirstWins(m, front, i);
    }
  }

  /** A key that was absent and is carried by some entry ends up holding the
      value of one of the entries carrying it. */
  lemma {:induction false} InsertAllFromEntry<K, V>(m: map<K, V>, es: seq<(K, V)>, k: K)
    requires k !in m && exists i :: 0 <= i < |es| && es[i].0 == k
    ensures k in InsertAll(m, es)
    ensures exists i :: 0 <= i < |es| && es[i].0 == k && InsertAll(m, es)[k] == es[i].1
    decreases |es|
  {
    var front := es[..|es| - 1];
    var last := es[|es| - 1];
    if exists i :: 0 <= i < |front| && front[i].0 == k {
      InsertAllFromEntry(m, front, k);
      var i :| 0 <= i < |front| && front[i].0 == k && InsertAll(m, front)[k] == front[i].1;
      assert es[i] == front[i];
    } else {
      assert last.0 == k;
      InsertAllOther(m, front, k);
    }
  }

  /** A key carried by no entry is present afterwards only when it was before. */
  lemma InsertAllOther<K, V>(m: map<K, V>, es: seq<(K, V)>, k: K)
    requires forall i :: 0 <= i < |es| ==> es[i].0 != k
    ensures k in InsertAll(m, es) <==> k in m
  {
    InsertAllKeys(m, es);
  }

  /** A removed path that is not being rewritten has no file row and no usage
      row left. */
  lemma RemovedPathsGone(files: map<string, FileRow>, usage: map<UsageKey, UsageRow>, infos: seq<FileInfo>,
                         records: seq<UsageRecord>, removedPaths: seq<string>, p: string)
    requires p in removedPaths
    requires forall i :: 0 <= i < |infos| ==> infos[i].filePath != p
    requires forall i :: 0 <= i < |records| ==> records[i].filePath != p
    ensures p !in FilesAfterWrite(files, infos, removedPaths)
    ensures forall k :: k in UsageAfterWrite(usage, infos, records, removedPaths) ==> k.filePath != p
  {
    var stale := StalePaths(infos, removedPaths);
    InsertAllOther(files - stale, FileEntries(infos), p);
    forall k | k in UsageAfterWrite(usage, infos, records, removedPaths) ensures k.filePath != p {
      if k.filePath == p {
        InsertAllOther(UsageWithout(usage, stale), UsageEntries(records), k);
      }
    }
  }

  /** A committed write keeps every usage row attached to a file row when
      every record comes from one of the files being written. */
  lemma IntegrityAfterWrite(files: map<string, FileRow>, usage: map<UsageKey, UsageRow>, infos: seq<FileInfo>,
                            records: seq<UsageRecord>, removedPaths: seq<string>)
    requires Integrity(files, usage)
    requires forall r :: r in records ==> r.filePath in Paths(infos)
    ensures Integrity(FilesAfterWrite(files, infos, removedPaths), UsageAfterWrite(usage, infos, records, removedPaths))
  {
    var stale := StalePaths(infos, removedPaths);
    var newFiles := FilesAfterWrite(files, infos, removedPaths);
    InsertAllKeys(files - stale, FileEntries(infos));
    InsertAllKeys(UsageWithout(usage, stale), UsageEntries(records));
    forall k | k in UsageAfterWrite(usage, infos, records, removedPaths) ensures k.filePath in newFiles {
      if k !in UsageWithout(usage, stale) {
        var i :| 0 <= i < |records| && UsageEntries(records)[i].0 == k;
        assert records[i] in records;
        var j :| 0 <= j < |infos| && Paths(infos)[j] == k.filePath;
        assert FileEntries(infos)[j].0 == k.filePath;
      }
    }
  }

  /** Every file being written gets the row of its first occurrence in the
      batch, even when the table held an older row for it. */
  lemma WrittenFileRows(files: map<string, FileRow>, infos: seq<FileInfo>, removedPaths: seq<string>, i: nat)
    requires i < |infos|
    requires forall j :: 0 <= j < i ==> infos[j].filePath != infos[i].filePath
    ensures infos[i].filePath in FilesAfterWrite(files, infos, removedPaths)
    ensures FilesAfterWrite(files, infos, removedPaths)[infos[i].filePath] == FileRowOf(infos[i])
  {
    assert infos[i] in infos;
    InsertAllFirstWins(files - StalePaths(infos, removedPaths), FileEntries(infos), i);
  }

  /** Files that are neither removed nor rewritten keep their rows. */
  lemma UntouchedFilesKept(files: map<string, FileRow>, infos: seq<FileInfo>, removedPaths: seq<string>, p: string)
    requires p in files && p !in StalePaths(infos, removedPaths)
    ensures p in FilesAfterWrite(files, infos, removedPaths)
    ensures FilesAfterWrite(files, infos, removedPaths)[p] == files[p]
  {
    InsertAllKeeps(files - StalePaths(infos, removedPaths), FileEntries(infos), p);
  }

  /** Usage rows of untouched files survive the write unchanged. */
  lemma UntouchedUsageKept(usage: map<UsageKey, UsageRow>, infos: seq<FileInfo>, records: seq<UsageRecord>,
                           removedPaths: seq<string>, k: UsageKey)
    requires k in usage && k.filePath !in StalePaths(infos, removedPaths)
    ensures k in UsageAfterWrite(usage, infos, records, removedPaths)
    ensures UsageAfterWrite(usage, infos, records, removedPaths)[k] == usage[k]
  {
    InsertAllKeeps(UsageWithout(usage, StalePaths(infos, removedPaths)), UsageEntries(records), k);
  }

  /** No stale usage row survives: every row left for a rewritten or removed
      path comes from the new records. */
  lemma NoStaleUsage(usage: map<UsageKey, UsageRow>, infos: seq<FileInfo>, records: seq<UsageRecord>,
                     removedPaths: seq<string>, k: UsageKey)
    requires k in UsageAfterWrite(usage, infos, records, removedPaths)
    requires k.filePath in StalePaths(infos, removedPaths)
    ensures exists i :: 0 <= i < |records| && UsageKeyOf(records[i]) == k
  {
    var es := UsageEntries(records);
    if forall i :: 0 <= i < |es| ==> es[i].0 != k {
      InsertAllOther(UsageWithout(usage, StalePaths(infos, removedPaths)), es, k);
    }
  }

  /** Every new record for a file being written is stored, with the values of
      the first record carrying its key. */
  lemma RecordsInserted(usage: map<UsageKey, UsageRow>, infos: seq<FileInfo>, records: seq<UsageRecord>,
                        removedPaths: seq<string>, i: nat)
    requires i < |records| && records[i].filePath in Paths(infos)
    requires forall j :: 0 <= j < i ==> UsageKeyOf(records[j]) != UsageKeyOf(records[i])
    ensures UsageKeyOf(records[i]) in UsageAfterWrite(usage, infos, records, removedPaths)
    ensures UsageAfterWrite(usage, infos, records, removedPaths)[UsageKeyOf(records[i])] == UsageRowOf(records[i])
  {
    var n :| 0 <= n < |infos| && Paths(infos)[n] == records[i].filePath;
    assert infos[n] in infos;
    InsertAllFirstWins(UsageWithout(usage, StalePaths(infos, removedPaths)), UsageEntries(records), i);
  }

  // ---------------------------------------------------------------------
  // Facts about the query.

  /** A date inside the range lies between the bounds that are given. */
  lemma InRangeBounds(date: string, since: Option<string>, until: Option<string>)
    requires InRange(date, since, until)
    ensures since.Some? ==> since.value == date || Less(since.value, date)
    ensures until.Some? ==> until.value == date || Less(date, until.value)
  {
    if since.Some? && since.value != date {
      LessTotal(since.value, date);
    }
    if until.Some? && until.value != date {
      LessTotal(date, until.value);
    }
  }

  /** A set of rows has at most as many distinct session ids as rows. */
  lemma {:induction false} SessionIdsAtMostRows(usage: map<UsageKey, UsageRow>, ks: set<UsageKey>)
    requires ks <= usage.Keys
    ensures |set k | k in ks :: usage[k].sessionId| <= |ks|
    decreases ks
  {
    if ks != {} {
      var k0 :| k0 in ks;
      SessionIdsAtMostRows(usage, ks - {k0});
      assert (set k | k in ks :: usage[k].sessionId)
        == (set k | k in ks - {k0} :: usage[k].sessionId) + {usage[k0].sessionId};
    }
  }

  /** The session count of a date is at most its number of rows, and at
      least one when the date has rows. */
  lemma SessionsBounds(usage: map<UsageKey, UsageRow>, keys: set<UsageKey>, date: string)
    requires keys <= usage.Keys
    ensures Sessions(usage, keys, date) <= |RowsOn(keys, date)|
    ensures date in Dates(keys) ==> Sessions(usage, keys, date) >= 1
  {
    SessionIdsAtMostRows(usage, RowsOn(keys, date));
    if date in Dates(keys) {
      var k :| k in keys && k.date == date;
      assert k in RowsOn(keys, date);
      var ids := set k | k in RowsOn(keys, date) :: usage[k].sessionId;
      assert usage[k].sessionId in ids;
      assert |ids| == Sessions(usage, keys, date);
    }
  }

  /** Sessions are counted per day, not per (day, model): one session that
      used two models on a day counts once. */
  lemma SessionsCountedOnce(sid: string, dir: string, t1: Tokens, t2: Tokens)
    ensures var usage := map[UsageKey("a.jsonl", "2025-01-01", "claude-opus-4-6") := UsageRow(sid, dir, t1, 1),
                             UsageKey("a.jsonl", "2025-01-01", "claude-haiku-4-5") := UsageRow(sid, dir, t2, 1)];
      Sessions(usage, usage.Keys, "2025-01-01") == 1
  {
    var usage := map[UsageKey("a.jsonl", "2025-01-01", "claude-opus-4-6") := UsageRow(sid, dir, t1, 1),
                     UsageKey("a.jsonl", "2025-01-01", "claude-haiku-4-5") := UsageRow(sid, dir, t2, 1)];
    var k1 := UsageKey("a.jsonl", "2025-01-01", "claude-opus-4-6");
    assert k1 in RowsOn(usage.Keys, "2025-01-01");
    assert (set k | k in RowsOn(usage.Keys, "2025-01-01") :: usage[k].sessionId) == {sid};
  }
}
