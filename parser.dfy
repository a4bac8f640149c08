/** Log parser (app/Sources/CCostLib/Parser.swift): the per-line filter chain,
    first-wins deduplication shared across all files of one batch, and the
    per-(date, model) aggregation of one file's messages.

    Reading a file and decoding its lines as JSON are not modelled: a file's
    content is given as `Option<seq<Line>>` (None when the file cannot be read
    or is not UTF-8), and each line carries its raw text together with the JSON
    object it decodes to. Timestamp-to-local-date conversion depends on the
    time zone and is the parameter `toLocalDate`. */
module Parser {
  import opened Wrappers
  import opened Strings
  import opened Models

  /** The `message.usage` object of a decoded line: whether the key
      `input_tokens` is present at all, and each count, None when the key is
      absent or its value is not an integer. */
  datatype Usage = Usage(
    hasInputTokens: bool,
    inputTokens: Option<int>,
    outputTokens: Option<int>,
    cacheCreationInputTokens: Option<int>,
    cacheReadInputTokens: Option<int>)

  /** The `message` object: `id` and `model` are None when absent or not
      strings, `usage` is None when absent or not an object. */
  datatype Message = Message(id: Option<string>, model: Option<string>, usage: Option<Usage>)

  /** A line decoded as a JSON object. */
  datatype Entry = Entry(message: Option<Message>, requestId: Option<string>, timestamp: Option<string>)

  /** One line of a log file: its text and the JSON object it decodes to
      (None when it is not valid JSON or not an object). */
  datatype Line = Line(text: string, decoded: Option<Entry>)

  /** A usage event that passed the filter chain. */
  datatype MessageUsage = MessageUsage(
    model: string,
    inputTokens: int,
    outputTokens: int,
    cacheCreationInputTokens: int,
    cacheReadInputTokens: int,
    timestamp: string)

  const UsageMarker: string := "\"usage\""
  const SyntheticModel: string := "<synthetic>"

  function OrZero(n: Option<int>): int {
    if n.Some? then n.value else 0
  }

  function OrEmpty(s: Option<string>): string {
    if s.Some? then s.value else ""
  }

  /** The line passes the cheap pre-filter and has `message.usage.input_tokens`. */
  predicate HasUsageShape(line: Line) {
    && Contains(line.text, UsageMarker)
    && line.decoded.Some?
    && line.decoded.value.message.Some?
    && line.decoded.value.message.value.usage.Some?
    && line.decoded.value.message.value.usage.value.hasInputTokens
  }

  /** `id:requestId` for a usage line that has both ids. */
  function DedupKey(line: Line): Option<string> {
    if !HasUsageShape(line) then None
    else
      var msg := line.decoded.value.message.value;
      var requestId := line.decoded.value.requestId;
      if msg.id.Some? && requestId.Some? then Some(msg.id.value + ":" + requestId.value) else None
  }

  datatype StepResult = StepResult(message: Option<MessageUsage>, seen: set<string>)

  /** The filter chain for one line against the keys seen so far. */
  function LineStep(line: Line, seen: set<string>): (r: StepResult)
    ensures seen <= r.seen
    ensures r.seen - seen <= (if DedupKey(line).Some? then {DedupKey(line).value} else {})
    ensures r.message.Some? ==> r.message.value.model != "" && r.message.value.model != SyntheticModel
    ensures r.message.Some? && DedupKey(line).Some? ==> DedupKey(line).value !in seen
    ensures DedupKey(line).Some? ==> DedupKey(line).value in r.seen
  {
    if !HasUsageShape(line) then StepResult(None, seen)
    else
      var parsed := line.decoded.value;
      var msg := parsed.message.value;
      var usage := msg.usage.value;
      var key := DedupKey(line);
      if key.Some? && key.value in seen then StepResult(None, seen)
      else
        var seen' := if key.Some? then seen + {key.value} else seen;
        var model := OrEmpty(msg.model);
        if model == "" || model == SyntheticModel then StepResult(None, seen')
        else
          StepResult(Some(MessageUsage(
            model,
            OrZero(usage.inputTokens),
            OrZero(usage.outputTokens),
            OrZero(usage.cacheCreationInputTokens),
            OrZero(usage.cacheReadInputTokens),
            OrEmpty(parsed.timestamp))), seen')
  }

  datatype Extraction = Extraction(messages: seq<MessageUsage>, seen: set<string>)

  /** The messages kept from `lines`, in line order, and the seen-set after them. */
  function Extract(lines: seq<Line>, seen: set<string>): Extraction
    decreases |lines|
  {
    if lines == [] then Extraction([], seen)
    else
      var front := Extract(lines[..|lines| - 1], seen);
      var step := LineStep(lines[|lines| - 1], front.seen);
      Extraction(front.messages + (if step.message.Some? then [step.message.value] else []), step.seen)
  }

  // ---------------------------------------------------------------------
  // Aggregation per (date, model).

  datatype AggKey = AggKey(date: string, model: string)

  datatype AggValue = AggValue(
    inputTokens: int,
    outputTokens: int,
    cacheCreationInputTokens: int,
    cacheReadInputTokens: int,
    messageCount: int)

  const ZeroAgg: AggValue := AggValue(0, 0, 0, 0, 0)

  /** The aggregation key of a message, None when its timestamp is empty or the
      local date it converts to is not 10 characters long. */
  function KeyOf(m: MessageUsage, toLocalDate: string -> string): Option<AggKey> {
    if m.timestamp == "" then None
    else
      var date := toLocalDate(m.timestamp);
      if |date| != 10 then None else Some(AggKey(date, m.model))
  }

  /** The messages with aggregation key `key`, in order. */
  function MessagesFor(msgs: seq<MessageUsage>, key: AggKey, toLocalDate: string -> string): seq<MessageUsage>
    decreases |msgs|
  {
    if msgs == [] then []
    else
      var last := msgs[|msgs| - 1];
      MessagesFor(msgs[..|msgs| - 1], key, toLocalDate) + (if KeyOf(last, toLocalDate) == Some(key) then [last] else [])
  }

  function AddMessage(a: AggValue, m: MessageUsage): AggValue {
    AggValue(
      a.inputTokens + m.inputTokens,
      a.outputTokens + m.outputTokens,
      a.cacheCreationInputTokens + m.cacheCreationInputTokens,
      a.cacheReadInputTokens + m.cacheReadInputTokens,
      a.messageCount + 1)
  }

  /** Field-wise token sums and the number of messages. */
  function Total(msgs: seq<MessageUsage>): AggValue
    decreases |msgs|
  {
    if msgs == [] then ZeroAgg else AddMessage(Total(msgs[..|msgs| - 1]), msgs[|msgs| - 1])
  }

  /** The keys some message aggregates under. */
  function KeysOf(msgs: seq<MessageUsage>, toLocalDate: string -> string): set<AggKey> {
    set i | 0 <= i < |msgs| && KeyOf(msgs[i], toLocalDate).Some? :: KeyOf(msgs[i], toLocalDate).value
  }

  /** One entry per key, holding the totals of that key's messages. */
  function Aggregate(msgs: seq<MessageUsage>, toLocalDate: string -> string): map<AggKey, AggValue> {
    map k | k in KeysOf(msgs, toLocalDate) :: Total(MessagesFor(msgs, k, toLocalDate))
  }

  function RecKey(r: UsageRecord): AggKey {
    AggKey(r.date, r.model)
  }

  function RecordFor(file: FileInfo, k: AggKey, v: AggValue): UsageRecord {
    UsageRecord(file.filePath, k.date, k.model, file.sessionId, file.projectDir,
      v.inputTokens, v.outputTokens, v.cacheCreationInputTokens, v.cacheReadInputTokens, v.messageCount)
  }

  /** `records` lists `agg` for `file`: one record per key, in some order. */
  ghost predicate IsFileListing(records: seq<UsageRecord>, file: FileInfo, agg: map<AggKey, AggValue>) {
    && (forall i, j :: 0 <= i < j < |records| ==> RecKey(records[i]) != RecKey(records[j]))
    && (forall i :: 0 <= i < |records| ==>
          RecKey(records[i]) in agg && records[i] == RecordFor(file, RecKey(records[i]), agg[RecKey(records[i])]))
    && (forall k :: k in agg ==> exists i :: 0 <= i < |records| && RecKey(records[i]) == k)
  }

  function FileLines(content: Option<seq<Line>>): seq<Line> {
    if content.Some? then content.value else []
  }

  lemma {:induction false} MessagesForFresh(msgs: seq<MessageUsage>, key: AggKey, toLocalDate: string -> string)
    requires key !in KeysOf(msgs, toLocalDate)
    ensures MessagesFor(msgs, key, toLocalDate) == []
    decreases |msgs|
  {
    if msgs != [] {
      var front := msgs[..|msgs| - 1];
      assert KeysOf(front, toLocalDate) <= KeysOf(msgs, toLocalDate) by {
        forall k | k in KeysOf(front, toLocalDate) ensures k in KeysOf(msgs, toLocalDate) {
          var i :| 0 <= i < |front| && KeyOf(front[i], toLocalDate) == Some(k);
          assert msgs[i] == front[i];
        }
      }
      MessagesForFresh(front, key, toLocalDate);
      assert KeyOf(msgs[|msgs| - 1], toLocalDate) != Some(key);
    }
  }

  lemma KeysOfSnoc(msgs: seq<MessageUsage>, m: MessageUsage, toLocalDate: string -> string)
    ensures KeysOf(msgs + [m], toLocalDate)
      == KeysOf(msgs, toLocalDate) + (if KeyOf(m, toLocalDate).Some? then {KeyOf(m, toLocalDate).value} else {})
  {
    var all := msgs + [m];
    assert forall i :: 0 <= i < |msgs| ==> all[i] == msgs[i];
    assert all[|msgs|] == m;
  }

  lemma MessagesForSnoc(msgs: seq<MessageUsage>, m: MessageUsage, k: AggKey, toLocalDate: string -> string)
    ensures MessagesFor(msgs + [m], k, toLocalDate)
      == MessagesFor(msgs, k, toLocalDate) + (if KeyOf(m, toLocalDate) == Some(k) then [m] else [])
  {
    var all := msgs + [m];
    assert all[..|all| - 1] == msgs;
  }

  lemma TotalSnoc(msgs: seq<MessageUsage>, m: MessageUsage)
    ensures Total(msgs + [m]) == AddMessage(Total(msgs), m)
  {
    var all := msgs + [m];
    assert all[..|all| - 1] == msgs;
  }

  /** A key of a message list maps to the totals of that key's messages. */
  lemma AggregateAt(msgs: seq<MessageUsage>, k: AggKey, toLocalDate: string -> string)
    requires k in KeysOf(msgs, toLocalDate)
    ensures k in Aggregate(msgs, toLocalDate)
    ensures Aggregate(msgs, toLocalDate)[k] == Total(MessagesFor(msgs, k, toLocalDate))
  {
  }

  /** Appending a message leaves the entries of the other keys alone. */
  lemma AggregateOtherKey(msgs: seq<MessageUsage>, m: MessageUsage, k: AggKey, toLocalDate: string -> string)
    requires k in KeysOf(msgs + [m], toLocalDate) && KeyOf(m, toLocalDate) != Some(k)
    ensures k in KeysOf(msgs, toLocalDate)
    ensures Aggregate(msgs + [m], toLocalDate)[k] == Aggregate(msgs, toLocalDate)[k]
  {
    KeysOfSnoc(msgs, m, toLocalDate);
    MessagesForSnoc(msgs, m, k, toLocalDate);
    var before := MessagesFor(msgs, k, toLocalDate);
    assert before + [] == before;
    AggregateAt(msgs + [m], k, toLocalDate);
    AggregateAt(msgs, k, toLocalDate);
  }

  /** Appending a message adds it to the entry of its own key. */
  lemma AggregateOwnKey(msgs: seq<MessageUsage>, m: MessageUsage, k: AggKey, toLocalDate: string -> string)
    requires KeyOf(m, toLocalDate) == Some(k)
    ensures k in Aggregate(msgs + [m], toLocalDate)
    ensures var agg := Aggregate(msgs, toLocalDate);
      Aggregate(msgs + [m], toLocalDate)[k] == AddMessage(if k in agg then agg[k] else ZeroAgg, m)
  {
    KeysOfSnoc(msgs, m, toLocalDate);
    MessagesForSnoc(msgs, m, k, toLocalDate);
    TotalSnoc(MessagesFor(msgs, k, toLocalDate), m);
    AggregateAt(msgs + [m], k, toLocalDate);
    if k in KeysOf(msgs, toLocalDate) {
      AggregateAt(msgs, k, toLocalDate);
    } else {
      MessagesForFresh(msgs, k, toLocalDate);
    }
  }

  /** A message without a key leaves the aggregate as it was. */
  lemma AggregateSnocNone(msgs: seq<MessageUsage>, m: MessageUsage, toLocalDate: string -> string)
    requires KeyOf(m, toLocalDate).None?
    ensures Aggregate(msgs + [m], toLocalDate) == Aggregate(msgs, toLocalDate)
  {
    KeysOfSnoc(msgs, m, toLocalDate);
    var agg := Aggregate(msgs, toLocalDate);
    var agg2 := Aggregate(msgs + [m], toLocalDate);
    forall k' | k' in agg2 ensures agg2[k'] == agg[k'] {
      AggregateOtherKey(msgs, m, k', toLocalDate);
    }
  }

  /** A message with key `k` updates the entry of `k` and no other. */
  lemma AggregateSnocSome(msgs: seq<MessageUsage>, m: MessageUsage, k: AggKey, toLocalDate: string -> string)
    requires KeyOf(m, toLocalDate) == Some(k)
    ensures var agg := Aggregate(msgs, toLocalDate);
      Aggregate(msgs + [m], toLocalDate) == agg[k := AddMessage(if k in agg then agg[k] else ZeroAgg, m)]
  {
    KeysOfSnoc(msgs, m, toLocalDate);
    var agg := Aggregate(msgs, toLocalDate);
    var agg2 := Aggregate(msgs + [m], toLocalDate);
    var expected := agg[k := AddMessage(if k in agg then agg[k] else ZeroAgg, m)];
    AggregateOwnKey(msgs, m, k, toLocalDate);
    assert agg2.Keys == expected.Keys;
    forall k' | k' in agg2 ensures agg2[k'] == expected[k'] {
      if k' != k {
        AggregateOtherKey(msgs, m, k', toLocalDate);
      }
    }
    MapsEqual(agg2, expected);
  }

  /** Appending one message updates exactly the entry of its key. */
  lemma AggregateSnoc(msgs: seq<MessageUsage>, m: MessageUsage, toLocalDate: string -> string)
    ensures KeyOf(m, toLocalDate).None? ==> Aggregate(msgs + [m], toLocalDate) == Aggregate(msgs, toLocalDate)
    ensures KeyOf(m, toLocalDate).Some? ==>
      var k := KeyOf(m, toLocalDate).value;
      var agg := Aggregate(msgs, toLocalDate);
      Aggregate(msgs + [m], toLocalDate) == agg[k := AddMessage(if k in agg then agg[k] else ZeroAgg, m)]
  {
    match KeyOf(m, toLocalDate)
    case None => AggregateSnocNone(msgs, m, toLocalDate);
    case Some(k) => AggregateSnocSome(msgs, m, k, toLocalDate);
  }

  /** The line loop of parseFile: the filter chain over every line. */
  method ExtractMessages(lines: seq<Line>, seen: set<string>) returns (messages: seq<MessageUsage>, seenAfter: set<string>)
    ensures Extract(lines, seen) == Extraction(messages, seenAfter)
  {
    messages := [];
    seenAfter := seen;
    for i := 0 to |lines|
      invariant Extract(lines[..i], seen) == Extraction(messages, seenAfter)
    {
      var line := lines[i];
      assert lines[..i + 1][..i] == lines[..i];
      // Fast filter: skip lines without usage data.
      if !Contains(line.text, UsageMarker) {
        continue;
      }
      if line.decoded.None? || line.decoded.value.message.None? || line.decoded.value.message.value.usage.None?
        || !line.decoded.value.message.value.usage.value.hasInputTokens
      {
        continue;
      }
      var parsed := line.decoded.value;
      var msg := parsed.message.value;
      var usage := msg.usage.value;
      // Dedup: messageId:requestId, first wins.
      if msg.id.Some? && parsed.requestId.Some? {
        var dedupKey := msg.id.value + ":" + parsed.requestId.value;
        if dedupKey in seenAfter {
          continue;
        }
        seenAfter := seenAfter + {dedupKey};
      }
      var model := OrEmpty(msg.model);
      if model == "" || model == SyntheticModel {
        continue;
      }
      messages := messages + [MessageUsage(
        model,
        OrZero(usage.inputTokens),
        OrZero(usage.outputTokens),
        OrZero(usage.cacheCreationInputTokens),
        OrZero(usage.cacheReadInputTokens),
        OrEmpty(parsed.timestamp))];
    }
    assert lines[..|lines|] == lines;
  }

  /** One step of the aggregation loop: adds `m` to the entry of `key`,
      starting a fresh entry when there is none. */
  method AddToAggregate(aggregateMap: map<AggKey, AggValue>, key: AggKey, m: MessageUsage)
    returns (r: map<AggKey, AggValue>)
    ensures r == aggregateMap[key := AddMessage(if key in aggregateMap then aggregateMap[key] else ZeroAgg, m)]
  {
    if key in aggregateMap {
      var existing := aggregateMap[key];
      r := aggregateMap[key := AggValue(
        existing.inputTokens + m.inputTokens,
        existing.outputTokens + m.outputTokens,
        existing.cacheCreationInputTokens + m.cacheCreationInputTokens,
        existing.cacheReadInputTokens + m.cacheReadInputTokens,
        existing.messageCount + 1)];
    } else {
      r := aggregateMap[key := AggValue(
        m.inputTokens, m.outputTokens, m.cacheCreationInputTokens, m.cacheReadInputTokens, 1)];
    }
  }

  /** The aggregation loop of parseFile: per-(date, model) totals. */
  method AggregateMessages(messages: seq<MessageUsage>, toLocalDate: string -> string)
    returns (aggregateMap: map<AggKey, AggValue>)
    ensures aggregateMap == Aggregate(messages, toLocalDate)
  {
    aggregateMap := map[];
    for i := 0 to |messages|
      invariant aggregateMap == Aggregate(messages[..i], toLocalDate)
    {
      var m := messages[i];
      assert messages[..i + 1] == messages[..i] + [m];
      if m.timestamp == "" {
        AggregateSnocNone(messages[..i], m, toLocalDate);
        continue;
      }
      var date := toLocalDate(m.timestamp);
      if |date| != 10 {
        AggregateSnocNone(messages[..i], m, toLocalDate);
        continue;
      }
      var key := AggKey(date, m.model);
      AggregateSnocSome(messages[..i], m, key, toLocalDate);
      aggregateMap := AddToAggregate(aggregateMap, key, m);
    }
    assert messages[..|messages|] == messages;
  }

  /** `aggregateMap.map { … }`: one record per key, in the dictionary's
      (unspecified) order. */
  method ListRecords(file: FileInfo, aggregateMap: map<AggKey, AggValue>) returns (records: seq<UsageRecord>)
    ensures IsFileListing(records, file, aggregateMap)
  {
    records := [];
    var rest := aggregateMap.Keys;
    while rest != {}
      invariant rest <= aggregateMap.Keys
      invariant forall i, j :: 0 <= i < j < |records| ==> RecKey(records[i]) != RecKey(records[j])
      invariant forall i :: 0 <= i < |records| ==>
        RecKey(records[i]) in aggregateMap.Keys - rest
        && records[i] == RecordFor(file, RecKey(records[i]), aggregateMap[RecKey(records[i])])
      invariant forall k :: k in aggregateMap.Keys - rest ==> exists i :: 0 <= i < |records| && RecKey(records[i]) == k
      decreases rest
    {
      var key :| key in rest;
      var agg := aggregateMap[key];
      ghost var prev := records;
      records := records + [UsageRecord(file.filePath, key.date, key.model, file.sessionId, file.projectDir,
        agg.inputTokens, agg.outputTokens, agg.cacheCreationInputTokens, agg.cacheReadInputTokens, agg.messageCount)];
      assert RecKey(records[|records| - 1]) == key;
      assert forall i :: 0 <= i < |prev| ==> records[i] == prev[i];
      forall k | k in aggregateMap.Keys - (rest - {key})
        ensures exists i :: 0 <= i < |records| && RecKey(records[i]) == k
      {
        if k == key {
          assert RecKey(records[|prev|]) == k;
        } else {
          assert k in aggregateMap.Keys - rest;
          var i :| 0 <= i < |prev| && RecKey(prev[i]) == k;
          assert RecKey(records[i]) == k;
        }
      }
      rest := rest - {key};
    }
    assert aggregateMap.Keys - rest == aggregateMap.Keys;
  }

  /** Parses one file's lines, threading the batch's seen-set. */
  method ParseFile(file: FileInfo, content: Option<seq<Line>>, toLocalDate: string -> string, seen: set<string>)
    returns (records: seq<UsageRecord>, seenAfter: set<string>)
    ensures content.None? ==> records == [] && seenAfter == seen
    ensures seenAfter == Extract(FileLines(content), seen).seen
    ensures IsFileListing(records, file, Aggregate(Extract(FileLines(content), seen).messages, toLocalDate))
  {
    if content.None? {
      assert Aggregate([], toLocalDate) == map[];
      return [], seen;
    }
    var messages;
    messages, seenAfter := ExtractMessages(content.value, seen);
    var aggregateMap := AggregateMessages(messages, toLocalDate);
    records := ListRecords(file, aggregateMap);
  }

  // ---------------------------------------------------------------------
  // The batch: all files share one seen-set.

  /** The seen-set after parsing `files` in order, starting from `seen`. */
  function RunSeen(files: seq<FileInfo>, read: string -> Option<seq<Line>>, seen: set<string>): set<string>
    decreases |files|
  {
    if files == [] then seen
    else Extract(FileLines(read(files[|files| - 1].filePath)), RunSeen(files[..|files| - 1], read, seen)).seen
  }

  /** The aggregate of the `i`-th file of a batch. */
  function BatchAggregate(files: seq<FileInfo>, read: string -> Option<seq<Line>>, toLocalDate: string -> string, i: nat): map<AggKey, AggValue>
    requires i < |files|
  {
    Aggregate(Extract(FileLines(read(files[i].filePath)), RunSeen(files[..i], read, {})).messages, toLocalDate)
  }

  function Flatten<T>(parts: seq<seq<T>>): seq<T>
    decreases |parts|
  {
    if parts == [] then [] else Flatten(parts[..|parts| - 1]) + parts[|parts| - 1]
  }

  /** One step of the batch loop: appending the listing of file `|parts|`,
      parsed under the seen-set its predecessors left, keeps every loop
      invariant. */
  lemma ParseFilesStep(files: seq<FileInfo>, read: string -> Option<seq<Line>>, toLocalDate: string -> string,
                       parts: seq<seq<UsageRecord>>, records: seq<UsageRecord>, fileRecords: seq<UsageRecord>,
                       seenBefore: set<string>, seenAfter: set<string>)
    requires |parts| < |files| && records == Flatten(parts)
    requires seenBefore == RunSeen(files[..|parts|], read, {})
    requires forall j :: 0 <= j < |parts| ==> IsFileListing(parts[j], files[j], BatchAggregate(files, read, toLocalDate, j))
    requires forall r :: r in records ==> exists j :: 0 <= j < |parts| && r.filePath == files[j].filePath
    requires seenAfter == Extract(FileLines(read(files[|parts|].filePath)), seenBefore).seen
    requires IsFileListing(fileRecords, files[|parts|],
      Aggregate(Extract(FileLines(read(files[|parts|].filePath)), seenBefore).messages, toLocalDate))
    ensures records + fileRecords == Flatten(parts + [fileRecords])
    ensures seenAfter == RunSeen(files[..|parts| + 1], read, {})
    ensures forall j :: 0 <= j < |parts| + 1 ==>
      IsFileListing((parts + [fileRecords])[j], files[j], BatchAggregate(files, read, toLocalDate, j))
    ensures forall r :: r in records + fileRecords ==> exists j :: 0 <= j < |parts| + 1 && r.filePath == files[j].filePath
  {
    var i := |parts|;
    assert files[..i + 1][..i] == files[..i];
    assert (parts + [fileRecords])[..i] == parts;
    forall r | r in records + fileRecords
      ensures exists j :: 0 <= j < i + 1 && r.filePath == files[j].filePath
    {
      if r !in records {
        var k :| 0 <= k < |fileRecords| && fileRecords[k] == r;
        assert r.filePath == files[i].filePath;
      }
    }
  }

  /** Parses a batch of files; `parts[i]` are the records of `files[i]`. */
  method ParseFiles(files: seq<FileInfo>, read: string -> Option<seq<Line>>, toLocalDate: string -> string)
    returns (records: seq<UsageRecord>, ghost parts: seq<seq<UsageRecord>>)
    ensures |parts| == |files| && records == Flatten(parts)
    ensures forall i :: 0 <= i < |files| ==> IsFileListing(parts[i], files[i], BatchAggregate(files, read, toLocalDate, i))
    ensures forall r :: r in records ==> r.filePath in Paths(files)
  {
    records := [];
    parts := [];
    var globalSeen: set<string> := {};
    for i := 0 to |files|
      invariant |parts| == i && records == Flatten(parts)
      invariant globalSeen == RunSeen(files[..i], read, {})
      invariant forall j :: 0 <= j < i ==> IsFileListing(parts[j], files[j], BatchAggregate(files, read, toLocalDate, j))
      invariant forall r :: r in records ==> exists j :: 0 <= j < i && r.filePath == files[j].filePath
    {
      var file := files[i];
      ghost var seenBefore := globalSeen;
      var fileRecords;
      fileRecords, globalSeen := ParseFile(file, read(file.filePath), toLocalDate, globalSeen);
      ParseFilesStep(files, read, toLocalDate, parts, records, fileRecords, seenBefore, globalSeen);
      records := records + fileRecords;
      parts := parts + [fileRecords];
    }
    assert files[..|files|] == files;
    forall r | r in records ensures r.filePath in Paths(files) {
      var j :| 0 <= j < |files| && r.filePath == files[j].filePath;
      assert Paths(files)[j] == r.filePath;
    }
  }

  // ---------------------------------------------------------------------
  // Properties of the filter chain.

  /** Every kept message has a real model name. */
  lemma {:induction false} ExtractedModelsAreReal(lines: seq<Line>, seen: set<string>)
    ensures forall m :: m in Extract(lines, seen).messages ==> m.model != "" && m.model != SyntheticModel
    decreases |lines|
  {
    if lines != [] {
      ExtractedModelsAreReal(lines[..|lines| - 1], seen);
    }
  }

  /** The seen-set only grows. */
  lemma {:induction false} ExtractSeenGrows(lines: seq<Line>, seen: set<string>)
    ensures seen <= Extract(lines, seen).seen
    decreases |lines|
  {
    if lines != [] {
      ExtractSeenGrows(lines[..|lines| - 1], seen);
    }
  }

  /** A line that fails the pre-filter or the shape check contributes nothing
      and leaves the seen-set alone. */
  lemma SkippedLineNoEffect(lines: seq<Line>, line: Line, seen: set<string>)
    requires !HasUsageShape(line)
    ensures Extract(lines + [line], seen) == Extract(lines, seen)
  {
    assert (lines + [line])[..|lines|] == lines;
  }

  /** A line whose dedup key is already seen contributes nothing, and a line with
      a key consumes that key whether or not it is later dropped for its model. */
  lemma DedupKeyConsumed(line: Line, seen: set<string>)
    requires DedupKey(line).Some?
    ensures DedupKey(line).value in seen ==> LineStep(line, seen) == StepResult(None, seen)
    ensures LineStep(line, seen).seen == seen + {DedupKey(line).value}
  {
  }

  /** A line without one of the two ids is never deduplicated. */
  lemma NoKeyNoDedup(line: Line, seen: set<string>, seen': set<string>)
    requires HasUsageShape(line) && DedupKey(line).None?
    ensures LineStep(line, seen).seen == seen
    ensures LineStep(line, seen).message == LineStep(line, seen').message
  {
  }

  /** A line is kept exactly when it has the usage shape, its dedup key (if
      any) is fresh and its model is real; a kept message copies the model and
      the timestamp and takes 0 for every count that is missing or not an
      integer. */
  lemma LineKept(line: Line, seen: set<string>)
    ensures LineStep(line, seen).message.Some? <==>
      && HasUsageShape(line)
      && (DedupKey(line).None? || DedupKey(line).value !in seen)
      && line.decoded.value.message.value.model.Some?
      && line.decoded.value.message.value.model.value != ""
      && line.decoded.value.message.value.model.value != SyntheticModel
    ensures LineStep(line, seen).message.Some? ==>
      var entry := line.decoded.value;
      var u := entry.message.value.usage.value;
      var m := LineStep(line, seen).message.value;
      && m.model == entry.message.value.model.value
      && m.inputTokens == (if u.inputTokens.Some? then u.inputTokens.value else 0)
      && m.outputTokens == (if u.outputTokens.Some? then u.outputTokens.value else 0)
      && m.cacheCreationInputTokens == (if u.cacheCreationInputTokens.Some? then u.cacheCreationInputTokens.value else 0)
      && m.cacheReadInputTokens == (if u.cacheReadInputTokens.Some? then u.cacheReadInputTokens.value else 0)
      && m.timestamp == (if entry.timestamp.Some? then entry.timestamp.value else "")
  {
  }

  /** Number of lines with dedup key `k` that produce a message. */
  function KeyCount(lines: seq<Line>, seen: set<string>, k: string): nat
    decreases |lines|
  {
    if lines == [] then 0
    else
      var front := lines[..|lines| - 1];
      var last := lines[|lines| - 1];
      KeyCount(front, seen, k)
        + (if DedupKey(last) == Some(k) && LineStep(last, Extract(front, seen).seen).message.Some? then 1 else 0)
  }

  /** First-wins: at most one line per dedup key produces a message, none if the
      key was seen before the file, and once one has, the key is seen. */
  lemma {:induction false} KeyCountAtMostOne(lines: seq<Line>, seen: set<string>, k: string)
    ensures KeyCount(lines, seen, k) <= (if k in seen then 0 else 1)
    ensures KeyCount(lines, seen, k) > 0 ==> k in Extract(lines, seen).seen
    ensures seen <= Extract(lines, seen).seen
    decreases |lines|
  {
    if lines != [] {
      var front := lines[..|lines| - 1];
      KeyCountAtMostOne(front, seen, k);
    }
  }

  /** Number of lines with dedup key `k` producing a message over a whole batch. */
  function RunKeyCount(files: seq<FileInfo>, read: string -> Option<seq<Line>>, seen: set<string>, k: string): nat
    decreases |files|
  {
    if files == [] then 0
    else
      var front := files[..|files| - 1];
      RunKeyCount(front, read, seen, k)
        + KeyCount(FileLines(read(files[|files| - 1].filePath)), RunSeen(front, read, seen), k)
  }

  /** Across all files of one batch, a dedup key produces at most one message. */
  lemma {:induction false} RunKeyCountAtMostOne(files: seq<FileInfo>, read: string -> Option<seq<Line>>, seen: set<string>, k: string)
    ensures RunKeyCount(files, read, seen, k) <= (if k in seen then 0 else 1)
    ensures RunKeyCount(files, read, seen, k) > 0 ==> k in RunSeen(files, read, seen)
    ensures seen <= RunSeen(files, read, seen)
    decreases |files|
  {
    if files != [] {
      var front := files[..|files| - 1];
      RunKeyCountAtMostOne(front, read, seen, k);
      KeyCountAtMostOne(FileLines(read(files[|files| - 1].filePath)), RunSeen(front, read, seen), k);
    }
  }

  /** A message's record counts the message once: `messageCount` is the number
      of messages summed. */
  lemma {:induction false} TotalCountsMessages(msgs: seq<MessageUsage>)
    ensures Total(msgs).messageCount == |msgs|
    decreases |msgs|
  {
    if msgs != [] {
      TotalCountsMessages(msgs[..|msgs| - 1]);
    }
  }

  /** Every aggregated key has a non-empty timestamp behind it and a 10-character
      date, and every message with a valid date lands in its key's entry. */
  lemma AggregateKeys(msgs: seq<MessageUsage>, toLocalDate: string -> string, k: AggKey)
    ensures k in Aggregate(msgs, toLocalDate) ==>
      |k.date| == 10 && exists i :: 0 <= i < |msgs| && KeyOf(msgs[i], toLocalDate) == Some(k)
    ensures forall i :: 0 <= i < |msgs| && KeyOf(msgs[i], toLocalDate) == Some(k) ==> k in Aggregate(msgs, toLocalDate)
  {
  }

  /** The totals of a key are additive over the messages: an extra message of
      another key leaves them alone, one of the same key adds its counts. */
  lemma RecordTotals(msgs: seq<MessageUsage>, m: MessageUsage, k: AggKey, toLocalDate: string -> string)
    requires k in Aggregate(msgs + [m], toLocalDate)
    ensures KeyOf(m, toLocalDate) != Some(k) ==> Aggregate(msgs + [m], toLocalDate)[k] == Aggregate(msgs, toLocalDate)[k]
    ensures KeyOf(m, toLocalDate) == Some(k) ==>
      Aggregate(msgs + [m], toLocalDate)[k].inputTokens
        == (if k in Aggregate(msgs, toLocalDate) then Aggregate(msgs, toLocalDate)[k].inputTokens else 0) + m.inputTokens
  {
    AggregateSnoc(msgs, m, toLocalDate);
  }
}
