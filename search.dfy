/**
 * The global search endpoint (`GET /search/`) and its suggestion endpoint
 * (`GET /search/suggestions`): tiered relevance scoring, per-category caps,
 * a stable descending sort by score and truncation, plus the two small
 * formatting helpers the results use.
 *
 * The database rows are inputs: each sequence holds the rows the SQL filter
 * matched, in the order the database returned them. The `.limit(n)` applied
 * to each query is modelled (`Take`).
 */
module Search {
  import opened Wrappers
  import opened Strings

  // ------------------------------------------------------------------
  // calculate_relevance_score
  // ------------------------------------------------------------------

  /** `if not text: continue` skips both `None` and the empty string. */
  predicate Blank(field: Option<string>) {
    field.None? || field.value == ""
  }

  /** The positions of the query words that occur among the field's words. */
  function MatchingPositions(queryWords: seq<string>, textWords: seq<string>): set<nat> {
    set i: nat | i < |queryWords| && queryWords[i] in textWords
  }

  /**
   * `sum(1 for word in query_words if word in text_words)`: the number of
   * positions of the query holding a word found among the field's words, so
   * a query word that repeats counts each time.
   */
  function MatchingWords(queryWords: seq<string>, textWords: seq<string>): (n: nat)
    ensures n == |MatchingPositions(queryWords, textWords)|
    ensures n <= |queryWords|
    ensures n > 0 <==> exists i :: 0 <= i < |queryWords| && queryWords[i] in textWords
  {
    if queryWords == [] then 0
    else
      var last := |queryWords| - 1;
      var init := queryWords[..last];
      var n := MatchingWords(init, textWords);
      assert MatchingPositions(queryWords, textWords) ==
             MatchingPositions(init, textWords) + (if queryWords[last] in textWords then {last} else {});
      assert forall i :: 0 <= i < last ==> init[i] == queryWords[i];
      n + (if queryWords[last] in textWords then 1 else 0)
  }

  lemma ShareAtMostOne(m: nat, n: nat)
    requires 0 < m <= n
    ensures 0.0 < m as real / n as real <= 1.0
  {
    assert (m as real / n as real) * (n as real) == m as real;
  }

  /**
   * The word-overlap tier: 0.4 times the share of query words found among
   * the field's words, and nothing at all when no word matches (so the
   * division never sees an empty query).
   */
  function WordOverlap(queryLower: string, textLower: string): (s: real)
    ensures 0.0 <= s <= 0.4
    ensures s > 0.0 <==> MatchingWords(Words(queryLower), Words(textLower)) > 0
  {
    var queryWords := Words(queryLower);
    var matching := MatchingWords(queryWords, Words(textLower));
    if matching > 0 then
      ShareAtMostOne(matching, |queryWords|);
      (matching as real / |queryWords| as real) * 0.4
    else 0.0
  }

  /** What one non-blank field adds: the first tier that matches, comparing lowercased text. */
  function FieldScore(query: string, text: string): (s: real)
    ensures 0.0 <= s <= 1.0
    ensures s == 1.0 <==> Lower(query) == Lower(text)
  {
    var q, t := Lower(query), Lower(text);
    if q == t then 1.0
    else if IsPrefix(q, t) then 0.8
    else if Contains(q, t) then 0.6
    else WordOverlap(q, t)
  }

  function Contribution(query: string, field: Option<string>): real {
    if Blank(field) then 0.0 else FieldScore(query, field.value)
  }

  /** The running total of the loop: the fields' contributions summed in order, before the cap. */
  function FieldsTotal(query: string, fields: seq<Option<string>>): (total: real)
    ensures total >= 0.0
  {
    if fields == [] then 0.0
    else FieldsTotal(query, fields[..|fields| - 1]) + Contribution(query, fields[|fields| - 1])
  }

  /** `calculate_relevance_score(query, *fields)`: the summed contributions, capped at 1. */
  function Relevance(query: string, fields: seq<Option<string>>): (score: real)
    ensures 0.0 <= score <= 1.0
  {
    var total := FieldsTotal(query, fields);
    if total < 1.0 then total else 1.0
  }

  /** The loop of `calculate_relevance_score`, accumulating `total_score` field by field. */
  method CalculateRelevanceScore(query: string, textFields: seq<Option<string>>) returns (score: real)
    ensures score == Relevance(query, textFields)
    ensures 0.0 <= score <= 1.0
  {
    var queryLower := Lower(query);
    var totalScore := 0.0;
    for i := 0 to |textFields|
      invariant totalScore == FieldsTotal(query, textFields[..i])
    {
      var text := textFields[i];
      assert textFields[..i + 1][..i] == textFields[..i];
      if Blank(text) {
        continue;
      }
      var textLower := Lower(text.value);
      if queryLower == textLower {
        totalScore := totalScore + 1.0;
      } else if IsPrefix(queryLower, textLower) {
        totalScore := totalScore + 0.8;
      } else if Contains(queryLower, textLower) {
        totalScore := totalScore + 0.6;
      } else {
        var queryWords := Words(queryLower);
        var textWords := Words(textLower);
        var matchingWords := MatchingWords(queryWords, textWords);
        if matchingWords > 0 {
          totalScore := totalScore + (matchingWords as real / |queryWords| as real) * 0.4;
        }
      }
    }
    assert textFields[..|textFields|] == textFields;
    score := if totalScore < 1.0 then totalScore else 1.0;
  }

  /** The match tiers, strongest first. */
  datatype Tier = Exact | Prefix | Substring | Overlap | NoMatch

  function TierOf(query: string, text: string): Tier {
    var q, t := Lower(query), Lower(text);
    if q == t then Exact
    else if IsPrefix(q, t) then Prefix
    else if Contains(q, t) then Substring
    else if MatchingWords(Words(q), Words(t)) > 0 then Overlap
    else NoMatch
  }

  /** Each tier adds its own amount, and the amounts strictly decrease down the tiers. */
  lemma ScoreByTier(query: string, text: string)
    ensures var s := FieldScore(query, text);
            match TierOf(query, text)
            case Exact => s == 1.0
            case Prefix => s == 0.8
            case Substring => s == 0.6
            case Overlap => 0.0 < s <= 0.4
            case NoMatch => s == 0.0
  {
  }

  /** A field adds the full 1.0 exactly when it equals the query up to case. */
  lemma FullScoreIffEqual(query: string, text: string)
    ensures FieldScore(query, text) == 1.0 <==> Lower(query) == Lower(text)
  {
  }

  /** A call whose fields are all `None` or empty scores 0. */
  lemma {:induction false} BlankFieldsScoreZero(query: string, fields: seq<Option<string>>)
    requires forall i :: 0 <= i < |fields| ==> Blank(fields[i])
    ensures Relevance(query, fields) == 0.0
  {
    if fields != [] {
      BlankFieldsScoreZero(query, fields[..|fields| - 1]);
    }
  }

  /** Non-blank fields each add their tier score to the running total; blank ones add nothing. */
  lemma {:induction false} TotalIsSumOfFields(query: string, fields: seq<Option<string>>, more: seq<Option<string>>)
    ensures FieldsTotal(query, fields + more) == FieldsTotal(query, fields) + FieldsTotal(query, more)
    decreases |more|
  {
    if more == [] {
      assert fields + more == fields;
    } else {
      var last := more[|more| - 1];
      assert (fields + more)[..|fields + more| - 1] == fields + more[..|more| - 1];
      TotalIsSumOfFields(query, fields, more[..|more| - 1]);
    }
  }

  // ------------------------------------------------------------------
  // format_file_size and truncate_text
  // ------------------------------------------------------------------

  const SizeNames: seq<string> := ["B", "KB", "MB", "GB", "TB"]

  /**
   * What `format_file_size` renders: "0 B" for zero bytes, otherwise an
   * amount and the index of its unit in `SizeNames`. The "%.1f" rendering
   * of the amount is not modelled.
   */
  datatype SizeLabel = ZeroBytes | Scaled(amount: real, unitIndex: nat)

  /** `amount` multiplied by 1024 `n` times: the size an amount in the `n`-th unit stands for. */
  function Times1024(amount: real, n: nat): real {
    if n == 0 then amount else 1024.0 * Times1024(amount, n - 1)
  }

  /** Dividing by 1024 while the amount is at least 1024 and a larger unit is left. */
  function ScaleFrom(size: real, i: nat): (sized: SizeLabel)
    requires i < |SizeNames|
    ensures sized.Scaled? && i <= sized.unitIndex < |SizeNames|
    ensures Times1024(sized.amount, sized.unitIndex - i) == size
    ensures sized.amount < 1024.0 || sized.unitIndex == |SizeNames| - 1
    ensures sized.unitIndex > i ==> sized.amount >= 1.0
    decreases |SizeNames| - i
  {
    if size >= 1024.0 && i < |SizeNames| - 1 then
      var sized := ScaleFrom(size / 1024.0, i + 1);
      assert sized.unitIndex > i + 1 ==> sized.amount >= 1.0;
      sized
    else Scaled(size, i)
  }

  /**
   * The unit `format_file_size` picks: "0 B" exactly for zero, otherwise an
   * amount under 1024 (unless the unit is already "TB") that, multiplied
   * back by 1024 once per unit step, is the size.
   */
  function SizeLabelOf(sizeBytes: int): (sized: SizeLabel)
    ensures sized.ZeroBytes? <==> sizeBytes == 0
    ensures sized.Scaled? ==> sized.unitIndex < |SizeNames| &&
                              (sized.amount < 1024.0 || sized.unitIndex == |SizeNames| - 1) &&
                              Times1024(sized.amount, sized.unitIndex) == sizeBytes as real
  {
    if sizeBytes == 0 then ZeroBytes else ScaleFrom(sizeBytes as real, 0)
  }

  function UnitName(sized: SizeLabel): string
    requires sized.Scaled? ==> sized.unitIndex < |SizeNames|
  {
    if sized.ZeroBytes? then "B" else SizeNames[sized.unitIndex]
  }

  /**
   * The unit selection of `format_file_size`: "0 B" exactly for zero bytes;
   * otherwise a unit no larger than "TB", an amount that times 1024 to the
   * unit's index gives back the size, and an amount under 1024 unless the
   * unit is "TB".
   */
  lemma SizeLabelProperties(sizeBytes: int)
    ensures var sized := SizeLabelOf(sizeBytes);
            && (sized.ZeroBytes? <==> sizeBytes == 0)
            && (sized.Scaled? ==> sized.unitIndex < |SizeNames|)
            && (sized.Scaled? ==> Times1024(sized.amount, sized.unitIndex) == sizeBytes as real)
            && (sized.Scaled? ==> sized.amount < 1024.0 || UnitName(sized) == "TB")
  {
  }

  /** `format_file_size`: the while loop that picks the unit. */
  method FormatFileSize(sizeBytes: int) returns (sized: SizeLabel)
    ensures sized == SizeLabelOf(sizeBytes)
  {
    if sizeBytes == 0 {
      return ZeroBytes;
    }
    var i := 0;
    var size := sizeBytes as real;
    while size >= 1024.0 && i < |SizeNames| - 1
      invariant 0 <= i < |SizeNames|
      invariant ScaleFrom(size, i) == ScaleFrom(sizeBytes as real, 0)
      decreases |SizeNames| - i
    {
      size := size / 1024.0;
      i := i + 1;
    }
    sized := Scaled(size, i);
  }

  /** `truncate_text`: short text is kept; longer text keeps its first `maxLength` characters and gains "...". */
  function TruncateText(text: string, maxLength: nat): (r: string)
    ensures |text| <= maxLength ==> r == text
    ensures |text| > maxLength ==> |r| == maxLength + 3 && IsPrefix(text[..maxLength], r) && r[maxLength..] == "..."
    ensures |r| <= maxLength + 3 && |r| <= |text| + 3
  {
    if |text| <= maxLength then text else text[..maxLength] + "..."
  }

  // ------------------------------------------------------------------
  // search: rows, results, caps
  // ------------------------------------------------------------------

  /** The columns of a matching `Tool` row that the result uses. */
  datatype ToolRow = ToolRow(id: nat, name: string, description: Option<string>, category: string)
  /** The columns of a matching `File` row that the result uses. */
  datatype FileRow = FileRow(id: nat, originalName: string, fileType: string, fileSize: int)
  /** A matching `ChatSession` row. */
  datatype SessionRow = SessionRow(sessionId: string, title: string, modelType: string)
  /** A matching `ChatMessage` row, with the session it belongs to. */
  datatype MessageRow = MessageRow(content: string, sessionId: string, sessionTitle: string)

  datatype Kind = Tool | File | Chat

  /** `str(row.id)` for tools and files, the session's string key for chats. */
  datatype ResultId = RowId(n: nat) | SessionKey(key: string)

  /**
   * The `description` of a result: a plain optional text, the file summary
   * ("文件类型: <TYPE>, 大小: <size>") or the session's model sized
   * ("AI模型: <model>"), the fixed wording being rendering.
   */
  datatype Description = Text(text: Option<string>) | FileSummary(fileType: string, size: SizeLabel) | ModelLabel(modelType: string)

  datatype SearchResult = SearchResult(kind: Kind, id: ResultId, title: string, description: Description,
                                       content: Option<string>, score: real)

  const MessageTitlePrefix: string := "聊天记录: "

  function ToolEntry(q: string, t: ToolRow): SearchResult {
    SearchResult(Tool, RowId(t.id), t.name, Text(t.description), Some(t.category),
                 Relevance(q, [Some(t.name), t.description]))
  }

  function FileEntry(q: string, f: FileRow): SearchResult {
    SearchResult(File, RowId(f.id), f.originalName, FileSummary(Upper(f.fileType), SizeLabelOf(f.fileSize)),
                 Some(f.fileType), Relevance(q, [Some(f.originalName)]))
  }

  function SessionEntry(q: string, s: SessionRow): SearchResult {
    SearchResult(Chat, SessionKey(s.sessionId), s.title, ModelLabel(s.modelType), Some(s.title),
                 Relevance(q, [Some(s.title)]) * 0.9)
  }

  function MessageEntry(q: string, m: MessageRow): SearchResult {
    SearchResult(Chat, SessionKey(m.sessionId), MessageTitlePrefix + m.sessionTitle,
                 Text(Some(TruncateText(m.content, 100))), Some(m.content),
                 Relevance(q, [Some(m.content)]) * 0.8)
  }

  /** One tool result per row, in row order. */
  function ToolEntries(q: string, rows: seq<ToolRow>): (rs: seq<SearchResult>)
    ensures |rs| == |rows|
    ensures forall i :: 0 <= i < |rows| ==> rs[i] == ToolEntry(q, rows[i])
  {
    seq(|rows|, i requires 0 <= i < |rows| => ToolEntry(q, rows[i]))
  }

  lemma ToolEntriesStep(q: string, rows: seq<ToolRow>, i: nat)
    requires i < |rows|
    ensures ToolEntries(q, rows[..i + 1]) == ToolEntries(q, rows[..i]) + [ToolEntry(q, rows[i])]
  {
  }

  lemma ToolEntriesScored(q: string, rows: seq<ToolRow>)
    ensures forall r :: r in ToolEntries(q, rows) ==> r.kind == Tool && 0.0 <= r.score <= 1.0
  {
    var rs := ToolEntries(q, rows);
    forall r | r in rs
      ensures r.kind == Tool && 0.0 <= r.score <= 1.0
    {
      var i :| 0 <= i < |rs| && rs[i] == r;
    }
  }

  /** One file result per row, in row order. */
  function FileEntries(q: string, rows: seq<FileRow>): (rs: seq<SearchResult>)
    ensures |rs| == |rows|
    ensures forall i :: 0 <= i < |rows| ==> rs[i] == FileEntry(q, rows[i])
  {
    seq(|rows|, i requires 0 <= i < |rows| => FileEntry(q, rows[i]))
  }

  lemma FileEntriesStep(q: string, rows: seq<FileRow>, i: nat)
    requires i < |rows|
    ensures FileEntries(q, rows[..i + 1]) == FileEntries(q, rows[..i]) + [FileEntry(q, rows[i])]
  {
  }

  lemma FileEntriesScored(q: string, rows: seq<FileRow>)
    ensures forall r :: r in FileEntries(q, rows) ==> r.kind == File && 0.0 <= r.score <= 1.0
  {
    var rs := FileEntries(q, rows);
    forall r | r in rs
      ensures r.kind == File && 0.0 <= r.score <= 1.0
    {
      var i :| 0 <= i < |rs| && rs[i] == r;
    }
  }

  /** One chat result per session row, in row order; the 0.9 weight keeps each score at most 0.9 (`SessionEntriesScored`). */
  function SessionEntries(q: string, rows: seq<SessionRow>): (rs: seq<SearchResult>)
    ensures |rs| == |rows|
    ensures forall i :: 0 <= i < |rows| ==> rs[i] == SessionEntry(q, rows[i])
  {
    seq(|rows|, i requires 0 <= i < |rows| => SessionEntry(q, rows[i]))
  }

  lemma SessionEntriesStep(q: string, rows: seq<SessionRow>, i: nat)
    requires i < |rows|
    ensures SessionEntries(q, rows[..i + 1]) == SessionEntries(q, rows[..i]) + [SessionEntry(q, rows[i])]
  {
  }

  lemma SessionEntriesScored(q: string, rows: seq<SessionRow>)
    ensures forall r :: r in SessionEntries(q, rows) ==> r.kind == Chat && 0.0 <= r.score <= 0.9
  {
    var rs := SessionEntries(q, rows);
    forall r | r in rs
      ensures r.kind == Chat && 0.0 <= r.score <= 0.9
    {
      var i :| 0 <= i < |rs| && rs[i] == r;
    }
  }

  /** One chat result per message row, in row order; the 0.8 weight keeps each score at most 0.8 (`MessageEntriesScored`). */
  function MessageEntries(q: string, rows: seq<MessageRow>): (rs: seq<SearchResult>)
    ensures |rs| == |rows|
    ensures forall i :: 0 <= i < |rows| ==> rs[i] == MessageEntry(q, rows[i])
  {
    seq(|rows|, i requires 0 <= i < |rows| => MessageEntry(q, rows[i]))
  }

  lemma MessageEntriesStep(q: string, rows: seq<MessageRow>, i: nat)
    requires i < |rows|
    ensures MessageEntries(q, rows[..i + 1]) == MessageEntries(q, rows[..i]) + [MessageEntry(q, rows[i])]
  {
  }

  lemma MessageEntriesScored(q: string, rows: seq<MessageRow>)
    ensures forall r :: r in MessageEntries(q, rows) ==> r.kind == Chat && 0.0 <= r.score <= 0.8
  {
    var rs := MessageEntries(q, rows);
    forall r | r in rs
      ensures r.kind == Chat && 0.0 <= r.score <= 0.8
    {
      var i :| 0 <= i < |rs| && rs[i] == r;
    }
  }

  /** The first `n` elements, or all of them when there are fewer (SQL `LIMIT n`, Python `xs[:n]`). */
  function Take<T>(xs: seq<T>, n: int): (r: seq<T>)
    ensures |r| == if n <= 0 then 0 else if n < |xs| then n else |xs|
    ensures r == xs[..|r|]
  {
    if n <= 0 then [] else if n < |xs| then xs[..n] else xs
  }

  /** The per-category limit: a share of `limit` in "all" mode, all of it for a single category. */
  function Cap(searchType: string, limit: int, divisor: nat): int
    requires divisor > 0
  {
    if searchType == "all" then limit / divisor else limit
  }

  function ToolPart(q: string, searchType: string, limit: int, tools: seq<ToolRow>): seq<SearchResult> {
    if searchType == "all" || searchType == "tools" then ToolEntries(q, Take(tools, Cap(searchType, limit, 2))) else []
  }

  function FilePart(q: string, searchType: string, limit: int, files: seq<FileRow>): seq<SearchResult> {
    if searchType == "all" || searchType == "files" then FileEntries(q, Take(files, Cap(searchType, limit, 3))) else []
  }

  function SessionPart(q: string, searchType: string, limit: int, sessions: seq<SessionRow>): seq<SearchResult> {
    if searchType == "all" || searchType == "chats" then SessionEntries(q, Take(sessions, Cap(searchType, limit, 4))) else []
  }

  function MessagePart(q: string, searchType: string, limit: int, messages: seq<MessageRow>): seq<SearchResult> {
    if searchType == "all" || searchType == "chats" then MessageEntries(q, Take(messages, Cap(searchType, limit, 4))) else []
  }

  /** `results` before the sort: tools, then files, then sessions, then messages. */
  function Collected(q: string, searchType: string, limit: int, tools: seq<ToolRow>, files: seq<FileRow>,
                     sessions: seq<SessionRow>, messages: seq<MessageRow>): (rs: seq<SearchResult>)
    ensures |rs| <= |tools| + |files| + |sessions| + |messages|
    ensures searchType != "all" && searchType != "tools" && searchType != "files" && searchType != "chats" ==> rs == []
  {
    ToolPart(q, searchType, limit, tools) + FilePart(q, searchType, limit, files)
    + SessionPart(q, searchType, limit, sessions) + MessagePart(q, searchType, limit, messages)
  }

  // ------------------------------------------------------------------
  // results.sort(key=score, reverse=True): a stable descending sort
  // ------------------------------------------------------------------

  predicate SortedByScore(rs: seq<SearchResult>) {
    forall i, j :: 0 <= i < j < |rs| ==> rs[i].score >= rs[j].score
  }

  /** Places `r` after every result scoring at least as much: where a stable descending sort puts a later element. */
  function InsertByScore(r: SearchResult, sorted: seq<SearchResult>): (res: seq<SearchResult>)
    ensures |res| == |sorted| + 1
  {
    if sorted == [] then [r]
    else if sorted[0].score >= r.score then [sorted[0]] + InsertByScore(r, sorted[1..])
    else [r] + sorted
  }

  /** Python's `list.sort(key=lambda x: x.score, reverse=True)`, as an insertion sort. */
  function SortByScore(rs: seq<SearchResult>): (sorted: seq<SearchResult>)
    ensures |sorted| == |rs|
  {
    if rs == [] then [] else InsertByScore(rs[|rs| - 1], SortByScore(rs[..|rs| - 1]))
  }

  /** The results with score exactly `x`, in order. */
  function WithScore(rs: seq<SearchResult>, x: real): seq<SearchResult> {
    if rs == [] then [] else (if rs[0].score == x then [rs[0]] else []) + WithScore(rs[1..], x)
  }

  lemma {:induction false} WithScoreConcat(a: seq<SearchResult>, b: seq<SearchResult>, x: real)
    ensures WithScore(a + b, x) == WithScore(a, x) + WithScore(b, x)
  {
    if a == [] {
      assert a + b == b;
    } else {
      var head := if a[0].score == x then [a[0]] else [];
      assert (a + b)[0] == a[0];
      assert (a + b)[1..] == a[1..] + b;
      assert WithScore(a + b, x) == head + WithScore(a[1..] + b, x);
      WithScoreConcat(a[1..], b, x);
      assert head + (WithScore(a[1..], x) + WithScore(b, x)) == (head + WithScore(a[1..], x)) + WithScore(b, x);
    }
  }

  lemma {:induction false} WithScoreAbsent(rs: seq<SearchResult>, x: real)
    requires forall i :: 0 <= i < |rs| ==> rs[i].score < x
    ensures WithScore(rs, x) == []
  {
    if rs != [] {
      WithScoreAbsent(rs[1..], x);
    }
  }

  predicate ScoresAtMost(rs: seq<SearchResult>, bound: real) {
    forall i :: 0 <= i < |rs| ==> rs[i].score <= bound
  }

  lemma {:induction false} InsertKeepsBound(r: SearchResult, sorted: seq<SearchResult>, bound: real)
    requires ScoresAtMost(sorted, bound) && r.score <= bound
    ensures ScoresAtMost(InsertByScore(r, sorted), bound)
  {
    if sorted != [] && sorted[0].score >= r.score {
      InsertKeepsBound(r, sorted[1..], bound);
    }
  }

  /** Putting a result in front of sorted results scoring no more than it keeps them sorted. */
  lemma ConsKeepsSorted(r: SearchResult, rs: seq<SearchResult>)
    requires SortedByScore(rs) && ScoresAtMost(rs, r.score)
    ensures SortedByScore([r] + rs)
  {
    forall i, j | 0 <= i < j < |[r] + rs|
      ensures ([r] + rs)[i].score >= ([r] + rs)[j].score
    {
      if i == 0 {
        assert ([r] + rs)[j] == rs[j - 1];
      } else {
        assert ([r] + rs)[i] == rs[i - 1] && ([r] + rs)[j] == rs[j - 1];
      }
    }
  }

  lemma {:induction false} InsertKeepsSorted(r: SearchResult, sorted: seq<SearchResult>)
    requires SortedByScore(sorted)
    ensures SortedByScore(InsertByScore(r, sorted))
  {
    if sorted == [] {
    } else if sorted[0].score >= r.score {
      InsertKeepsSorted(r, sorted[1..]);
      InsertKeepsBound(r, sorted[1..], sorted[0].score);
      ConsKeepsSorted(sorted[0], InsertByScore(r, sorted[1..]));
    } else {
      assert ScoresAtMost(sorted, r.score) by {
        forall i | 0 <= i < |sorted|
          ensures sorted[i].score <= r.score
        {
          assert i == 0 || sorted[0].score >= sorted[i].score;
        }
      }
      ConsKeepsSorted(r, sorted);
    }
  }

  lemma {:induction false} InsertKeepsElements(r: SearchResult, sorted: seq<SearchResult>)
    ensures multiset(InsertByScore(r, sorted)) == multiset(sorted) + multiset{r}
  {
    if sorted != [] && sorted[0].score >= r.score {
      InsertKeepsElements(r, sorted[1..]);
      assert sorted == [sorted[0]] + sorted[1..];
      assert multiset(sorted) == multiset{sorted[0]} + multiset(sorted[1..]);
      assert InsertByScore(r, sorted) == [sorted[0]] + InsertByScore(r, sorted[1..]);
    } else {
      assert InsertByScore(r, sorted) == [r] + sorted;
      assert multiset([r] + sorted) == multiset{r} + multiset(sorted);
    }
  }

  lemma {:induction false} InsertKeepsTies(r: SearchResult, sorted: seq<SearchResult>, x: real)
    requires SortedByScore(sorted)
    ensures WithScore(InsertByScore(r, sorted), x) == WithScore(sorted, x) + WithScore([r], x)
  {
    if sorted == [] {
      assert [r] == [r] + [];
      WithScoreConcat([r], [], x);
    } else if sorted[0].score >= r.score {
      InsertKeepsTies(r, sorted[1..], x);
      assert sorted == [sorted[0]] + sorted[1..];
      WithScoreConcat([sorted[0]], InsertByScore(r, sorted[1..]), x);
      WithScoreConcat([sorted[0]], sorted[1..], x);
    } else {
      WithScoreConcat([r], sorted, x);
      if r.score == x {
        assert forall i :: 0 <= i < |sorted| ==> sorted[i].score <= sorted[0].score;
        WithScoreAbsent(sorted, x);
      }
      assert WithScore([r], x) == (if r.score == x then [r] else []) + WithScore([], x);
    }
  }

  /** The sort returns the same results in descending score order, and results with equal scores keep their order. */
  lemma {:induction false} SortByScoreIsStableSort(rs: seq<SearchResult>)
    ensures SortedByScore(SortByScore(rs))
    ensures multiset(SortByScore(rs)) == multiset(rs)
    ensures forall x :: WithScore(SortByScore(rs), x) == WithScore(rs, x)
  {
    if rs != [] {
      var p, last := rs[..|rs| - 1], rs[|rs| - 1];
      assert rs == p + [last];
      SortByScoreIsStableSort(p);
      InsertKeepsSorted(last, SortByScore(p));
      InsertKeepsElements(last, SortByScore(p));
      forall x ensures WithScore(SortByScore(rs), x) == WithScore(rs, x) {
        InsertKeepsTies(last, SortByScore(p), x);
        WithScoreConcat(p, [last], x);
      }
    }
  }

  /** The tool loop of `search`: one scored result appended per capped row. */
  method AppendToolResults(q: string, rows: seq<ToolRow>) returns (entries: seq<SearchResult>)
    ensures entries == ToolEntries(q, rows)
  {
    entries := [];
    for i := 0 to |rows|
      invariant entries == ToolEntries(q, rows[..i])
    {
      var tool := rows[i];
      var score := CalculateRelevanceScore(q, [Some(tool.name), tool.description]);
      var entry := SearchResult(Tool, RowId(tool.id), tool.name, Text(tool.description), Some(tool.category), score);
      assert entry == ToolEntry(q, tool);
      ToolEntriesStep(q, rows, i);
      entries := entries + [entry];
    }
    assert rows[..|rows|] == rows;
  }

  /** The file loop of `search`. */
  method AppendFileResults(q: string, rows: seq<FileRow>) returns (entries: seq<SearchResult>)
    ensures entries == FileEntries(q, rows)
  {
    entries := [];
    for i := 0 to |rows|
      invariant entries == FileEntries(q, rows[..i])
    {
      var file := rows[i];
      var size := FormatFileSize(file.fileSize);
      var score := CalculateRelevanceScore(q, [Some(file.originalName)]);
      var entry := SearchResult(File, RowId(file.id), file.originalName, FileSummary(Upper(file.fileType), size),
                                Some(file.fileType), score);
      assert entry == FileEntry(q, file);
      FileEntriesStep(q, rows, i);
      entries := entries + [entry];
    }
    assert rows[..|rows|] == rows;
  }

  /** The session loop of `search`, weighting each score by 0.9. */
  method AppendSessionResults(q: string, rows: seq<SessionRow>) returns (entries: seq<SearchResult>)
    ensures entries == SessionEntries(q, rows)
  {
    entries := [];
    for i := 0 to |rows|
      invariant entries == SessionEntries(q, rows[..i])
    {
      var session := rows[i];
      var score := CalculateRelevanceScore(q, [Some(session.title)]);
      var entry := SearchResult(Chat, SessionKey(session.sessionId), session.title, ModelLabel(session.modelType),
                                Some(session.title), score * 0.9);
      assert entry == SessionEntry(q, session);
      SessionEntriesStep(q, rows, i);
      entries := entries + [entry];
    }
    assert rows[..|rows|] == rows;
  }

  /** The message loop of `search`, weighting each score by 0.8. */
  method AppendMessageResults(q: string, rows: seq<MessageRow>) returns (entries: seq<SearchResult>)
    ensures entries == MessageEntries(q, rows)
  {
    entries := [];
    for i := 0 to |rows|
      invariant entries == MessageEntries(q, rows[..i])
    {
      var message := rows[i];
      var score := CalculateRelevanceScore(q, [Some(message.content)]);
      var entry := SearchResult(Chat, SessionKey(message.sessionId), MessageTitlePrefix + message.sessionTitle,
                                Text(Some(TruncateText(message.content, 100))), Some(message.content), score * 0.8);
      assert entry == MessageEntry(q, message);
      MessageEntriesStep(q, rows, i);
      entries := entries + [entry];
    }
    assert rows[..|rows|] == rows;
  }

  /**
   * The search endpoint: collect the capped results per category, sort them,
   * report the count before truncation as `total` and return the first
   * `limit` results.
   */
  method Search(q: string, searchType: string, limit: int, tools: seq<ToolRow>, files: seq<FileRow>,
                sessions: seq<SessionRow>, messages: seq<MessageRow>)
    returns (total: nat, page: seq<SearchResult>)
    requires 1 <= |q| <= 200
    requires 1 <= limit <= 100
    ensures total == |Collected(q, searchType, limit, tools, files, sessions, messages)|
    ensures page == Take(SortByScore(Collected(q, searchType, limit, tools, files, sessions, messages)), limit)
  {
    var results: seq<SearchResult> := [];
    if searchType == "all" || searchType == "tools" {
      var entries := AppendToolResults(q, Take(tools, Cap(searchType, limit, 2)));
      results := results + entries;
    }
    assert results == ToolPart(q, searchType, limit, tools);
    if searchType == "all" || searchType == "files" {
      var entries := AppendFileResults(q, Take(files, Cap(searchType, limit, 3)));
      results := results + entries;
    }
    assert results == ToolPart(q, searchType, limit, tools) + FilePart(q, searchType, limit, files);
    if searchType == "all" || searchType == "chats" {
      var entries := AppendSessionResults(q, Take(sessions, Cap(searchType, limit, 4)));
      results := results + entries;
      entries := AppendMessageResults(q, Take(messages, Cap(searchType, limit, 4)));
      results := results + entries;
    }
    assert results == ToolPart(q, searchType, limit, tools) + FilePart(q, searchType, limit, files)
                      + SessionPart(q, searchType, limit, sessions) + MessagePart(q, searchType, limit, messages);
    assert results == Collected(q, searchType, limit, tools, files, sessions, messages);
    results := SortByScore(results);
    total := |results|;
    page := Take(results, limit);
  }

  /** Every returned result scores in [0, 1]; chat sessions at most 0.9 and chat messages at most 0.8. */
  lemma CollectedScoresBounded(q: string, searchType: string, limit: int, tools: seq<ToolRow>, files: seq<FileRow>,
                               sessions: seq<SessionRow>, messages: seq<MessageRow>)
    ensures forall r :: r in Collected(q, searchType, limit, tools, files, sessions, messages) ==> 0.0 <= r.score <= 1.0
    ensures forall r :: r in SessionPart(q, searchType, limit, sessions) ==> r.score <= 0.9
    ensures forall r :: r in MessagePart(q, searchType, limit, messages) ==> r.score <= 0.8
  {
    ToolEntriesScored(q, Take(tools, Cap(searchType, limit, 2)));
    FileEntriesScored(q, Take(files, Cap(searchType, limit, 3)));
    SessionEntriesScored(q, Take(sessions, Cap(searchType, limit, 4)));
    MessageEntriesScored(q, Take(messages, Cap(searchType, limit, 4)));
  }

  /** The four search types the endpoint knows are different strings. */
  lemma SearchTypesDistinct()
    ensures "all" != "tools" && "all" != "files" && "all" != "chats"
    ensures "tools" != "files" && "tools" != "chats" && "files" != "chats"
  {
    assert |"all"| == 3 && |"tools"| == |"files"| == |"chats"| == 5;
    assert "tools"[0] == 't' && "files"[0] == 'f' && "chats"[0] == 'c';
  }

  /** In "all" mode tools get at most limit//2 results, files limit//3, sessions and messages limit//4 each. */
  lemma CategoryCaps(q: string, limit: int, tools: seq<ToolRow>, files: seq<FileRow>,
                     sessions: seq<SessionRow>, messages: seq<MessageRow>)
    requires 1 <= limit <= 100
    ensures |ToolPart(q, "all", limit, tools)| <= limit / 2
    ensures |FilePart(q, "all", limit, files)| <= limit / 3
    ensures |SessionPart(q, "all", limit, sessions)| <= limit / 4
    ensures |MessagePart(q, "all", limit, messages)| <= limit / 4
  {
  }

  /**
   * A single category gets the whole limit: "tools" and "files" collect only
   * their own rows, up to `limit`; "chats" collects no tools or files and at
   * most `limit` sessions and `limit` messages.
   */
  lemma SingleCategoryLimits(q: string, searchType: string, limit: int, tools: seq<ToolRow>, files: seq<FileRow>,
                             sessions: seq<SessionRow>, messages: seq<MessageRow>)
    requires 1 <= limit <= 100
    ensures searchType == "tools" ==>
              Collected(q, searchType, limit, tools, files, sessions, messages) == ToolPart(q, searchType, limit, tools) &&
              |ToolPart(q, searchType, limit, tools)| == if |tools| < limit then |tools| else limit
    ensures searchType == "files" ==>
              Collected(q, searchType, limit, tools, files, sessions, messages) == FilePart(q, searchType, limit, files) &&
              |FilePart(q, searchType, limit, files)| == if |files| < limit then |files| else limit
    ensures searchType == "chats" ==>
              |SessionPart(q, searchType, limit, sessions)| <= limit &&
              |MessagePart(q, searchType, limit, messages)| <= limit &&
              ToolPart(q, searchType, limit, tools) == [] && FilePart(q, searchType, limit, files) == []
  {
    SearchTypesDistinct();
    if searchType == "tools" {
      assert FilePart(q, searchType, limit, files) == [];
      assert SessionPart(q, searchType, limit, sessions) == [];
      assert MessagePart(q, searchType, limit, messages) == [];
    } else if searchType == "files" {
      assert ToolPart(q, searchType, limit, tools) == [];
      assert SessionPart(q, searchType, limit, sessions) == [];
      assert MessagePart(q, searchType, limit, messages) == [];
    }
  }

  /** Any other search type, "users" included, collects nothing. */
  lemma UnknownTypeFindsNothing(q: string, searchType: string, limit: int, tools: seq<ToolRow>, files: seq<FileRow>,
                                sessions: seq<SessionRow>, messages: seq<MessageRow>)
    requires searchType !in {"all", "tools", "files", "chats"}
    ensures Collected(q, searchType, limit, tools, files, sessions, messages) == []
  {
  }

  /**
   * The returned page: at most `limit` results, in descending score order,
   * drawn from the collected results, and all of them when there are no more
   * than `limit`.
   */
  lemma {:induction false} PageProperties(all: seq<SearchResult>, limit: int)
    requires limit >= 1
    ensures var page := Take(SortByScore(all), limit);
            && |page| == (if |all| < limit then |all| else limit)
            && SortedByScore(page)
            && multiset(page) <= multiset(all)
            && (|all| <= limit ==> multiset(page) == multiset(all))
  {
    var sorted := SortByScore(all);
    SortByScoreIsStableSort(all);
    assert |sorted| == |multiset(sorted)| == |multiset(all)| == |all|;
    var page := Take(sorted, limit);
    assert SortedByScore(page) by {
      forall i, j | 0 <= i < j < |page|
        ensures page[i].score >= page[j].score
      {
        assert page[i] == sorted[i] && page[j] == sorted[j];
      }
    }
    assert sorted == page + sorted[|page|..];
    assert multiset(sorted) == multiset(page) + multiset(sorted[|page|..]);
  }

  // ------------------------------------------------------------------
  // get_search_suggestions
  // ------------------------------------------------------------------

  datatype Suggestion = Suggestion(kind: Kind, text: string, category: string)

  const ToolCategory: string := "工具"
  const FileCategory: string := "文件"
  const ChatCategory: string := "聊天记录"

  /** One suggestion per text, in order, all of the given kind and category. */
  function SuggestionsOf(kind: Kind, category: string, texts: seq<string>): (s: seq<Suggestion>)
    ensures |s| == |texts|
    ensures forall i :: 0 <= i < |s| ==> s[i] == Suggestion(kind, texts[i], category)
  {
    if texts == [] then [] else SuggestionsOf(kind, category, texts[..|texts| - 1]) + [Suggestion(kind, texts[|texts| - 1], category)]
  }

  /** The suggestion list: nothing for a query under 2 characters, else up to 5 per source, tools, files, chats, cut to 10. */
  function Suggestions(q: string, toolNames: seq<string>, fileNames: seq<string>, sessionTitles: seq<string>)
    : (s: seq<Suggestion>)
    ensures |q| < 2 ==> s == []
    ensures |s| <= 10 && |s| <= |toolNames| + |fileNames| + |sessionTitles|
  {
    if |q| < 2 then []
    else
      Take(SuggestionsOf(Tool, ToolCategory, Take(toolNames, 5))
           + SuggestionsOf(File, FileCategory, Take(fileNames, 5))
           + SuggestionsOf(Chat, ChatCategory, Take(sessionTitles, 5)), 10)
  }

  /** One of the three loops of `get_search_suggestions`: a suggestion appended per looked-up name. */
  method AppendSuggestions(acc: seq<Suggestion>, kind: Kind, category: string, texts: seq<string>)
    returns (suggestions: seq<Suggestion>)
    ensures suggestions == acc + SuggestionsOf(kind, category, texts)
  {
    suggestions := acc;
    for i := 0 to |texts|
      invariant suggestions == acc + SuggestionsOf(kind, category, texts[..i])
    {
      suggestions := suggestions + [Suggestion(kind, texts[i], category)];
      assert texts[..i + 1][..i] == texts[..i];
    }
    assert texts[..|texts|] == texts;
  }

  /** `get_search_suggestions`: three capped lookups whose names are appended in turn. */
  method GetSearchSuggestions(q: string, toolNames: seq<string>, fileNames: seq<string>, sessionTitles: seq<string>)
    returns (suggestions: seq<Suggestion>)
    ensures suggestions == Suggestions(q, toolNames, fileNames, sessionTitles)
    ensures |suggestions| <= 10
  {
    if |q| < 2 {
      return [];
    }
    suggestions := AppendSuggestions([], Tool, ToolCategory, Take(toolNames, 5));
    suggestions := AppendSuggestions(suggestions, File, FileCategory, Take(fileNames, 5));
    suggestions := AppendSuggestions(suggestions, Chat, ChatCategory, Take(sessionTitles, 5));
    assert [] + SuggestionsOf(Tool, ToolCategory, Take(toolNames, 5)) == SuggestionsOf(Tool, ToolCategory, Take(toolNames, 5));
    suggestions := Take(suggestions, 10);
  }

  function KindRank(k: Kind): nat {
    match k
    case Tool => 0
    case File => 1
    case Chat => 2
  }

  function CountKind(s: seq<Suggestion>, k: Kind): nat {
    if s == [] then 0 else (if s[0].kind == k then 1 else 0) + CountKind(s[1..], k)
  }

  lemma {:induction false} CountKindOf(kind: Kind, category: string, texts: seq<string>, k: Kind)
    ensures CountKind(SuggestionsOf(kind, category, texts), k) == if k == kind then |texts| else 0
  {
    var s := SuggestionsOf(kind, category, texts);
    if texts != [] {
      assert s[1..] == SuggestionsOf(kind, category, texts[1..]) by {
        CountKindOfShift(kind, category, texts);
      }
      CountKindOf(kind, category, texts[1..], k);
    }
  }

  lemma CountKindOfShift(kind: Kind, category: string, texts: seq<string>)
    requires texts != []
    ensures SuggestionsOf(kind, category, texts)[1..] == SuggestionsOf(kind, category, texts[1..])
  {
  }

  lemma {:induction false} CountKindConcat(a: seq<Suggestion>, b: seq<Suggestion>, k: Kind)
    ensures CountKind(a + b, k) == CountKind(a, k) + CountKind(b, k)
  {
    if a == [] {
      assert a + b == b;
    } else {
      assert (a + b)[0] == a[0];
      assert (a + b)[1..] == a[1..] + b;
      CountKindConcat(a[1..], b, k);
    }
  }

  lemma {:induction false} CountKindPrefix(s: seq<Suggestion>, n: nat, k: Kind)
    requires n <= |s|
    ensures CountKind(s[..n], k) <= CountKind(s, k)
  {
    assert s == s[..n] + s[n..];
    CountKindConcat(s[..n], s[n..], k);
  }

  /** At most 5 suggestions of each kind survive the cut to 10. */
  lemma SuggestionKindsCapped(toolNames: seq<string>, fileNames: seq<string>, sessionTitles: seq<string>, k: Kind)
    ensures CountKind(Take(SuggestionsOf(Tool, ToolCategory, Take(toolNames, 5))
                           + SuggestionsOf(File, FileCategory, Take(fileNames, 5))
                           + SuggestionsOf(Chat, ChatCategory, Take(sessionTitles, 5)), 10), k) <= 5
  {
    var t := SuggestionsOf(Tool, ToolCategory, Take(toolNames, 5));
    var f := SuggestionsOf(File, FileCategory, Take(fileNames, 5));
    var c := SuggestionsOf(Chat, ChatCategory, Take(sessionTitles, 5));
    var all := t + f + c;
    CountKindConcat(t, f, k);
    CountKindConcat(t + f, c, k);
    CountKindOf(Tool, ToolCategory, Take(toolNames, 5), k);
    CountKindOf(File, FileCategory, Take(fileNames, 5), k);
    CountKindOf(Chat, ChatCategory, Take(sessionTitles, 5), k);
    CountKindPrefix(all, |Take(all, 10)|, k);
  }

  /** Each suggestion comes from the source its kind names, and the kinds come tools, files, chats. */
  lemma SuggestionsInSourceOrder(toolNames: seq<string>, fileNames: seq<string>, sessionTitles: seq<string>)
    ensures var s := Take(SuggestionsOf(Tool, ToolCategory, Take(toolNames, 5))
                          + SuggestionsOf(File, FileCategory, Take(fileNames, 5))
                          + SuggestionsOf(Chat, ChatCategory, Take(sessionTitles, 5)), 10);
            && (forall i, j :: 0 <= i < j < |s| ==> KindRank(s[i].kind) <= KindRank(s[j].kind))
            && (forall i :: 0 <= i < |s| && s[i].kind == Tool ==> s[i].text in toolNames)
            && (forall i :: 0 <= i < |s| && s[i].kind == File ==> s[i].text in fileNames)
            && (forall i :: 0 <= i < |s| && s[i].kind == Chat ==> s[i].text in sessionTitles)
  {
    var t := SuggestionsOf(Tool, ToolCategory, Take(toolNames, 5));
    var f := SuggestionsOf(File, FileCategory, Take(fileNames, 5));
    var c := SuggestionsOf(Chat, ChatCategory, Take(sessionTitles, 5));
    var s := Take(t + f + c, 10);
    forall i | 0 <= i < |s| ensures
      && (s[i].kind == Tool ==> s[i].text in toolNames)
      && (s[i].kind == File ==> s[i].text in fileNames)
      && (s[i].kind == Chat ==> s[i].text in sessionTitles)
      && KindRank(s[i].kind) == (if i < |t| then 0 else if i < |t| + |f| then 1 else 2)
    {
      if i < |t| {
        assert s[i] == t[i];
      } else if i < |t| + |f| {
        assert s[i] == f[i - |t|];
      } else {
        assert s[i] == c[i - |t| - |f|];
      }
    }
  }

  /**
   * Suggestions: none for a query shorter than 2 characters; otherwise at
   * most 10, at most 5 from each source, tools before files before chats,
   * and every text comes from the source its kind names.
   */
  lemma SuggestionsShape(q: string, toolNames: seq<string>, fileNames: seq<string>, sessionTitles: seq<string>)
    ensures var s := Suggestions(q, toolNames, fileNames, sessionTitles);
            && (|q| < 2 ==> s == [])
            && |s| <= 10
            && CountKind(s, Tool) <= 5 && CountKind(s, File) <= 5 && CountKind(s, Chat) <= 5
            && (forall i, j :: 0 <= i < j < |s| ==> KindRank(s[i].kind) <= KindRank(s[j].kind))
            && (forall i :: 0 <= i < |s| && s[i].kind == Tool ==> s[i].text in toolNames)
            && (forall i :: 0 <= i < |s| && s[i].kind == File ==> s[i].text in fileNames)
            && (forall i :: 0 <= i < |s| && s[i].kind == Chat ==> s[i].text in sessionTitles)
  {
    if |q| >= 2 {
      SuggestionKindsCapped(toolNames, fileNames, sessionTitles, Tool);
      SuggestionKindsCapped(toolNames, fileNames, sessionTitles, File);
      SuggestionKindsCapped(toolNames, fileNames, sessionTitles, Chat);
      SuggestionsInSourceOrder(toolNames, fileNames, sessionTitles);
    }
  }
}
