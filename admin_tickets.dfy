/** The staff ticket desk (`views/AdminTickets.tsx`): KPI counters, the
    filtered and priority-sorted ticket list, the reply/resolve action, the
    CSV report rows and the colour bands. Everything here is a pure
    function of the complaint list, as in the component's `useMemo`s and
    `map`s. */
module AdminTickets {
  import opened Wrappers
  import opened Strings
  import opened Lists
  import opened Domain

  // ---------------------------------------------------------------- stats

  /** `Math.round(num / den)` for a positive denominator: the nearest
      integer, halves rounded up (towards +infinity). */
  function Round(num: int, den: int): (r: int)
    requires den > 0
    ensures 2 * den * r - den <= 2 * num < 2 * den * r + den
  {
    (2 * num + den) / (2 * den)
  }

  predicate NoAgent(c: Complaint) {
    !Truthy(c.assignedAgentId)
  }

  /** Sum of the priority scores, a missing score counted as 0. */
  function ScoreSum(cs: seq<Complaint>): int
    decreases |cs|
  {
    if cs == [] then 0 else Score(cs[0]) + ScoreSum(cs[1..])
  }

  datatype Stats = Stats(
    inbox: int,
    unassigned: nat,
    all: nat,
    closed: nat,
    avgPriority: int,
    resolvedRate: int)

  /** The `stats` memo. */
  function StatsOf(cs: seq<Complaint>): Stats {
    var total := |cs|;
    var closed := Count(cs, IsClosed);
    Stats(
      total - closed,
      Count(cs, NoAgent),
      total,
      closed,
      Round(ScoreSum(cs), if total == 0 then 1 else total),
      if total > 0 then Round(closed * 100, total) else 0)
  }

  // ------------------------------------------------------------ filtering

  datatype View = InboxView | UnassignedView | AllView | ClosedView | DashboardView

  /** The lower-cased query occurs in the lower-cased id or citizen name. */
  predicate MatchesSearch(c: Complaint, query: string) {
    Includes(Lower(c.id), Lower(query)) || Includes(Lower(c.userName), Lower(query))
  }

  predicate MatchesView(c: Complaint, view: View) {
    match view
    case InboxView => !IsClosed(c)
    case UnassignedView => NoAgent(c)
    case ClosedView => IsClosed(c)
    case _ => true
  }

  /** The `filter` callback: the dashboard view keeps nothing. */
  predicate Keep(c: Complaint, query: string, view: View) {
    view != DashboardView && MatchesSearch(c, query) && MatchesView(c, view)
  }

  function Keeper(query: string, view: View): Complaint -> bool {
    c => Keep(c, query, view)
  }

  /** Inserts `c` into a list sorted by descending score, after every
      element that scores strictly higher and before the others. */
  function InsertByScore(c: Complaint, sorted: seq<Complaint>): (r: seq<Complaint>)
    ensures |r| == |sorted| + 1
    ensures forall x :: x in r <==> x == c || x in sorted
    decreases |sorted|
  {
    if sorted == [] || Score(sorted[0]) <= Score(c) then [c] + sorted
    else [sorted[0]] + InsertByScore(c, sorted[1..])
  }

  /** `sort((a, b) => score(b) - score(a))`: a stable sort, highest score first. */
  function SortByScore(s: seq<Complaint>): (r: seq<Complaint>)
    ensures |r| == |s|
    decreases |s|
  {
    if s == [] then [] else InsertByScore(s[0], SortByScore(s[1..]))
  }

  /** The `filtered` memo. */
  function Filtered(cs: seq<Complaint>, query: string, view: View): seq<Complaint> {
    SortByScore(Filter(cs, Keeper(query, view)))
  }

  // --------------------------------------------------------------- action

  /** `handleAction(status, message, isInternal)` by the signed-in staff
      member `author` at time `now`: `None` is the early return, otherwise
      the new complaint list. */
  function HandleAction(cs: seq<Complaint>, selectedId: Option<string>, status: Status,
                        message: string, isInternal: bool, author: string, now: string)
    : (r: Option<seq<Complaint>>)
    ensures r.Some? ==> |r.value| == |cs|
  {
    if !Truthy(selectedId) || Trim(message) == "" then None
    else
      var update := TicketUpdate(now, author, message, isInternal,
                                 if isInternal then InternalNote else Message);
      Some(seq(|cs|, i requires 0 <= i < |cs| =>
        if cs[i].id == selectedId.value then
          cs[i].(status := if isInternal then cs[i].status else status,
                 updates := cs[i].updates + [update],
                 lastActivityAt := now)
        else cs[i]))
  }

  // ------------------------------------------------------------------ CSV

  const Headers: seq<string> := ["ID", "Citizen Name", "Tracking Number", "Status", "Category",
    "Priority Score", "Sentiment", "Post Office", "Date Reported", "Description"]

  /** `s.replace(/"/g, '""')`. */
  function Escape(s: string): (r: string)
    ensures |r| >= |s|
    decreases |s|
  {
    if s == [] then [] else (if s[0] == '"' then "\"\"" else [s[0]]) + Escape(s[1..])
  }

  /** A field in double quotes with every inner quote doubled
      (section 2, item 7 of RFC 4180). */
  function Quote(s: string): (r: string)
    ensures |r| >= 2 && r[0] == '"' && r[|r| - 1] == '"'
  {
    "\"" + Escape(s) + "\""
  }

  /** Reads the inside of a quoted field: a doubled quote stands for one
      quote; a lone quote is malformed. */
  function Unescape(s: string): Option<string>
    decreases |s|
  {
    if s == [] then Some([])
    else if s[0] == '"' then
      if |s| >= 2 && s[1] == '"' then
        match Unescape(s[2..])
        case None => None
        case Some(t) => Some("\"" + t)
      else None
    else
      match Unescape(s[1..])
      case None => None
      case Some(t) => Some([s[0]] + t)
  }

  /** Reads a quoted CSV field back. */
  function Unquote(f: string): Option<string> {
    if |f| >= 2 && f[0] == '"' && f[|f| - 1] == '"' then Unescape(f[1..|f| - 1]) else None
  }

  /** `c.analysis?.priorityScore || "0"`: a score of 0 is falsy as well. */
  function ScoreField(c: Complaint): string {
    if Score(c) != 0 then IntToString(Score(c)) else "0"
  }

  /** `c.analysis?.category`. */
  function Category(c: Complaint): Option<string> {
    if c.analysis.Some? then c.analysis.value.category else None
  }

  /** `c.analysis?.sentiment`. */
  function Sentiment(c: Complaint): Option<string> {
    if c.analysis.Some? then c.analysis.value.sentiment else None
  }

  /** One report row; `localeDate` stands for `new Date(d).toLocaleDateString()`. */
  function Row(c: Complaint, localeDate: string -> string): (r: seq<string>)
    ensures |r| == |Headers|
  {
    [c.id, c.userName, OrElse(c.trackingNumber, "N/A"), StatusText(c.status),
     OrElse(Category(c), "Other"), ScoreField(c),
     OrElse(Sentiment(c), "Neutral"),
     c.postOffice, localeDate(c.date), Quote(c.description)]
  }

  /** A list of fields joined by commas. */
  function CsvLine(fields: seq<string>): string {
    Join(fields, ",")
  }

  /** Line `i` of the report: the header line, then one line per complaint. */
  function LineAt(cs: seq<Complaint>, localeDate: string -> string, i: nat): string
    requires i <= |cs|
  {
    if i == 0 then CsvLine(Headers) else CsvLine(Row(cs[i - 1], localeDate))
  }

  /** `[headers, ...rows]`, each joined by commas. */
  function Lines(cs: seq<Complaint>, localeDate: string -> string): (r: seq<string>)
    ensures |r| == |cs| + 1
    ensures r[0] == CsvLine(Headers)
  {
    seq(|cs| + 1, i requires 0 <= i <= |cs| => LineAt(cs, localeDate, i))
  }

  /** The report text: a byte-order mark, then the lines joined by `\n`. */
  function CsvContent(cs: seq<Complaint>, localeDate: string -> string): (r: string)
    ensures |r| >= 1 && r[0] == '\U{FEFF}'
  {
    "\U{FEFF}" + Join(Lines(cs, localeDate), "\n")
  }

  // -------------------------------------------------------------- colours

  datatype Tone = Red | Amber | Slate | Emerald | Blue

  /** `getPriorityColor`. */
  function PriorityColor(score: int): Tone {
    if score >= 80 then Red else if score >= 50 then Amber else Slate
  }

  /** `getSentimentStyles`: `sentiment?.toLowerCase()` compared with the
      negative words and with `positive`. */
  function SentimentStyle(sentiment: Option<string>): Tone {
    if sentiment.None? then Blue
    else
      var s := Lower(sentiment.value);
      if s == "negative" || s == "angry" || s == "frustrated" then Red
      else if s == "positive" then Emerald
      else Blue
  }
}

/** What the ticket desk's counters, list, action and report promise. */
module AdminTicketsProperties {
  import opened Wrappers
  import opened Strings
  import opened Lists
  import opened Domain
  import opened AdminTickets
  import opened CsvReader

  predicate IsOpen(c: Complaint) {
    !IsClosed(c)
  }

  // ---------------------------------------------------------------- stats

  /** `inbox` counts the tickets that are not closed, and the counters are
      consistent with one another. */
  lemma StatsCounters(cs: seq<Complaint>)
    ensures StatsOf(cs).all == |cs|
    ensures StatsOf(cs).inbox == Count(cs, IsOpen)
    ensures StatsOf(cs).inbox + StatsOf(cs).closed == StatsOf(cs).all
    ensures StatsOf(cs).unassigned <= StatsOf(cs).all
  {
    CountSplit(cs, IsClosed, IsOpen);
  }

  lemma MulLess(n: int, a: int, b: int)
    requires n > 0 && a < b
    ensures n * a < n * b
  {
  }

  /** Rounding a quotient that lies between `lo` and `hi` stays between them. */
  lemma RoundBounds(num: int, den: int, lo: int, hi: int)
    requires den > 0
    requires lo * den <= num <= hi * den
    ensures lo <= Round(num, den) <= hi
  {
    var r := Round(num, den);
    if r > hi {
      MulLess(den, 2 * hi, 2 * r - 1);
      assert false;
    }
    if r < lo {
      MulLess(den, 2 * r + 1, 2 * lo);
      assert false;
    }
  }

  /** The resolution rate is a percentage: 0 with nothing closed (or no
      tickets), 100 with everything closed. */
  lemma ResolvedRateBounds(cs: seq<Complaint>)
    ensures 0 <= StatsOf(cs).resolvedRate <= 100
    ensures StatsOf(cs).closed == 0 ==> StatsOf(cs).resolvedRate == 0
    ensures |cs| > 0 && StatsOf(cs).closed == |cs| ==> StatsOf(cs).resolvedRate == 100
  {
    var t, c := |cs|, StatsOf(cs).closed;
    if t > 0 {
      RoundBounds(c * 100, t, 0, 100);
      if c == 0 { RoundBounds(0, t, 0, 0); }
      if c == t { RoundBounds(t * 100, t, 100, 100); }
    }
  }

  lemma {:induction false} ScoreSumBounds(cs: seq<Complaint>, lo: int, hi: int)
    requires forall i :: 0 <= i < |cs| ==> lo <= Score(cs[i]) <= hi
    ensures lo * |cs| <= ScoreSum(cs) <= hi * |cs|
    decreases |cs|
  {
    if cs != [] {
      ScoreSumBounds(cs[1..], lo, hi);
    }
  }

  /** The average priority of a non-empty list lies between the lowest and
      the highest score. */
  lemma AveragePriorityBounds(cs: seq<Complaint>, lo: int, hi: int)
    requires |cs| > 0
    requires forall i :: 0 <= i < |cs| ==> lo <= Score(cs[i]) <= hi
    ensures lo <= StatsOf(cs).avgPriority <= hi
  {
    ScoreSumBounds(cs, lo, hi);
    RoundBounds(ScoreSum(cs), |cs|, lo, hi);
  }

  // ------------------------------------------------------------ filtering

  predicate Descending(s: seq<Complaint>) {
    forall i, j :: 0 <= i < j < |s| ==> Score(s[i]) >= Score(s[j])
  }

  function ScoreIs(k: int): Complaint -> bool {
    c => Score(c) == k
  }

  lemma {:induction false} InsertSorted(c: Complaint, s: seq<Complaint>)
    requires Descending(s)
    ensures Descending(InsertByScore(c, s))
    decreases |s|
  {
    if s != [] && Score(s[0]) > Score(c) {
      InsertSorted(c, s[1..]);
      var rest := InsertByScore(c, s[1..]);
      forall j | 0 <= j < |rest| ensures Score(rest[j]) <= Score(s[0]) {
        assert rest[j] in rest;
      }
    }
  }

  lemma {:induction false} InsertPermutes(c: Complaint, s: seq<Complaint>)
    ensures multiset(InsertByScore(c, s)) == multiset(s) + multiset{c}
    decreases |s|
  {
    if s != [] && Score(s[0]) > Score(c) {
      InsertPermutes(c, s[1..]);
      assert s == [s[0]] + s[1..];
    }
  }

  /** Inserting `c` places it before every element of its own score. */
  lemma {:induction false} InsertStable(c: Complaint, s: seq<Complaint>, k: int)
    ensures Filter(InsertByScore(c, s), ScoreIs(k))
         == if Score(c) == k then [c] + Filter(s, ScoreIs(k)) else Filter(s, ScoreIs(k))
    decreases |s|
  {
    var r := InsertByScore(c, s);
    if s == [] || Score(s[0]) <= Score(c) {
      assert r == [c] + s;
      assert r[0] == c && r[1..] == s;
    } else {
      InsertStable(c, s[1..], k);
      assert r == [s[0]] + InsertByScore(c, s[1..]);
      assert r[0] == s[0] && r[1..] == InsertByScore(c, s[1..]);
    }
  }

  /** The sort orders by descending score, keeps every element as often as
      it occurs, and keeps tickets of equal score in their original order. */
  lemma {:induction false} SortSpec(s: seq<Complaint>)
    ensures Descending(SortByScore(s))
    ensures multiset(SortByScore(s)) == multiset(s)
    ensures forall k :: Filter(SortByScore(s), ScoreIs(k)) == Filter(s, ScoreIs(k))
    decreases |s|
  {
    if s != [] {
      SortSpec(s[1..]);
      InsertSorted(s[0], SortByScore(s[1..]));
      InsertPermutes(s[0], SortByScore(s[1..]));
      assert s == [s[0]] + s[1..];
      forall k ensures Filter(SortByScore(s), ScoreIs(k)) == Filter(s, ScoreIs(k)) {
        InsertStable(s[0], SortByScore(s[1..]), k);
      }
    }
  }

  /** The filtered list holds each ticket that passes the view and the
      search as often as it occurs in the list, and no other, highest
      priority first. */
  lemma FilteredSpec(cs: seq<Complaint>, query: string, view: View)
    ensures forall c :: multiset(Filtered(cs, query, view))[c]
                     == if Keep(c, query, view) then multiset(cs)[c] else 0
    ensures Descending(Filtered(cs, query, view))
  {
    SortSpec(Filter(cs, Keeper(query, view)));
    FilterMultiset(cs, Keeper(query, view));
  }

  /** The dashboard view lists nothing. */
  lemma DashboardListsNothing(cs: seq<Complaint>, query: string)
    ensures Filtered(cs, query, DashboardView) == []
  {
  }

  /** An empty query matches every ticket. */
  lemma EmptyQueryMatches(c: Complaint)
    ensures MatchesSearch(c, "")
  {
    assert Lower("") == "";
    IncludesEmpty(Lower(c.id));
  }

  /** With an empty query each view lists as many tickets as its counter. */
  lemma ViewsMatchCounters(cs: seq<Complaint>)
    ensures |Filtered(cs, "", InboxView)| == StatsOf(cs).inbox
    ensures |Filtered(cs, "", ClosedView)| == StatsOf(cs).closed
    ensures |Filtered(cs, "", UnassignedView)| == StatsOf(cs).unassigned
    ensures |Filtered(cs, "", AllView)| == StatsOf(cs).all
  {
    forall c | true ensures MatchesSearch(c, "") {
      EmptyQueryMatches(c);
    }
    StatsCounters(cs);
    FilterSame(cs, Keeper("", InboxView), IsOpen);
    FilterSame(cs, Keeper("", ClosedView), IsClosed);
    FilterSame(cs, Keeper("", UnassignedView), NoAgent);
    FilterSame(cs, Keeper("", AllView), c => true);
    AllPass(cs);
  }

  lemma {:induction false} AllPass(cs: seq<Complaint>)
    ensures Filter(cs, c => true) == cs
    decreases |cs|
  {
    if cs != [] {
      AllPass(cs[1..]);
      assert cs == [cs[0]] + cs[1..];
    }
  }

  // --------------------------------------------------------------- action

  /** The action does nothing exactly when no ticket is selected or the
      message is only whitespace. */
  lemma ActionIgnoredIff(cs: seq<Complaint>, selectedId: Option<string>, status: Status,
                         message: string, isInternal: bool, author: string, now: string)
    ensures HandleAction(cs, selectedId, status, message, isInternal, author, now).None?
        <==> !Truthy(selectedId) || IsBlank(message)
  {
    TrimEmptyIffBlank(message);
  }

  /** Only tickets with the selected id change: their status follows the
      action unless it is an internal note, one update is appended whose
      kind is `internal_note` exactly for internal actions, the activity
      time is `now`, and every other field is kept. */
  lemma ActionChangesSelected(cs: seq<Complaint>, selectedId: Option<string>, status: Status,
                              message: string, isInternal: bool, author: string, now: string)
    requires HandleAction(cs, selectedId, status, message, isInternal, author, now).Some?
    ensures var r := HandleAction(cs, selectedId, status, message, isInternal, author, now).value;
      forall i :: 0 <= i < |cs| ==>
        if cs[i].id != selectedId.value then r[i] == cs[i]
        else
          && r[i].status == (if isInternal then cs[i].status else status)
          && |r[i].updates| == |cs[i].updates| + 1
          && r[i].updates[..|cs[i].updates|] == cs[i].updates
          && (var u := r[i].updates[|cs[i].updates|];
              u.message == message && u.author == author && u.isInternal == isInternal
              && (u.kind == InternalNote <==> isInternal))
          && r[i].lastActivityAt == now
          && r[i].(status := cs[i].status, updates := cs[i].updates,
                   lastActivityAt := cs[i].lastActivityAt) == cs[i]
  {
    var r := HandleAction(cs, selectedId, status, message, isInternal, author, now).value;
    forall i | 0 <= i < |cs| && cs[i].id == selectedId.value
      ensures r[i].updates[..|cs[i].updates|] == cs[i].updates
    {
      assert r[i].updates == cs[i].updates + [r[i].updates[|cs[i].updates|]];
    }
  }

  // ------------------------------------------------------------------ CSV

  lemma {:induction false} UnescapeEscape(s: string)
    ensures Unescape(Escape(s)) == Some(s)
    decreases |s|
  {
    if s != [] {
      UnescapeEscape(s[1..]);
      var e := Escape(s);
      if s[0] == '"' {
        assert e[2..] == Escape(s[1..]);
      } else {
        assert e[1..] == Escape(s[1..]);
      }
      assert [s[0]] + s[1..] == s;
    }
  }

  /** A quoted description reads back as the description (RFC 4180,
      section 2, item 7). */
  lemma QuoteRoundTrip(s: string)
    ensures Unquote(Quote(s)) == Some(s)
  {
    var q := Quote(s);
    assert q[1..|q| - 1] == Escape(s);
    UnescapeEscape(s);
  }

  /** A row a reader gets back: its nine unquoted fields hold no comma and
      do not open with a quote, and no field holds a line break. The quoted
      description may hold commas and quotes. */
  predicate PlainRow(c: Complaint, localeDate: string -> string) {
    && (forall j :: 0 <= j < 9 ==> Plain(Row(c, localeDate)[j]))
    && (forall j :: 0 <= j < |Headers| ==> '\n' !in Row(c, localeDate)[j])
  }

  predicate PlainFields(cs: seq<Complaint>, localeDate: string -> string) {
    forall i :: 0 <= i < |cs| ==> PlainRow(cs[i], localeDate)
  }

  /** After the header line, line `i + 1` of the report is complaint `i`'s
      row, in list order. */
  lemma LinesRows(cs: seq<Complaint>, localeDate: string -> string)
    ensures forall i :: 0 <= i < |cs| ==> Lines(cs, localeDate)[i + 1] == CsvLine(Row(cs[i], localeDate))
  {
    forall i | 0 <= i < |cs| ensures Lines(cs, localeDate)[i + 1] == CsvLine(Row(cs[i], localeDate)) {
      assert Lines(cs, localeDate)[i + 1] == LineAt(cs, localeDate, i + 1);
    }
  }

  /** A plain row's line has no line break, and a CSV reader gets back its
      nine unquoted fields followed by the description itself. */
  lemma RowReadsBack(c: Complaint, localeDate: string -> string)
    requires PlainRow(c, localeDate)
    ensures '\n' !in CsvLine(Row(c, localeDate))
    ensures ReadFields(CsvLine(Row(c, localeDate))) == Row(c, localeDate)[..9] + [c.description]
  {
    var row := Row(c, localeDate);
    JoinChars(row, ",", '\n');
    assert row == row[..9] + [Quote(c.description)];
    ReadJoin(row[..9], Quote(c.description));
    ReadQuotedField(c.description);
  }

  lemma PlainHeader(j: nat)
    requires j < |Headers|
    ensures ',' !in Headers[j] && '\n' !in Headers[j]
  {
    if j < 5 { PlainHeaderFirst(j); } else { PlainHeaderLast(j); }
  }

  lemma PlainHeaderFirst(j: nat)
    requires j < 5
    ensures ',' !in Headers[j] && '\n' !in Headers[j]
  {
    match j
    case 0 => case 1 => case 2 => case 3 => case 4 =>
  }

  lemma PlainHeaderLast(j: nat)
    requires 5 <= j < 10
    ensures ',' !in Headers[j] && '\n' !in Headers[j]
  {
    match j
    case 5 => case 6 => case 7 => case 8 => case 9 =>
  }

  lemma HeaderLine()
    ensures ReadFields(CsvLine(Headers)) == Headers
    ensures '\n' !in CsvLine(Headers)
  {
    forall j | 0 <= j < |Headers| ensures ',' !in Headers[j] && '\n' !in Headers[j] {
      PlainHeader(j);
    }
    assert Headers == Headers[..9] + [Headers[9]];
    ReadJoin(Headers[..9], Headers[9]);
    ReadPlainField(Headers[9]);
    JoinChars(Headers, ",", '\n');
  }

  /** When every row is plain, a CSV reader gets the report back as the
      header and one ten-field row per complaint, in order, ending with the
      complaint's own description. */
  lemma CsvReadsBack(cs: seq<Complaint>, localeDate: string -> string)
    requires PlainFields(cs, localeDate)
    ensures var content := CsvContent(cs, localeDate);
      var lines := Split(content[1..], '\n');
      && |lines| == |cs| + 1
      && ReadFields(lines[0]) == Headers
      && forall i :: 0 <= i < |cs| ==>
           ReadFields(lines[i + 1]) == Row(cs[i], localeDate)[..9] + [cs[i].description]
  {
    ReportLines(cs, localeDate);
    HeaderLine();
    LinesRows(cs, localeDate);
    forall i | 0 <= i < |cs|
      ensures ReadFields(Lines(cs, localeDate)[i + 1]) == Row(cs[i], localeDate)[..9] + [cs[i].description]
    {
      RowReadsBack(cs[i], localeDate);
    }
  }

  /** No line of a report of plain rows holds a line break. */
  lemma LinesPlain(cs: seq<Complaint>, localeDate: string -> string)
    requires PlainFields(cs, localeDate)
    ensures forall j :: 0 <= j < |Lines(cs, localeDate)| ==> '\n' !in Lines(cs, localeDate)[j]
  {
    var ls := Lines(cs, localeDate);
    HeaderLine();
    LinesRows(cs, localeDate);
    forall j | 0 <= j < |ls| ensures '\n' !in ls[j] {
      if j > 0 {
        RowReadsBack(cs[j - 1], localeDate);
      }
    }
  }

  /** The report after its byte-order mark splits at line breaks into its
      lines. */
  lemma ReportLines(cs: seq<Complaint>, localeDate: string -> string)
    requires PlainFields(cs, localeDate)
    ensures Split(CsvContent(cs, localeDate)[1..], '\n') == Lines(cs, localeDate)
  {
    var ls := Lines(cs, localeDate);
    LinesPlain(cs, localeDate);
    SplitJoin(ls, '\n');
    assert CsvContent(cs, localeDate)[1..] == Join(ls, "\n");
  }

  // -------------------------------------------------------------- colours

  /** Position of a tone on the urgency scale of the priority badge. */
  function Urgency(t: Tone): nat {
    match t
    case Red => 2
    case Amber => 1
    case _ => 0
  }

  /** The bands cover every score: red from 80, amber from 50 to 79, slate
      below; a higher score is never shown less urgently. */
  lemma PriorityBands(score: int, other: int)
    ensures PriorityColor(score) == Red <==> score >= 80
    ensures PriorityColor(score) == Amber <==> 50 <= score < 80
    ensures PriorityColor(score) == Slate <==> score < 50
    ensures score <= other ==> Urgency(PriorityColor(score)) <= Urgency(PriorityColor(other))
  {
  }

  lemma LowerIdempotent(s: string)
    ensures Lower(Lower(s)) == Lower(s)
  {
  }

  /** The words the sentiment badge shows in red, in lower case. */
  const NegativeWords: set<string> := {"negative", "angry", "frustrated"}

  /** The sentiment style ignores letter case: red exactly for the negative
      words, emerald exactly for "positive", blue for anything else and for
      a missing sentiment. */
  lemma SentimentIgnoresCase(s: string)
    ensures SentimentStyle(Some(s)) == SentimentStyle(Some(Lower(s)))
    ensures SentimentStyle(Some(s)) == Red <==> Lower(s) in NegativeWords
    ensures SentimentStyle(Some(s)) == Emerald <==> Lower(s) == "positive"
    ensures SentimentStyle(Some(s)) == Blue <==> Lower(s) !in NegativeWords && Lower(s) != "positive"
    ensures SentimentStyle(None) == Blue
    ensures SentimentStyle(Some("Angry")) == Red && SentimentStyle(Some("POSITIVE")) == Emerald
  {
    LowerIdempotent(s);
    assert Lower("Angry") == "angry";
    assert Lower("POSITIVE") == "positive";
  }
}
