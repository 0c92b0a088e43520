/** The `~standings` command (`Handler::standings`): keywords in the message choose a
    league, a division and the wild-card view; the teams of that division, or all the
    league's teams ordered by wild-card rank, become the rows of a fixed-width table
    whose columns are as wide as their widest cell.

    The standings feed is an input: `feeds` maps a league id to its decoded division
    records (a league missing from it is a fetch that failed to decode). The wall-clock
    month used in the wild-card view is an input too. */
module Standings {
  import opened Wrappers
  import opened Text

  const AL_LEAGUE_ID: int := 103
  const NL_LEAGUE_ID: int := 104
  const NL_EAST_DIVISION_ID: int := 204

  /** From this month on the table shows magic and elimination numbers. */
  const SEPTEMBER: nat := 9

  // ---------------------------------------------------------------------------------
  // Keyword selector
  // ---------------------------------------------------------------------------------

  /** Some word of `words` equals one of `keys`, ignoring ASCII case. */
  predicate AnyWord(words: seq<string>, keys: seq<string>) {
    exists i, j :: 0 <= i < |words| && 0 <= j < |keys| && EqIgnoreAsciiCase(words[i], keys[j])
  }

  datatype Selection = Selection(leagueId: int, divisionId: int, wildCard: bool)

  predicate HasPrefix(s: string, p: string) {
    p <= s
  }

  /** The keyword sniffing of src/main.rs:103-110. */
  function Select(content: string): (sel: Selection)
    ensures sel.leagueId == AL_LEAGUE_ID ==> 200 <= sel.divisionId <= 202
    ensures sel.leagueId != AL_LEAGUE_ID ==> sel.leagueId == NL_LEAGUE_ID && 203 <= sel.divisionId <= 205
  {
    var words := Tokens(content);
    var american := AnyWord(words, ["al", "a", "american"]);
    var division := if AnyWord(words, ["west", "w"]) then 0 else if AnyWord(words, ["central", "c"]) then 2 else 1;
    var wildCard := exists i :: 0 <= i < |words| &&
                      (EqIgnoreAsciiCase(words[i], "wc") || EqIgnoreAsciiCase(words[i], "wild card")
                       || HasPrefix(content, "~wc") || HasPrefix(content, "~wildcard"));
    Selection(if american then AL_LEAGUE_ID else NL_LEAGUE_ID, 200 + division + (if american then 0 else 3), wildCard)
  }

  /** The league and division chosen always name a real division of that league: the
      AL's are 200 to 202 and the NL's 203 to 205, with west at offset 0, central at 2
      and east at 1; "west" wins over "central". */
  lemma SelectDivision(content: string)
    ensures var sel := Select(content);
            var words := Tokens(content);
            && (sel.leagueId == AL_LEAGUE_ID <==> AnyWord(words, ["al", "a", "american"]))
            && (sel.leagueId == AL_LEAGUE_ID || sel.leagueId == NL_LEAGUE_ID)
            && sel.divisionId == 200 + (if sel.leagueId == AL_LEAGUE_ID then 0 else 3)
                 + (if AnyWord(words, ["west", "w"]) then 0
                    else if AnyWord(words, ["central", "c"]) then 2 else 1)
  {
  }

  /** A word matching one key of a sub-list matches the whole list. */
  lemma AnyWordOfSlice(words: seq<string>, keys: seq<string>, lo: nat, hi: nat)
    requires lo <= hi <= |keys|
    requires !AnyWord(words, keys)
    ensures !AnyWord(words, keys[lo..hi])
  {
    forall i, j | 0 <= i < |words| && 0 <= j < hi - lo
      ensures !EqIgnoreAsciiCase(words[i], keys[lo..hi][j])
    {
      assert keys[lo..hi][j] == keys[lo + j];
    }
  }

  /** A message without keywords shows the configured team's own division. */
  lemma SelectDefault(content: string)
    requires !AnyWord(Tokens(content), ["al", "a", "american", "west", "w", "central", "c"])
    ensures Select(content).leagueId == NL_LEAGUE_ID && Select(content).divisionId == NL_EAST_DIVISION_ID
  {
    var keys := ["al", "a", "american", "west", "w", "central", "c"];
    AnyWordOfSlice(Tokens(content), keys, 0, 3);
    AnyWordOfSlice(Tokens(content), keys, 3, 5);
    AnyWordOfSlice(Tokens(content), keys, 5, 7);
    assert keys[0..3] == ["al", "a", "american"];
    assert keys[3..5] == ["west", "w"];
    assert keys[5..7] == ["central", "c"];
  }

  /** The wild-card view is on exactly when some word is "wc" (in any case) or the
      message starts with "~wc" or "~wildcard"; the comparison with "wild card" never
      succeeds, because no whitespace-separated word contains a space. */
  lemma SelectWildCard(content: string)
    ensures Select(content).wildCard <==>
              (exists i :: 0 <= i < |Tokens(content)| && EqIgnoreAsciiCase(Tokens(content)[i], "wc"))
              || HasPrefix(content, "~wc") || HasPrefix(content, "~wildcard")
  {
    var words := Tokens(content);
    forall i | 0 <= i < |words|
      ensures !EqIgnoreAsciiCase(words[i], "wild card")
    {
      NoWordMatchesSpaced(words[i], "wild card", 4);
    }
    if HasPrefix(content, "~wc") || HasPrefix(content, "~wildcard") {
      assert content[0] == '~';
      assert !IsAsciiWhitespace(content[0]);
      assert |words| > 0;
      assert EqIgnoreAsciiCase(words[0], "wc") || EqIgnoreAsciiCase(words[0], "wild card")
             || HasPrefix(content, "~wc") || HasPrefix(content, "~wildcard");
      assert Select(content).wildCard;
    }
  }

  // ---------------------------------------------------------------------------------
  // Feed records
  // ---------------------------------------------------------------------------------

  /** One element of a division's `teamRecords`. */
  datatype TeamRecord = TeamRecord(
    divisionLeader: bool,
    wildCardRank: Option<string>,
    clubName: string,
    winningPercentage: string,
    gamesBack: Option<string>,
    wildCardGamesBack: Option<string>,
    magicNumber: Option<string>,
    eliminationNumber: Option<string>,
    streakCode: Option<string>)

  /** One element of the feed's `records`: the division's id, short name, the month of
      its `lastUpdated` timestamp (absent when missing or unparseable) and its teams. */
  datatype DivisionRecord = DivisionRecord(
    id: Option<int>,
    nameShort: Option<string>,
    lastUpdatedMonth: Option<nat>,
    teams: seq<TeamRecord>)

  datatype StandingsError =
    | FetchFailed          // the standings request did not decode
    | DivisionNotFound     // no record carries the selected division id
    | NameMissing          // the division has no short name
    | TimestampMissing     // the division's timestamp is missing or unparseable
    | RankUnparsable       // a wild-card rank that is not a `usize`
    | StatMissing          // a column value the month and view call for is missing

  // ---------------------------------------------------------------------------------
  // Team selection
  // ---------------------------------------------------------------------------------

  /** The first record carrying division id `id`. */
  function FindDivision(records: seq<DivisionRecord>, id: int): (r: Option<DivisionRecord>)
    ensures r.None? <==> forall i :: 0 <= i < |records| ==> records[i].id != Some(id)
    ensures r.Some? ==> exists i :: 0 <= i < |records| && records[i] == r.value && r.value.id == Some(id)
                          && forall j :: 0 <= j < i ==> records[j].id != Some(id)
  {
    if records == [] then None
    else if records[0].id == Some(id) then Some(records[0])
    else
      var r := FindDivision(records[1..], id);
      assert forall i :: 1 <= i < |records| ==> records[i] == records[1..][i - 1];
      r
  }

  /** The teams of all divisions, division by division. */
  function AllTeams(records: seq<DivisionRecord>): (ts: seq<TeamRecord>)
    ensures forall d, t :: d in records && t in d.teams ==> t in ts
    ensures forall t :: t in ts ==> exists d :: d in records && t in d.teams
  {
    if records == [] then [] else records[0].teams + AllTeams(records[1..])
  }

  /** The sort key: the wild-card rank parsed as a `u8`, 0 when absent or unparseable. */
  function SortKey(t: TeamRecord): (k: nat)
    ensures k <= U8_MAX
    ensures t.wildCardRank.None? ==> k == 0
  {
    ParseUnsigned(t.wildCardRank.GetOr("0"), U8_MAX).GetOr(0)
  }

  /** A rank the feed sends in decimal, up to 255, is the key itself. */
  lemma SortKeyOfRank(t: TeamRecord, n: nat)
    requires t.wildCardRank == Some(NatToString(n)) && n <= U8_MAX
    ensures SortKey(t) == n
  {
    ParseOfNatToString(n, U8_MAX);
  }

  /** Non-decreasing under `key`. */
  predicate SortedBy(ts: seq<TeamRecord>, key: TeamRecord -> nat) {
    forall i, j :: 0 <= i < j < |ts| ==> key(ts[i]) <= key(ts[j])
  }

  predicate SortedByKey(ts: seq<TeamRecord>) {
    SortedBy(ts, SortKey)
  }

  /** Inserts `t` before the first team whose key is not smaller, so that among equal
      keys the earlier team stays first. */
  function Insert(t: TeamRecord, sorted: seq<TeamRecord>, key: TeamRecord -> nat): (r: seq<TeamRecord>)
    ensures multiset(r) == multiset(sorted) + multiset{t}
    ensures r[0] == t || r[0] == sorted[0]
  {
    if sorted == [] then [t]
    else if key(t) <= key(sorted[0]) then [t] + sorted
    else
      assert sorted == [sorted[0]] + sorted[1..];
      [sorted[0]] + Insert(t, sorted[1..], key)
  }

  /** A team no heavier than the head of a sorted list may go in front of it. */
  lemma ConsSorted(x: TeamRecord, rest: seq<TeamRecord>, key: TeamRecord -> nat)
    requires SortedBy(rest, key)
    requires rest != [] ==> key(x) <= key(rest[0])
    ensures SortedBy([x] + rest, key)
  {
    var r := [x] + rest;
    forall i, j | 0 <= i < j < |r|
      ensures key(r[i]) <= key(r[j])
    {
      assert r[j] == rest[j - 1];
      if i > 0 {
        assert r[i] == rest[i - 1];
      } else if j > 1 {
        assert key(rest[0]) <= key(rest[j - 1]);
      }
    }
  }

  lemma {:induction false} InsertSorted(t: TeamRecord, sorted: seq<TeamRecord>, key: TeamRecord -> nat)
    requires SortedBy(sorted, key)
    ensures SortedBy(Insert(t, sorted, key), key)
  {
    if sorted == [] {
    } else if key(t) <= key(sorted[0]) {
      ConsSorted(t, sorted, key);
    } else {
      var tail := sorted[1..];
      assert SortedBy(tail, key) by {
        forall i, j | 0 <= i < j < |tail|
          ensures key(tail[i]) <= key(tail[j])
        {
          assert tail[i] == sorted[i + 1] && tail[j] == sorted[j + 1];
        }
      }
      InsertSorted(t, tail, key);
      var rest := Insert(t, tail, key);
      assert key(sorted[0]) <= key(rest[0]) by {
        if rest[0] != t {
          assert rest[0] == sorted[1];
        }
      }
      ConsSorted(sorted[0], rest, key);
    }
  }

  /** A stable insertion sort: sorted under `key`, and a permutation of `ts`. */
  function SortBy(ts: seq<TeamRecord>, key: TeamRecord -> nat): (r: seq<TeamRecord>)
    ensures SortedBy(r, key)
    ensures multiset(r) == multiset(ts)
  {
    if ts == [] then []
    else
      assert ts == [ts[0]] + ts[1..];
      InsertSorted(ts[0], SortBy(ts[1..], key), key);
      Insert(ts[0], SortBy(ts[1..], key), key)
  }

  /** `sort_by_key` on the wild-card rank. */
  function SortByRank(ts: seq<TeamRecord>): seq<TeamRecord> {
    SortBy(ts, SortKey)
  }

  /** What the table is built from: its title, the teams in row order, the month that
      picks the columns and whether the wild-card view is on. */
  datatype Plan = Plan(name: string, teams: seq<TeamRecord>, month: nat, wildCard: bool)

  /** The selection of src/main.rs:111-121 once the feed is in. */
  function MakePlan(sel: Selection, records: seq<DivisionRecord>, nowMonth: nat): (r: Result<Plan, StandingsError>)
    ensures sel.wildCard ==> r.Ok? && r.value.name == (if sel.leagueId == AL_LEAGUE_ID then "AL Wild Card" else "NL Wild Card")
                             && multiset(r.value.teams) == multiset(AllTeams(records))
                             && SortedByKey(r.value.teams) && r.value.month == nowMonth && r.value.wildCard
    ensures !sel.wildCard && FindDivision(records, sel.divisionId).None? ==> r == Err(DivisionNotFound)
    ensures !sel.wildCard && r.Ok? ==>
              (!r.value.wildCard && FindDivision(records, sel.divisionId).Some?
               && r.value.teams == FindDivision(records, sel.divisionId).value.teams)
    ensures !sel.wildCard && FindDivision(records, sel.divisionId).Some? ==>
              var d := FindDivision(records, sel.divisionId).value;
              && (d.nameShort.None? ==> r == Err(NameMissing))
              && (d.nameShort.Some? && d.lastUpdatedMonth.None? ==> r == Err(TimestampMissing))
              && (d.nameShort.Some? && d.lastUpdatedMonth.Some? ==>
                    r.Ok? && r.value.name == d.nameShort.value && r.value.month == d.lastUpdatedMonth.value)
  {
    if sel.wildCard then
      Ok(Plan(if sel.leagueId == AL_LEAGUE_ID then "AL Wild Card" else "NL Wild Card",
              SortByRank(AllTeams(records)), nowMonth, true))
    else
      match FindDivision(records, sel.divisionId)
      case None => Err(DivisionNotFound)
      case Some(d) =>
        if d.nameShort.None? then Err(NameMissing)
        else if d.lastUpdatedMonth.None? then Err(TimestampMissing)
        else Ok(Plan(d.nameShort.value, d.teams, d.lastUpdatedMonth.value, false))
  }

  // ---------------------------------------------------------------------------------
  // Rows
  // ---------------------------------------------------------------------------------

  /** The four text columns of a table line. */
  datatype Columns = Columns(team: string, wpct: string, third: string, fourth: string)

  /** One team's line: a one-character marker and its four columns. */
  datatype Row = Row(prefix: string, cols: Columns)

  /** The column titles: games back and streak before September, magic and elimination
      numbers from September on. */
  function Headers(month: nat): (h: Columns)
    ensures h.team == "Team" && h.wpct == "WPCT"
    ensures month >= SEPTEMBER ==> h.third == "M#" && h.fourth == "E#"
    ensures month < SEPTEMBER ==> h.third == "GB" && h.fourth == "Streak"
  {
    if month >= SEPTEMBER then Columns("Team", "WPCT", "M#", "E#") else Columns("Team", "WPCT", "GB", "Streak")
  }

  /** The marker: "D" for a division leader, else the wild-card rank when it is at most 3,
      else a space. */
  function Prefix(leader: bool, rank: nat): (p: string)
    ensures |p| == 1
    ensures leader <==> p == "D"
    ensures !leader && rank <= 3 ==> ParseUnsigned(p, U64_MAX) == Some(rank)
    ensures !leader && rank > 3 ==> p == " "
  {
    if leader then "D"
    else if rank <= 3 then
      ParseOfNatToString(rank, U64_MAX);
      NatToString(rank)
    else " "
  }

  /** One team's row (src/main.rs:126-132), or the first error it meets. */
  function RowOf(t: TeamRecord, wildCard: bool, month: nat): (r: Result<Row, StandingsError>)
    ensures r.Ok? <==> ParseUnsigned(t.wildCardRank.GetOr("0"), U64_MAX).Some?
                       && (month >= SEPTEMBER ==> t.magicNumber.Some? && t.eliminationNumber.Some?)
                       && (month < SEPTEMBER ==> (if wildCard then t.wildCardGamesBack else t.gamesBack).Some?
                                                 && t.streakCode.Some?)
    ensures r.Ok? ==> |r.value.prefix| == 1 && r.value.cols.team == t.clubName && r.value.cols.wpct == t.winningPercentage
  {
    match ParseUnsigned(t.wildCardRank.GetOr("0"), U64_MAX)
    case None => Err(RankUnparsable)
    case Some(rank) =>
      var third := if month >= SEPTEMBER then t.magicNumber else if wildCard then t.wildCardGamesBack else t.gamesBack;
      var fourth := if month >= SEPTEMBER then t.eliminationNumber else t.streakCode;
      if third.None? || fourth.None? then Err(StatMissing)
      else Ok(Row(Prefix(t.divisionLeader, rank), Columns(t.clubName, t.winningPercentage, third.value, fourth.value)))
  }

  /** What a row shows: the marker of the team's standing; from September on the magic
      and elimination numbers, before it the games back (wild-card games back in the
      wild-card view) and the streak. An error is an unparseable rank, and only then
      `RankUnparsable`, or else a missing statistic. */
  lemma RowOfColumns(t: TeamRecord, wildCard: bool, month: nat)
    ensures var r := RowOf(t, wildCard, month);
            r.Ok? ==> r.value.prefix == Prefix(t.divisionLeader, ParseUnsigned(t.wildCardRank.GetOr("0"), U64_MAX).value)
    ensures var r := RowOf(t, wildCard, month);
            r.Ok? && month >= SEPTEMBER ==>
              r.value.cols.third == t.magicNumber.value && r.value.cols.fourth == t.eliminationNumber.value
    ensures var r := RowOf(t, wildCard, month);
            r.Ok? && month < SEPTEMBER ==>
              r.value.cols.third == (if wildCard then t.wildCardGamesBack else t.gamesBack).value
              && r.value.cols.fourth == t.streakCode.value
    ensures var r := RowOf(t, wildCard, month);
            r.Err? ==> (r.error == RankUnparsable <==> ParseUnsigned(t.wildCardRank.GetOr("0"), U64_MAX).None?)
                       && (r.error == RankUnparsable || r.error == StatMissing)
  {
  }

  /** The rows of `teams` in order, or the error of the first team that has one. */
  function RowsOf(teams: seq<TeamRecord>, wildCard: bool, month: nat): (r: Result<seq<Row>, StandingsError>)
    ensures r.Ok? <==> forall i :: 0 <= i < |teams| ==> RowOf(teams[i], wildCard, month).Ok?
    ensures r.Ok? ==> |r.value| == |teams| && forall i :: 0 <= i < |teams| ==> r.value[i] == RowOf(teams[i], wildCard, month).value
    ensures r.Err? ==> exists i :: 0 <= i < |teams| && RowOf(teams[i], wildCard, month).Err?
                         && r.error == RowOf(teams[i], wildCard, month).error
                         && forall j :: 0 <= j < i ==> RowOf(teams[j], wildCard, month).Ok?
  {
    Collect(teams, t => RowOf(t, wildCard, month))
  }

  /** `f` applied to every team in order, or the first error it gives. */
  function Collect(teams: seq<TeamRecord>, f: TeamRecord -> Result<Row, StandingsError>): (r: Result<seq<Row>, StandingsError>)
    ensures r.Ok? <==> forall i :: 0 <= i < |teams| ==> f(teams[i]).Ok?
    ensures r.Ok? ==> |r.value| == |teams| && forall i :: 0 <= i < |teams| ==> r.value[i] == f(teams[i]).value
    ensures r.Err? ==> exists i :: 0 <= i < |teams| && f(teams[i]).Err? && r.error == f(teams[i]).error
                         && forall j :: 0 <= j < i ==> f(teams[j]).Ok?
  {
    if teams == [] then Ok([])
    else
      match f(teams[0])
      case Err(e) => Err(e)
      case Ok(row) =>
        var rest := Collect(teams[1..], f);
        assert forall i :: 1 <= i < |teams| ==> teams[i] == teams[1..][i - 1];
        match rest
        case Err(e) => Err(e)
        case Ok(rows) => Ok([row] + rows)
  }

  /** The loop of src/main.rs:122-133 that pushes one row per team. */
  method BuildRows(teams: seq<TeamRecord>, wildCard: bool, month: nat) returns (r: Result<seq<Row>, StandingsError>)
    ensures r == RowsOf(teams, wildCard, month)
  {
    var table: seq<Row> := [];
    var i := 0;
    while i < |teams|
      invariant i <= |teams|
      invariant |table| == i
      invariant forall j :: 0 <= j < i ==> RowOf(teams[j], wildCard, month).Ok? && table[j] == RowOf(teams[j], wildCard, month).value
    {
      var row := RowOf(teams[i], wildCard, month);
      if row.Err? {
        RowsOfFirstError(teams, wildCard, month, i);
        return Err(row.error);
      }
      table := table + [row.value];
      i := i + 1;
    }
    RowsOfAllOk(teams, wildCard, month, table);
    return Ok(table);
  }

  lemma RowsOfFirstError(teams: seq<TeamRecord>, wildCard: bool, month: nat, i: nat)
    requires i < |teams| && RowOf(teams[i], wildCard, month).Err?
    requires forall j :: 0 <= j < i ==> RowOf(teams[j], wildCard, month).Ok?
    ensures RowsOf(teams, wildCard, month) == Err(RowOf(teams[i], wildCard, month).error)
  {
    var r := RowsOf(teams, wildCard, month);
    var k :| 0 <= k < |teams| && RowOf(teams[k], wildCard, month).Err?
             && r.error == RowOf(teams[k], wildCard, month).error
             && forall j :: 0 <= j < k ==> RowOf(teams[j], wildCard, month).Ok?;
    assert k == i;
  }

  lemma RowsOfAllOk(teams: seq<TeamRecord>, wildCard: bool, month: nat, table: seq<Row>)
    requires |table| == |teams|
    requires forall j :: 0 <= j < |teams| ==> RowOf(teams[j], wildCard, month).Ok? && table[j] == RowOf(teams[j], wildCard, month).value
    ensures RowsOf(teams, wildCard, month) == Ok(table)
  {
    assert RowsOf(teams, wildCard, month).value == table;
  }

  /** Changing the month changes only the third and fourth columns: when both months give
      a table, it lists the same teams in the same order with the same markers. */
  lemma MonthKeepsOrder(teams: seq<TeamRecord>, wildCard: bool, m1: nat, m2: nat)
    requires RowsOf(teams, wildCard, m1).Ok? && RowsOf(teams, wildCard, m2).Ok?
    ensures var a, b := RowsOf(teams, wildCard, m1).value, RowsOf(teams, wildCard, m2).value;
            |a| == |b| && forall i :: 0 <= i < |a| ==>
              a[i].prefix == b[i].prefix && a[i].cols.team == b[i].cols.team && a[i].cols.wpct == b[i].cols.wpct
  {
  }

  // ---------------------------------------------------------------------------------
  // Widths
  // ---------------------------------------------------------------------------------

  /** The width of each column, counted as `str::len` counts: UTF-8 bytes. */
  datatype Widths = Widths(team: nat, wpct: nat, third: nat, fourth: nat)

  function LengthsOf(c: Columns): Widths {
    Widths(Utf8Len(c.team), Utf8Len(c.wpct), Utf8Len(c.third), Utf8Len(c.fourth))
  }

  function Max(a: nat, b: nat): nat {
    if a < b then b else a
  }

  /** Column `k` of a row of cells, counting from 0. */
  function Cell(c: Columns, k: nat): string
    requires k < 4
  {
    if k == 0 then c.team else if k == 1 then c.wpct else if k == 2 then c.third else c.fourth
  }

  /** The width of column `k`, counting from 0. */
  function Width(w: Widths, k: nat): nat
    requires k < 4
  {
    if k == 0 then w.team else if k == 1 then w.wpct else if k == 2 then w.third else w.fourth
  }

  /** Every cell of `c` fits the width of its column. */
  predicate Fits(c: Columns, w: Widths) {
    Utf8Len(c.team) <= w.team && Utf8Len(c.wpct) <= w.wpct && Utf8Len(c.third) <= w.third && Utf8Len(c.fourth) <= w.fourth
  }

  /** The fold of src/main.rs:138: each column as wide as its widest cell, starting from
      `w`. Every width is at least its start, and every cell of its column fits it. */
  function FoldWidths(w: Widths, rows: seq<Row>): (r: Widths)
    ensures forall k :: 0 <= k < 4 ==> Width(w, k) <= Width(r, k)
    ensures forall i :: 0 <= i < |rows| ==> Fits(rows[i].cols, r)
    decreases |rows|
  {
    if rows == [] then w
    else
      var c := LengthsOf(rows[0].cols);
      var next := Widths(Max(w.team, c.team), Max(w.wpct, c.wpct), Max(w.third, c.third), Max(w.fourth, c.fourth));
      var r := FoldWidths(next, rows[1..]);
      assert Width(next, 0) <= Width(r, 0) && Width(next, 1) <= Width(r, 1);
      assert Width(next, 2) <= Width(r, 2) && Width(next, 3) <= Width(r, 3);
      assert forall i :: 1 <= i < |rows| ==> rows[i] == rows[1..][i - 1];
      r
  }

  /** No column is wider than it needs to be: each width is its start or the length of
      one of its cells. */
  lemma {:induction false} FoldWidthsAttained(w: Widths, rows: seq<Row>, k: nat)
    requires k < 4
    ensures var r := FoldWidths(w, rows);
            Width(r, k) == Width(w, k) || exists i :: 0 <= i < |rows| && Width(r, k) == Utf8Len(Cell(rows[i].cols, k))
    decreases |rows|
  {
    if rows != [] {
      var c := LengthsOf(rows[0].cols);
      var next := Widths(Max(w.team, c.team), Max(w.wpct, c.wpct), Max(w.third, c.third), Max(w.fourth, c.fourth));
      FoldWidthsAttained(next, rows[1..], k);
      var r := FoldWidths(next, rows[1..]);
      assert FoldWidths(w, rows) == r;
      if Width(r, k) != Width(next, k) {
        var i :| 0 <= i < |rows[1..]| && Width(r, k) == Utf8Len(Cell(rows[1..][i].cols, k));
        assert rows[i + 1] == rows[1..][i];
      } else if Width(next, k) != Width(w, k) {
        assert Width(r, k) == Utf8Len(Cell(rows[0].cols, k));
      }
    }
  }

  function TableWidths(headers: Columns, rows: seq<Row>): Widths {
    FoldWidths(LengthsOf(headers), rows)
  }

  function Total(w: Widths): nat {
    w.team + w.wpct + w.third + w.fourth
  }

  // ---------------------------------------------------------------------------------
  // Lines
  // ---------------------------------------------------------------------------------

  /** The four columns, each left-aligned to its width, two spaces apart. */
  function Cells(c: Columns, w: Widths): string {
    PadRight(c.team, w.team) + "  " + PadRight(c.wpct, w.wpct) + "  " + PadRight(c.third, w.third) + "  "
      + PadRight(c.fourth, w.fourth)
  }

  lemma CellsLength(c: Columns, w: Widths)
    requires Fits(c, w)
    ensures |Cells(c, w)| == Total(w) + 6
  {
  }

  function HeaderLine(h: Columns, w: Widths): string {
    "  " + Cells(h, w)
  }

  function RowLine(row: Row, w: Widths): string {
    row.prefix + " " + Cells(row.cols, w)
  }

  /** The wild-card cut line after the third team. */
  function Separator(w: Widths): (s: string)
    ensures |s| == 8 + Total(w)
    ensures forall i :: 0 <= i < |s| ==> s[i] == '-'
  {
    Repeat('-', 2 + w.team + 2 + w.wpct + 2 + w.third + 2 + w.fourth)
  }

  /** The lines written for the row with index `i`: its line, and after the row with
      index 2 the separator when the wild-card view is on. */
  function RowBlock(rows: seq<Row>, w: Widths, wildCard: bool, i: nat): seq<string>
    requires i < |rows|
  {
    [RowLine(rows[i], w)] + (if i == 2 && wildCard then [Separator(w)] else [])
  }

  /** The lines written for the first `k` rows. */
  function BodyLines(rows: seq<Row>, w: Widths, wildCard: bool, k: nat): seq<string>
    requires k <= |rows|
  {
    if k == 0 then [] else BodyLines(rows, w, wildCard, k - 1) + RowBlock(rows, w, wildCard, k - 1)
  }

  /** The separator comes exactly once, right after the third row, in the wild-card view
      with at least three rows, and never otherwise; every other line is a row's. */
  lemma {:induction false} BodyLinesSeparator(rows: seq<Row>, w: Widths, wildCard: bool, k: nat)
    requires k <= |rows|
    ensures var body := BodyLines(rows, w, wildCard, k);
            var cut := wildCard && k >= 3;
            && |body| == k + (if cut then 1 else 0)
            && (cut ==> body[3] == Separator(w))
            && (forall i :: 0 <= i < |body| && !(cut && i == 3) ==>
                  body[i] == RowLine(rows[if cut && i > 3 then i - 1 else i], w))
  {
    if k > 0 {
      BodyLinesSeparator(rows, w, wildCard, k - 1);
    }
  }

  lemma RowLineLength(row: Row, w: Widths)
    requires |row.prefix| == 1 && Fits(row.cols, w)
    ensures |RowLine(row, w)| == 8 + Total(w)
  {
    CellsLength(row.cols, w);
  }

  /** Every row line and separator is `8 + total width` characters long. */
  lemma {:induction false} BodyLinesAligned(rows: seq<Row>, w: Widths, wildCard: bool, k: nat)
    requires k <= |rows|
    requires forall i :: 0 <= i < |rows| ==> |rows[i].prefix| == 1 && Fits(rows[i].cols, w)
    ensures forall i :: 0 <= i < |BodyLines(rows, w, wildCard, k)| ==> |BodyLines(rows, w, wildCard, k)[i]| == 8 + Total(w)
  {
    if k > 0 {
      BodyLinesAligned(rows, w, wildCard, k - 1);
      RowLineLength(rows[k - 1], w);
      var prev := BodyLines(rows, w, wildCard, k - 1);
      var block := RowBlock(rows, w, wildCard, k - 1);
      forall i | 0 <= i < |prev + block|
        ensures |(prev + block)[i]| == 8 + Total(w)
      {
        if i >= |prev| {
          assert (prev + block)[i] == block[i - |prev|];
        }
      }
    }
  }

  lemma HeaderLineAligned(h: Columns, w: Widths)
    requires Fits(h, w)
    ensures |HeaderLine(h, w)| == 8 + Total(w)
  {
    CellsLength(h, w);
  }

  /** `lines` written with `writeln!`: each followed by a line feed. */
  function Unlines(lines: seq<string>): string {
    if lines == [] then "" else Unlines(lines[..|lines| - 1]) + lines[|lines| - 1] + "\n"
  }

  /** The description's lines before the closing fence. */
  function TableLines(headers: Columns, rows: seq<Row>, w: Widths, wildCard: bool): seq<string> {
    ["```", HeaderLine(headers, w)] + BodyLines(rows, w, wildCard, |rows|)
  }

  lemma UnlinesSnoc(lines: seq<string>, l: string)
    ensures Unlines(lines + [l]) == Unlines(lines) + l + "\n"
  {
    assert (lines + [l])[..|lines|] == lines;
  }

  /** Writing one more row's block extends the written lines by that block. */
  lemma TableLinesStep(header: string, rows: seq<Row>, w: Widths, wildCard: bool, k: nat)
    requires k < |rows|
    ensures ["```", header] + BodyLines(rows, w, wildCard, k + 1)
            == (["```", header] + BodyLines(rows, w, wildCard, k)) + RowBlock(rows, w, wildCard, k)
  {
  }

  /** The writing loop of src/main.rs:139-148. */
  method RenderTable(headers: Columns, rows: seq<Row>, w: Widths, wildCard: bool) returns (description: string)
    ensures description == Unlines(TableLines(headers, rows, w, wildCard)) + "```"
  {
    var header := HeaderLine(headers, w);
    ghost var lines: seq<string> := [];
    description := "";
    UnlinesSnoc(lines, "```");
    description := description + "```" + "\n";
    lines := lines + ["```"];
    UnlinesSnoc(lines, header);
    description := description + header + "\n";
    lines := lines + [header];
    var idx := 0;
    while idx < |rows|
      invariant idx <= |rows|
      invariant lines == ["```", header] + BodyLines(rows, w, wildCard, idx)
      invariant description == Unlines(lines)
    {
      TableLinesStep(header, rows, w, wildCard, idx);
      var line := RowLine(rows[idx], w);
      UnlinesSnoc(lines, line);
      description := description + line + "\n";
      lines := lines + [line];
      if idx == 2 && wildCard {
        var separator := Separator(w);
        UnlinesSnoc(lines, separator);
        description := description + separator + "\n";
        lines := lines + [separator];
      }
      idx := idx + 1;
    }
    description := description + "```";
  }

  /** The column titles fit the widths the fold starts from. */
  lemma HeadersFit(headers: Columns, rows: seq<Row>)
    ensures Fits(headers, TableWidths(headers, rows))
  {
    var w := TableWidths(headers, rows);
    assert Width(LengthsOf(headers), 0) <= Width(w, 0) && Width(LengthsOf(headers), 1) <= Width(w, 1);
    assert Width(LengthsOf(headers), 2) <= Width(w, 2) && Width(LengthsOf(headers), 3) <= Width(w, 3);
  }

  /** The table's layout: after the opening fence every line, header, rows and separator
      alike, is `8 + total width` characters long, so the columns line up. */
  lemma TableAligned(headers: Columns, rows: seq<Row>, wildCard: bool)
    requires forall i :: 0 <= i < |rows| ==> |rows[i].prefix| == 1
    ensures var w := TableWidths(headers, rows);
            var lines := TableLines(headers, rows, w, wildCard);
            forall i :: 1 <= i < |lines| ==> |lines[i]| == 8 + Total(w)
  {
    var w := TableWidths(headers, rows);
    HeadersFit(headers, rows);
    HeaderLineAligned(headers, w);
    BodyLinesAligned(rows, w, wildCard, |rows|);
    var body := BodyLines(rows, w, wildCard, |rows|);
    var lines := ["```", HeaderLine(headers, w)] + body;
    forall i | 1 <= i < |lines|
      ensures |lines[i]| == 8 + Total(w)
    {
      if i >= 2 {
        assert lines[i] == body[i - 2];
      }
    }
  }

  /** Every table the command can build is aligned: the rows of a plan all carry a
      one-character marker. */
  lemma RowsAligned(teams: seq<TeamRecord>, wildCard: bool, month: nat)
    requires RowsOf(teams, wildCard, month).Ok?
    ensures var rows := RowsOf(teams, wildCard, month).value;
            var w := TableWidths(Headers(month), rows);
            var lines := TableLines(Headers(month), rows, w, wildCard);
            forall i :: 1 <= i < |lines| ==> |lines[i]| == 8 + Total(w)
  {
    TableAligned(Headers(month), RowsOf(teams, wildCard, month).value, wildCard);
  }

  // ---------------------------------------------------------------------------------
  // The command
  // ---------------------------------------------------------------------------------

  datatype Embed = Embed(title: string, description: string)

  /** The table an accepted plan produces. */
  function Render(plan: Plan, rows: seq<Row>): Embed {
    var h := Headers(plan.month);
    Embed(plan.name + " Standings", Unlines(TableLines(h, rows, TableWidths(h, rows), plan.wildCard)) + "```")
  }

  /** `Handler::standings` (src/main.rs:99-154) from the message text to the embed. */
  method Standings(content: string, feeds: map<int, seq<DivisionRecord>>, nowMonth: nat)
    returns (r: Result<Embed, StandingsError>)
    ensures Select(content).leagueId !in feeds ==> r == Err(FetchFailed)
    ensures Select(content).leagueId in feeds ==>
              match MakePlan(Select(content), feeds[Select(content).leagueId], nowMonth)
              case Err(e) => r == Err(e)
              case Ok(plan) =>
                match RowsOf(plan.teams, plan.wildCard, plan.month)
                case Err(e) => r == Err(e)
                case Ok(rows) => r == Ok(Render(plan, rows))
  {
    var sel := Select(content);
    if sel.leagueId !in feeds {
      return Err(FetchFailed);
    }
    var plan := MakePlan(sel, feeds[sel.leagueId], nowMonth);
    if plan.Err? {
      return Err(plan.error);
    }
    var rows := BuildRows(plan.value.teams, plan.value.wildCard, plan.value.month);
    if rows.Err? {
      return Err(rows.error);
    }
    var headers := Headers(plan.value.month);
    var widths := TableWidths(headers, rows.value);
    var description := RenderTable(headers, rows.value, widths, plan.value.wildCard);
    return Ok(Embed(plan.value.name + " Standings", description));
  }
}
