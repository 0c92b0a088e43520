/** The `~savant` command's percentile profile (`PercentileRankings`,
    `get_percentile_rankings`, `format_percentile_ranking`): the last season row of the
    player page's percentile table is read column by column into a record of optional
    percentiles, and each present percentile is rendered as a 15-character bar under the
    headers of the roles the record supports.

    The page is an input: its scraped parts are the header labels (inner HTML of the
    header cells, in order), the cells of the last body row (each the inner HTML of the
    cell's first child element, absent when the cell has none) and the player's name. */
module Percentiles {
  import opened Wrappers
  import opened Text

  // ---------------------------------------------------------------------------------
  // The record
  // ---------------------------------------------------------------------------------

  /** The statistics the record can hold, one per optional field of `PercentileRankings`. */
  datatype Stat =
    | XwOBA | XBA | XSLG | AvgEV | BatSpeed | BarrelPct | HardHitPct | ChasePct | WhiffPct
    | KPct | BBPct | OAA | ArmStrength | Speed | XERA | FBVelo | FBSpin | CBSpin | Extension

  /** `PercentileRankings`: season, display name and one optional percentile per stat. */
  datatype Rankings = Rankings(
    year: nat, name: string,
    xwOBA: Option<nat>, xBA: Option<nat>, xSLG: Option<nat>, avgEV: Option<nat>,
    batSpeed: Option<nat>, barrelPct: Option<nat>, hardHitPct: Option<nat>, chasePct: Option<nat>,
    whiffPct: Option<nat>, kPct: Option<nat>, bbPct: Option<nat>, oaa: Option<nat>,
    armStrength: Option<nat>, speed: Option<nat>, xERA: Option<nat>, fbVelo: Option<nat>,
    fbSpin: Option<nat>, cbSpin: Option<nat>, extension: Option<nat>)

  /** The record the bot starts from: the season and name, every percentile absent. */
  function Blank(year: nat, name: string): (r: Rankings)
    ensures r.year == year && r.name == name
    ensures forall s :: Get(r, s).None?
  {
    Rankings(year, name, None, None, None, None, None, None, None, None, None, None, None,
             None, None, None, None, None, None, None, None)
  }

  function Get(r: Rankings, s: Stat): Option<nat> {
    match s
    case XwOBA => r.xwOBA
    case XBA => r.xBA
    case XSLG => r.xSLG
    case AvgEV => r.avgEV
    case BatSpeed => r.batSpeed
    case BarrelPct => r.barrelPct
    case HardHitPct => r.hardHitPct
    case ChasePct => r.chasePct
    case WhiffPct => r.whiffPct
    case KPct => r.kPct
    case BBPct => r.bbPct
    case OAA => r.oaa
    case ArmStrength => r.armStrength
    case Speed => r.speed
    case XERA => r.xERA
    case FBVelo => r.fbVelo
    case FBSpin => r.fbSpin
    case CBSpin => r.cbSpin
    case Extension => r.extension
  }

  /** The assignment through `&mut rankings.<field>`: it writes `s` and nothing else. */
  function Set(r: Rankings, s: Stat, v: Option<nat>): (r': Rankings)
    ensures Get(r', s) == v
    ensures forall t :: t != s ==> Get(r', t) == Get(r, t)
    ensures r'.year == r.year && r'.name == r.name
  {
    match s
    case XwOBA => r.(xwOBA := v)
    case XBA => r.(xBA := v)
    case XSLG => r.(xSLG := v)
    case AvgEV => r.(avgEV := v)
    case BatSpeed => r.(batSpeed := v)
    case BarrelPct => r.(barrelPct := v)
    case HardHitPct => r.(hardHitPct := v)
    case ChasePct => r.(chasePct := v)
    case WhiffPct => r.(whiffPct := v)
    case KPct => r.(kPct := v)
    case BBPct => r.(bbPct := v)
    case OAA => r.(oaa := v)
    case ArmStrength => r.(armStrength := v)
    case Speed => r.(speed := v)
    case XERA => r.(xERA := v)
    case FBVelo => r.(fbVelo := v)
    case FBSpin => r.(fbSpin := v)
    case CBSpin => r.(cbSpin := v)
    case Extension => r.(extension := v)
  }

  // ---------------------------------------------------------------------------------
  // Label dispatch
  // ---------------------------------------------------------------------------------

  /** Where a normalised header label sends its column. */
  datatype Slot = Ignored | Unknown | Into(stat: Stat)

  /** The labels the bot recognises and deliberately skips. */
  const IGNORED_LABELS: set<string> := {"Year", "xISO", "xOBP", "Brl", "Max EV", "Swing <br> Length"}

  /** The label that fills each stat (line-break markup is kept as written). */
  function LabelOf(s: Stat): string {
    match s
    case XwOBA => "xwOBA"
    case XBA => "xBA"
    case XSLG => "xSLG"
    case AvgEV => "EV"
    case BatSpeed => "Bat <br> Speed"
    case BarrelPct => "Brl%"
    case HardHitPct => "Hard <br>Hit%"
    case ChasePct => "Chase <br>Rate"
    case WhiffPct => "Whiff%"
    case KPct => "K%"
    case BBPct => "BB%"
    case OAA => "OAA"
    case ArmStrength => "Arm <br> Strength"
    case Speed => "Speed"
    case XERA => "xwOBA / <br>xERA"
    case FBVelo => "FB <br>Velo"
    case FBSpin => "FB <br>Spin"
    case CBSpin => "CB <br>Spin"
    case Extension => "Extension"
  }

  /** The `match` on the normalised label (src/main.rs:256-285). */
  function SlotOf(heading: string): Slot {
    if heading == "Year" then Ignored
    else if heading == "xwOBA" then Into(XwOBA)
    else if heading == "xBA" then Into(XBA)
    else if heading == "xSLG" then Into(XSLG)
    else if heading == "xISO" then Ignored
    else if heading == "xOBP" then Ignored
    else if heading == "Brl" then Ignored
    else if heading == "Brl%" then Into(BarrelPct)
    else if heading == "EV" then Into(AvgEV)
    else if heading == "Max EV" then Ignored
    else if heading == "Hard <br>Hit%" then Into(HardHitPct)
    else if heading == "K%" then Into(KPct)
    else if heading == "BB%" then Into(BBPct)
    else if heading == "Whiff%" then Into(WhiffPct)
    else if heading == "Chase <br>Rate" then Into(ChasePct)
    else if heading == "Speed" then Into(Speed)
    else if heading == "OAA" then Into(OAA)
    else if heading == "Arm <br> Strength" then Into(ArmStrength)
    else if heading == "Bat <br> Speed" then Into(BatSpeed)
    else if heading == "Swing <br> Length" then Ignored
    else if heading == "xwOBA / <br>xERA" then Into(XERA)
    else if heading == "FB <br>Velo" then Into(FBVelo)
    else if heading == "FB <br>Spin" then Into(FBSpin)
    else if heading == "CB <br>Spin" then Into(CBSpin)
    else if heading == "Extension" then Into(Extension)
    else Unknown
  }

  /** Every stat has its label, and a label fills that stat and no other. */
  lemma SlotOfLabel(s: Stat)
    ensures SlotOf(LabelOf(s)) == Into(s)
  {
    if s in {XwOBA, XBA, XSLG, AvgEV, BatSpeed} {
      SlotOfBattingLabels();
    } else if s in {BarrelPct, HardHitPct, ChasePct, WhiffPct, KPct} {
      SlotOfDisciplineLabels();
    } else if s in {BBPct, OAA, ArmStrength, Speed, XERA} {
      SlotOfRunningLabels();
    } else {
      SlotOfPitchingLabels();
    }
  }

  lemma SlotOfBattingLabels()
    ensures SlotOf(LabelOf(XwOBA)) == Into(XwOBA) && SlotOf(LabelOf(XBA)) == Into(XBA)
    ensures SlotOf(LabelOf(XSLG)) == Into(XSLG) && SlotOf(LabelOf(AvgEV)) == Into(AvgEV)
    ensures SlotOf(LabelOf(BatSpeed)) == Into(BatSpeed)
  {
  }

  lemma SlotOfDisciplineLabels()
    ensures SlotOf(LabelOf(BarrelPct)) == Into(BarrelPct) && SlotOf(LabelOf(HardHitPct)) == Into(HardHitPct)
    ensures SlotOf(LabelOf(ChasePct)) == Into(ChasePct) && SlotOf(LabelOf(WhiffPct)) == Into(WhiffPct)
    ensures SlotOf(LabelOf(KPct)) == Into(KPct)
  {
  }

  lemma SlotOfRunningLabels()
    ensures SlotOf(LabelOf(BBPct)) == Into(BBPct) && SlotOf(LabelOf(OAA)) == Into(OAA)
    ensures SlotOf(LabelOf(ArmStrength)) == Into(ArmStrength) && SlotOf(LabelOf(Speed)) == Into(Speed)
    ensures SlotOf(LabelOf(XERA)) == Into(XERA)
  {
  }

  lemma SlotOfPitchingLabels()
    ensures SlotOf(LabelOf(FBVelo)) == Into(FBVelo) && SlotOf(LabelOf(FBSpin)) == Into(FBSpin)
    ensures SlotOf(LabelOf(CBSpin)) == Into(CBSpin) && SlotOf(LabelOf(Extension)) == Into(Extension)
  {
  }

  /** A label that fills a field is that field's label: no two labels fill the same field. */
  lemma SlotOfInto(heading: string)
    ensures SlotOf(heading).Into? ==> heading == LabelOf(SlotOf(heading).stat)
  {
  }

  /** The skipped labels are exactly the ignore set. */
  lemma SlotOfIgnored(heading: string)
    ensures SlotOf(heading) == Ignored <==> heading in IGNORED_LABELS
  {
  }

  /** One cell of the season row: the inner HTML of its first child element, if any. */
  type Cell = Option<string>

  /** `get_percentile_from_element`: the cell at `ordinal` parsed as a `u16`; a missing
      cell, a cell without a child element or a value that is not a `u16` gives `None`. */
  function PercentileAt(row: seq<Cell>, ordinal: nat): (r: Option<nat>)
    ensures r.Some? <==> ordinal < |row| && row[ordinal].Some? && ParseUnsigned(row[ordinal].value, U16_MAX).Some?
    ensures r.Some? ==> r.value <= U16_MAX && r == ParseUnsigned(row[ordinal].value, U16_MAX)
  {
    if ordinal < |row| && row[ordinal].Some? then ParseUnsigned(row[ordinal].value, U16_MAX) else None
  }

  /** A cell holding a number in decimal, such as "87", reads back as that number. */
  lemma PercentileOfDecimal(row: seq<Cell>, ordinal: nat, p: nat)
    requires ordinal < |row| && row[ordinal] == Some(NatToString(p)) && p <= U16_MAX
    ensures PercentileAt(row, ordinal) == Some(p)
  {
    ParseOfNatToString(p, U16_MAX);
  }

  /** The slot of every column: its label, normalised, looked up in the table. */
  function ColumnSlots(labels: seq<string>): (slots: seq<Slot>)
    ensures |slots| == |labels|
    ensures forall i :: 0 <= i < |labels| ==> slots[i] == SlotOf(Normalize(labels[i]))
  {
    seq(|labels|, i requires 0 <= i < |labels| => SlotOf(Normalize(labels[i])))
  }

  /** One turn of the dispatch loop: a column whose label has a field writes the column's
      value into that field; an ignored or unknown label leaves the record as it is. */
  function Step(r: Rankings, slot: Slot, row: seq<Cell>, idx: nat): (r': Rankings)
    ensures slot.Into? ==> Get(r', slot.stat) == PercentileAt(row, idx)
    ensures forall t :: !(slot.Into? && slot.stat == t) ==> Get(r', t) == Get(r, t)
    ensures r'.year == r.year && r'.name == r.name
  {
    match slot
    case Into(s) => Set(r, s, PercentileAt(row, idx))
    case _ => r
  }

  /** The record after the first `k` columns have been dispatched. */
  function Dispatched(r: Rankings, slots: seq<Slot>, row: seq<Cell>, k: nat): Rankings
    requires k <= |slots|
  {
    if k == 0 then r else Step(Dispatched(r, slots, row, k - 1), slots[k - 1], row, k - 1)
  }

  /** The last of the first `k` columns that fills `s`. */
  function LastColumnFor(slots: seq<Slot>, k: nat, s: Stat): (r: Option<nat>)
    requires k <= |slots|
    ensures r.Some? ==> r.value < k && slots[r.value] == Into(s)
    ensures r.Some? ==> forall j :: r.value < j < k ==> slots[j] != Into(s)
    ensures r.None? ==> forall j :: 0 <= j < k ==> slots[j] != Into(s)
  {
    if k == 0 then None
    else if slots[k - 1] == Into(s) then Some(k - 1)
    else LastColumnFor(slots, k - 1, s)
  }

  /** What the dispatch leaves in each field: the value of the last column whose label
      fills it, or what the field held before when no column does; season and name are
      untouched. */
  lemma {:induction false} DispatchedField(r: Rankings, slots: seq<Slot>, row: seq<Cell>, k: nat, s: Stat)
    requires k <= |slots|
    ensures Get(Dispatched(r, slots, row, k), s) ==
              match LastColumnFor(slots, k, s)
              case Some(i) => PercentileAt(row, i)
              case None => Get(r, s)
    ensures Dispatched(r, slots, row, k).year == r.year && Dispatched(r, slots, row, k).name == r.name
  {
    if k > 0 {
      DispatchedField(r, slots, row, k - 1, s);
    }
  }

  /** Why a profile could not be read. */
  datatype PercentileError =
    | FetchFailed       // the page request or its body failed
    | YearUnreadable    // the season cell is missing or not a `u16` (an `unwrap` in the bot)

  /** The scraped parts of the percentile table. */
  datatype Table = Table(labels: seq<string>, row: seq<Cell>)

  /** The scraped parts of the player page; `table` is absent when the page has no
      percentile table. */
  datatype Page = Page(table: Option<Table>, playerName: string)

  /** The season: the first cell of the row, parsed as a `u16`. */
  function YearOf(row: seq<Cell>): Option<nat> {
    PercentileAt(row, 0)
  }

  /** What `get_percentile_rankings` returns for a page: the dispatch of every column
      over the blank record of the page's season and player. */
  function RankingsOf(page: Option<Page>): (r: Result<Option<Rankings>, PercentileError>)
    ensures page.None? <==> r == Err(FetchFailed)
    ensures r == Err(YearUnreadable) <==> page.Some? && page.value.table.Some? && YearOf(page.value.table.value.row).None?
    ensures r == Ok(None) <==> page.Some? && page.value.table.None?
    ensures r.Ok? && r.value.Some? ==>
              r.value.value.name == page.value.playerName
              && Some(r.value.value.year) == YearOf(page.value.table.value.row)
  {
    if page.None? then Err(FetchFailed)
    else if page.value.table.None? then Ok(None)
    else
      var t := page.value.table.value;
      match YearOf(t.row)
      case None => Err(YearUnreadable)
      case Some(y) =>
        var rk := Dispatched(Blank(y, page.value.playerName), ColumnSlots(t.labels), t.row, |t.labels|);
        DispatchedField(Blank(y, page.value.playerName), ColumnSlots(t.labels), t.row, |t.labels|, XwOBA);
        Ok(Some(rk))
  }

  /** One turn of the column loop (src/main.rs:251-286): the header label, normalised,
      selects the field that receives the cell's percentile. */
  method DispatchColumn(rankings: Rankings, heading: string, row: seq<Cell>, idx: nat) returns (next: Rankings)
    ensures next == Step(rankings, SlotOf(Normalize(heading)), row, idx)
    ensures forall t :: Get(next, t) == if SlotOf(Normalize(heading)) == Into(t) then PercentileAt(row, idx) else Get(rankings, t)
    ensures next.year == rankings.year && next.name == rankings.name
  {
    var name := Normalize(heading);
    var value := PercentileAt(row, idx);
    var slot := SlotOf(name);
    next := rankings;
    if slot.Into? {
      next := Set(rankings, slot.stat, value);
    }
  }

  /** `get_percentile_rankings` (src/main.rs:219-290); `page` is `None` when the fetch fails. */
  method GetPercentileRankings(page: Option<Page>) returns (r: Result<Option<Rankings>, PercentileError>)
    ensures page.None? <==> r == Err(FetchFailed)
    ensures page.Some? && page.value.table.None? ==> r == Ok(None)
    ensures page.Some? && page.value.table.Some? ==>
              var t := page.value.table.value;
              match YearOf(t.row)
              case None => r == Err(YearUnreadable)
              case Some(y) => r == Ok(Some(Dispatched(Blank(y, page.value.playerName), ColumnSlots(t.labels), t.row, |t.labels|)))
  {
    if page.None? {
      return Err(FetchFailed);
    }
    if page.value.table.None? {
      return Ok(None);
    }
    var table := page.value.table.value;
    var year := YearOf(table.row);
    if year.None? {
      return Err(YearUnreadable);
    }
    ghost var slots := ColumnSlots(table.labels);
    var rankings := Blank(year.value, page.value.playerName);
    var idx := 0;
    while idx < |table.labels|
      invariant idx <= |table.labels|
      invariant rankings == Dispatched(Blank(year.value, page.value.playerName), slots, table.row, idx)
    {
      rankings := DispatchColumn(rankings, table.labels[idx], table.row, idx);
      idx := idx + 1;
    }
    return Ok(Some(rankings));
  }

  // ---------------------------------------------------------------------------------
  // Roles
  // ---------------------------------------------------------------------------------

  predicate Hitter(r: Rankings) {
    r.xwOBA.Some?
  }

  predicate Fielder(r: Rankings) {
    r.oaa.Some? || r.armStrength.Some?
  }

  predicate Runner(r: Rankings) {
    r.speed.Some?
  }

  predicate Pitcher(r: Rankings) {
    r.xERA.Some?
  }

  /** The sections of the message, in the order they are written. */
  datatype Role = Batting | Fielding | Baserunning | Pitching

  function Rank(role: Role): nat {
    match role
    case Batting => 0
    case Fielding => 1
    case Baserunning => 2
    case Pitching => 3
  }

  predicate HasRole(r: Rankings, role: Role) {
    match role
    case Batting => Hitter(r)
    case Fielding => Fielder(r)
    case Baserunning => Runner(r)
    case Pitching => Pitcher(r)
  }

  /** The sections the message gets: exactly the roles the record supports, each once,
      in the order batting, fielding, baserunning, pitching. */
  function Roles(r: Rankings): (roles: seq<Role>)
    ensures forall role :: role in roles <==> HasRole(r, role)
    ensures forall i, j :: 0 <= i < j < |roles| ==> Rank(roles[i]) < Rank(roles[j])
  {
    (if Hitter(r) then [Batting] else []) + (if Fielder(r) then [Fielding] else [])
      + (if Runner(r) then [Baserunning] else []) + (if Pitcher(r) then [Pitching] else [])
  }

  /** The role predicates read one or two fields each and nothing else: a record with
      only OAA is a fielder and nothing more. */
  lemma RolesOfFieldsOnly(r: Rankings)
    ensures Roles(r) == [Fielding] <==>
              r.xwOBA.None? && r.speed.None? && r.xERA.None? && (r.oaa.Some? || r.armStrength.Some?)
  {
    if Roles(r) == [Fielding] {
      assert Batting !in Roles(r) && Baserunning !in Roles(r) && Pitching !in Roles(r);
    }
  }

  // ---------------------------------------------------------------------------------
  // Formatting
  // ---------------------------------------------------------------------------------

  const PERCENTILE_WIDTH: nat := 15

  /** `(percentile * 15 + 50) / 100`: the bar length, 15 * p / 100 rounded to the nearest
      whole character (halves round up). */
  function BarLength(p: nat): (n: nat)
    ensures n * 100 <= p * PERCENTILE_WIDTH + 50 < n * 100 + 100
    ensures p <= 100 ==> n <= PERCENTILE_WIDTH
  {
    (p * PERCENTILE_WIDTH + 50) / 100
  }

  /** The bar is monotone in the percentile and spans 0 to 15 over 0 to 100. */
  lemma BarLengthMonotone(p: nat, q: nat)
    requires p <= q
    ensures BarLength(p) <= BarLength(q)
    ensures BarLength(0) == 0 && BarLength(100) == PERCENTILE_WIDTH
  {
  }

  /** The emphasis marker put on both sides of the stat name. */
  function Emphasis(p: nat): string {
    if p >= 95 then "***" else if p >= 90 then "**" else ""
  }

  /** The tiers: bold italic from 95, bold from 90, plain below. */
  lemma EmphasisTiers(p: nat)
    ensures |Emphasis(p)| == 3 <==> p >= 95
    ensures |Emphasis(p)| == 2 <==> 90 <= p < 95
    ensures Emphasis(p) == "" <==> p < 90
  {
  }

  /** The text of one line: number, bar, marker, name, marker. */
  function LineText(num: string, bar: string, marker: string, name: string): string {
    "\n`" + num + "% / [" + bar + "]` " + marker + name + marker
  }

  /** Where each part of a line sits when the number takes three columns and the bar
      fifteen. */
  lemma LineTextLayout(num: string, bar: string, marker: string, name: string)
    requires |num| == 3 && |bar| == PERCENTILE_WIDTH
    ensures var s := LineText(num, bar, marker, name);
            && |s| == 28 + 2 * |marker| + |name|
            && s[..2] == "\n`" && s[2..5] == num && s[5..10] == "% / [" && s[10..25] == bar
            && s[25..28] == "]` " && s[28..] == marker + name + marker
  {
    var p1 := "\n`" + num;
    var p2 := p1 + "% / [";
    var p3 := p2 + bar;
    var p4 := p3 + "]` ";
    var s := p4 + marker + name + marker;
    assert s == p4 + (marker + name + marker);
    assert s[..28] == p4;
    assert p4[..25] == p3 && p3[..10] == p2 && p2[..5] == p1;
  }

  /** `format_percentile_ranking` (src/main.rs:292-301). */
  function FormatPercentile(name: string, ranking: Option<nat>): (s: string)
    ensures ranking.None? <==> s == ""
    ensures ranking.Some? ==> s[0] == '\n'
  {
    match ranking
    case None => ""
    case Some(p) =>
      LineText(PadLeft(NatToString(p), 3), PadRight(Repeat('-', BarLength(p)), PERCENTILE_WIDTH), Emphasis(p), name)
  }

  /** The layout of one line for a percentile up to 100: the number right-aligned in
      three columns, then a bracketed bar of exactly 15 characters whose first
      `BarLength(p)` are dashes and the rest spaces, then the name between markers. */
  lemma FormatPercentileLayout(name: string, p: nat)
    requires p <= 100
    ensures var s := FormatPercentile(name, Some(p));
            && |s| == 28 + 2 * |Emphasis(p)| + |name|
            && s[..2] == "\n`"
            && s[2..5] == PadLeft(NatToString(p), 3)
            && s[5..10] == "% / ["
            && (forall i :: 10 <= i < 25 ==> (s[i] == '-' <==> i - 10 < BarLength(p)))
            && (forall i :: 10 <= i < 25 ==> (s[i] == ' ' <==> i - 10 >= BarLength(p)))
            && s[25..28] == "]` "
            && s[28..] == Emphasis(p) + name + Emphasis(p)
  {
    SmallNumberDigits(p);
    var num := PadLeft(NatToString(p), 3);
    var bar := PadRight(Repeat('-', BarLength(p)), PERCENTILE_WIDTH);
    LineTextLayout(num, bar, Emphasis(p), name);
    var s := LineText(num, bar, Emphasis(p), name);
    forall i | 10 <= i < 25
      ensures s[i] == bar[i - 10]
    {
      assert s[10..25][i - 10] == s[i];
    }
  }

  /** A percentile up to 100 has at most three digits. */
  lemma SmallNumberDigits(p: nat)
    requires p <= 100
    ensures |NatToString(p)| <= 3
  {
    if p >= 10 {
      if p / 10 >= 10 {
        assert NatToString(p / 10) == NatToString(p / 100) + [DigitChar(p / 10 % 10)];
      }
    }
  }

  /** The display name and stat of every line of a section, in the bot's order. */
  function SectionStats(role: Role): seq<(string, Stat)> {
    match role
    case Batting =>
      [("xwOBA", XwOBA), ("xBA", XBA), ("xSLG", XSLG), ("Avg EV", AvgEV), ("Bat Speed", BatSpeed),
       ("Barrel %", BarrelPct), ("Hard-Hit %", HardHitPct), ("Chase %", ChasePct), ("Whiff %", WhiffPct),
       ("K %", KPct), ("BB %", BBPct)]
    case Fielding => [("Range (OAA)", OAA), ("Arm Strength", ArmStrength)]
    case Baserunning => [("Sprint Speed", Speed)]
    case Pitching =>
      [("xERA", XERA), ("xBA", XBA), ("Fastball Velo", FBVelo), ("Avg EV", AvgEV), ("Chase %", ChasePct),
       ("Whiff %", WhiffPct), ("K %", KPct), ("BB %", BBPct), ("Barrel %", BarrelPct),
       ("Hard-Hit %", HardHitPct), ("Extension", Extension)]
  }

  /** The section headers as the bot writes them: fielding and baserunning start with a
      line break, batting and pitching do not. */
  function Header(role: Role): string {
    match role
    case Batting => ":cricket_game: Batting"
    case Fielding => "\n:gloves: Fielding"
    case Baserunning => "\n:athletic_shoe: Baserunning"
    case Pitching => ":baseball: Pitching"
  }

  /** The headers with the pitching header given the leading line break the two middle
      headers have. */
  function HeaderOnOwnLine(role: Role): (h: string)
    ensures |h| > 0
    ensures h[0] == '\n' <==> role != Batting
    ensures role != Pitching ==> h == Header(role)
  {
    if role == Pitching then "\n" + Header(Pitching) else Header(role)
  }

  /** The lines of a section: one per present stat, empty text for an absent one. */
  function StatLines(r: Rankings, stats: seq<(string, Stat)>): (s: string)
    ensures s == [] || s[0] == '\n'
  {
    if stats == [] then ""
    else FormatPercentile(stats[0].0, Get(r, stats[0].1)) + StatLines(r, stats[1..])
  }

  /** The sections of the message, each its header followed by its lines. */
  function Sections(r: Rankings, header: Role -> string): (ss: seq<string>)
    ensures |ss| == |Roles(r)|
    ensures forall k :: 0 <= k < |ss| ==> ss[k] == header(Roles(r)[k]) + StatLines(r, SectionStats(Roles(r)[k]))
  {
    seq(|Roles(r)|, k requires 0 <= k < |Roles(r)| => header(Roles(r)[k]) + StatLines(r, SectionStats(Roles(r)[k])))
  }

  /** With the corrected headers, every section after the first starts on a new line. */
  lemma SectionsOnOwnLines(r: Rankings)
    ensures forall k :: 0 < k < |Sections(r, HeaderOnOwnLine)| ==> Sections(r, HeaderOnOwnLine)[k][0] == '\n'
  {
    var ss := Sections(r, HeaderOnOwnLine);
    forall k | 0 < k < |ss|
      ensures ss[k][0] == '\n'
    {
      var role := Roles(r)[k];
      assert Rank(Roles(r)[0]) < Rank(role);
      assert role != Batting;
      var h := HeaderOnOwnLine(role);
      assert ss[k] == h + StatLines(r, SectionStats(role));
      assert ss[k][0] == h[0];
    }
  }

  /** As written, a pitcher with any other role gets a pitching section, the last one, that
      starts with the ':' of its emoji rather than a line break: it continues the line of
      the section before it. */
  lemma PitchingHeaderSharesLine(r: Rankings)
    requires Pitcher(r) && (Hitter(r) || Fielder(r) || Runner(r))
    ensures var ss := Sections(r, Header); |ss| >= 2 && ss[|ss| - 1][0] == ':'
  {
    var roles := Roles(r);
    var ss := Sections(r, Header);
    assert roles[|roles| - 1] == Pitching;
    assert |roles| >= 2;
    var h := Header(Pitching);
    assert ss[|ss| - 1] == h + StatLines(r, SectionStats(Pitching));
    assert ss[|ss| - 1][0] == h[0];
  }

  function Concat(ss: seq<string>): string {
    if ss == [] then "" else ss[0] + Concat(ss[1..])
  }

  lemma {:induction false} ConcatAppend(a: seq<string>, b: seq<string>)
    ensures Concat(a + b) == Concat(a) + Concat(b)
  {
    if a == [] {
      assert a + b == b;
    } else {
      assert (a + b)[1..] == a[1..] + b;
      ConcatAppend(a[1..], b);
    }
  }

  /** The texts of the listed roles, in order. */
  function Rendered(roles: seq<Role>, text: Role -> string): seq<string> {
    seq(|roles|, k requires 0 <= k < |roles| => text(roles[k]))
  }

  /** A role's text when it is listed, nothing otherwise. */
  function IfListed(listed: bool, role: Role, text: Role -> string): string {
    if listed then text(role) else ""
  }

  lemma RenderedAppend(a: seq<Role>, b: seq<Role>, text: Role -> string)
    ensures Rendered(a + b, text) == Rendered(a, text) + Rendered(b, text)
  {
  }

  lemma ConcatListed(listed: bool, role: Role, text: Role -> string)
    ensures Concat(Rendered(if listed then [role] else [], text)) == IfListed(listed, role, text)
  {
    if listed {
      assert Rendered([role], text) == [text(role)];
      assert [text(role)][1..] == [];
    }
  }

  /** Writing the texts of a filtered role list one after the other is writing each
      role's text in turn when it is listed. */
  lemma ConcatByRole(b: bool, f: bool, ru: bool, p: bool, text: Role -> string)
    ensures Concat(Rendered((if b then [Batting] else []) + (if f then [Fielding] else [])
                              + (if ru then [Baserunning] else []) + (if p then [Pitching] else []), text))
            == IfListed(b, Batting, text) + IfListed(f, Fielding, text) + IfListed(ru, Baserunning, text)
               + IfListed(p, Pitching, text)
  {
    var lb, lf, lr, lp := if b then [Batting] else [], if f then [Fielding] else [],
                          if ru then [Baserunning] else [], if p then [Pitching] else [];
    RenderedAppend(lb + lf + lr, lp, text);
    RenderedAppend(lb + lf, lr, text);
    RenderedAppend(lb, lf, text);
    var rb, rf, rr, rp := Rendered(lb, text), Rendered(lf, text), Rendered(lr, text), Rendered(lp, text);
    ConcatAppend(rb + rf + rr, rp);
    ConcatAppend(rb + rf, rr);
    ConcatAppend(rb, rf);
    ConcatListed(b, Batting, text);
    ConcatListed(f, Fielding, text);
    ConcatListed(ru, Baserunning, text);
    ConcatListed(p, Pitching, text);
  }

  /** One `write!` of src/main.rs:306-344: the role's section when the record has the
      role, nothing otherwise. */
  function Part(r: Rankings, role: Role, header: Role -> string): string {
    if HasRole(r, role) then SectionText(r, role, header) else ""
  }

  /** A role's header followed by its stat lines. */
  function SectionText(r: Rankings, role: Role, header: Role -> string): string {
    header(role) + StatLines(r, SectionStats(role))
  }

  lemma SectionsRendered(r: Rankings, header: Role -> string, text: Role -> string)
    requires forall rl :: text(rl) == header(rl) + StatLines(r, SectionStats(rl))
    ensures Sections(r, header) == Rendered(Roles(r), text)
  {
  }

  lemma PartListed(r: Rankings, role: Role, header: Role -> string, text: Role -> string)
    requires forall rl :: text(rl) == header(rl) + StatLines(r, SectionStats(rl))
    ensures IfListed(HasRole(r, role), role, text) == Part(r, role, header)
  {
  }

  /** The description is the four role sections in the bot's order, each written exactly
      when the record has that role. */
  lemma DescriptionByRole(r: Rankings, header: Role -> string)
    ensures Concat(Sections(r, header))
            == Part(r, Batting, header) + Part(r, Fielding, header) + Part(r, Baserunning, header)
               + Part(r, Pitching, header)
  {
    var text := role => header(role) + StatLines(r, SectionStats(role));
    var parts := IfListed(Hitter(r), Batting, text) + IfListed(Fielder(r), Fielding, text)
                 + IfListed(Runner(r), Baserunning, text) + IfListed(Pitcher(r), Pitching, text);
    SectionsRendered(r, header, text);
    assert Concat(Rendered(Roles(r), text)) == parts by {
      ConcatByRole(Hitter(r), Fielder(r), Runner(r), Pitcher(r), text);
    }
    assert parts == Part(r, Batting, header) + Part(r, Fielding, header) + Part(r, Baserunning, header)
                    + Part(r, Pitching, header) by {
      PartListed(r, Batting, header, text);
      PartListed(r, Fielding, header, text);
      PartListed(r, Baserunning, header, text);
      PartListed(r, Pitching, header, text);
    }
  }

  /** The embed description as the bot writes it (src/main.rs:306-344). */
  function Description(r: Rankings): string {
    Concat(Sections(r, Header))
  }

  /** The description with every header on its own line. */
  function DescriptionOnOwnLines(r: Rankings): string {
    Concat(Sections(r, HeaderOnOwnLine))
  }

  /** The two descriptions differ in one place only: the corrected one has a line break
      before the pitching section, and only a pitcher has that section. */
  lemma OwnLinesAddsOneBreak(r: Rankings)
    ensures var before := Part(r, Batting, Header) + Part(r, Fielding, Header) + Part(r, Baserunning, Header);
            && Description(r) == before + Part(r, Pitching, Header)
            && DescriptionOnOwnLines(r) == if Pitcher(r) then before + "\n" + Part(r, Pitching, Header) else Description(r)
  {
    DescriptionByRole(r, Header);
    DescriptionByRole(r, HeaderOnOwnLine);
    PartOfSameHeader(r, Batting, HeaderOnOwnLine, Header);
    PartOfSameHeader(r, Fielding, HeaderOnOwnLine, Header);
    PartOfSameHeader(r, Baserunning, HeaderOnOwnLine, Header);
    if Pitcher(r) {
      PartOfHeader(r, Pitching, HeaderOnOwnLine, Header, "\n");
      var before := Part(r, Batting, Header) + Part(r, Fielding, Header) + Part(r, Baserunning, Header);
      AppendAssoc(before, "\n", Part(r, Pitching, Header));
    } else {
      assert Part(r, Pitching, HeaderOnOwnLine) == Part(r, Pitching, Header) == "";
    }
  }

  lemma PartOfSameHeader(r: Rankings, role: Role, h1: Role -> string, h2: Role -> string)
    requires h1(role) == h2(role)
    ensures Part(r, role, h1) == Part(r, role, h2)
  {
  }

  /** A header that adds `extra` in front adds it in front of the section. */
  lemma PartOfHeader(r: Rankings, role: Role, h1: Role -> string, h2: Role -> string, extra: string)
    requires HasRole(r, role) && h1(role) == extra + h2(role)
    ensures Part(r, role, h1) == extra + Part(r, role, h2)
  {
    AppendAssoc(extra, h2(role), StatLines(r, SectionStats(role)));
  }

  lemma AppendAssoc(a: string, b: string, c: string)
    ensures (a + b) + c == a + (b + c)
  {
  }

  /** The embed title: "<name> (<season>)". */
  function EmbedTitle(r: Rankings): (t: string)
    ensures |t| >= |r.name| + 3
    ensures t[..|r.name|] == r.name
    ensures t[|r.name|..|r.name| + 2] == " ("
    ensures t[|t| - 1] == ')'
    ensures var digits := t[|r.name| + 2..|t| - 1];
            digits != [] && AllDigits(digits) && DigitsValue(digits) == r.year
  {
    DigitsOfNatToString(r.year);
    var t := r.name + " (" + NatToString(r.year) + ")";
    assert t[|r.name| + 2..|t| - 1] == NatToString(r.year);
    t
  }

  // ---------------------------------------------------------------------------------
  // The command
  // ---------------------------------------------------------------------------------

  /** The embed the command sends. */
  datatype SavantEmbed = SavantEmbed(title: string, description: string)

  lemma AppendEmpty(s: string)
    ensures s + "" == s
  {
  }

  /** The description as src/main.rs:306-344 writes it, one `write!` per role the record
      has, with every header on its own line. */
  method WriteDescription(rk: Rankings) returns (description: string)
    ensures description == DescriptionOnOwnLines(rk)
  {
    description := "";
    if Hitter(rk) {
      description := description + SectionText(rk, Batting, HeaderOnOwnLine);
    }
    assert description == Part(rk, Batting, HeaderOnOwnLine);
    ghost var soFar := description;
    if Fielder(rk) {
      description := description + SectionText(rk, Fielding, HeaderOnOwnLine);
    } else {
      AppendEmpty(description);
    }
    assert description == soFar + Part(rk, Fielding, HeaderOnOwnLine);
    soFar := description;
    if Runner(rk) {
      description := description + SectionText(rk, Baserunning, HeaderOnOwnLine);
    } else {
      AppendEmpty(description);
    }
    assert description == soFar + Part(rk, Baserunning, HeaderOnOwnLine);
    soFar := description;
    if Pitcher(rk) {
      description := description + SectionText(rk, Pitching, HeaderOnOwnLine);
    } else {
      AppendEmpty(description);
    }
    assert description == soFar + Part(rk, Pitching, HeaderOnOwnLine);
    DescriptionByRole(rk, HeaderOnOwnLine);
  }

  /** `Handler::savant` from the fetched page on (src/main.rs:302-345): nothing is sent for
      a page without a table; otherwise the title is "name (season)" and the description
      is written one role section at a time. */
  method Savant(page: Option<Page>) returns (r: Result<Option<SavantEmbed>, PercentileError>)
    ensures r == match RankingsOf(page)
                 case Err(e) => Err(e)
                 case Ok(None) => Ok(None)
                 case Ok(Some(rk)) => Ok(Some(SavantEmbed(EmbedTitle(rk), DescriptionOnOwnLines(rk))))
  {
    var rankings := GetPercentileRankings(page);
    if rankings.Err? {
      return Err(rankings.error);
    }
    if rankings.value.None? {
      return Ok(None);
    }
    var rk := rankings.value.value;
    var description := WriteDescription(rk);
    return Ok(Some(SavantEmbed(EmbedTitle(rk), description)));
  }
}
