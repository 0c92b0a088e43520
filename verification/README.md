# bunt: a Dafny model of the bot's live-game and statistics core

`bunt` is a Discord bot that answers questions about one baseball team, the Atlanta
Braves (team id 144), from MLB's public feeds. This project models the core of its single
source file, `src/main.rs`, and proves properties of that model:

- **The live-game resolution cache** (`Handler::get_today_game`), in `GameCache.dfy`.
  The handler keeps one optional game id behind a lock. A call reuses that id, or picks
  the first game of the team in the season schedule that is not over and caches it. It
  then fetches the game's live snapshot. When the snapshot says the game is Final, the
  call clears the id and calls itself again. It still holds the write guard of the lock,
  which is not reentrant, so that call never returns, and every later lookup waits on
  the same lock. The model states this behaviour (`ResolveAsWritten`, `CallAsWritten`,
  `Session`). Beside it, it states the re-resolution the code evidently intends: with
  the guard released (`ResolveReleasing`), and with games already found Final skipped
  (`ResolveSkipping`). The handler is a class with the slot and a flag for a stuck
  guard.
- **The `~ev` report** (`Handler::exit_velocity`), in `BattedBall.dfy`: the last batted
  ball, joined with the last matching win-probability entry, rendered as a titled card.
- **The `~savant` percentile profile** (`PercentileRankings`, `get_percentile_rankings`,
  `format_percentile_ranking`), in `Percentiles.dfy`. A scraped percentile table is
  dispatched column by column into a record by a loop over its header labels. The record
  is rendered as 15-character bars under the headers of the roles it supports, and the
  command's embed is its title and that description.
- **The `~standings` table** (`Handler::standings`), in `Standings.dfy`. Keywords select
  a league, a division and the wild-card view. The teams are laid out as a fixed-width
  table whose columns are as wide as their widest cell. The rows are built by a loop and
  the text is written by another loop.

The `str` functions the bot relies on are modelled once, in `Text.dfy`:
`split_ascii_whitespace`, `join`, `eq_ignore_ascii_case`, `split_once`, `repeat`, padding
by width specifiers, integer `to_string`, unsigned `parse` and the UTF-8 `len`.
`LiveFeed.dfy` holds typed records of the two JSON documents the cache and the report
read. `Wrappers.dfy` holds `Option` and `Result`.

Every network fetch is an input:

- the decoded schedule, an `Option` that is `None` when the fetch fails;
- a map from game id to live snapshot, where a missing id is a failed fetch;
- a map from league id to standings records;
- the scraped parts of a player page.

The wall-clock month used by the wild-card standings is an input too.

## Model

| member | source | states |
|---|---|---|
| Text.Tokens | src/main.rs:103 | every word produced is non-empty and contains no ASCII whitespace |
| Text.TokensSkipsWhitespace | src/main.rs:103 | leading whitespace produces no word |
| Text.TokensTakesWord | src/main.rs:103 | a maximal run of non-whitespace characters is the next word, followed by the words of the rest, in order |
| Text.TokensOfJoin | src/main.rs:254 | splitting a space-joined list of whitespace-free words gives the list back |
| Text.NormalizeKeepsTokens | src/main.rs:254 | normalising a label keeps its words and is idempotent |
| Text.NoWordMatchesSpaced | src/main.rs:107 | a whitespace-free word never equals, ignoring ASCII case, a keyword containing a space |
| Text.ToAsciiLower | src/main.rs:105-107 | upper-case ASCII letters move up by 32, to the lower-case letter, and every other character is unchanged |
| Text.BeforeFirst | src/main.rs:83 | the result is a prefix of the text; it ends exactly at the first occurrence of the separator, or is the whole text when there is none |
| Text.IndexFrom | src/main.rs:83 | the position returned is a match at or after the start with no match before it; `None` means there is no match from the start on |
| Text.Repeat | src/main.rs:297 | `n` copies of the character |
| Text.PadRight | src/main.rs:141-143 | left-aligned: the text, then spaces up to the width, never truncated |
| Text.PadLeft | src/main.rs:297 | right-aligned: spaces, then the text, never truncated |
| Text.NatToString | src/main.rs:86 | a non-empty string of decimal digits without a leading zero |
| Text.ParseUnsigned | src/main.rs:77 | succeeds exactly for an optional '+' followed by at least one digit whose value fits the type; the value is the value of those digits |
| Text.DigitsOfNatToString | src/main.rs:86 | the digits printed for `n` have value `n` |
| Text.ParseOfNatToString | src/main.rs:77 | parsing a printed number that fits the type gives the number back |
| Text.Utf8Len | src/main.rs:138 | the UTF-8 length is at least the character count, and equal to it for ASCII text |
| GameCache.Flatten | src/main.rs:42-45 | the flattened schedule holds exactly the games of all dates |
| GameCache.FirstEligible | src/main.rs:46-49 | the id of the first game that involves the team, is not Final and is not skipped; `None` exactly when there is no such game |
| GameCache.FirstEligibleAppend | src/main.rs:42-49 | searching dates laid end to end searches the earlier ones first |
| GameCache.NextGameEarliestDate | src/main.rs:42-49 | the schedule's choice is the first eligible game of the earliest date that has one, whatever later dates hold |
| GameCache.Chosen | src/main.rs:38-53 | definition of the game a call looks at (the cached id, else the schedule's choice, else nothing); its properties are stated by GameCache.BlockedIffFinal, GameCache.ResolveReusesCache and GameCache.ResolveSelectsFirstEligible |
| GameCache.ResolveAsWritten | src/main.rs:35-61 | a returned snapshot is the live snapshot of the id left in the slot and is not Final; a call on a Final snapshot blocks and leaves the slot empty; the slot holds either the previous id or the schedule's choice |
| GameCache.BlockedIffFinal | src/main.rs:36-57 | a call blocks exactly when the game it looks at has a Final snapshot, whatever the feeds |
| GameCache.ResolveReusesCache | src/main.rs:38-39 | a cached id whose game is still on is returned as it is, and the slot keeps it |
| GameCache.ResolveSelectsFirstEligible | src/main.rs:40-54 | with an empty slot, the slot is set to the schedule's first eligible game (or `None`) and that game's snapshot is returned |
| GameCache.ResolveIsMemoized | src/main.rs:35-61 | after a call returns a live game, the next call with the same feeds returns the same snapshot and slot |
| GameCache.CallAsWritten | src/main.rs:36-57 | once a call is stuck holding the guard, every call returns nothing and changes nothing; a call gets stuck exactly when it blocks; otherwise it is one resolution from the slot |
| GameCache.Session | src/main.rs:35-61 | one result per call |
| GameCache.WedgedStaysBlocked | src/main.rs:36-57 | a handler stuck on its guard blocks on every later call, on any feeds |
| GameCache.FinalSnapshotBlocksForever | src/main.rs:36-57 | after the first call that meets a Final snapshot, every later call blocks |
| GameCache.ResolveReleasing | src/main.rs:55-57 | with the guard released before recursing: the same snapshot guarantees, never blocked; running out of fuel leaves the slot empty |
| GameCache.ReleasingAgreesUnlessBlocked | src/main.rs:35-61 | wherever the bot's call returns, releasing the guard gives the same result and slot |
| GameCache.ResolveClearsFinal | src/main.rs:55-57 | with the guard released, a Final snapshot clears the slot and the call continues as a call on an empty slot |
| GameCache.ResolveTerminatesWhenConsistent | src/main.rs:55-57 | with the guard released and the schedule's choice not Final in the live feed, one re-resolution always suffices |
| GameCache.ResolveLoopsWhenFeedsDisagree | src/main.rs:55-57 | with the guard released, when the schedule still offers a game the live feed reports Final, no fuel is enough |
| GameCache.DisagreeingFeedsExample | src/main.rs:36-57 | a concrete one-game schedule on which the bot's call blocks, every later call blocks, and the released recursion would never end |
| GameCache.FinishingShrinks | src/main.rs:55-57 | marking a candidate game finished strictly shrinks the set of candidates left |
| GameCache.NextGameExcept | src/main.rs:42-49 | the choice is a candidate of the schedule that has not been found Final |
| GameCache.FirstEligibleSkipsOthers | src/main.rs:46-49 | skipping ids other than the first choice does not change the choice |
| GameCache.ResolveSkipping | src/main.rs:35-61 | the corrected resolution always ends without fuel, never blocks, with the same guarantees about the returned snapshot |
| GameCache.ResolveSkippingCases | src/main.rs:35-61 | the corrected resolution returns no game, returns the live game it looks at, or marks that game finished and resolves again from an empty slot |
| GameCache.ResolveSkippingAgrees | src/main.rs:35-61 | when the feeds agree, the corrected resolution returns what the released recursion returns with one re-resolution, and what the bot returns wherever the bot's call returns |
| GameCache.Handler.constructor | src/main.rs:390 | the handler starts with an empty slot and no stuck guard |
| GameCache.Handler.GetTodayGame | src/main.rs:35-61 | the returned lookup and the new slot and guard are those of one call as written from the old state; a returned snapshot is live and belongs to the cached id |
| GameCache.Handler.Choose | src/main.rs:38-53 | the slot is set to the game the corrected call looks at, and that game is returned |
| GameCache.Handler.GetTodayGameSkipping | src/main.rs:35-61 | the corrected method matches the corrected resolution and, unless already stuck, always returns a game or no game |
| BattedBall.Title | src/main.rs:70 | the home team's name, then " vs. " at home or " @ " away, then the away team's name |
| BattedBall.AtBatIndex | src/main.rs:72 | the 0-based index one below a positive at-bat number; 0 wraps to the largest `u64` |
| BattedBall.LastMatch | src/main.rs:74 | the last entry matching both the at-bat and the cap index; `None` exactly when none matches |
| BattedBall.SignedDeltaBySide | src/main.rs:79 | the intended delta is kept at home and negated away |
| BattedBall.SideFactorAsWritten | src/main.rs:79 | the unsigned multiplier is 1 at home and the largest 64-bit value away |
| BattedBall.AwayDeltaAsWritten | src/main.rs:79 | the written expression agrees with the signed delta at home and disagrees with it away |
| BattedBall.ExitVelocity | src/main.rs:66-91 | the result is no card exactly when no ball was put in play; a card has five or six fields |
| BattedBall.Report | src/main.rs:65 | no game today gives the `NoGameToday` error, and only then; other errors come from the card |
| BattedBall.ExitVelocityCard | src/main.rs:66-91 | a card's title, its description cut at the first ". ", its five fixed fields with the side-signed delta of the last matching entry, and the "Home Run" field exactly for distances of 300 feet or more |
| BattedBall.ExitVelocityErrors | src/main.rs:74-90 | each error case happens exactly under its condition, in the bot's order: missing entry, then unparsable distance, then a long ball without a ballpark count |
| BattedBall.DistanceShownAsSent | src/main.rs:77 | a distance sent in canonical decimal form is shown unchanged |
| Percentiles.Blank | src/main.rs:230-252 | the starting record has the season and name and no percentile |
| Percentiles.Set | src/main.rs:256-286 | an assignment writes the chosen stat and leaves every other field as it was |
| Percentiles.SlotOfLabel | src/main.rs:256-285 | every stat's label dispatches to that stat |
| Percentiles.SlotOfInto | src/main.rs:256-285 | a label that fills a stat is that stat's label, so no two labels fill the same field |
| Percentiles.SlotOfIgnored | src/main.rs:256-285 | the skipped labels are exactly the six that the bot lists |
| Percentiles.PercentileAt | src/main.rs:220-222 | a value exactly when the cell exists, has a child element and parses as a `u16` |
| Percentiles.PercentileOfDecimal | src/main.rs:221 | a cell holding a decimal number up to 65535 reads back as that number |
| Percentiles.ColumnSlots | src/main.rs:253-256 | definition: each column is sent where its normalised label says; what that means for the record is stated by the Percentiles.SlotOf lemmas and Percentiles.DispatchedField |
| Percentiles.Step | src/main.rs:255-286 | one loop turn writes the column's value into the label's field and changes nothing else |
| Percentiles.LastColumnFor | src/main.rs:253-287 | the last column among the first `k` whose label fills a stat, or `None` when none does |
| Percentiles.DispatchedField | src/main.rs:253-287 | after the loop each field holds the value of the last column that fills it, or stays absent; season and name are unchanged |
| Percentiles.RankingsOf | src/main.rs:219-290 | a failed fetch, an unreadable season and a page without a table each give their own result, and only they; a record carries the page's player name and the season read from the first cell |
| Percentiles.DispatchColumn | src/main.rs:253-286 | one turn of the loop: the field the normalised label names receives the cell's percentile, every other field, the season and the name are kept |
| Percentiles.GetPercentileRankings | src/main.rs:219-290 | the loop's record is the dispatch of every column over the blank record; the error cases are a failed fetch and an unreadable season; a page without a table gives no record |
| Percentiles.Roles | src/main.rs:202-216 | the sections are exactly the roles the record supports, in the order batting, fielding, baserunning, pitching |
| Percentiles.RolesOfFieldsOnly | src/main.rs:206-208 | a record is only a fielder exactly when it has OAA or arm strength and no xwOBA, speed or xERA |
| Percentiles.BarLength | src/main.rs:297 | the bar is 15·p/100 rounded to the nearest whole character, at most 15 for p ≤ 100 |
| Percentiles.BarLengthMonotone | src/main.rs:297 | the bar grows with the percentile, from 0 at 0 to 15 at 100 |
| Percentiles.EmphasisTiers | src/main.rs:296 | triple marker from 95, double from 90, none below |
| Percentiles.LineTextLayout | src/main.rs:297 | where the number, bar, marker and name sit in a line |
| Percentiles.FormatPercentile | src/main.rs:292-301 | an absent percentile gives empty text; a present one gives a line that starts with a line break |
| Percentiles.FormatPercentileLayout | src/main.rs:292-301 | the number is right-aligned in three columns; the bracketed bar is exactly 15 characters, dashes then spaces; the name sits between its markers |
| Percentiles.SmallNumberDigits | src/main.rs:297 | a percentile up to 100 prints in at most three digits |
| Percentiles.HeaderOnOwnLine | src/main.rs:331 | every corrected header after batting starts with a line break |
| Percentiles.StatLines | src/main.rs:308-342 | a section's lines are empty or start with a line break |
| Percentiles.Sections | src/main.rs:306-344 | definition: one section per supported role, each its header followed by its stat lines; its order and content are stated by Percentiles.Roles and Percentiles.DescriptionByRole |
| Percentiles.ConcatByRole | src/main.rs:306-344 | the sections of the listed roles, joined, are each role's text when it is listed, in section order |
| Percentiles.DescriptionByRole | src/main.rs:306-344 | the description is the batting, fielding, baserunning and pitching parts in that order, each its header and lines when the record has the role and empty otherwise |
| Percentiles.SectionsOnOwnLines | src/main.rs:306-344 | with the corrected headers, every section after the first starts on a new line |
| Percentiles.PitchingHeaderSharesLine | src/main.rs:330-331 | as written, a pitcher with any other role gets a pitching section that starts with ':' rather than a line break |
| Percentiles.OwnLinesAddsOneBreak | src/main.rs:330-331 | the bot's description and the corrected one differ only by one line break before the pitching part, and only for a pitcher |
| Percentiles.EmbedTitle | src/main.rs:305 | the name, " (", digits that read back as the season, ")" |
| Percentiles.WriteDescription | src/main.rs:306-343 | the four conditional writes build the corrected description |
| Percentiles.Savant | src/main.rs:302-345 | the command's embed: the fetch and season errors, no message for a page without a table, else the title and the description of the record read from the page |
| Standings.Select | src/main.rs:103-110 | the division always belongs to the selected league: 200-202 for the AL, 203-205 for the NL |
| Standings.SelectDivision | src/main.rs:104-110 | AL exactly when an AL keyword is present; the division id is the league's base plus 0 for west, 2 for central, else 1 |
| Standings.SelectDefault | src/main.rs:104-110 | without keywords the NL East (204) of the NL (104) is shown |
| Standings.SelectWildCard | src/main.rs:107 | the wild-card view is on exactly for a "wc" word or a "~wc"/"~wildcard" prefix; "wild card" never matches a word |
| Standings.FindDivision | src/main.rs:112 | the first record carrying the division id, or `None` when no record does |
| Standings.AllTeams | src/main.rs:117 | a team is in the wild-card pool exactly when it is in one of the league's divisions |
| Standings.SortKey | src/main.rs:118 | the key is a `u8`, and 0 for a team without a wild-card rank |
| Standings.SortKeyOfRank | src/main.rs:118 | a rank sent in decimal up to 255 is the key itself |
| Standings.Insert | src/main.rs:118 | inserting adds exactly one team to the list |
| Standings.InsertSorted | src/main.rs:118 | inserting into a list sorted by the key keeps it sorted |
| Standings.SortBy | src/main.rs:118 | the result is sorted by the key and is a permutation of the input |
| Standings.MakePlan | src/main.rs:112-121 | the wild-card view lists every team of the league sorted by wild-card rank under "AL/NL Wild Card"; the division view lists the teams of the first matching record under its short name and month, and fails with the missing record, name or timestamp |
| Standings.Prefix | src/main.rs:132 | one character: "D" exactly for a division leader, the rank when it is at most 3, else a space |
| Standings.Headers | src/main.rs:134-137 | "Team" and "WPCT", then "M#" and "E#" from September on, "GB" and "Streak" before |
| Standings.RowOf | src/main.rs:126-132 | a row exists exactly when the rank parses and the columns the month and view call for are present; it carries the club name and winning percentage |
| Standings.RowOfColumns | src/main.rs:126-132 | a row's marker is the prefix of its leader flag and rank; from September its third and fourth cells are the magic and elimination numbers, before it the games back (wild-card games back in that view) and the streak; an unparsable rank is the rank error |
| Standings.RowsOf | src/main.rs:122-133 | one row per team in order, or the error of the first team that fails |
| Standings.BuildRows | src/main.rs:122-133 | the loop returns the rows, or the first error |
| Standings.MonthKeepsOrder | src/main.rs:130-131 | the month changes only the third and fourth columns: same teams, order and markers |
| Standings.FoldWidths | src/main.rs:138 | each width is at least its header's length and every cell of its column fits it |
| Standings.FoldWidthsAttained | src/main.rs:138 | each width is the header's length or the length of one of its cells |
| Standings.HeadersFit | src/main.rs:134-138 | the column titles fit the computed widths |
| Standings.CellsLength | src/main.rs:141-143 | fitting cells pad to exactly the total width plus the gaps |
| Standings.Separator | src/main.rs:145 | the separator is all dashes, as long as a table line |
| Standings.BodyLinesSeparator | src/main.rs:142-147 | the separator appears exactly once, right after the third row, in the wild-card view with at least three rows; every other line is a row's |
| Standings.RowLineLength | src/main.rs:143 | a row line is 8 plus the total width long |
| Standings.BodyLinesAligned | src/main.rs:142-147 | every row line and separator has the same length |
| Standings.HeaderLineAligned | src/main.rs:141 | the header line has that same length |
| Standings.RenderTable | src/main.rs:139-148 | the description is the fence, the header and the body lines, each ended by a line break, then the closing fence |
| Standings.TableAligned | src/main.rs:138-148 | every line after the opening fence has the same length, so the columns line up |
| Standings.RowsAligned | src/main.rs:122-148 | every table the command builds is aligned |
| Standings.Standings | src/main.rs:99-154 | the embed is the plan's title plus " Standings" over the rendered table; errors are a failed fetch, the plan's errors, or the first failing row |

## Left out

- The HTTP requests, the retry loop of `get_with_sleep` and JSON or HTML decoding. Their
  results are inputs. A fetch that fails to decode is an absent value.
- The Discord side: typing indicators, sending messages, `on_message` routing, `help`,
  `main` and the token. The player headshot thumbnail of the `~savant` embed is not
  modelled.
- `Handler::savant`'s resolution of a player name to an id through the search endpoint.
  The model starts from the fetched player page.
- The `RwLock` around the cached id is modelled only through its effect on one handler:
  the `wedged` flag of `GameCache.Handler` stands for a write guard held by a call that
  never returns. Concurrent callers and the order in which they take the lock are not
  modelled; each call sees both feeds fixed for its duration.
- The dates the bot reads from its clocks (`Local::now`, `Utc::now`). The schedule is an
  input, and the wild-card month is a parameter.
- Fields the bot reads as present and typed are present and typed in the records: names,
  description, speed, angle, xBA, the at-bat number and cap index (src/main.rs:72-73),
  the home team id (src/main.rs:69), the `gameWpa` table (src/main.rs:74), the home
  team's win probability added (src/main.rs:79), club name, winning percentage, team
  records and game ids. Their `context` errors and `expect`/`unwrap` panics are not
  modelled.
- GameCache.ResolveReleasing: the fuel bound is not in the code. `OutOfFuel` stands for a
  recursion that has not ended after that many re-resolutions.
- BattedBall.AtBatIndex: a debug build panics on an at-bat number 0. The model follows a
  release build and wraps.
- BattedBall.ExitVelocity: the card carries the intended win-probability sign
  (`SignedDelta`, negated away), and so does `BattedBall.ExitVelocityCard`. For an away
  game the bot multiplies by the wrapped factor of `BattedBall.SideFactorAsWritten` in a
  release build and panics in a debug build. The win probability added is a float in the
  feed and is printed with `{:+}`; the model keeps it as an integer and does not model
  the printing.
- BattedBall.SideFactorAsWritten: the conversion of the wrapped factor to `f64` (which
  rounds it to 2^64) is not modelled.
- BattedBall.Report: it is a function of the day's snapshot, and is not composed with
  `GameCache.Handler.GetTodayGame`. A blocked lookup never reaches it.
- Percentiles.GetPercentileRankings: the panics of the `unwrap`s on the page's structure
  are not modelled. The table's shape is given by the scraped parts. An unreadable season
  is an error value.
- Percentiles.GetPercentileRankings: the `println!` for an unknown label is not modelled.
  Such a column leaves the record unchanged.
- Percentiles.Savant: the embed carries the corrected description, with the pitching
  header on its own line. The bot's own text is `Percentiles.Description`, and
  `Percentiles.OwnLinesAddsOneBreak` states how the two differ.
- Standings.SortBy: stability is not proved. Teams with equal keys keep their feed order,
  as with `sort_by_key`, but only sortedness and permutation are stated.
- Standings.MakePlan: the division timestamp is reduced to its month. A timestamp that
  fails to parse is an absent month.
- `Text.EqIgnoreAsciiCase` compares characters rather than UTF-8 bytes. This gives the
  same answers for the ASCII keywords the bot uses.

## Findings

| source | as written | input that shows it | evidently intended | confidence | as-written member | corrected member |
|---|---|---|---|---|---|---|
| src/main.rs:36-57 | the write guard taken at line 36 is still held when line 57 calls the function again, and `parking_lot`'s `RwLock` is not reentrant: a Final snapshot blocks the call forever, and every later lookup waits on the same lock | the schedule lists game 1 (home team 144, state "Live") while its live snapshot says "Final" | drop the guard before re-resolving, and skip games already found Final so that the re-resolution cannot pick the same game again | medium, not executed | GameCache.FinalSnapshotBlocksForever | GameCache.ResolveSkipping |
| src/main.rs:79 | `is_home as usize * 2 - 1` is unsigned, so an away game gives 0 - 1, which wraps to 2^64 - 1 in a release build and panics in a debug build | the configured team is away and the entry's delta is 0.05; a release build prints about +9.2e17 instead of -0.05 | multiply by -1 when away | high, not executed | BattedBall.AwayDeltaAsWritten | BattedBall.SignedDeltaBySide |
| src/main.rs:331 | the pitching header has no leading line break, unlike the fielding and baserunning headers | a two-way player with xwOBA and xERA percentiles: ":baseball: Pitching" follows the last batting line on the same line | "\n:baseball: Pitching" | medium, not executed | Percentiles.PitchingHeaderSharesLine | Percentiles.SectionsOnOwnLines |
