/** The `~ev` command's extraction and rendering (`Handler::exit_velocity`): the most
    recent batted ball of the live game, joined with the win-probability table and laid
    out as a titled card with a fixed list of fields. */
module BattedBall {
  import opened Wrappers
  import opened Text
  import opened LiveFeed

  /** Why a report could not be built. */
  datatype EvError =
    | NoGameToday          // `get_today_game` returned nothing
    | WpaMissing           // no win-probability entry for the event's at-bat and cap index
    | DistanceUnparsable   // `hit_distance` is not a `usize`
    | BallparksMissing     // a long ball without `contextMetrics.homeRunBallparks`

  /** A field value: text, or the win probability added from the configured team's side
      (the bot prints the float with an explicit sign; the printing is not modelled). */
  datatype FieldValue = Plain(text: string) | SignedWpa(delta: int)

  datatype Field = Field(name: string, value: FieldValue)

  /** The embed the bot sends. */
  datatype Card = Card(title: string, description: string, fields: seq<Field>)

  /** The degree suffix exactly as the source file spells it: the two characters U+00C2
      U+00B0, a UTF-8 degree sign read back as Latin-1. */
  const DEGREES: string := "\U{00C2}\U{00B0}"

  /** Distances from this many feet on get the "Home Run" field. */
  const HOME_RUN_DISTANCE: nat := 300

  predicate IsHome(snap: Snapshot) {
    snap.homeId == BRAVES_TEAM_ID
  }

  /** The card title: home team first, joined by "vs." when the configured team is at
      home and by "@" when it is away. */
  function Title(snap: Snapshot): (t: string)
    ensures |t| == |snap.homeName| + (if IsHome(snap) then 5 else 3) + |snap.awayName|
    ensures t[..|snap.homeName|] == snap.homeName
    ensures t[|snap.homeName|..|t| - |snap.awayName|] == if IsHome(snap) then " vs. " else " @ "
    ensures t[|t| - |snap.awayName|..] == snap.awayName
  {
    var sep := if IsHome(snap) then " vs. " else " @ ";
    var t := snap.homeName + sep + snap.awayName;
    assert t[..|snap.homeName|] == snap.homeName;
    assert t[|snap.homeName|..|t| - |snap.awayName|] == sep;
    t
  }

  /** `ab_number - 1` on a `u64`: 1-based at-bat number to the table's 0-based index.
      A release build wraps 0 round to the largest `u64`. */
  function AtBatIndex(abNumber: nat): (i: nat)
    requires abNumber <= U64_MAX
    ensures abNumber >= 1 ==> i + 1 == abNumber
    ensures abNumber == 0 ==> i == U64_MAX
  {
    (abNumber + U64_MAX) % (U64_MAX + 1)
  }

  predicate Matches(e: WpaEntry, atBat: nat, cap: nat) {
    e.atBatIndex == Some(atBat) && e.capIndex == Some(cap)
  }

  /** `rfind`: the last entry of the table matching both indices. */
  function LastMatch(table: seq<WpaEntry>, atBat: nat, cap: nat): (r: Option<WpaEntry>)
    ensures r.None? <==> forall i :: 0 <= i < |table| ==> !Matches(table[i], atBat, cap)
    ensures r.Some? ==> exists i :: 0 <= i < |table| && table[i] == r.value && Matches(table[i], atBat, cap)
                          && forall j :: i < j < |table| ==> !Matches(table[j], atBat, cap)
  {
    if table == [] then None
    else if Matches(table[|table| - 1], atBat, cap) then Some(table[|table| - 1])
    else
      var r := LastMatch(table[..|table| - 1], atBat, cap);
      assert forall i :: 0 <= i < |table| - 1 ==> table[i] == table[..|table| - 1][i];
      r
  }

  /** The home team's delta seen from the configured team, `(2 * is_home - 1) * delta`
      in signed arithmetic: kept when it plays at home, negated when it is away. The card
      uses this signing; `SignedDeltaAsWritten` below is the unsigned expression of
      src/main.rs:79. */
  function SignedDelta(home: bool, homeDelta: int): int {
    ((if home then 1 else 0) * 2 - 1) * homeDelta
  }

  /** The sign flips exactly with the side the configured team plays on. */
  lemma SignedDeltaBySide(homeDelta: int)
    ensures SignedDelta(true, homeDelta) == homeDelta
    ensures SignedDelta(false, homeDelta) == -homeDelta
    ensures SignedDelta(false, homeDelta) == -SignedDelta(true, homeDelta)
  {
  }

  /** The multiplier exactly as written: `is_home as usize * 2 - 1` is evaluated on a
      64-bit `usize`, where `0 * 2 - 1` wraps round to the largest value (a debug build
      panics instead). */
  function SideFactorAsWritten(home: bool): (f: nat)
    ensures home ==> f == 1
    ensures !home ==> f == U64_MAX
  {
    ((if home then 1 else 0) * 2 + U64_MAX) % (U64_MAX + 1)
  }

  /** The delta as the bot computes it before printing. */
  function SignedDeltaAsWritten(home: bool, homeDelta: int): int {
    SideFactorAsWritten(home) * homeDelta
  }

  /** When the configured team is away, the written expression does not flip the sign:
      any non-zero delta comes out positive for a positive input and scaled by 2^64 - 1,
      so it disagrees with the flipped delta; at home the two agree. */
  lemma AwayDeltaAsWritten(homeDelta: int)
    requires homeDelta != 0
    ensures SignedDeltaAsWritten(true, homeDelta) == SignedDelta(true, homeDelta)
    ensures SignedDeltaAsWritten(false, homeDelta) != SignedDelta(false, homeDelta)
    ensures homeDelta > 0 ==> SignedDeltaAsWritten(false, homeDelta) >= U64_MAX
  {
  }

  /** The text before the first ". " of a play description. */
  function Headline(des: string): string {
    BeforeFirst(des, ". ")
  }

  /** The five fields every card has, in the order the bot adds them. */
  function BaseFields(hit: BattedBallEvent, distance: nat, wpa: int): seq<Field> {
    [ Field("Exit Velocity", Plain(hit.hitSpeed + "mph")),
      Field("Launch Angle", Plain(hit.hitAngle + DEGREES)),
      Field("Distance", Plain(NatToString(distance) + " ft")),
      Field("xBA", Plain(hit.xba)),
      Field("WPA", SignedWpa(wpa)) ]
  }

  /** The card for the most recent batted ball of `snap` (src/main.rs:66-91); `Ok(None)`
      when no ball has been put in play. */
  function ExitVelocity(snap: Snapshot): (r: Result<Option<Card>, EvError>)
    requires forall e :: e in snap.exitVelocity ==> e.abNumber <= U64_MAX
    ensures snap.exitVelocity == [] <==> r == Ok(None)
    ensures r.Ok? && r.value.Some? ==> |r.value.value.fields| in {5, 6}
  {
    if snap.exitVelocity == [] then Ok(None)
    else
      var hit := snap.exitVelocity[|snap.exitVelocity| - 1];
      match LastMatch(snap.gameWpa, AtBatIndex(hit.abNumber), hit.capIndex)
      case None => Err(WpaMissing)
      case Some(entry) =>
        match ParseUnsigned(hit.hitDistance, U64_MAX)
        case None => Err(DistanceUnparsable)
        case Some(distance) =>
          var fields := BaseFields(hit, distance, SignedDelta(IsHome(snap), entry.homeTeamWinProbabilityAdded));
          var card := Card(Title(snap), Headline(hit.des), fields);
          if distance >= HOME_RUN_DISTANCE then
            match hit.homeRunBallparks
            case None => Err(BallparksMissing)
            case Some(n) => Ok(Some(card.(fields := fields + [Field("Home Run", Plain(NatToString(n) + "/30"))])))
          else Ok(Some(card))
  }

  /** `exit_velocity` from the resolved game on: no game today is an error. */
  function Report(game: Option<Snapshot>): (r: Result<Option<Card>, EvError>)
    requires game.Some? ==> forall e :: e in game.value.exitVelocity ==> e.abNumber <= U64_MAX
    ensures game.None? <==> r == Err(NoGameToday)
  {
    match game
    case None => Err(NoGameToday)
    case Some(snap) => ExitVelocity(snap)
  }

  /** Everything a successful report says about the last batted ball: the title by side,
      the description cut at the first ". ", the win-probability entry found under the
      event's 0-based at-bat index and cap index and signed by side, the five fixed
      fields, and a sixth, "Home Run", exactly for a parsed distance of at least 300 feet. */
  lemma ExitVelocityCard(snap: Snapshot)
    requires forall e :: e in snap.exitVelocity ==> e.abNumber <= U64_MAX
    requires snap.exitVelocity != []
    ensures ExitVelocity(snap).Ok? ==>
            var hit := snap.exitVelocity[|snap.exitVelocity| - 1];
            var card := ExitVelocity(snap).value.value;
            var entry := LastMatch(snap.gameWpa, AtBatIndex(hit.abNumber), hit.capIndex);
            var distance := ParseUnsigned(hit.hitDistance, U64_MAX);
            && entry.Some? && distance.Some?
            && card.title == Title(snap)
            && card.description == Headline(hit.des)
            && |card.fields| == (if distance.value >= HOME_RUN_DISTANCE then 6 else 5)
            && card.fields[..5] == BaseFields(hit, distance.value,
                 SignedDelta(IsHome(snap), entry.value.homeTeamWinProbabilityAdded))
            && (distance.value >= HOME_RUN_DISTANCE ==>
                  card.fields[5] == Field("Home Run", Plain(NatToString(hit.homeRunBallparks.value) + "/30")))
  {
  }

  /** The error cases, in the order the bot meets them: no matching win-probability
      entry, then an unparseable distance, then a long ball without a ballpark count. */
  lemma ExitVelocityErrors(snap: Snapshot)
    requires forall e :: e in snap.exitVelocity ==> e.abNumber <= U64_MAX
    requires snap.exitVelocity != []
    ensures var hit := snap.exitVelocity[|snap.exitVelocity| - 1];
            var key := AtBatIndex(hit.abNumber);
            var distance := ParseUnsigned(hit.hitDistance, U64_MAX);
            && (ExitVelocity(snap) == Err(WpaMissing) <==> LastMatch(snap.gameWpa, key, hit.capIndex).None?)
            && (ExitVelocity(snap) == Err(DistanceUnparsable) <==>
                  (LastMatch(snap.gameWpa, key, hit.capIndex).Some? && distance.None?))
            && (ExitVelocity(snap) == Err(BallparksMissing) <==>
                  (LastMatch(snap.gameWpa, key, hit.capIndex).Some? && distance.Some?
                        && distance.value >= HOME_RUN_DISTANCE && hit.homeRunBallparks.None?))
  {
  }

  /** A distance the feed already sends in canonical decimal form is shown unchanged. */
  lemma DistanceShownAsSent(snap: Snapshot, n: nat)
    requires forall e :: e in snap.exitVelocity ==> e.abNumber <= U64_MAX
    requires snap.exitVelocity != [] && n <= U64_MAX
    requires snap.exitVelocity[|snap.exitVelocity| - 1].hitDistance == NatToString(n)
    requires ExitVelocity(snap).Ok?
    ensures ExitVelocity(snap).value.value.fields[2] == Field("Distance", Plain(NatToString(n) + " ft"))
  {
    ParseOfNatToString(n, U64_MAX);
  }
}
