/** The live-game resolution cache: one optional game id kept across commands. A call
    reuses the cached id, or picks the first upcoming game of the configured team from the
    season schedule and caches that choice; it then fetches the live snapshot of the game.
    When the snapshot says the game is over, the bot clears the slot and calls itself
    again while still holding the write guard of the slot's lock; the lock is not
    reentrant, so that call never returns and every later lookup waits on it. The model
    states that behaviour, and beside it the re-resolution the code evidently intends.

    The two fetches are inputs: `schedule` is the decoded schedule (`None` when the fetch
    or its `dates` array fails) and `live` maps a game id to its decoded snapshot (an id
    missing from it is a fetch that failed to decode). Both are fixed for one call. */
module GameCache {
  import opened Wrappers
  import opened LiveFeed

  /** A game the cache may choose: the configured team plays in it, at home or away,
      and the schedule does not report it as over. */
  predicate Eligible(g: ScheduleGame) {
    && (g.homeTeamId == Some(BRAVES_TEAM_ID) || g.awayTeamId == Some(BRAVES_TEAM_ID))
    && g.abstractGameState != Some(FINAL)
  }

  /** The games of all dates, date by date (`flat_map` over `dates`). */
  function Flatten(dates: seq<ScheduleDate>): (games: seq<ScheduleGame>)
    ensures forall d, g :: d in dates && g in d.games ==> g in games
    ensures forall g :: g in games ==> exists d :: d in dates && g in d.games
  {
    if dates == [] then [] else dates[0].games + Flatten(dates[1..])
  }

  /** The id of the first eligible game of `games` whose id is not in `skip`. */
  function FirstEligible(games: seq<ScheduleGame>, skip: set<nat>): (r: Option<nat>)
    ensures r.None? <==> forall i :: 0 <= i < |games| ==> !(Eligible(games[i]) && games[i].gamePk !in skip)
    ensures r.Some? ==> exists i :: 0 <= i < |games| && Eligible(games[i]) && games[i].gamePk == r.value
                          && r.value !in skip
                          && forall j :: 0 <= j < i ==> !(Eligible(games[j]) && games[j].gamePk !in skip)
  {
    if games == [] then None
    else if Eligible(games[0]) && games[0].gamePk !in skip then Some(games[0].gamePk)
    else
      var r := FirstEligible(games[1..], skip);
      assert forall i :: 1 <= i < |games| ==> games[i] == games[1..][i - 1];
      r
  }

  /** The schedule's choice (src/main.rs:42-49): the first eligible game in date order. */
  function NextGame(dates: seq<ScheduleDate>): Option<nat> {
    FirstEligible(Flatten(dates), {})
  }

  /** Searching a concatenation searches the first part first. */
  lemma {:induction false} FirstEligibleAppend(a: seq<ScheduleGame>, b: seq<ScheduleGame>, skip: set<nat>)
    ensures FirstEligible(a + b, skip)
            == if FirstEligible(a, skip).Some? then FirstEligible(a, skip) else FirstEligible(b, skip)
  {
    if a != [] {
      assert (a + b)[1..] == a[1..] + b;
      FirstEligibleAppend(a[1..], b, skip);
    } else {
      assert a + b == b;
    }
  }

  /** Date order decides: the choice is the first eligible game of the earliest date that
      has one, whatever the later dates hold. */
  lemma {:induction false} NextGameEarliestDate(dates: seq<ScheduleDate>, k: nat)
    requires k < |dates| && FirstEligible(dates[k].games, {}).Some?
    requires forall j :: 0 <= j < k ==> FirstEligible(dates[j].games, {}).None?
    ensures NextGame(dates) == FirstEligible(dates[k].games, {})
  {
    FirstEligibleAppend(dates[0].games, Flatten(dates[1..]), {});
    if k > 0 {
      NextGameEarliestDate(dates[1..], k - 1);
    }
  }

  /** The game a call looks at (src/main.rs:38-53): the cached id, or else the
      schedule's choice; nothing when the schedule fetch failed. */
  function Chosen(cached: Option<nat>, schedule: Option<seq<ScheduleDate>>): (pk: Option<nat>)
    ensures cached.Some? ==> pk == cached
    ensures cached.None? && schedule.None? ==> pk == None
    ensures cached.None? && schedule.Some? ==> pk == NextGame(schedule.value)
  {
    if cached.Some? then cached else if schedule.None? then None else NextGame(schedule.value)
  }

  /** The result of one call: the live snapshot; no game (nothing scheduled or a fetch
      that failed); a call that never returns because it waits on the write guard it
      holds itself; or, for the fuel-bounded recursion, a chain of re-resolutions longer
      than the fuel allowed. */
  datatype GameLookup = Live(snapshot: Snapshot) | NoGame | Blocked | OutOfFuel

  /** One call as the bot runs it. The write guard taken at src/main.rs:36 lives until the
      function returns, and the recursive call at src/main.rs:57 asks for the same
      non-reentrant lock: a Final snapshot therefore leaves the call waiting forever,
      after the slot has been cleared. */
  function ResolveAsWritten(cached: Option<nat>, schedule: Option<seq<ScheduleDate>>, live: map<nat, Snapshot>)
    : (res: (GameLookup, Option<nat>))
    ensures res.0.Live? ==> res.1.Some? && res.1.value in live && live[res.1.value] == res.0.snapshot
                            && !IsFinal(res.0.snapshot)
    ensures res.0.Blocked? ==> res.1 == None
    ensures !res.0.OutOfFuel?
    ensures res.1.Some? ==> res.1 == cached || (schedule.Some? && res.1 == NextGame(schedule.value))
  {
    var (pk, slot) :=
      if cached.Some? then (cached, cached)
      else if schedule.None? then (None, cached)
      else (NextGame(schedule.value), NextGame(schedule.value));
    if pk.None? || pk.value !in live then (NoGame, slot)
    else if IsFinal(live[pk.value]) then (Blocked, None)
    else (Live(live[pk.value]), slot)
  }

  /** A call blocks exactly when the game it looks at has a Final snapshot, whatever the
      slot held and whatever the schedule offers. */
  lemma BlockedIffFinal(cached: Option<nat>, schedule: Option<seq<ScheduleDate>>, live: map<nat, Snapshot>)
    ensures ResolveAsWritten(cached, schedule, live).0.Blocked?
            <==> (Chosen(cached, schedule).Some? && Chosen(cached, schedule).value in live
                  && IsFinal(live[Chosen(cached, schedule).value]))
  {
  }

  /** A cached id whose game is still on is used as it is: no schedule is consulted and
      the slot keeps the id. */
  lemma ResolveReusesCache(id: nat, schedule: Option<seq<ScheduleDate>>, live: map<nat, Snapshot>)
    requires id in live && !IsFinal(live[id])
    ensures ResolveAsWritten(Some(id), schedule, live) == (Live(live[id]), Some(id))
  {
  }

  /** With an empty slot, the choice is the schedule's first eligible game; the slot is
      set to exactly that choice, or to `None` when there is none. */
  lemma ResolveSelectsFirstEligible(dates: seq<ScheduleDate>, live: map<nat, Snapshot>)
    ensures NextGame(dates).None? ==> ResolveAsWritten(None, Some(dates), live) == (NoGame, None)
    ensures (NextGame(dates).Some? && NextGame(dates).value !in live)
              ==> ResolveAsWritten(None, Some(dates), live) == (NoGame, NextGame(dates))
    ensures (NextGame(dates).Some? && NextGame(dates).value in live && !IsFinal(live[NextGame(dates).value]))
              ==> ResolveAsWritten(None, Some(dates), live) == (Live(live[NextGame(dates).value]), NextGame(dates))
  {
  }

  /** Memoisation: once a call has returned a live game, the next call with the same
      feeds returns the same snapshot and leaves the slot as it was. */
  lemma ResolveIsMemoized(cached: Option<nat>, schedule: Option<seq<ScheduleDate>>, live: map<nat, Snapshot>)
    requires ResolveAsWritten(cached, schedule, live).0.Live?
    ensures var (r, slot) := ResolveAsWritten(cached, schedule, live);
            ResolveAsWritten(slot, schedule, live) == (r, slot)
  {
    var (r, slot) := ResolveAsWritten(cached, schedule, live);
    ResolveReusesCache(slot.value, schedule, live);
  }

  // ---------------------------------------------------------------------------------
  // The lock across successive calls
  // ---------------------------------------------------------------------------------

  /** What the handler keeps between calls: the slot, and whether an earlier call is
      stuck holding the write guard. */
  datatype CacheState = CacheState(slot: Option<nat>, wedged: bool)

  /** One `~ev` lookup from a given state: once a call is stuck holding the guard, every
      later call waits on the same lock. */
  function CallAsWritten(s: CacheState, schedule: Option<seq<ScheduleDate>>, live: map<nat, Snapshot>)
    : (r: (GameLookup, CacheState))
    ensures s.wedged ==> r == (Blocked, s)
    ensures r.1.wedged <==> r.0.Blocked?
    ensures !s.wedged ==> (r.0, r.1.slot) == ResolveAsWritten(s.slot, schedule, live)
  {
    if s.wedged then (Blocked, s)
    else
      var (res, slot) := ResolveAsWritten(s.slot, schedule, live);
      (res, CacheState(slot, res.Blocked?))
  }

  /** The feeds one call sees. */
  datatype Feeds = Feeds(schedule: Option<seq<ScheduleDate>>, live: map<nat, Snapshot>)

  /** The results of successive calls, each on its own feeds, from a given state. */
  function Session(s: CacheState, calls: seq<Feeds>): (rs: seq<GameLookup>)
    ensures |rs| == |calls|
    decreases |calls|
  {
    if calls == [] then []
    else
      var (r, s') := CallAsWritten(s, calls[0].schedule, calls[0].live);
      [r] + Session(s', calls[1..])
  }

  /** A stuck handler never answers again. */
  lemma {:induction false} WedgedStaysBlocked(s: CacheState, calls: seq<Feeds>)
    requires s.wedged
    ensures forall i :: 0 <= i < |calls| ==> Session(s, calls)[i] == Blocked
  {
    if calls != [] {
      WedgedStaysBlocked(s, calls[1..]);
    }
  }

  /** After the first call that meets a Final snapshot, every later call blocks too, on any
      feeds. */
  lemma {:induction false} FinalSnapshotBlocksForever(s: CacheState, calls: seq<Feeds>, k: nat)
    requires k < |calls| && Session(s, calls)[k] == Blocked
    ensures forall i :: k <= i < |calls| ==> Session(s, calls)[i] == Blocked
    decreases k
  {
    var (r, s') := CallAsWritten(s, calls[0].schedule, calls[0].live);
    if k == 0 {
      WedgedStaysBlocked(s', calls[1..]);
    } else {
      FinalSnapshotBlocksForever(s', calls[1..], k - 1);
    }
  }

  // ---------------------------------------------------------------------------------
  // Re-resolution with the guard released
  // ---------------------------------------------------------------------------------

  /** The feeds agree: the game the schedule would choose is not reported over by the
      live feed. */
  predicate Consistent(schedule: Option<seq<ScheduleDate>>, live: map<nat, Snapshot>) {
    (schedule.Some? && NextGame(schedule.value).Some? && NextGame(schedule.value).value in live)
      ==> !IsFinal(live[NextGame(schedule.value).value])
  }

  /** The recursion the code evidently intends: the guard is released before the call
      resolves again from an empty slot. `fuel` bounds how often a Final snapshot may
      send the call back to the schedule. */
  function ResolveReleasing(cached: Option<nat>, schedule: Option<seq<ScheduleDate>>, live: map<nat, Snapshot>, fuel: nat)
    : (res: (GameLookup, Option<nat>))
    ensures res.0.Live? ==> res.1.Some? && res.1.value in live && live[res.1.value] == res.0.snapshot
                            && !IsFinal(res.0.snapshot)
    ensures res.0.OutOfFuel? ==> res.1 == None
    ensures !res.0.Blocked?
    ensures res.1.Some? ==> res.1 == cached || (schedule.Some? && res.1 == NextGame(schedule.value))
    decreases fuel
  {
    var (pk, slot) :=
      if cached.Some? then (cached, cached)
      else if schedule.None? then (None, cached)
      else (NextGame(schedule.value), NextGame(schedule.value));
    if pk.None? || pk.value !in live then (NoGame, slot)
    else if IsFinal(live[pk.value]) then
      if fuel == 0 then (OutOfFuel, None) else ResolveReleasing(None, schedule, live, fuel - 1)
    else (Live(live[pk.value]), slot)
  }

  /** Wherever the bot's call returns, releasing the guard changes nothing. */
  lemma ReleasingAgreesUnlessBlocked(cached: Option<nat>, schedule: Option<seq<ScheduleDate>>,
                                     live: map<nat, Snapshot>, fuel: nat)
    requires !ResolveAsWritten(cached, schedule, live).0.Blocked?
    ensures ResolveReleasing(cached, schedule, live, fuel) == ResolveAsWritten(cached, schedule, live)
  {
  }

  /** With the guard released, a Final snapshot clears the slot and the call continues as a
      call on an empty slot. */
  lemma ResolveClearsFinal(cached: Option<nat>, schedule: Option<seq<ScheduleDate>>, live: map<nat, Snapshot>, fuel: nat)
    requires cached.Some? && cached.value in live && IsFinal(live[cached.value])
    ensures ResolveReleasing(cached, schedule, live, fuel + 1) == ResolveReleasing(None, schedule, live, fuel)
    ensures ResolveReleasing(cached, schedule, live, 0) == (OutOfFuel, None)
  {
  }

  /** With the guard released and the feeds in agreement, one re-resolution is enough:
      the call never runs out of fuel. */
  lemma ResolveTerminatesWhenConsistent(cached: Option<nat>, schedule: Option<seq<ScheduleDate>>,
                                        live: map<nat, Snapshot>, fuel: nat)
    requires Consistent(schedule, live) && fuel >= 1
    ensures !ResolveReleasing(cached, schedule, live, fuel).0.OutOfFuel?
  {
    if cached.Some? && cached.value in live && IsFinal(live[cached.value]) {
      ResolveClearsFinal(cached, schedule, live, fuel - 1);
    }
  }

  /** Releasing the guard alone is not enough: when the schedule still offers a game that
      the live feed reports Final, every re-resolution picks that same game again, so no
      amount of fuel is enough. */
  lemma {:induction false} ResolveLoopsWhenFeedsDisagree(dates: seq<ScheduleDate>, live: map<nat, Snapshot>, fuel: nat)
    requires NextGame(dates).Some? && NextGame(dates).value in live && IsFinal(live[NextGame(dates).value])
    ensures ResolveReleasing(None, Some(dates), live, fuel) == (OutOfFuel, None)
  {
    if fuel > 0 {
      ResolveLoopsWhenFeedsDisagree(dates, live, fuel - 1);
    }
  }

  /** A concrete instance: one scheduled home game, still "Live" in the schedule and
      "Final" in the live feed. The bot's call blocks on it, and then so does every later
      call; with the guard released it would re-resolve without end. */
  lemma DisagreeingFeedsExample(fuel: nat, later: seq<Feeds>)
    ensures var g := ScheduleGame(1, Some(BRAVES_TEAM_ID), Some(121), Some("Live"));
            var snap := Snapshot(Some(FINAL), "Braves", "Mets", BRAVES_TEAM_ID, [], []);
            var feeds := Feeds(Some([ScheduleDate([g])]), map[1 := snap]);
            && ResolveAsWritten(None, feeds.schedule, feeds.live) == (Blocked, None)
            && (forall i :: 0 <= i < |later| + 1 ==> Session(CacheState(None, false), [feeds] + later)[i] == Blocked)
            && ResolveReleasing(None, feeds.schedule, feeds.live, fuel) == (OutOfFuel, None)
  {
    var g := ScheduleGame(1, Some(BRAVES_TEAM_ID), Some(121), Some("Live"));
    var snap := Snapshot(Some(FINAL), "Braves", "Mets", BRAVES_TEAM_ID, [], []);
    var dates := [ScheduleDate([g])];
    var feeds := Feeds(Some(dates), map[1 := snap]);
    assert Flatten(dates) == [g];
    assert "Live" != FINAL;
    assert NextGame(dates) == Some(1);
    assert Session(CacheState(None, false), [feeds] + later)[0] == Blocked;
    FinalSnapshotBlocksForever(CacheState(None, false), [feeds] + later, 0);
    ResolveLoopsWhenFeedsDisagree(dates, feeds.live, fuel);
  }

  // ---------------------------------------------------------------------------------
  // Re-resolution that skips games already seen to be over
  // ---------------------------------------------------------------------------------

  /** The ids the schedule could ever offer. */
  function Candidates(schedule: Option<seq<ScheduleDate>>): set<nat> {
    if schedule.None? then {}
    else set g | g in Flatten(schedule.value) && Eligible(g) :: g.gamePk
  }

  /** Marking a game finished never adds a candidate, and removes one when the game
      was a candidate not yet finished. */
  lemma FinishingShrinks(candidates: set<nat>, finished: set<nat>, pk: nat)
    ensures |candidates - (finished + {pk})| <= |candidates - finished|
    ensures pk in candidates - finished ==> |candidates - (finished + {pk})| < |candidates - finished|
  {
    var before, after := candidates - finished, candidates - (finished + {pk});
    var removed := before - after;
    assert before == after + removed;
    assert after * removed == {};
    if pk in before {
      assert before == after + {pk};
    }
  }

  /** The schedule's first eligible game whose id is not in `finished`. */
  function NextGameExcept(dates: seq<ScheduleDate>, finished: set<nat>): (r: Option<nat>)
    ensures r.Some? ==> r.value in Candidates(Some(dates)) - finished
  {
    var r := FirstEligible(Flatten(dates), finished);
    if r.Some? then
      var games := Flatten(dates);
      var i :| 0 <= i < |games| && Eligible(games[i]) && games[i].gamePk == r.value && r.value !in finished;
      assert games[i] in games;
      r
    else r
  }

  /** Skipping ids that are not the first choice changes nothing. */
  lemma {:induction false} FirstEligibleSkipsOthers(games: seq<ScheduleGame>, finished: set<nat>)
    requires FirstEligible(games, {}).None? || FirstEligible(games, {}).value !in finished
    ensures FirstEligible(games, finished) == FirstEligible(games, {})
  {
    if games != [] && !Eligible(games[0]) {
      FirstEligibleSkipsOthers(games[1..], finished);
    }
  }

  /** Resolution in which every game whose snapshot was found Final is added to
      `finished` and is never chosen again during the same call. */
  function ResolveSkipping(cached: Option<nat>, schedule: Option<seq<ScheduleDate>>, live: map<nat, Snapshot>,
                           finished: set<nat>)
    : (res: (GameLookup, Option<nat>))
    ensures !res.0.OutOfFuel? && !res.0.Blocked?
    ensures res.0.Live? ==> res.1.Some? && res.1.value in live && live[res.1.value] == res.0.snapshot
                            && !IsFinal(res.0.snapshot)
    decreases |Candidates(schedule) - finished|, if cached.Some? then 1 else 0
  {
    var (pk, slot) :=
      if cached.Some? then (cached, cached)
      else if schedule.None? then (None, cached)
      else (NextGameExcept(schedule.value, finished), NextGameExcept(schedule.value, finished));
    if pk.None? || pk.value !in live then (NoGame, slot)
    else if IsFinal(live[pk.value]) then
      FinishingShrinks(Candidates(schedule), finished, pk.value);
      ResolveSkipping(None, schedule, live, finished + {pk.value})
    else (Live(live[pk.value]), slot)
  }

  /** The game a skipping call looks at: the cached id, or else the schedule's first
      eligible game not yet found Final. */
  function ChosenExcept(cached: Option<nat>, schedule: Option<seq<ScheduleDate>>, finished: set<nat>): (pk: Option<nat>)
    ensures cached.Some? ==> pk == cached
    ensures cached.None? && schedule.None? ==> pk == None
    ensures cached.None? && schedule.Some? ==> pk == NextGameExcept(schedule.value, finished)
  {
    if cached.Some? then cached else if schedule.None? then None else NextGameExcept(schedule.value, finished)
  }

  /** The three outcomes of a skipping call, by what the live feed says of the game it
      looks at. */
  lemma ResolveSkippingCases(cached: Option<nat>, schedule: Option<seq<ScheduleDate>>, live: map<nat, Snapshot>,
                             finished: set<nat>)
    ensures var pk := ChosenExcept(cached, schedule, finished);
            pk.None? || pk.value !in live ==> ResolveSkipping(cached, schedule, live, finished) == (NoGame, pk)
    ensures var pk := ChosenExcept(cached, schedule, finished);
            pk.Some? && pk.value in live && !IsFinal(live[pk.value]) ==>
              ResolveSkipping(cached, schedule, live, finished) == (Live(live[pk.value]), pk)
    ensures var pk := ChosenExcept(cached, schedule, finished);
            pk.Some? && pk.value in live && IsFinal(live[pk.value]) ==>
              ResolveSkipping(cached, schedule, live, finished) == ResolveSkipping(None, schedule, live, finished + {pk.value})
  {
  }

  /** When the feeds agree, skipping finished games returns what the recursion with the
      guard released returns, and what the bot returns wherever its call does not block. */
  lemma ResolveSkippingAgrees(cached: Option<nat>, schedule: Option<seq<ScheduleDate>>, live: map<nat, Snapshot>)
    requires Consistent(schedule, live)
    ensures ResolveSkipping(cached, schedule, live, {}) == ResolveReleasing(cached, schedule, live, 1)
    ensures !ResolveAsWritten(cached, schedule, live).0.Blocked? ==>
              ResolveSkipping(cached, schedule, live, {}) == ResolveAsWritten(cached, schedule, live)
  {
    ResolveSkippingCases(cached, schedule, live, {});
    if schedule.Some? {
      FirstEligibleSkipsOthers(Flatten(schedule.value), {});
      assert NextGameExcept(schedule.value, {}) == NextGame(schedule.value);
      if cached.Some? && cached.value in live && IsFinal(live[cached.value]) {
        FirstEligibleSkipsOthers(Flatten(schedule.value), {cached.value});
        assert NextGameExcept(schedule.value, {cached.value}) == NextGame(schedule.value);
        ResolveSkippingCases(None, schedule, live, {cached.value});
      }
    }
    if !ResolveAsWritten(cached, schedule, live).0.Blocked? {
      ReleasingAgreesUnlessBlocked(cached, schedule, live, 1);
    }
  }

  /** The handler's state: the cached id of today's game (`Handler::current_game_id`),
      and whether a call is stuck holding its write guard. */
  class Handler {
    var currentGameId: Option<nat>
    var wedged: bool

    constructor ()
      ensures currentGameId == None && !wedged
    {
      currentGameId := None;
      wedged := false;
    }

    /** `Handler::get_today_game` (src/main.rs:35-61) as the bot runs it. */
    method GetTodayGame(schedule: Option<seq<ScheduleDate>>, live: map<nat, Snapshot>)
      returns (r: GameLookup)
      modifies this
      ensures (r, CacheState(currentGameId, wedged))
              == CallAsWritten(old(CacheState(currentGameId, wedged)), schedule, live)
      ensures r.Live? ==> currentGameId.Some? && currentGameId.value in live
                          && live[currentGameId.value] == r.snapshot && !IsFinal(r.snapshot)
    {
      if wedged {
        // the write lock is still held by a call that never returned
        return Blocked;
      }
      var gamePk: Option<nat>;
      if currentGameId.Some? {
        gamePk := currentGameId;
      } else {
        if schedule.None? {
          return NoGame;
        }
        var next := NextGame(schedule.value);
        currentGameId := next;
        gamePk := next;
      }
      if gamePk.None? || gamePk.value !in live {
        return NoGame;
      }
      var response := live[gamePk.value];
      if IsFinal(response) {
        currentGameId := None;
        // the recursive call asks for the write guard this call still holds
        wedged := true;
        return Blocked;
      }
      r := Live(response);
    }

    /** The game a call looks at (src/main.rs:38-53): the cached id, or else the
        schedule's first eligible game not in `finished`, which is cached. A failed
        schedule fetch leaves the slot empty. */
    method Choose(schedule: Option<seq<ScheduleDate>>, finished: set<nat>) returns (pk: Option<nat>)
      modifies this
      ensures pk == currentGameId && wedged == old(wedged)
      ensures pk == ChosenExcept(old(currentGameId), schedule, finished)
    {
      if currentGameId.Some? {
        pk := currentGameId;
      } else if schedule.None? {
        pk := None;
      } else {
        pk := NextGameExcept(schedule.value, finished);
        currentGameId := pk;
      }
    }

    /** `get_today_game` corrected: the guard is released before the call resolves again,
        and the re-resolution skips every game already found Final during the call; it
        needs no fuel and never leaves the handler stuck. */
    method GetTodayGameSkipping(schedule: Option<seq<ScheduleDate>>, live: map<nat, Snapshot>, finished: set<nat>)
      returns (r: GameLookup)
      modifies this
      ensures old(wedged) ==> r == Blocked && currentGameId == old(currentGameId)
      ensures wedged == old(wedged)
      ensures !wedged ==> (r, currentGameId) == ResolveSkipping(old(currentGameId), schedule, live, finished)
      ensures !wedged ==> r.Live? || r.NoGame?
      decreases |Candidates(schedule) - finished|, if currentGameId.Some? then 1 else 0
    {
      if wedged {
        return Blocked;
      }
      ResolveSkippingCases(currentGameId, schedule, live, finished);
      var gamePk := Choose(schedule, finished);
      if gamePk.None? || gamePk.value !in live {
        return NoGame;
      }
      var response := live[gamePk.value];
      if IsFinal(response) {
        FinishingShrinks(Candidates(schedule), finished, gamePk.value);
        currentGameId := None;
        r := GetTodayGameSkipping(schedule, live, finished + {gamePk.value});
      } else {
        r := Live(response);
      }
    }
  }
}
