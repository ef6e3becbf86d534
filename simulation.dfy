/** The competition simulation engine: the team roster, the bid feed and
    the one-second game loop that moves them.

    Every draw of the browser's random number generator is an input here:
    `TeamDraw` holds the draws one team's update makes in one tick and
    `BidDraw` the draws of the bid generator.  With those supplied, a tick
    is a deterministic function of the pre-tick state. */
module Simulation {
  import opened Wrappers

  datatype Status = Active | Flagged | Winner | Disqualified

  datatype Team = Team(
    id: string,
    name: string,
    velocity: seq<real>,   // the last WindowLength samples, oldest first
    score: real,
    status: Status,
    logs: seq<string>)     // the last few log lines, oldest first

  datatype Bid = Bid(id: string, sponsor: string, amount: int, teamId: string, timestamp: string)

  /** Number of samples in every team's velocity window. */
  const WindowLength: nat := 10
  /** Number of log lines a team keeps. */
  const LogCapacity: nat := 5
  /** Number of bids the feed keeps. */
  const BidCapacity: nat := 5
  /** Number of ticks in one episode. */
  const EpisodeLength: int := 60

  function MaxR(a: real, b: real): real { if a >= b then a else b }
  function MinR(a: real, b: real): real { if a <= b then a else b }
  function MinI(a: int, b: int): int { if a <= b then a else b }

  // ---------------------------------------------------------------------
  // The initial roster

  /** A window holding the same sample WindowLength times (`Array(10).fill(x)`). */
  function Filled(x: real): (r: seq<real>)
    ensures |r| == WindowLength && forall i :: 0 <= i < |r| ==> r[i] == x
  {
    seq(WindowLength, _ => x)
  }

  function InitialTeams(): seq<Team>
  {
    [ Team("alpha", "Team Alpha", Filled(50.0), 80.0, Active, []),
      Team("beta", "Team Beta", Filled(45.0), 75.0, Active, []),
      Team("gamma", "Team Gamma", Filled(60.0), 85.0, Active, []),
      Team("delta", "Team Delta", Filled(30.0), 60.0, Active, []),
      Team("epsilon", "Team Epsilon", Filled(55.0), 70.0, Active, []) ]
  }

  /** The names a bid may target. */
  function TeamNames(): seq<string>
  {
    seq(|InitialTeams()|, i requires 0 <= i < |InitialTeams()| => InitialTeams()[i].name)
  }

  const Sponsors: seq<string> := ["Pfizer", "J&J", "Medtronic", "Google Health", "Neuralink"]

  // ---------------------------------------------------------------------
  // Invariants of the engine state

  /** What every team satisfies at every tick. */
  predicate TeamOk(t: Team)
  {
    && |t.velocity| == WindowLength
    && (forall i :: 0 <= i < |t.velocity| ==> t.velocity[i] >= 0.0)
    && 0.0 <= t.score <= 100.0
    && |t.logs| <= LogCapacity
    && (forall i :: 0 <= i < |t.logs| ==> t.logs[i] != "")
  }

  /** The roster is the initial roster, team for team, in the same order. */
  predicate RosterOk(teams: seq<Team>)
  {
    && |teams| == |InitialTeams()|
    && forall i :: 0 <= i < |teams| ==>
         && teams[i].id == InitialTeams()[i].id
         && teams[i].name == InitialTeams()[i].name
         && TeamOk(teams[i])
  }

  predicate BidOk(b: Bid)
  {
    && b.amount % 1000 == 0
    && 10000 <= b.amount <= 59000
    && b.sponsor in Sponsors
    && b.teamId in TeamNames()
  }

  predicate FeedOk(bids: seq<Bid>)
  {
    |bids| <= BidCapacity && forall i :: 0 <= i < |bids| ==> BidOk(bids[i])
  }

  lemma InitialRosterOk()
    ensures RosterOk(InitialTeams())
    ensures InitialTeams()[0].score == 80.0 && InitialTeams()[1].score == 75.0
    ensures InitialTeams()[2].score == 85.0 && InitialTeams()[3].score == 60.0
    ensures InitialTeams()[4].score == 70.0
    ensures forall i :: 0 <= i < |InitialTeams()| ==> InitialTeams()[i].logs == [] && InitialTeams()[i].status == Active
  {
  }

  // ---------------------------------------------------------------------
  // Scripted events

  datatype Boost = Boost(amount: real, log: Option<string>)

  /** The teams that get a random boost in the final showdown. */
  const FinalBoostTeams: seq<string> := ["alpha", "gamma", "epsilon"]
  const FinalShowdownTick: int := 52

  /** The common middle of every breakthrough line. */
  const Breakthrough: string := " \U{1F680} BREAKTHROUGH: "

  /** A breakthrough line: the upper-cased team id in brackets, then the note. */
  function BoostLine(tag: string, note: string): string
  {
    "[" + tag + "]" + Breakthrough + note
  }

  /** The scripted lead changes, keyed on the pre-increment `gameTime` and
      the team id; `finalDraw` is the random boost of the final showdown. */
  function ScriptedBoost(gameTime: int, teamId: string, finalDraw: real): Boost
  {
    if gameTime == 8 && teamId == "beta" then
      Boost(15.0, Some(BoostLine("BETA", "Novel algorithm deployed!")))
    else if gameTime == 15 && teamId == "epsilon" then
      Boost(20.0, Some(BoostLine("EPSILON", "Patent-pending technique activated!")))
    else if gameTime == 22 && teamId == "alpha" then
      Boost(18.0, Some(BoostLine("ALPHA", "Emergency optimization complete!")))
    else if gameTime == 30 && teamId == "gamma" then
      Boost(22.0, Some(BoostLine("GAMMA", "Infrastructure upgrade live!")))
    else if gameTime == 38 && teamId == "delta" then
      Boost(25.0, Some(BoostLine("DELTA", "Secret weapon deployed!")))
    else if gameTime == 45 && teamId == "beta" then
      Boost(15.0, Some(BoostLine("BETA", "Final push initiated!")))
    else if gameTime == FinalShowdownTick && teamId in FinalBoostTeams then
      Boost(finalDraw, None)
    else
      Boost(0.0, None)
  }

  /** One fixed entry of the lead-change schedule. */
  datatype ScheduledBoost = ScheduledBoost(tick: int, teamId: string, amount: real)

  const BoostSchedule: seq<ScheduledBoost> := [
    ScheduledBoost(8, "beta", 15.0), ScheduledBoost(15, "epsilon", 20.0),
    ScheduledBoost(22, "alpha", 18.0), ScheduledBoost(30, "gamma", 22.0),
    ScheduledBoost(38, "delta", 25.0), ScheduledBoost(45, "beta", 15.0) ]

  /** The amount the fixed schedule gives `teamId` at `gameTime`, if any:
      the first matching entry. */
  function ScheduledAmount(schedule: seq<ScheduledBoost>, gameTime: int, teamId: string): Option<real>
  {
    if schedule == [] then None
    else if schedule[0].tick == gameTime && schedule[0].teamId == teamId then Some(schedule[0].amount)
    else ScheduledAmount(schedule[1..], gameTime, teamId)
  }

  /** The scripted boosts are exactly the fixed schedule, each with a log
      line, plus the random final-showdown boost for three teams, without
      one; every other team at every other tick gets nothing. */
  lemma {:induction false} ScriptedBoostFollowsSchedule(gameTime: int, teamId: string, finalDraw: real)
    ensures ScriptedBoost(gameTime, teamId, finalDraw) ==
      match ScheduledAmount(BoostSchedule, gameTime, teamId)
      case Some(a) => Boost(a, ScriptedBoost(gameTime, teamId, finalDraw).log)
      case None =>
        if gameTime == FinalShowdownTick && teamId in FinalBoostTeams then Boost(finalDraw, None)
        else Boost(0.0, None)
    ensures ScriptedBoost(gameTime, teamId, finalDraw).log.Some? <==>
      ScheduledAmount(BoostSchedule, gameTime, teamId).Some?
  {
    var s, g, id := BoostSchedule, gameTime, teamId;
    assert s[5..][1..] == [];
    assert ScheduledAmount(s[5..], g, id) == if g == 45 && id == "beta" then Some(15.0) else None;
    assert s[4..][1..] == s[5..];
    assert ScheduledAmount(s[4..], g, id) == if g == 38 && id == "delta" then Some(25.0) else ScheduledAmount(s[5..], g, id);
    assert s[3..][1..] == s[4..];
    assert ScheduledAmount(s[3..], g, id) == if g == 30 && id == "gamma" then Some(22.0) else ScheduledAmount(s[4..], g, id);
    assert s[2..][1..] == s[3..];
    assert ScheduledAmount(s[2..], g, id) == if g == 22 && id == "alpha" then Some(18.0) else ScheduledAmount(s[3..], g, id);
    assert s[1..][1..] == s[2..];
    assert ScheduledAmount(s[1..], g, id) == if g == 15 && id == "epsilon" then Some(20.0) else ScheduledAmount(s[2..], g, id);
    assert ScheduledAmount(s, g, id) == if g == 8 && id == "beta" then Some(15.0) else ScheduledAmount(s[1..], g, id);
  }

  /** No scripted boost lowers a score. */
  lemma BoostNonNegative(gameTime: int, teamId: string, finalDraw: real)
    requires 0.0 <= finalDraw
    ensures 0.0 <= ScriptedBoost(gameTime, teamId, finalDraw).amount
  {
  }

  /** The policy-engine alert: only gamma, only at tick 10. */
  predicate IsFlagEvent(gameTime: int, teamId: string)
  {
    gameTime == 10 && teamId == "gamma"
  }

  const FlagLog: string := "[ALERT] Policy Engine: Unauthorized data access detected"

  // ---------------------------------------------------------------------
  // The per-team update

  /** The random draws one team's update makes in one tick. */
  datatype TeamDraw = TeamDraw(
    newLog: Option<string>,   // the synthetic log line, when one is drawn
    finalBoost: real,         // `Math.random() * 20` at the final showdown
    randomChange: real,       // `Math.random() * 10 - 5`
    velocityDelta: real)      // `Math.random() * 15 - 7`

  /** The ranges `Math.random()` in [0, 1) gives the draws. */
  predicate DrawInRange(d: TeamDraw)
  {
    && 0.0 <= d.finalBoost < 20.0
    && -5.0 <= d.randomChange < 5.0
    && -7.0 <= d.velocityDelta < 8.0
  }

  function ClampScore(x: real): (r: real)
    ensures 0.0 <= r <= 100.0
    ensures 0.0 <= x <= 100.0 ==> r == x
    ensures x < 0.0 ==> r == 0.0
    ensures x > 100.0 ==> r == 100.0
  {
    MinR(100.0, MaxR(0.0, x))
  }

  /** Drop the oldest sample and push a new one, never below zero. */
  function SlideWindow(v: seq<real>, delta: real): (r: seq<real>)
    requires |v| == WindowLength
    ensures |r| == WindowLength
    ensures r[..WindowLength - 1] == v[1..]
    ensures r[WindowLength - 1] >= 0.0
    ensures r[WindowLength - 1] == MaxR(0.0, v[WindowLength - 1] + delta)
  {
    v[1..] + [MaxR(0.0, v[9] + delta)]
  }

  /** The kept entries of `filter(Boolean)`: present and non-empty strings. */
  function Keep(e: Option<string>): seq<string>
  {
    if e.Some? && e.value != "" then [e.value] else []
  }

  function Truthy(entries: seq<Option<string>>): (r: seq<string>)
    ensures |r| <= |entries|
    ensures forall i :: 0 <= i < |r| ==> r[i] != ""
  {
    if entries == [] then [] else Keep(entries[0]) + Truthy(entries[1..])
  }

  /** `filter(Boolean)` keeps exactly the present, non-empty entries: each
      of them is kept, and nothing else is. */
  lemma {:induction false} TruthyMembers(entries: seq<Option<string>>)
    ensures forall i :: 0 <= i < |entries| && entries[i].Some? && entries[i].value != "" ==>
              entries[i].value in Truthy(entries)
    ensures forall x :: x in Truthy(entries) ==> Some(x) in entries
  {
    if entries != [] {
      TruthyMembers(entries[1..]);
      forall i | 1 <= i < |entries|
        ensures entries[i] == entries[1..][i - 1]
      {
      }
      forall x | x in Truthy(entries[1..])
        ensures Some(x) in entries
      {
        assert Some(x) in entries[1..];
      }
    }
  }

  /** Every string as a present entry. */
  function Wrap(s: seq<string>): (r: seq<Option<string>>)
    ensures |r| == |s| && forall i :: 0 <= i < |s| ==> r[i] == Some(s[i])
  {
    seq(|s|, i requires 0 <= i < |s| => Some(s[i]))
  }

  /** The last `n` elements of `s` (`slice(-n)`), or all of them if fewer. */
  function LastN<T>(s: seq<T>, n: nat): (r: seq<T>)
    requires n > 0
    ensures |r| == MinI(n, |s|)
    ensures forall i :: 0 <= i < |r| ==> r[i] == s[|s| - |r| + i]
  {
    if |s| <= n then s else s[|s| - n..]
  }

  /** `[...logs, newLog, boostLog, flagLog].filter(Boolean).slice(-5)`. */
  function NextLogs(logs: seq<string>, entries: seq<Option<string>>): seq<string>
  {
    LastN(Truthy(Wrap(logs) + entries), LogCapacity)
  }

  lemma {:induction false} TruthyAppend(a: seq<Option<string>>, b: seq<Option<string>>)
    ensures Truthy(a + b) == Truthy(a) + Truthy(b)
  {
    if a == [] {
      assert a + b == b;
    } else {
      assert (a + b)[1..] == a[1..] + b;
      TruthyAppend(a[1..], b);
    }
  }

  lemma {:induction false} TruthyKeepsLines(s: seq<string>)
    requires forall i :: 0 <= i < |s| ==> s[i] != ""
    ensures Truthy(Wrap(s)) == s
  {
    if s != [] {
      assert Wrap(s)[1..] == Wrap(s[1..]);
      TruthyKeepsLines(s[1..]);
    }
  }

  /** A team's log after a tick is the last LogCapacity lines of its old log
      followed by the present new lines, in order. */
  lemma NextLogsShape(logs: seq<string>, entries: seq<Option<string>>)
    requires forall i :: 0 <= i < |logs| ==> logs[i] != ""
    ensures NextLogs(logs, entries) == LastN(logs + Truthy(entries), LogCapacity)
    ensures |NextLogs(logs, entries)| <= LogCapacity
  {
    TruthyAppend(Wrap(logs), entries);
    TruthyKeepsLines(logs);
  }

  /** One team's update in the tick that starts at `gameTime`. */
  function UpdateTeam(team: Team, gameTime: int, d: TeamDraw): (r: Team)
    requires |team.velocity| == WindowLength
    ensures r.id == team.id && r.name == team.name
    ensures 0.0 <= r.score <= 100.0
    ensures |r.velocity| == WindowLength
    ensures |r.logs| <= LogCapacity
    ensures r.status == Flagged <==> IsFlagEvent(gameTime, team.id) || team.status == Flagged
    ensures !IsFlagEvent(gameTime, team.id) ==> r.status == team.status
  {
    var boost := ScriptedBoost(gameTime, team.id, d.finalBoost);
    var flagLog := if IsFlagEvent(gameTime, team.id) then Some(FlagLog) else None;
    team.(velocity := SlideWindow(team.velocity, d.velocityDelta),
          score := ClampScore(team.score + d.randomChange + boost.amount),
          status := if IsFlagEvent(gameTime, team.id) then Flagged else team.status,
          logs := NextLogs(team.logs, [d.newLog, boost.log, flagLog]))
  }

  /** A tick keeps every team within its invariant. */
  lemma UpdateTeamKeepsTeamOk(team: Team, gameTime: int, d: TeamDraw)
    requires TeamOk(team)
    ensures TeamOk(UpdateTeam(team, gameTime, d))
  {
    var r := UpdateTeam(team, gameTime, d);
    forall i | 0 <= i < WindowLength
      ensures r.velocity[i] >= 0.0
    {
      if i < WindowLength - 1 {
        assert r.velocity[i] == r.velocity[..WindowLength - 1][i];
      }
    }
  }

  /** The score is a bounded random walk: one tick moves it by less than 5
      plus the scripted boost (then clamps it); the window's new sample moves
      by less than 8 from the newest old one, down to zero at most. */
  lemma UpdateTeamBoundedStep(team: Team, gameTime: int, d: TeamDraw)
    requires TeamOk(team) && DrawInRange(d)
    ensures var r := UpdateTeam(team, gameTime, d);
      var boost := ScriptedBoost(gameTime, team.id, d.finalBoost).amount;
      && team.score - 5.0 <= r.score
      && r.score < team.score + 5.0 + boost
      && r.velocity[WindowLength - 1] < team.velocity[WindowLength - 1] + 8.0
      && (team.velocity[WindowLength - 1] >= 7.0 ==> team.velocity[WindowLength - 1] - 7.0 <= r.velocity[WindowLength - 1])
  {
    BoostNonNegative(gameTime, team.id, d.finalBoost);
  }

  /** `prevTeams.map(...)`: every team moves by its own update, computed from
      its own old state, the pre-tick time and its own draws. */
  function UpdateTeams(teams: seq<Team>, gameTime: int, draws: seq<TeamDraw>): (r: seq<Team>)
    requires |draws| == |teams|
    requires forall i :: 0 <= i < |teams| ==> |teams[i].velocity| == WindowLength
    ensures |r| == |teams|
    ensures forall i :: 0 <= i < |teams| ==> r[i] == UpdateTeam(teams[i], gameTime, draws[i])
  {
    seq(|teams|, i requires 0 <= i < |teams| => UpdateTeam(teams[i], gameTime, draws[i]))
  }

  /** A tick keeps the roster: same length, order, ids and names, every team
      within its invariant; only gamma at tick 10 becomes flagged, and a
      flagged team stays flagged. */
  lemma UpdateTeamsKeepsRoster(teams: seq<Team>, gameTime: int, draws: seq<TeamDraw>)
    requires RosterOk(teams) && |draws| == |teams|
    ensures RosterOk(UpdateTeams(teams, gameTime, draws))
    ensures forall i :: 0 <= i < |teams| && teams[i].status == Flagged ==>
              UpdateTeams(teams, gameTime, draws)[i].status == Flagged
    ensures forall i :: 0 <= i < |teams| && teams[i].status != Flagged && UpdateTeams(teams, gameTime, draws)[i].status == Flagged ==>
              gameTime == 10 && i == 2
  {
    var r := UpdateTeams(teams, gameTime, draws);
    forall i | 0 <= i < |teams|
      ensures TeamOk(r[i])
    {
      UpdateTeamKeepsTeamOk(teams[i], gameTime, draws[i]);
    }
  }

  // ---------------------------------------------------------------------
  // The bid generator

  /** The random draws of one tick's bid generator. */
  datatype BidDraw = BidDraw(
    fires: bool,         // `Math.random() > 0.8`
    id: string,          // the random base-36 id
    teamIndex: nat,      // `Math.floor(Math.random() * 5)`
    sponsorIndex: nat,   // `Math.floor(Math.random() * 5)`
    digit: nat,          // `Math.floor(Math.random() * 50)`
    timestamp: string)   // the local time of day

  predicate BidDrawInRange(d: BidDraw)
  {
    d.teamIndex < |InitialTeams()| && d.sponsorIndex < |Sponsors| && d.digit < 50
  }

  function MakeBid(d: BidDraw): (b: Bid)
    requires BidDrawInRange(d)
    ensures BidOk(b)
    ensures (b.amount - 10000) / 1000 == d.digit
    ensures b.teamId == InitialTeams()[d.teamIndex].name
  {
    assert TeamNames()[d.teamIndex] == InitialTeams()[d.teamIndex].name;
    Bid(d.id, Sponsors[d.sponsorIndex], d.digit * 1000 + 10000, InitialTeams()[d.teamIndex].name, d.timestamp)
  }

  /** `[newBid, ...prev].slice(0, 5)`. */
  function PushBid(bids: seq<Bid>, b: Bid): (r: seq<Bid>)
    ensures |r| == MinI(BidCapacity, |bids| + 1)
    ensures r[0] == b
    ensures forall i :: 1 <= i < |r| ==> r[i] == bids[i - 1]
  {
    ([b] + bids)[..MinI(BidCapacity, |bids| + 1)]
  }

  function NextBids(bids: seq<Bid>, d: BidDraw): seq<Bid>
    requires BidDrawInRange(d)
  {
    if d.fires then PushBid(bids, MakeBid(d)) else bids
  }

  /** The feed stays bounded and well-formed; a new bid goes first and the
      older ones keep their relative order, the oldest dropped first. */
  lemma NextBidsKeepsFeed(bids: seq<Bid>, d: BidDraw)
    requires FeedOk(bids) && BidDrawInRange(d)
    ensures FeedOk(NextBids(bids, d))
    ensures !d.fires ==> NextBids(bids, d) == bids
    ensures d.fires ==> NextBids(bids, d) == [MakeBid(d)] + bids[..MinI(BidCapacity - 1, |bids|)]
  {
    if d.fires {
      var r := NextBids(bids, d);
      assert r == [MakeBid(d)] + bids[..MinI(BidCapacity - 1, |bids|)];
    }
  }

  // ---------------------------------------------------------------------
  // The engine

  /** The provider's state: `isActive`, `gameTime`, `teams` and `bids`. */
  class Engine {
    var isActive: bool
    var gameTime: int
    var teams: seq<Team>
    var bids: seq<Bid>

    ghost predicate Valid()
      reads this
    {
      0 <= gameTime <= EpisodeLength && RosterOk(teams) && FeedOk(bids)
    }

    /** The game loop has an interval running. */
    predicate Armed()
      reads this
    {
      isActive && gameTime < EpisodeLength
    }

    /** The provider's initial state. */
    constructor ()
      ensures Valid()
      ensures !isActive && gameTime == 0 && teams == InitialTeams() && bids == []
    {
      InitialRosterOk();
      isActive, gameTime, teams, bids := false, 0, InitialTeams(), [];
    }

    /** `startSimulation`: a fresh episode, whatever the state was. */
    method Start()
      modifies this
      ensures Valid()
      ensures isActive && gameTime == 0 && teams == InitialTeams() && bids == []
    {
      InitialRosterOk();
      isActive, gameTime, teams, bids := true, 0, InitialTeams(), [];
    }

    /** `stopSimulation`: halts and rewinds the clock, keeps teams and bids. */
    method Stop()
      requires Valid()
      modifies this
      ensures Valid()
      ensures !isActive && gameTime == 0 && teams == old(teams) && bids == old(bids)
    {
      isActive, gameTime := false, 0;
    }

    /** One run of the game-loop effect.  When it is armed, the interval
        fires once: the clock advances, every team is updated from the
        pre-tick time, and a bid may be pushed.  Otherwise nothing ticks,
        and once the clock has reached the episode length the run ends. */
    method Step(draws: seq<TeamDraw>, bid: BidDraw) returns (ticked: bool)
      requires Valid()
      requires |draws| == |teams| && forall i :: 0 <= i < |draws| ==> DrawInRange(draws[i])
      requires BidDrawInRange(bid)
      modifies this
      ensures Valid()
      ensures ticked == old(Armed())
      ensures ticked ==> && isActive && gameTime == old(gameTime) + 1
                         && teams == UpdateTeams(old(teams), old(gameTime), draws)
                         && bids == NextBids(old(bids), bid)
      ensures !ticked ==> && !isActive && gameTime == old(gameTime)
                          && teams == old(teams) && bids == old(bids)
    {
      if isActive && gameTime < EpisodeLength {
        UpdateTeamsKeepsRoster(teams, gameTime, draws);
        NextBidsKeepsFeed(bids, bid);
        teams := UpdateTeams(teams, gameTime, draws);
        bids := NextBids(bids, bid);
        gameTime := gameTime + 1;
        ticked := true;
      } else {
        if gameTime >= EpisodeLength {
          isActive := false;
        }
        ticked := false;
      }
    }
  }

  // ---------------------------------------------------------------------
  // The access guard

  const GuardMessage: string := "useSimulation must be used within a SimulationProvider"

  /** `useSimulation`: the provided context, or an error outside a provider. */
  function UseSimulation<C>(provided: Option<C>): (r: Result<C, string>)
    ensures r.Success? <==> provided.Some?
    ensures provided.Some? ==> r == Success(provided.value)
    ensures provided.None? ==> r == Failure(GuardMessage)
  {
    match provided
    case Some(c) => Success(c)
    case None => Failure(GuardMessage)
  }
}
