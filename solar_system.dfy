/** The orbit view: teams ranked by score, the best on the innermost orbit,
    each planet's orbit, speed, size and glow derived from its rank,
    velocity window and score. */
module SolarSystem {
  import opened Simulation
  import Ranking

  /** `rankedTeams`: empty for an empty roster, otherwise the roster by
      non-increasing score, teams with equal scores in roster order. */
  function RankedTeams(teams: seq<Team>): (r: seq<Team>)
    ensures |r| == |teams|
    ensures multiset(r) == multiset(teams)
    ensures forall i, j :: 0 <= i < j < |r| ==> r[i].score >= r[j].score
    ensures forall x :: Ranking.WithScore(r, x) == Ranking.WithScore(teams, x)
  {
    forall x
      ensures Ranking.WithScore(Ranking.SortByScore(teams), x) == Ranking.WithScore(teams, x)
    {
      Ranking.SortStable(teams, x);
    }
    if |teams| == 0 then [] else Ranking.SortByScore(teams)
  }

  /** The fixed orbit lanes. */
  const BaseOrbitRadii: seq<int> := [55, 85, 115, 145, 175]

  /** `baseOrbitRadii[rank] || 175`: no lane is 0, so the fallback is taken
      exactly when the lookup is past the last lane. */
  function OrbitRadius(rank: nat): int
  {
    if rank < |BaseOrbitRadii| then BaseOrbitRadii[rank] else 175
  }

  /** Lower ranks never orbit further out, and the five lanes are strictly
      nested. */
  lemma OrbitRadiusMonotone(a: nat, b: nat)
    requires a <= b
    ensures 55 <= OrbitRadius(a) <= OrbitRadius(b) <= 175
    ensures a < b < |BaseOrbitRadii| ==> OrbitRadius(a) < OrbitRadius(b)
    ensures b >= |BaseOrbitRadii| - 1 ==> OrbitRadius(b) == 175
  {
  }

  function Sum(v: seq<real>): (r: real)
    ensures (forall i :: 0 <= i < |v| ==> v[i] >= 0.0) ==> r >= 0.0
  {
    if v == [] then 0.0 else v[0] + Sum(v[1..])
  }

  function Mean(v: seq<real>): real
    requires |v| > 0
  {
    Sum(v) / (|v| as real)
  }

  /** `max(4, 20 - avg / 10)`: the seconds one orbit takes. */
  function OrbitDuration(v: seq<real>): (d: real)
    requires |v| > 0
    ensures d >= 4.0
    ensures (forall i :: 0 <= i < |v| ==> v[i] >= 0.0) ==> d <= 20.0
  {
    var avg := Mean(v);
    assert (forall i :: 0 <= i < |v| ==> v[i] >= 0.0) ==> avg >= 0.0;
    MaxR(4.0, 20.0 - avg / 10.0)
  }

  /** A faster team orbits no slower; at an average of 160 the orbit takes
      its shortest time. */
  lemma OrbitDurationMonotone(v: seq<real>, w: seq<real>)
    requires |v| > 0 && |w| > 0
    requires Mean(v) <= Mean(w)
    ensures OrbitDuration(w) <= OrbitDuration(v)
    ensures Mean(w) >= 160.0 ==> OrbitDuration(w) == 4.0
  {
  }

  /** `18 - rank * 2`. */
  function PlanetSize(rank: nat): (size: int)
    ensures size <= 18
  {
    18 - rank * 2
  }

  lemma PlanetSizeDecreasing(a: nat, b: nat)
    requires a < b
    ensures PlanetSize(a) > PlanetSize(b)
    ensures PlanetSize(a) - PlanetSize(b) == 2 * (b - a)
  {
  }

  /** `min(30, max(10, score / 3))`. */
  function GlowIntensity(score: real): (g: real)
    ensures 10.0 <= g <= 30.0
    ensures 30.0 <= score <= 90.0 ==> g == score / 3.0
  {
    MinR(30.0, MaxR(10.0, score / 3.0))
  }

  lemma GlowMonotone(a: real, b: real)
    requires a <= b
    ensures GlowIntensity(a) <= GlowIntensity(b)
  {
  }

  /** Even ranks spin one way, odd ranks the other. */
  function SpinsReversed(rank: nat): bool
  {
    rank % 2 != 0
  }

  lemma NeighboursSpinOpposite(rank: nat)
    ensures SpinsReversed(rank) != SpinsReversed(rank + 1)
  {
  }

  datatype Planet = Planet(team: Team, rank: nat, radius: int, duration: real, size: int, glow: real)

  /** `rankedTeams.map((team, rankIndex) => ...)`. */
  function Layout(teams: seq<Team>): (planets: seq<Planet>)
    requires forall i :: 0 <= i < |teams| ==> |teams[i].velocity| > 0
    ensures |planets| == |teams|
    ensures forall k :: 0 <= k < |planets| ==> planets[k].rank == k && planets[k].team == RankedTeams(teams)[k]
  {
    var ranked := RankedTeams(teams);
    forall k | 0 <= k < |ranked|
      ensures |ranked[k].velocity| > 0
    {
      assert ranked[k] in multiset(teams);
    }
    seq(|ranked|, k requires 0 <= k < |ranked| =>
      Planet(ranked[k], k, OrbitRadius(k), OrbitDuration(ranked[k].velocity),
             PlanetSize(k), GlowIntensity(ranked[k].score)))
  }

  /** A team that outscores another is on an orbit no further out, and its
      planet is larger. */
  lemma HigherScoreInnerOrbit(teams: seq<Team>, p: nat, q: nat)
    requires forall i :: 0 <= i < |teams| ==> |teams[i].velocity| > 0
    requires p < |teams| && q < |teams|
    requires Layout(teams)[p].team.score > Layout(teams)[q].team.score
    ensures Layout(teams)[p].radius <= Layout(teams)[q].radius
    ensures Layout(teams)[p].size > Layout(teams)[q].size
  {
    assert p < q;
    OrbitRadiusMonotone(p, q);
  }

  /** On the engine's five-team roster every planet is on its own lane. */
  lemma RosterLanes(teams: seq<Team>, p: nat, q: nat)
    requires RosterOk(teams) && p < q < |teams|
    ensures Layout(teams)[p].radius < Layout(teams)[q].radius
  {
    OrbitRadiusMonotone(p, q);
  }
}
