/**
 * Whether a plant can be sown now: it must have seeds, must not be a tree,
 * and must be growable in every season its growth reaches into, counting
 * from the current tick of the current season and wrapping after winter.
 */
module Eligibility {

  import opened FarmTypes

  /** The season flag for season `s` (the `seasons` table of the plugin). */
  function SeasonFlag(s: Season): PlantFlag {
    [Spring, Summer, Autumn, Winter][s]
  }

  /** Tick, counted from the start of the current season, at which a crop sown now is ripe. */
  function Harvest(p: PlantRaw, tick: int): int {
    tick + p.growdur * 10
  }

  /** How many season boundaries lie between now and the harvest. */
  function Rollovers(harvest: int): nat {
    if harvest < SEASON_LENGTH then 0 else harvest / SEASON_LENGTH
  }

  /** The plant's flag is set for the `j`-th season after `season`. */
  predicate GrowsIn(p: PlantRaw, season: Season, j: nat) {
    SeasonFlag((season + j) % 4) in p.flags
  }

  /**
   * The closed form of eligibility: seed, no tree, and the flag of the current
   * season and of each of the `Rollovers` seasons after it is set.
   */
  predicate Plantable(p: PlantRaw, season: Season, tick: int) {
    && Seed in p.flags
    && Tree !in p.flags
    && forall j: nat :: j <= Rollovers(Harvest(p, tick)) ==> GrowsIn(p, season, j)
  }

  /**
   * `is_plantable`: steps season by season towards the harvest while every
   * season so far allows the plant. `steps` counts the turns of the loop.
   */
  method IsPlantable(p: PlantRaw, season: Season, tick: int) returns (canPlant: bool, ghost steps: nat)
    ensures canPlant == Plantable(p, season, tick)
    ensures steps <= Rollovers(Harvest(p, tick))
  {
    var hasSeed := Seed in p.flags;
    var isTree := Tree in p.flags;
    var s: Season := season;
    var harvest := tick + p.growdur * 10;
    canPlant := hasSeed && !isTree && SeasonFlag(s) in p.flags;
    steps := 0;
    assert SeasonFlag(s) in p.flags <==> GrowsIn(p, season, 0);
    while canPlant && harvest >= SEASON_LENGTH
      invariant s == (season + steps) % 4
      invariant harvest == Harvest(p, tick) - steps * SEASON_LENGTH
      invariant steps <= Rollovers(Harvest(p, tick))
      invariant canPlant ==> hasSeed && !isTree
      invariant canPlant ==> forall j: nat :: j <= steps ==> GrowsIn(p, season, j)
      invariant !canPlant ==> !Plantable(p, season, tick)
      decreases harvest
    {
      s := (s + 1) % 4;
      harvest := harvest - SEASON_LENGTH;
      steps := steps + 1;
      assert SeasonFlag(s) in p.flags <==> GrowsIn(p, season, steps);
      canPlant := canPlant && SeasonFlag(s) in p.flags;
    }
    assert canPlant ==> steps == Rollovers(Harvest(p, tick));
  }

  /** A crop ripening within the current season only needs that season's flag. */
  lemma SameSeasonHarvest(p: PlantRaw, season: Season, tick: int)
    requires Harvest(p, tick) < SEASON_LENGTH
    ensures Plantable(p, season, tick) <==> Seed in p.flags && Tree !in p.flags && SeasonFlag(season) in p.flags
  {
    assert SeasonFlag(season) in p.flags <==> GrowsIn(p, season, 0);
  }

  /** A crop whose growth spans three boundaries or more needs all four season flags. */
  lemma {:induction false} LongGrowthNeedsAllSeasons(p: PlantRaw, season: Season, tick: int, s: Season)
    requires Rollovers(Harvest(p, tick)) >= 3
    requires Plantable(p, season, tick)
    ensures SeasonFlag(s) in p.flags
  {
    var j := (s - season + 4) % 4;
    assert 0 <= j <= 3;
    assert (season + j) % 4 == s;
    assert GrowsIn(p, season, j);
  }

  /** A shorter growth duration never turns an eligible plant ineligible. */
  lemma {:induction false} ShorterGrowthStaysPlantable(p: PlantRaw, q: PlantRaw, season: Season, tick: int)
    requires q.flags == p.flags && q.growdur <= p.growdur
    requires Plantable(p, season, tick)
    ensures Plantable(q, season, tick)
  {
    var hp, hq := Harvest(p, tick), Harvest(q, tick);
    assert hq <= hp;
    if hq >= SEASON_LENGTH {
      DivMonotone(hq, hp);
    }
    assert Rollovers(hq) <= Rollovers(hp);
    forall j: nat | j <= Rollovers(hq)
      ensures GrowsIn(q, season, j)
    {
      assert GrowsIn(p, season, j);
    }
  }

  lemma DivMonotone(a: int, b: int)
    requires 0 <= a <= b
    ensures a / SEASON_LENGTH <= b / SEASON_LENGTH
  {
  }
}
