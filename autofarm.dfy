/**
 * The autofarm plugin's own state and the demand side of its periodic pass:
 * which plants can be sown (seeds in stock, season-eligible, with a biome),
 * how much of each crop is stocked, which plants each biome wants, and how
 * the existing farm plots are grouped by biome before `set_farms` runs.
 */
module AutoFarmPlugin {

  import opened FarmTypes
  import opened Counting
  import opened Eligibility
  import opened Rebalance

  /** The threshold a plant has when no override was set. */
  const DEFAULT_THRESHOLD: int := 50

  /** Total stack size of the usable items made of plant `k`. */
  function Stock(items: seq<Item>, k: int): int {
    if items == [] then 0
    else
      var last := items[|items| - 1];
      Stock(items[..|items| - 1], k) + (if Usable(last) && last.matIndex == k then last.stackSize else 0)
  }

  /** Plants with at least one usable item in `items` (the keys of the seed `counts` map). */
  function Kinds(items: seq<Item>): set<int> {
    if items == [] then {}
    else
      var last := items[|items| - 1];
      Kinds(items[..|items| - 1]) + (if Usable(last) then {last.matIndex} else {})
  }

  /** A plant has a usable item exactly when some usable item names it. */
  lemma {:induction false} KindsSpec(items: seq<Item>, k: int)
    ensures k in Kinds(items) <==> exists i :: 0 <= i < |items| && Usable(items[i]) && items[i].matIndex == k
  {
    if items != [] {
      var init := items[..|items| - 1];
      KindsSpec(init, k);
      if k in Kinds(init) {
        var i :| 0 <= i < |init| && Usable(init[i]) && init[i].matIndex == k;
        assert items[i] == init[i];
      }
      if exists i :: 0 <= i < |items| && Usable(items[i]) && items[i].matIndex == k {
        var i :| 0 <= i < |items| && Usable(items[i]) && items[i].matIndex == k;
        if i < |init| {
          assert init[i] == items[i];
        }
      }
    }
  }

  /** Stock over two lists is the sum of the stocks (the PLANT and PLANT_GROWTH lists are counted one after the other). */
  lemma {:induction false} StockAppend(xs: seq<Item>, ys: seq<Item>, k: int)
    ensures Stock(xs + ys, k) == Stock(xs, k) + Stock(ys, k)
    decreases |ys|
  {
    if ys == [] {
      assert xs + ys == xs;
    } else {
      var init := ys[..|ys| - 1];
      assert (xs + ys)[..|xs + ys| - 1] == xs + init;
      assert (xs + ys)[|xs + ys| - 1] == ys[|ys| - 1];
      StockAppend(xs, init, k);
    }
  }

  /** Counting one more item of a list. */
  lemma StockStep(items: seq<Item>, i: nat, k: int)
    requires i < |items|
    ensures Stock(items[..i + 1], k) ==
            Stock(items[..i], k) + (if Usable(items[i]) && items[i].matIndex == k then items[i].stackSize else 0)
    ensures Kinds(items[..i + 1]) == Kinds(items[..i]) + (if Usable(items[i]) then {items[i].matIndex} else {})
  {
    assert items[..i + 1][..i] == items[..i];
  }

  /** The biomes a plant's biome flags map to. */
  function Zones(flags: set<PlantFlag>, biomeFlagMap: map<PlantFlag, Biome>): set<Biome> {
    set f | f in biomeFlagMap && f in flags :: biomeFlagMap[f]
  }

  /** Every plant with a usable seed names a plant definition. */
  predicate SeedsIndexed(seeds: seq<Item>, raws: seq<PlantRaw>) {
    forall k :: k in Kinds(seeds) ==> 0 <= k < |raws|
  }

  /**
   * `plantable_plants`: each plant with a usable seed that can be sown now,
   * with the biomes its flags name; a plant naming no biome gets no entry.
   */
  function PlantableMap(seeds: seq<Item>, raws: seq<PlantRaw>, season: Season, tick: int,
                        biomeFlagMap: map<PlantFlag, Biome>): map<int, set<Biome>>
    requires SeedsIndexed(seeds, raws)
  {
    map k | k in Kinds(seeds) && Plantable(raws[k], season, tick) && Zones(raws[k].flags, biomeFlagMap) != {} ::
      Zones(raws[k].flags, biomeFlagMap)
  }

  /** `lastCounts` after a pass: the stock of every plantable plant. */
  function StockMap(plantable: map<int, set<Biome>>, items: seq<Item>): map<int, int> {
    map k | k in plantable :: Stock(items, k)
  }

  /** The threshold of plant `id`: its override if one was set, otherwise the default. */
  function ThresholdOf(thresholds: map<int, int>, default: int, id: int): int {
    if id in thresholds then thresholds[id] else default
  }

  /** The plants wanted in biome `b`: plantable there and stocked below their threshold. */
  function WantedIn(plantable: map<int, set<Biome>>, stock: map<int, int>, thresholds: map<int, int>,
                    default: int, b: Biome): set<int> {
    set p | p in plantable && b in plantable[p] && Get(stock, p) < ThresholdOf(thresholds, default, p)
  }

  /**
   * A plant is wanted in biome `b` exactly when it has a usable seed, can be
   * sown now, has a biome flag mapping to `b`, and its usable stock of plants
   * and plant growths is below its threshold.
   */
  lemma WantedIff(seeds: seq<Item>, raws: seq<PlantRaw>, season: Season, tick: int,
                  biomeFlagMap: map<PlantFlag, Biome>, items: seq<Item>,
                  thresholds: map<int, int>, default: int, p: int, b: Biome)
    requires SeedsIndexed(seeds, raws)
    ensures var plantable := PlantableMap(seeds, raws, season, tick, biomeFlagMap);
            p in WantedIn(plantable, StockMap(plantable, items), thresholds, default, b) <==>
              && (exists i :: 0 <= i < |seeds| && Usable(seeds[i]) && seeds[i].matIndex == p)
              && 0 <= p < |raws|
              && Plantable(raws[p], season, tick)
              && (exists f :: f in biomeFlagMap && f in raws[p].flags && biomeFlagMap[f] == b)
              && Stock(items, p) < ThresholdOf(thresholds, default, p)
  {
    KindsSpec(seeds, p);
    if 0 <= p < |raws| && exists f :: f in biomeFlagMap && f in raws[p].flags && biomeFlagMap[f] == b {
      var f :| f in biomeFlagMap && f in raws[p].flags && biomeFlagMap[f] == b;
      assert b in Zones(raws[p].flags, biomeFlagMap);
    }
  }

  /** The biome a farm plot is counted in: subterranean plots all count as subterranean water. */
  function FarmBiome(f: FarmPlot): Biome {
    if f.subterranean then SUBTERRANEAN_WATER else f.regionBiome
  }

  /** The existing farms among the first `n` whose biome is `b`, in building order. */
  function Group(fs: seq<FarmPlot>, b: Biome, n: nat): (g: seq<int>)
    requires n <= |fs|
    ensures forall k :: 0 <= k < |g| ==> 0 <= g[k] < n
  {
    if n == 0 then []
    else Group(fs, b, n - 1) + (if fs[n - 1].present && FarmBiome(fs[n - 1]) == b then [n - 1] else [])
  }

  /** A group lists, in increasing order, exactly the existing farms of its biome. */
  lemma {:induction false} GroupSpec(fs: seq<FarmPlot>, b: Biome, n: nat)
    requires n <= |fs|
    ensures forall a, c :: 0 <= a < c < |Group(fs, b, n)| ==> Group(fs, b, n)[a] < Group(fs, b, n)[c]
    ensures forall j :: j in Group(fs, b, n) <==> 0 <= j < n && fs[j].present && FarmBiome(fs[j]) == b
  {
    if n > 0 {
      GroupSpec(fs, b, n - 1);
      var g := Group(fs, b, n - 1);
      var tail := if fs[n - 1].present && FarmBiome(fs[n - 1]) == b then [n - 1] else [];
      assert Group(fs, b, n) == g + tail;
      assert forall a :: 0 <= a < |g| ==> g[a] < n - 1;
    }
  }

  lemma GroupValid(fs: seq<FarmPlot>, b: Biome)
    ensures ValidGroup(Group(fs, b, |fs|), |fs|)
  {
    GroupSpec(fs, b, |fs|);
    var g := Group(fs, b, |fs|);
    assert forall k :: 0 <= k < |g| ==> g[k] in g;
  }

  /** The group of `b` in a map of groups; a biome with no entry has none (what `operator[]` reads). */
  function GroupAt(groups: map<Biome, seq<int>>, b: Biome): seq<int> {
    if b in groups then groups[b] else []
  }

  /** The wanted plants of `b` in a map of wanted sets; a biome with no entry wants nothing. */
  function WantedAt(wanted: map<Biome, set<int>>, b: Biome): set<int> {
    if b in wanted then wanted[b] else {}
  }

  /** `m` records the plantable plants among `done` with their biomes, and every plant of `rest` is a definition. */
  ghost predicate PlantableSoFar(m: map<int, set<Biome>>, done: set<int>, rest: set<int>, raws: seq<PlantRaw>,
                                 season: Season, tick: int, biomeFlagMap: map<PlantFlag, Biome>)
  {
    && (forall k :: k in done ==> 0 <= k < |raws|)
    && (forall k :: k in rest ==> 0 <= k < |raws|)
    && (forall k :: k in m <==> k in done && Plantable(raws[k], season, tick) && Zones(raws[k].flags, biomeFlagMap) != {})
    && (forall k :: k in m ==> m[k] == Zones(raws[k].flags, biomeFlagMap))
  }

  lemma PlantableStep(m: map<int, set<Biome>>, m': map<int, set<Biome>>, keys: set<int>, rest: set<int>, k: int,
                      raws: seq<PlantRaw>, season: Season, tick: int, biomeFlagMap: map<PlantFlag, Biome>)
    requires rest <= keys && k in rest
    requires PlantableSoFar(m, keys - rest, rest, raws, season, tick, biomeFlagMap)
    requires var zones := Zones(raws[k].flags, biomeFlagMap);
             m' == if Plantable(raws[k], season, tick) && zones != {} then m[k := zones] else m
    ensures PlantableSoFar(m', keys - (rest - {k}), rest - {k}, raws, season, tick, biomeFlagMap)
  {
    assert keys - (rest - {k}) == keys - rest + {k};
  }

  lemma PlantableEnd(m: map<int, set<Biome>>, seeds: seq<Item>, raws: seq<PlantRaw>, season: Season, tick: int,
                     biomeFlagMap: map<PlantFlag, Biome>)
    requires SeedsIndexed(seeds, raws)
    requires PlantableSoFar(m, Kinds(seeds) - {}, {}, raws, season, tick, biomeFlagMap)
    ensures m == PlantableMap(seeds, raws, season, tick, biomeFlagMap)
  {
    assert Kinds(seeds) - {} == Kinds(seeds);
    var want := PlantableMap(seeds, raws, season, tick, biomeFlagMap);
    assert forall k :: k in m <==> k in want;
  }

  /** The seed loop of `find_plantable_plants`: the usable stack size of each plant with usable seeds. */
  method CountSeeds(seeds: seq<Item>) returns (counts: map<int, int>)
    ensures counts.Keys == Kinds(seeds)
    ensures forall k :: Get(counts, k) == Stock(seeds, k)
  {
    counts := map[];
    var i := 0;
    while i < |seeds|
      invariant 0 <= i <= |seeds|
      invariant counts.Keys == Kinds(seeds[..i])
      invariant forall k :: Get(counts, k) == Stock(seeds[..i], k)
    {
      var item := seeds[i];
      forall k
        ensures Stock(seeds[..i + 1], k) ==
                Stock(seeds[..i], k) + (if Usable(item) && item.matIndex == k then item.stackSize else 0)
      {
        StockStep(seeds, i, k);
      }
      StockStep(seeds, i, item.matIndex);
      if Usable(item) {
        counts := counts[item.matIndex := Get(counts, item.matIndex) + item.stackSize];
      }
      forall k
        ensures Get(counts, k) == Stock(seeds[..i + 1], k)
      {
        if k == item.matIndex {
          assert Get(counts, k) == Stock(seeds[..i], k) + (if Usable(item) then item.stackSize else 0);
        } else {
          assert Get(counts, k) == Stock(seeds[..i], k);
        }
      }
      i := i + 1;
    }
    assert seeds[..i] == seeds;
  }

  /** The plugin's state: threshold overrides, the default, the last stock counts and the plantable plants. */
  class AutoFarm {
    var thresholds: map<int, int>
    var defaultThreshold: int
    var lastCounts: map<int, int>
    var plantablePlants: map<int, set<Biome>>
    /** Which biome each biome flag of a plant definition names. */
    const biomeFlagMap: map<PlantFlag, Biome>

    constructor(biomeFlagMap: map<PlantFlag, Biome>)
      ensures thresholds == map[] && defaultThreshold == DEFAULT_THRESHOLD
      ensures lastCounts == map[] && plantablePlants == map[]
      ensures this.biomeFlagMap == biomeFlagMap
    {
      thresholds := map[];
      defaultThreshold := DEFAULT_THRESHOLD;
      lastCounts := map[];
      plantablePlants := map[];
      this.biomeFlagMap := biomeFlagMap;
    }

    /** `initialize`: forget every override and count, and restore the default of 50. */
    method Initialize()
      modifies this
      ensures thresholds == map[] && defaultThreshold == DEFAULT_THRESHOLD && lastCounts == map[]
      ensures plantablePlants == old(plantablePlants)
      ensures forall id :: GetThreshold(id) == DEFAULT_THRESHOLD
    {
      thresholds := map[];
      defaultThreshold := DEFAULT_THRESHOLD;
      lastCounts := map[];
    }

    /** `getThreshold`: the override of plant `id` if one was set, otherwise the default. */
    function GetThreshold(id: int): (t: int)
      reads this
      ensures id in thresholds ==> t == thresholds[id]
      ensures id !in thresholds ==> t == defaultThreshold
    {
      ThresholdOf(thresholds, defaultThreshold, id)
    }

    /** `setThreshold`: override the threshold of plant `id`; every other plant keeps its threshold. */
    method SetThreshold(id: int, val: int)
      modifies this
      ensures thresholds == old(thresholds)[id := val]
      ensures defaultThreshold == old(defaultThreshold) && lastCounts == old(lastCounts)
      ensures plantablePlants == old(plantablePlants)
      ensures GetThreshold(id) == val
      ensures forall other :: other != id ==> GetThreshold(other) == old(GetThreshold(other))
    {
      thresholds := thresholds[id := val];
    }

    /** `setDefault`: plants with an override keep their threshold, all others get `val`. */
    method SetDefault(val: int)
      modifies this
      ensures defaultThreshold == val
      ensures thresholds == old(thresholds) && lastCounts == old(lastCounts) && plantablePlants == old(plantablePlants)
      ensures forall id :: id in thresholds ==> GetThreshold(id) == old(GetThreshold(id))
      ensures forall id :: id !in thresholds ==> GetThreshold(id) == val
    {
      defaultThreshold := val;
    }

    /**
     * `find_plantable_plants`: count the usable seeds of each plant, then
     * record, for each plant with seeds that can be sown now, the biomes its
     * flags name.
     */
    method FindPlantablePlants(seeds: seq<Item>, raws: seq<PlantRaw>, season: Season, tick: int)
      requires SeedsIndexed(seeds, raws)
      modifies this
      ensures plantablePlants == PlantableMap(seeds, raws, season, tick, biomeFlagMap)
      ensures thresholds == old(thresholds) && defaultThreshold == old(defaultThreshold)
      ensures lastCounts == old(lastCounts)
    {
      plantablePlants := map[];
      var counts := CountSeeds(seeds);
      var plantable := map[];
      var rest := counts.Keys;
      assert counts.Keys - rest == {};
      while rest != {}
        modifies {}
        invariant rest <= counts.Keys
        invariant PlantableSoFar(plantable, counts.Keys - rest, rest, raws, season, tick, biomeFlagMap)
        decreases |rest|
      {
        NonEmpty(rest);
        var k :| k in rest;
        var plant := raws[k];
        var canPlant, _ := IsPlantable(plant, season, tick);
        ghost var prev := plantable;
        if canPlant {
          var zones := BiomesOf(plant.flags);
          if zones != {} {
            plantable := plantable[k := zones];
          }
        }
        PlantableStep(prev, plantable, counts.Keys, rest, k, raws, season, tick, biomeFlagMap);
        rest := rest - {k};
      }
      assert counts.Keys - rest == Kinds(seeds) - {};
      PlantableEnd(plantable, seeds, raws, season, tick, biomeFlagMap);
      plantablePlants := plantable;
    }

    /** The loop over `biomeFlagMap`: the biomes named by the flags the plant has. */
    method BiomesOf(flags: set<PlantFlag>) returns (zones: set<Biome>)
      ensures zones == Zones(flags, biomeFlagMap)
    {
      zones := {};
      var rest := biomeFlagMap.Keys;
      while rest != {}
        invariant rest <= biomeFlagMap.Keys
        invariant zones == set f | f in biomeFlagMap && f !in rest && f in flags :: biomeFlagMap[f]
        decreases |rest|
      {
        var f :| f in rest;
        if f in flags {
          zones := zones + {biomeFlagMap[f]};
        }
        rest := rest - {f};
      }
    }

    /**
     * The `count` lambda of `process` applied to every item of a list: add the
     * stack of each usable item of a plantable plant to that plant's count.
     */
    method TallyItems(items: seq<Item>)
      requires lastCounts.Keys <= plantablePlants.Keys
      modifies this
      ensures lastCounts.Keys <= plantablePlants.Keys
      ensures forall k :: k in plantablePlants ==> Get(lastCounts, k) == Get(old(lastCounts), k) + Stock(items, k)
      ensures thresholds == old(thresholds) && defaultThreshold == old(defaultThreshold)
      ensures plantablePlants == old(plantablePlants)
    {
      var i := 0;
      while i < |items|
        invariant 0 <= i <= |items|
        invariant lastCounts.Keys <= plantablePlants.Keys
        invariant forall k :: k in plantablePlants ==> Get(lastCounts, k) == Get(old(lastCounts), k) + Stock(items[..i], k)
        invariant thresholds == old(thresholds) && defaultThreshold == old(defaultThreshold)
        invariant plantablePlants == old(plantablePlants)
      {
        var item := items[i];
        forall k
          ensures Stock(items[..i + 1], k) ==
                  Stock(items[..i], k) + (if Usable(item) && item.matIndex == k then item.stackSize else 0)
        {
          StockStep(items, i, k);
        }
        if Usable(item) && item.matIndex in plantablePlants {
          lastCounts := lastCounts[item.matIndex := Get(lastCounts, item.matIndex) + item.stackSize];
        }
        i := i + 1;
      }
      assert items[..i] == items;
    }

    /**
     * The demand loop of `process`: every plantable plant whose count is below
     * its threshold is wanted in each of its biomes. Reading the count of a
     * plant with no stock records a count of 0 for it. The plants are visited
     * in some order; the outcome does not depend on it.
     */
    method WantedByBiome() returns (wanted: map<Biome, set<int>>)
      modifies this
      ensures forall k :: k in lastCounts <==> k in old(lastCounts) || k in plantablePlants
      ensures forall k :: Get(lastCounts, k) == Get(old(lastCounts), k)
      ensures thresholds == old(thresholds) && defaultThreshold == old(defaultThreshold)
      ensures plantablePlants == old(plantablePlants)
      ensures forall b :: WantedAt(wanted, b) == WantedIn(plantablePlants, lastCounts, thresholds, defaultThreshold, b)
    {
      var counts;
      counts, wanted := Demand();
      lastCounts := counts;
    }

    method Demand() returns (counts: map<int, int>, wanted: map<Biome, set<int>>)
      ensures forall k :: k in counts <==> k in lastCounts || k in plantablePlants
      ensures forall k :: Get(counts, k) == Get(lastCounts, k)
      ensures forall b :: WantedAt(wanted, b) == WantedIn(plantablePlants, counts, thresholds, defaultThreshold, b)
    {
      ghost var limit := map q | q in plantablePlants :: GetThreshold(q);
      counts := lastCounts;
      wanted := map[];
      var rest := plantablePlants.Keys;
      while rest != {}
        invariant DemandInv(counts, wanted, rest, plantablePlants, lastCounts, limit)
        decreases |rest|
      {
        NonEmpty(rest);
        var p :| p in rest;
        var current := Get(counts, p);
        ghost var prevCounts, prev := counts, wanted;
        counts := counts[p := current];
        if current < GetThreshold(p) {
          wanted := AddWanted(wanted, p, plantablePlants[p]);
        }
        DemandStep(prevCounts, counts, prev, wanted, rest, p, plantablePlants, lastCounts, limit);
        rest := rest - {p};
      }
      DemandEnd(counts, wanted, plantablePlants, lastCounts, limit);
      WantedDone(wanted, plantablePlants, lastCounts, limit, counts, thresholds, defaultThreshold);
    }

    /**
     * `process`: when enabled, recompute the plantable plants and the stock
     * counts, work out the plants wanted in each biome, group the existing
     * farms by biome and rebalance each group.
     */
    method Process(enabled: bool, seeds: seq<Item>, raws: seq<PlantRaw>, season: Season, tick: int,
                   plantItems: seq<Item>, growthItems: seq<Item>, farms: array<FarmPlot>)
      returns (log: seq<Change>)
      requires SeedsIndexed(seeds, raws)
      modifies this, farms
      ensures !enabled ==> log == [] && unchanged(this) && unchanged(farms)
      ensures thresholds == old(thresholds) && defaultThreshold == old(defaultThreshold)
      ensures enabled ==> plantablePlants == PlantableMap(seeds, raws, season, tick, biomeFlagMap)
      ensures enabled ==> lastCounts == StockMap(plantablePlants, plantItems + growthItems)
      ensures enabled ==> forall b ::
                BiomeDone(old(farms[..]), farms[..], b, season, WantedIn(plantablePlants, lastCounts, thresholds, defaultThreshold, b))
      ensures FarmsEdit(old(farms[..]), farms[..], season)
      ensures enabled ==> exists biomes ::
                && Increasing(biomes)
                && (forall j :: 0 <= j < farms.Length && old(farms[j]).present ==> FarmBiome(old(farms[j])) in biomes)
                && log == LogOf(old(farms[..]), farms[..], biomes, season)
    {
      if !enabled {
        return [];
      }
      var wanted := Survey(seeds, raws, season, tick, plantItems, growthItems);
      var groups := GroupFarms(farms);
      GroupsCover(farms[..], groups);
      ghost var biomes;
      log, biomes := ReplantAll(farms, groups, wanted, season);
    }

    /**
     * The first half of `process`: the plantable plants, their stock and the
     * plants wanted in each biome.
     */
    method Survey(seeds: seq<Item>, raws: seq<PlantRaw>, season: Season, tick: int,
                  plantItems: seq<Item>, growthItems: seq<Item>)
      returns (wanted: map<Biome, set<int>>)
      requires SeedsIndexed(seeds, raws)
      modifies this
      ensures thresholds == old(thresholds) && defaultThreshold == old(defaultThreshold)
      ensures plantablePlants == PlantableMap(seeds, raws, season, tick, biomeFlagMap)
      ensures lastCounts == StockMap(plantablePlants, plantItems + growthItems)
      ensures forall b :: WantedAt(wanted, b) == WantedIn(plantablePlants, lastCounts, thresholds, defaultThreshold, b)
    {
      FindPlantablePlants(seeds, raws, season, tick);
      lastCounts := map[];
      TallyItems(plantItems);
      TallyItems(growthItems);
      forall k | k in plantablePlants
        ensures Get(lastCounts, k) == Stock(plantItems + growthItems, k)
      {
        StockAppend(plantItems, growthItems, k);
      }
      ghost var tallied := lastCounts;
      wanted := WantedByBiome();
      StockKept(tallied, lastCounts, plantablePlants, plantItems + growthItems);
    }
  }

  /** The counts after the demand loop are the stock of exactly the plantable plants. */
  lemma StockKept(tallied: map<int, int>, counts: map<int, int>, plantable: map<int, set<Biome>>, items: seq<Item>)
    requires tallied.Keys <= plantable.Keys
    requires forall k :: k in plantable ==> Get(tallied, k) == Stock(items, k)
    requires forall k :: k in counts <==> k in tallied || k in plantable
    requires forall k :: Get(counts, k) == Get(tallied, k)
    ensures counts == StockMap(plantable, items)
  {
    forall k
      ensures k in counts <==> k in plantable
    {
      if k in tallied {
        assert k in tallied.Keys;
      }
    }
    assert counts.Keys == plantable.Keys;
    forall k | k in counts
      ensures counts[k] == Stock(items, k)
    {
      assert Get(counts, k) == Get(tallied, k);
    }
  }

  /** Every existing farm's biome has a group. */
  lemma GroupsCover(fs: seq<FarmPlot>, groups: map<Biome, seq<int>>)
    requires forall b :: GroupAt(groups, b) == Group(fs, b, |fs|)
    ensures forall j :: 0 <= j < |fs| && fs[j].present ==> FarmBiome(fs[j]) in groups
  {
    forall j | 0 <= j < |fs| && fs[j].present
      ensures FarmBiome(fs[j]) in groups
    {
      GroupSpec(fs, FarmBiome(fs[j]), |fs|);
      assert j in GroupAt(groups, FarmBiome(fs[j]));
    }
  }

  /** The farms of biome `b` went from `start` to `now` as `set_farms` promises for the plants `w`. */
  ghost predicate BiomeDone(start: seq<FarmPlot>, now: seq<FarmPlot>, b: Biome, season: Season, w: set<int>)
    requires |now| == |start|
  {
    var g := Group(start, b, |start|);
    Rebalanced(View(start, g, season), View(now, g, season), w)
  }

  /** The farms of biome `b` grow in `now` what they grew in `start`. */
  ghost predicate BiomeUntouched(start: seq<FarmPlot>, now: seq<FarmPlot>, b: Biome, season: Season)
    requires |now| == |start|
  {
    var g := Group(start, b, |start|);
    View(now, g, season) == View(start, g, season)
  }

  /** Rebalancing one more biome's farms keeps the other biomes as they were. */
  lemma ReplantStep(start: seq<FarmPlot>, before: seq<FarmPlot>, after: seq<FarmPlot>, season: Season,
                    wanted: map<Biome, set<int>>, done: seq<Biome>, b: Biome)
    requires |before| == |start| && FarmsEdit(start, before, season) && b !in done
    requires SeasonEdit(before, after, Group(start, b, |start|), season)
    requires forall c :: c in done ==> BiomeDone(start, before, c, season, WantedAt(wanted, c))
    requires forall c :: c !in done ==> BiomeUntouched(start, before, c, season)
    requires var g := Group(start, b, |start|);
             Rebalanced(View(before, g, season), View(after, g, season), WantedAt(wanted, b))
    ensures |after| == |start| && FarmsEdit(start, after, season)
    ensures forall c :: c in done + [b] ==> BiomeDone(start, after, c, season, WantedAt(wanted, c))
    ensures forall c :: c !in done + [b] ==> BiomeUntouched(start, after, c, season)
  {
    OtherGroupsKept(start, before, after, b, season);
  }

  /** `biomes` lists distinct biomes in increasing order. */
  predicate Increasing(biomes: seq<Biome>) {
    forall a, c :: 0 <= a < c < |biomes| ==> biomes[a] < biomes[c]
  }

  /**
   * The change lines of a pass that took the farms from `start` to `now`,
   * biome by biome in the order `biomes`: within a biome, one line per farm
   * whose plant changed, in building order.
   */
  ghost function LogOf(start: seq<FarmPlot>, now: seq<FarmPlot>, biomes: seq<Biome>, season: Season): seq<Change>
    requires |now| == |start|
  {
    if biomes == [] then []
    else
      var g := Group(start, biomes[|biomes| - 1], |start|);
      LogOf(start, now, biomes[..|biomes| - 1], season) +
      Diffs(Ids(start, g), View(start, g, season), View(now, g, season), |g|)
  }

  /** Between `before` and `after` the farms of biome `c` (as grouped in `start`) kept their plant. */
  ghost predicate Kept(start: seq<FarmPlot>, before: seq<FarmPlot>, after: seq<FarmPlot>, c: Biome, season: Season)
    requires |before| == |start| && |after| == |start|
  {
    var g := Group(start, c, |start|);
    View(after, g, season) == View(before, g, season)
  }

  /** The lines of biomes whose farms kept their plant stay the same. */
  lemma {:induction false} LogFrame(start: seq<FarmPlot>, before: seq<FarmPlot>, after: seq<FarmPlot>,
                                    biomes: seq<Biome>, season: Season)
    requires |before| == |start| && |after| == |start|
    requires forall c :: c in biomes ==> Kept(start, before, after, c, season)
    ensures LogOf(start, after, biomes, season) == LogOf(start, before, biomes, season)
    decreases |biomes|
  {
    if biomes != [] {
      var init := biomes[..|biomes| - 1];
      assert forall c :: c in init ==> c in biomes;
      LogFrame(start, before, after, init, season);
      assert Kept(start, before, after, biomes[|biomes| - 1], season);
    }
  }

  /** One more biome's lines: what `set_farms` logged for it, appended. */
  lemma LogStep(start: seq<FarmPlot>, before: seq<FarmPlot>, after: seq<FarmPlot>, season: Season,
                done: seq<Biome>, b: Biome, entries: seq<Change>)
    requires |before| == |start| && FarmsEdit(start, before, season) && b !in done
    requires SeasonEdit(before, after, Group(start, b, |start|), season)
    requires BiomeUntouched(start, before, b, season)
    requires var g := Group(start, b, |start|);
             entries == Diffs(Ids(before, g), View(before, g, season), View(after, g, season), |g|)
    ensures |after| == |start|
    ensures LogOf(start, before, done, season) + entries == LogOf(start, after, done + [b], season)
  {
    OtherGroupsKept(start, before, after, b, season);
    var g := Group(start, b, |start|);
    GroupValid(start, b);
    assert Ids(before, g) == Ids(start, g);
    assert forall c :: c in done ==> Kept(start, after, before, c, season);
    LogFrame(start, after, before, done, season);
    assert (done + [b])[..|done|] == done;
  }

  /** Taking one more biome of an increasing list. */
  lemma NextBiome(biomes: seq<Biome>, t: nat)
    requires t < |biomes| && Increasing(biomes)
    ensures biomes[t] in biomes && biomes[t] !in biomes[..t]
    ensures biomes[..t + 1] == biomes[..t] + [biomes[t]]
  {
  }

  /** What the biome loop has achieved once the biomes `done` are rebalanced and logged. */
  ghost predicate Replanting(start: seq<FarmPlot>, now: seq<FarmPlot>, done: seq<Biome>,
                             wanted: map<Biome, set<int>>, season: Season, log: seq<Change>)
  {
    && |now| == |start|
    && FarmsEdit(start, now, season)
    && (forall c {:trigger BiomeDone(start, now, c, season, WantedAt(wanted, c))} ::
          c in done ==> BiomeDone(start, now, c, season, WantedAt(wanted, c)))
    && (forall c {:trigger BiomeUntouched(start, now, c, season)} :: c !in done ==> BiomeUntouched(start, now, c, season))
    && log == LogOf(start, now, done, season)
  }

  /** One turn of the biome loop: `set_farms` on the farms of `b`. */
  method ReplantBiome(farms: array<FarmPlot>, group: seq<int>, plants: set<int>, season: Season,
                      ghost start: seq<FarmPlot>, ghost done: seq<Biome>, ghost wanted: map<Biome, set<int>>,
                      b: Biome, log: seq<Change>)
    returns (log': seq<Change>)
    requires group == Group(start, b, |start|) && plants == WantedAt(wanted, b) && b !in done
    requires Replanting(start, farms[..], done, wanted, season, log)
    modifies farms
    ensures Replanting(start, farms[..], done + [b], wanted, season, log')
  {
    GroupValid(start, b);
    ghost var before := farms[..];
    var entries := SetFarms(farms, plants, group, season);
    ReplantStep(start, before, farms[..], season, wanted, done, b);
    LogStep(start, before, farms[..], season, done, b, entries);
    log' := log + entries;
  }

  /**
   * The biome loop of `process`: hand each biome's farms to `set_farms`
   * with the plants wanted there, biomes in ascending order. `biomes` is
   * that order.
   */
  method ReplantAll(farms: array<FarmPlot>, groups: map<Biome, seq<int>>, wanted: map<Biome, set<int>>, season: Season)
    returns (log: seq<Change>, ghost biomes: seq<Biome>)
    requires forall b :: GroupAt(groups, b) == Group(farms[..], b, farms.Length)
    modifies farms
    ensures FarmsEdit(old(farms[..]), farms[..], season)
    ensures forall b :: BiomeDone(old(farms[..]), farms[..], b, season, WantedAt(wanted, b))
    ensures Increasing(biomes) && forall b :: b in biomes <==> b in groups
    ensures log == LogOf(old(farms[..]), farms[..], biomes, season)
  {
    ghost var start := farms[..];
    var order := Ascending(groups.Keys);
    log := ReplantInOrder(farms, groups, order, wanted, season);
    biomes := order;
    NoOtherGroups(start, groups, biomes);
    ReplantEnd(start, farms[..], biomes, wanted, season, log);
  }

  /** The loop itself: `set_farms` on each biome of `order` in turn. */
  method ReplantInOrder(farms: array<FarmPlot>, groups: map<Biome, seq<int>>, order: seq<Biome>,
                        wanted: map<Biome, set<int>>, season: Season)
    returns (log: seq<Change>)
    requires forall b :: GroupAt(groups, b) == Group(farms[..], b, farms.Length)
    requires Increasing(order)
    modifies farms
    ensures Replanting(old(farms[..]), farms[..], order, wanted, season, log)
  {
    ghost var start := farms[..];
    log := [];
    var t := 0;
    ReplantStart(start, wanted, season);
    assert order[..0] == [];
    while t < |order|
      invariant 0 <= t <= |order|
      invariant Replanting(start, farms[..], order[..t], wanted, season, log)
    {
      NextBiome(order, t);
      var b := order[t];
      log := ReplantBiome(farms, GroupAt(groups, b), WantedAt(wanted, b), season, start, order[..t], wanted, b, log);
      t := t + 1;
    }
    assert order[..t] == order;
  }

  lemma NoOtherGroups(start: seq<FarmPlot>, groups: map<Biome, seq<int>>, biomes: seq<Biome>)
    requires forall b :: GroupAt(groups, b) == Group(start, b, |start|)
    requires forall b :: b in biomes <==> b in groups
    ensures forall b :: b !in biomes ==> Group(start, b, |start|) == []
  {
    forall b | b !in biomes
      ensures Group(start, b, |start|) == []
    {
      assert GroupAt(groups, b) == [];
    }
  }

  /** Before the biome loop nothing is done and nothing has moved. */
  lemma ReplantStart(start: seq<FarmPlot>, wanted: map<Biome, set<int>>, season: Season)
    ensures Replanting(start, start, [], wanted, season, [])
  {
    assert forall j :: 0 <= j < |start| ==> start[j].plantId[season := start[j].plantId[season]] == start[j].plantId;
  }

  /** Once every biome with farms is done, every biome is: one without farms has an empty group. */
  lemma ReplantEnd(start: seq<FarmPlot>, now: seq<FarmPlot>, biomes: seq<Biome>,
                   wanted: map<Biome, set<int>>, season: Season, log: seq<Change>)
    requires Replanting(start, now, biomes, wanted, season, log)
    requires forall b :: b !in biomes ==> Group(start, b, |start|) == []
    ensures FarmsEdit(start, now, season)
    ensures forall b :: BiomeDone(start, now, b, season, WantedAt(wanted, b))
    ensures log == LogOf(start, now, biomes, season)
  {
    forall b | b !in biomes
      ensures BiomeDone(start, now, b, season, WantedAt(wanted, b))
    {
      if WantedAt(wanted, b) != {} {
        EmptyBalanced(View(now, Group(start, b, |start|), season), WantedAt(wanted, b));
      }
    }
  }

  /** `wanted` holds, per biome, the plants of `done` that are plantable there and stocked below their limit. */
  ghost predicate WantedSoFar(wanted: map<Biome, set<int>>, done: set<int>, plantable: map<int, set<Biome>>,
                              stock: map<int, int>, limit: map<int, int>)
  {
    forall b, q :: q in WantedAt(wanted, b) <==>
      q in done && q in plantable && q in limit && b in plantable[q] && Get(stock, q) < limit[q]
  }

  /** Visiting plant `p` of the demand loop. */
  lemma WantedStep(wanted: map<Biome, set<int>>, wanted': map<Biome, set<int>>, done: set<int>, p: int,
                   plantable: map<int, set<Biome>>, stock: map<int, int>, limit: map<int, int>)
    requires p in plantable && p in limit && p !in done
    requires WantedSoFar(wanted, done, plantable, stock, limit)
    requires Get(stock, p) < limit[p] ==>
               forall b, q :: q in WantedAt(wanted', b) <==> q in WantedAt(wanted, b) || (q == p && b in plantable[p])
    requires !(Get(stock, p) < limit[p]) ==> wanted' == wanted
    ensures WantedSoFar(wanted', done + {p}, plantable, stock, limit)
  {
  }

  /** What the demand loop has established while the plants `rest` are still to visit. */
  ghost predicate DemandInv(counts: map<int, int>, wanted: map<Biome, set<int>>, rest: set<int>,
                            plantable: map<int, set<Biome>>, stock: map<int, int>, limit: map<int, int>)
  {
    && rest <= plantable.Keys
    && (forall k :: k in counts <==> k in stock || (k in plantable && k !in rest))
    && (forall k :: Get(counts, k) == Get(stock, k))
    && WantedSoFar(wanted, plantable.Keys - rest, plantable, stock, limit)
  }

  lemma DemandStep(counts: map<int, int>, counts': map<int, int>, wanted: map<Biome, set<int>>,
                   wanted': map<Biome, set<int>>, rest: set<int>, p: int,
                   plantable: map<int, set<Biome>>, stock: map<int, int>, limit: map<int, int>)
    requires DemandInv(counts, wanted, rest, plantable, stock, limit) && p in rest
    requires limit.Keys == plantable.Keys
    requires counts' == counts[p := Get(counts, p)]
    requires Get(stock, p) < limit[p] ==>
               forall b, q :: q in WantedAt(wanted', b) <==> q in WantedAt(wanted, b) || (q == p && b in plantable[p])
    requires !(Get(stock, p) < limit[p]) ==> wanted' == wanted
    ensures DemandInv(counts', wanted', rest - {p}, plantable, stock, limit)
  {
    WantedStep(wanted, wanted', plantable.Keys - rest, p, plantable, stock, limit);
    assert plantable.Keys - (rest - {p}) == plantable.Keys - rest + {p};
  }

  lemma DemandEnd(counts: map<int, int>, wanted: map<Biome, set<int>>,
                  plantable: map<int, set<Biome>>, stock: map<int, int>, limit: map<int, int>)
    requires DemandInv(counts, wanted, {}, plantable, stock, limit)
    ensures WantedSoFar(wanted, plantable.Keys, plantable, stock, limit)
    ensures forall k :: k in counts <==> k in stock || k in plantable
    ensures forall k :: Get(counts, k) == Get(stock, k)
  {
    assert plantable.Keys - {} == plantable.Keys;
  }

  /** At the end of the demand loop, the wanted sets are those of `WantedIn`. */
  lemma WantedDone(wanted: map<Biome, set<int>>, plantable: map<int, set<Biome>>,
                   stock: map<int, int>, limit: map<int, int>, counts: map<int, int>,
                   thresholds: map<int, int>, default: int)
    requires limit == map q | q in plantable :: ThresholdOf(thresholds, default, q)
    requires forall k :: Get(counts, k) == Get(stock, k)
    requires WantedSoFar(wanted, plantable.Keys, plantable, stock, limit)
    ensures forall b :: WantedAt(wanted, b) == WantedIn(plantable, counts, thresholds, default, b)
  {
    forall b
      ensures WantedAt(wanted, b) == WantedIn(plantable, counts, thresholds, default, b)
    {
      var w := WantedIn(plantable, counts, thresholds, default, b);
      forall q
        ensures q in WantedAt(wanted, b) <==> q in w
      {
        if q in plantable {
          assert limit[q] == ThresholdOf(thresholds, default, q);
        }
      }
    }
  }

  /** Add plant `p` to the wanted set of every biome in `zones`. */
  method AddWanted(wanted: map<Biome, set<int>>, p: int, zones: set<Biome>) returns (result: map<Biome, set<int>>)
    ensures forall b, q :: q in WantedAt(result, b) <==> q in WantedAt(wanted, b) || (q == p && b in zones)
  {
    result := wanted;
    var rest := zones;
    while rest != {}
      invariant rest <= zones
      invariant forall b, q :: q in WantedAt(result, b) <==> q in WantedAt(wanted, b) || (q == p && b in zones && b !in rest)
      decreases |rest|
    {
      NonEmpty(rest);
      var b :| b in rest;
      result := result[b := WantedAt(result, b) + {p}];
      rest := rest - {b};
    }
  }

  /** Filing farm `j` under its biome extends that biome's group alone. */
  /** `groups` holds the existing farms among the first `j` of `fs`, by biome, and no empty group. */
  ghost predicate Grouped(groups: map<Biome, seq<int>>, fs: seq<FarmPlot>, j: nat)
    requires j <= |fs|
  {
    && (forall b {:trigger GroupAt(groups, b)} :: GroupAt(groups, b) == Group(fs, b, j))
    && (forall b {:trigger groups[b]} :: b in groups ==> groups[b] != [])
  }

  /** Visiting farm `j` of the farm loop. */
  lemma GroupedStep(groups: map<Biome, seq<int>>, groups': map<Biome, seq<int>>, fs: seq<FarmPlot>, j: nat)
    requires j < |fs| && Grouped(groups, fs, j)
    requires groups' == if fs[j].present then groups[FarmBiome(fs[j]) := GroupAt(groups, FarmBiome(fs[j])) + [j]] else groups
    ensures Grouped(groups', fs, j + 1)
  {
    forall b
      ensures GroupAt(groups', b) == Group(fs, b, j + 1)
    {
      assert GroupAt(groups, b) == Group(fs, b, j);
      assert Group(fs, b, j + 1) == Group(fs, b, j) + (if fs[j].present && FarmBiome(fs[j]) == b then [j] else []);
    }
  }

  /** The farm loop of `process`: the existing farms of each biome, in building order. */
  method GroupFarms(farms: array<FarmPlot>) returns (groups: map<Biome, seq<int>>)
    ensures forall b :: GroupAt(groups, b) == Group(farms[..], b, farms.Length)
    ensures forall b :: b in groups ==> groups[b] != []
  {
    ghost var fs := farms[..];
    groups := map[];
    var j := 0;
    while j < farms.Length
      invariant 0 <= j <= farms.Length
      invariant Grouped(groups, fs, j)
    {
      var farm := farms[j];
      ghost var prev := groups;
      if farm.present {
        var b := FarmBiome(farm);
        groups := groups[b := GroupAt(groups, b) + [j]];
      }
      GroupedStep(prev, groups, fs, j);
      j := j + 1;
    }
  }

  /** `after` differs from `before` only in the `season` plant of existing farms. */
  ghost predicate FarmsEdit(before: seq<FarmPlot>, after: seq<FarmPlot>, season: Season) {
    && |after| == |before|
    && (forall j :: 0 <= j < |before| ==> OnlySeasonChanged(before[j], after[j], season))
    && (forall j :: 0 <= j < |before| && !before[j].present ==> after[j] == before[j])
  }

  /** Rebalancing the group of `b` leaves every other biome's group as it was. */
  lemma OtherGroupsKept(start: seq<FarmPlot>, before: seq<FarmPlot>, after: seq<FarmPlot>, b: Biome, season: Season)
    requires |before| == |start|
    requires FarmsEdit(start, before, season)
    requires SeasonEdit(before, after, Group(start, b, |start|), season)
    ensures FarmsEdit(start, after, season)
    ensures forall b' :: b' != b ==>
              View(after, Group(start, b', |start|), season) == View(before, Group(start, b', |start|), season)
  {
    GroupSpec(start, b, |start|);
    forall b' | b' != b
      ensures View(after, Group(start, b', |start|), season) == View(before, Group(start, b', |start|), season)
    {
      GroupSpec(start, b', |start|);
      GroupValid(start, b');
      ViewFrame(before, after, Group(start, b', |start|), season);
    }
  }
}
