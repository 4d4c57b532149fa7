/**
 * The records the autofarm plugin reads from and writes to the game world.
 * Enumerating the world's item and building lists, and the dynamic casts that
 * go with it, are replaced by plain sequences of these records.
 */
module FarmTypes {

  datatype Option<T> = None | Some(value: T)

  /** Outcome of a console command: CR_OK, CR_WRONG_USAGE, CR_FAILURE. */
  datatype CommandResult = Ok | WrongUsage | Failure

  /** The season of the year: 0 spring, 1 summer, 2 autumn, 3 winter. */
  type Season = s: int | 0 <= s < 4

  /** Number of ticks in one season. */
  const SEASON_LENGTH: int := 10080

  /**
   * The plant_raw flags the core looks at. The fifty-one BIOME_* flags are
   * kept abstract: each is a `BiomeFlag` with its own code.
   */
  datatype PlantFlag =
    | Seed
    | Tree
    | Spring
    | Summer
    | Autumn
    | Winter
    | BiomeFlag(code: nat)

  /** A plant definition; its index is its position in the list of all plants. */
  datatype PlantRaw = PlantRaw(id: string, flags: set<PlantFlag>, growdur: nat)

  /** A biome, numbered as the game numbers its biome types. */
  type Biome = int

  /** The biome every subterranean farm is counted in. */
  const SUBTERRANEAN_WATER: Biome := 48

  /** The item flags the core tests; every other flag is `OtherItemFlag`. */
  datatype ItemFlag =
    | Dump
    | Forbid
    | GarbageCollect
    | Hostile
    | OnFire
    | Rotten
    | Trader
    | InBuilding
    | Construction
    | Artifact
    | OtherItemFlag(bit: nat)

  /** The flags that disqualify an item from being counted. */
  const BAD_FLAGS: set<ItemFlag> :=
    {Dump, Forbid, GarbageCollect, Hostile, OnFire, Rotten, Trader, InBuilding, Construction, Artifact}

  /** A seed, plant or plant-growth item: its plant (material index), stack size and flags. */
  datatype Item = Item(matIndex: int, stackSize: int, flags: set<ItemFlag>)

  /** An item none of whose flags is a bad flag. */
  predicate Usable(item: Item) {
    item.flags * BAD_FLAGS == {}
  }

  /** The plant a farm plot grows in each of the four seasons. */
  type Crops = s: seq<int> | |s| == 4 witness [-1, -1, -1, -1]

  /** The plant id of a fallow farm. */
  const FALLOW: int := -1

  /**
   * A farm plot building. `present` is the building's `exists` bit;
   * `subterranean` is the designation of its centre tile and `regionBiome`
   * the biome type of the region that tile lies in.
   */
  datatype FarmPlot = FarmPlot(id: int, plantId: Crops, present: bool, subterranean: bool, regionBiome: Biome)

  /** One "changing farm #id from old to new" log line. */
  datatype Change = Change(farmId: int, oldPlant: int, newPlant: int)
}
