/**
 * The `autofarm threshold <n> <id>...` command: every named plant id is
 * upper-cased and looked up among the plant definitions; the first one that
 * has seeds and carries that id gets the override `n`. The command stops at
 * the first id that names no seed plant, keeping the overrides made so far.
 */
module ThresholdCommand {

  import opened FarmTypes
  import opened AutoFarmPlugin

  /** `::toupper` in the "C" locale: ASCII lower-case letters move to upper case. */
  function UpperChar(c: char): (u: char)
    ensures 'a' <= c <= 'z' ==> 'A' <= u <= 'Z' && u as int + 32 == c as int
    ensures !('a' <= c <= 'z') ==> u == c
  {
    if 'a' <= c <= 'z' then (c as int - 32) as char else c
  }

  /** The plant id as the command compares it: upper-cased character by character. */
  function Upper(s: string): (u: string)
    ensures |u| == |s|
    ensures forall i :: 0 <= i < |u| ==> !('a' <= u[i] <= 'z')
    ensures forall i :: 0 <= i < |s| && !('a' <= s[i] <= 'z') ==> u[i] == s[i]
  {
    seq(|s|, i requires 0 <= i < |s| => UpperChar(s[i]))
  }

  /** Upper-casing an id that is already upper-cased changes nothing. */
  lemma UpperIdempotent(s: string)
    ensures Upper(Upper(s)) == Upper(s)
  {
    var u := Upper(s);
    assert forall i :: 0 <= i < |u| ==> Upper(u)[i] == u[i];
  }

  /** The definition `p` has seeds and its id is `id`. */
  predicate SeedNamed(p: PlantRaw, id: string) {
    Seed in p.flags && p.id == id
  }

  /** Index of the first definition with seeds named `id`, if any. */
  function FirstSeed(raws: seq<PlantRaw>, id: string): (r: Option<nat>)
    ensures r.Some? ==> r.value < |raws| && SeedNamed(raws[r.value], id)
    ensures r.Some? ==> forall j :: 0 <= j < r.value ==> !SeedNamed(raws[j], id)
    ensures r.None? <==> forall j :: 0 <= j < |raws| ==> !SeedNamed(raws[j], id)
  {
    if raws == [] then None
    else if SeedNamed(raws[0], id) then Some(0)
    else match FirstSeed(raws[1..], id)
      case None => None
      case Some(k) => Some(k + 1)
  }

  /** The command accepts the (not yet upper-cased) id `id`. */
  predicate Known(raws: seq<PlantRaw>, id: string) {
    FirstSeed(raws, Upper(id)).Some?
  }

  /** How many of the ids, from the first on, are accepted before one is not. */
  function KnownPrefix(ids: seq<string>, raws: seq<PlantRaw>): (n: nat)
    ensures n <= |ids|
    ensures forall j :: 0 <= j < n ==> Known(raws, ids[j])
    ensures n < |ids| ==> !Known(raws, ids[n])
  {
    if ids == [] || !Known(raws, ids[0]) then 0 else 1 + KnownPrefix(ids[1..], raws)
  }

  /** The plants whose threshold the first `n` ids override. */
  function Picked(ids: seq<string>, raws: seq<PlantRaw>, n: nat): (ps: set<int>)
    requires n <= |ids|
    ensures forall j :: 0 <= j < n && Known(raws, ids[j]) ==> FirstSeed(raws, Upper(ids[j])).value in ps
    ensures forall p :: p in ps ==> exists j :: 0 <= j < n && FirstSeed(raws, Upper(ids[j])) == Some(p)
  {
    if n == 0 then {}
    else
      var id := Upper(ids[n - 1]);
      Picked(ids, raws, n - 1) + (if FirstSeed(raws, id).Some? then {FirstSeed(raws, id).value} else {})
  }

  /** The overrides after setting `val` for every plant in `plants`. */
  function Overridden(thresholds: map<int, int>, plants: set<int>, val: int): map<int, int> {
    thresholds + map k | k in plants :: val
  }

  lemma PrefixGrows(ids: seq<string>, raws: seq<PlantRaw>, n: nat)
    requires n < |ids| && n <= KnownPrefix(ids, raws) && Known(raws, ids[n])
    ensures n + 1 <= KnownPrefix(ids, raws)
  {
  }

  /** Accepting one more id adds the override of its plant. */
  lemma OverrideStep(ids: seq<string>, raws: seq<PlantRaw>, n: nat, start: map<int, int>, val: int)
    requires n < |ids| && Known(raws, ids[n])
    ensures Overridden(start, Picked(ids, raws, n), val)[FirstSeed(raws, Upper(ids[n])).value := val]
            == Overridden(start, Picked(ids, raws, n + 1), val)
  {
    var k := FirstSeed(raws, Upper(ids[n])).value;
    var ps := Picked(ids, raws, n);
    assert Picked(ids, raws, n + 1) == ps + {k};
    OverriddenAdd(start, ps, k, val);
  }

  lemma OverriddenAdd(start: map<int, int>, plants: set<int>, k: int, val: int)
    ensures Overridden(start, plants, val)[k := val] == Overridden(start, plants + {k}, val)
  {
  }

  /**
   * The inner search of the command: scan the definitions in order and stop
   * at the first one with seeds named `id`.
   */
  method FindSeed(raws: seq<PlantRaw>, id: string) returns (r: Option<nat>)
    ensures r == FirstSeed(raws, id)
  {
    var p := 0;
    while p < |raws|
      invariant 0 <= p <= |raws|
      invariant forall j :: 0 <= j < p ==> !SeedNamed(raws[j], id)
    {
      if Seed in raws[p].flags && raws[p].id == id {
        return Some(p);
      }
      p := p + 1;
    }
    return None;
  }

  /**
   * `setThresholds`: `parameters[0]` is the word `threshold`, `val` the number
   * read from `parameters[1]`, and the ids follow.
   */
  method SetThresholds(af: AutoFarm, parameters: seq<string>, val: int, raws: seq<PlantRaw>) returns (r: CommandResult)
    requires |parameters| >= 2
    modifies af
    ensures var ids := parameters[2..];
            r == (if KnownPrefix(ids, raws) == |ids| then Ok else WrongUsage)
    ensures var ids := parameters[2..];
            af.thresholds == Overridden(old(af.thresholds), Picked(ids, raws, KnownPrefix(ids, raws)), val)
    ensures af.defaultThreshold == old(af.defaultThreshold) && af.lastCounts == old(af.lastCounts)
    ensures af.plantablePlants == old(af.plantablePlants)
  {
    ghost var ids := parameters[2..];
    ghost var start := af.thresholds;
    var i := 2;
    while i < |parameters|
      invariant 2 <= i <= |parameters|
      invariant i - 2 <= KnownPrefix(ids, raws)
      invariant af.thresholds == Overridden(start, Picked(ids, raws, i - 2), val)
      invariant af.defaultThreshold == old(af.defaultThreshold) && af.lastCounts == old(af.lastCounts)
      invariant af.plantablePlants == old(af.plantablePlants)
    {
      assert ids[i - 2] == parameters[i];
      var known := OverrideOne(af, parameters[i], val, raws, ids, i - 2, start);
      if !known {
        return WrongUsage;
      }
      i := i + 1;
    }
    assert i - 2 == |ids|;
    r := Ok;
  }

  /** One turn of the command's loop: look up `id` and, if it names a seed plant, override its threshold. */
  method OverrideOne(af: AutoFarm, id: string, val: int, raws: seq<PlantRaw>,
                     ghost ids: seq<string>, ghost n: nat, ghost start: map<int, int>)
    returns (known: bool)
    requires n < |ids| && ids[n] == id && n <= KnownPrefix(ids, raws)
    requires af.thresholds == Overridden(start, Picked(ids, raws, n), val)
    modifies af
    ensures known == Known(raws, id)
    ensures known ==> n + 1 <= KnownPrefix(ids, raws) && af.thresholds == Overridden(start, Picked(ids, raws, n + 1), val)
    ensures !known ==> KnownPrefix(ids, raws) == n && af.thresholds == old(af.thresholds)
    ensures af.defaultThreshold == old(af.defaultThreshold) && af.lastCounts == old(af.lastCounts)
    ensures af.plantablePlants == old(af.plantablePlants)
  {
    var found := FindSeed(raws, Upper(id));
    if found.None? {
      return false;
    }
    PrefixGrows(ids, raws, n);
    OverrideStep(ids, raws, n, start, val);
    af.SetThreshold(found.value, val);
    known := true;
  }

  /** An id the command accepts as given is accepted in upper case too, for the same plant. */
  lemma CaseInsensitive(raws: seq<PlantRaw>, id: string)
    ensures Known(raws, Upper(id)) == Known(raws, id)
    ensures FirstSeed(raws, Upper(Upper(id))) == FirstSeed(raws, Upper(id))
  {
    UpperIdempotent(id);
  }
}
