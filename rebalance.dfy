/**
 * The minimal-churn equal-share allocator of the autofarm plugin: given the
 * farms of one biome and the plants wanted there, re-plant as few farms as
 * possible so that every wanted plant gets floor(N/K) or floor(N/K)+1 farms.
 */
module Rebalance {

  import opened FarmTypes
  import opened Counting

  /** `group` holds distinct handles (indices) of farms among `n` farm buildings. */
  predicate ValidGroup(group: seq<int>, n: int) {
    && (forall k :: 0 <= k < |group| ==> 0 <= group[k] < n)
    && (forall k, l :: 0 <= k < l < |group| ==> group[k] != group[l])
  }

  /** The plant each farm of `group` grows this season, in group order. */
  function View(fs: seq<FarmPlot>, group: seq<int>, season: Season): seq<int>
    requires forall k :: 0 <= k < |group| ==> 0 <= group[k] < |fs|
  {
    seq(|group|, k requires 0 <= k < |group| => fs[group[k]].plantId[season])
  }

  /** The building ids of the farms of `group`, in group order. */
  function Ids(fs: seq<FarmPlot>, group: seq<int>): seq<int>
    requires forall k :: 0 <= k < |group| ==> 0 <= group[k] < |fs|
  {
    seq(|group|, k requires 0 <= k < |group| => fs[group[k]].id)
  }

  /** `after` is `before` with at most the plant of `season` replaced. */
  predicate OnlySeasonChanged(before: FarmPlot, after: FarmPlot, season: Season) {
    after == before.(plantId := before.plantId[season := after.plantId[season]])
  }

  /**
   * The equal-share outcome: every farm grows a wanted plant, every wanted
   * plant has floor(N/K) or floor(N/K)+1 farms, and exactly N mod K of them
   * have the larger share.
   */
  ghost predicate Balanced(v: seq<int>, plants: set<int>) {
    && plants != {}
    && (forall k :: 0 <= k < |v| ==> v[k] in plants)
    && (forall p :: p in plants ==> |v| / |plants| <= Count(v, p) <= |v| / |plants| + 1)
    && |set p | p in plants && Count(v, p) == |v| / |plants| + 1| == |v| % |plants|
  }

  /**
   * Minimal churn: a farm growing a wanted plant that fewer than floor(N/K)
   * earlier farms grow keeps its plant.
   */
  ghost predicate KeepsUnderQuota(before: seq<int>, after: seq<int>, plants: set<int>)
    requires |after| == |before| && plants != {}
  {
    forall k :: 0 <= k < |before| && before[k] in plants && Count(before[..k], before[k]) < |before| / |plants| ==>
      after[k] == before[k]
  }

  /** What `set_farms` achieves for one biome. */
  ghost predicate Rebalanced(before: seq<int>, after: seq<int>, plants: set<int>) {
    && |after| == |before|
    && (plants == {} ==> forall k :: 0 <= k < |after| ==> after[k] == FALLOW)
    && (plants != {} ==>
          && Balanced(after, plants)
          && KeepsUnderQuota(before, after, plants)
          && (Balanced(before, plants) ==> after == before))
  }

  /** The change lines for the first `m` farms: one per farm whose plant differs, in farm order. */
  function Diffs(ids: seq<int>, before: seq<int>, after: seq<int>, m: nat): seq<Change>
    requires m <= |before| && |ids| == |before| == |after|
  {
    if m == 0 then []
    else Diffs(ids, before, after, m - 1) +
         (if before[m - 1] != after[m - 1] then [Change(ids[m - 1], before[m - 1], after[m - 1])] else [])
  }

  lemma {:induction false} DiffsAgree(ids: seq<int>, before: seq<int>, a1: seq<int>, a2: seq<int>, m: nat)
    requires m <= |before| && |ids| == |before| == |a1| == |a2|
    requires forall x :: 0 <= x < m ==> a1[x] == a2[x]
    ensures Diffs(ids, before, a1, m) == Diffs(ids, before, a2, m)
  {
    if m > 0 {
      DiffsAgree(ids, before, a1, a2, m - 1);
    }
  }

  /** Farms whose plant did not change add no change line. */
  lemma {:induction false} DiffsSkip(ids: seq<int>, before: seq<int>, after: seq<int>, lo: nat, hi: nat)
    requires lo <= hi <= |before| && |ids| == |before| == |after|
    requires forall x :: lo <= x < hi ==> before[x] == after[x]
    ensures Diffs(ids, before, after, hi) == Diffs(ids, before, after, lo)
    decreases hi
  {
    if lo < hi {
      DiffsSkip(ids, before, after, lo, hi - 1);
    }
  }

  /** Writing one farm of a group changes the group's view at that farm only. */
  lemma ViewUpdate(fs: seq<FarmPlot>, group: seq<int>, season: Season, k: nat, f: FarmPlot)
    requires ValidGroup(group, |fs|) && k < |group|
    ensures View(fs[group[k] := f], group, season) == View(fs, group, season)[k := f.plantId[season]]
  {
    var lhs := View(fs[group[k] := f], group, season);
    var rhs := View(fs, group, season)[k := f.plantId[season]];
    assert forall l :: 0 <= l < |group| ==> lhs[l] == rhs[l];
  }

  lemma ViewFrame(fs: seq<FarmPlot>, gs: seq<FarmPlot>, group: seq<int>, season: Season)
    requires |fs| == |gs| && ValidGroup(group, |fs|)
    requires forall k :: 0 <= k < |group| ==> gs[group[k]] == fs[group[k]]
    ensures View(gs, group, season) == View(fs, group, season)
    ensures Ids(gs, group) == Ids(fs, group)
  {
  }

  /**
   * `set_farm`: re-plant farm `i` for `season` with `newPlant`. Only that
   * season's plant is written, and only a real change is logged.
   */
  method SetFarm(farms: array<FarmPlot>, newPlant: int, i: int, season: Season) returns (log: seq<Change>)
    requires 0 <= i < farms.Length
    modifies farms
    ensures farms[i] == old(farms[i]).(plantId := old(farms[i]).plantId[season := newPlant])
    ensures forall j :: 0 <= j < farms.Length && j != i ==> farms[j] == old(farms[j])
    ensures farms[..] == old(farms[..])[i := farms[i]]
    ensures log == if old(farms[i]).plantId[season] != newPlant
                   then [Change(old(farms[i]).id, old(farms[i]).plantId[season], newPlant)]
                   else []
  {
    var oldPlant := farms[i].plantId[season];
    if oldPlant != newPlant {
      farms[i] := farms[i].(plantId := farms[i].plantId[season := newPlant]);
      log := [Change(farms[i].id, oldPlant, newPlant)];
    } else {
      log := [];
    }
  }

  /** A non-empty set of integers has a least element `m`. */
  lemma {:induction false} Least(s: set<int>) returns (m: int)
    requires s != {}
    ensures m in s && forall y :: y in s ==> m <= y
    decreases |s|
  {
    NonEmpty(s);
    var x :| x in s;
    var r := s - {x};
    if r == {} {
      m := x;
      forall y | y in s
        ensures m <= y
      {
        assert y in r || y == x;
      }
    } else {
      var least := Least(r);
      m := if x < least then x else least;
      forall y | y in s
        ensures m <= y
      {
        assert y in r || y == x;
      }
    }
  }

  /** The elements of a set of plant ids in ascending order (how `std::set<int>` iterates). */
  method Ascending(s: set<int>) returns (order: seq<int>)
    ensures forall a, b :: 0 <= a < b < |order| ==> order[a] < order[b]
    ensures forall x :: x in order <==> x in s
    ensures |order| == |s|
  {
    order := [];
    var rest := s;
    while rest != {}
      invariant rest <= s
      invariant forall x :: x in order <==> x in s && x !in rest
      invariant forall a, b :: 0 <= a < b < |order| ==> order[a] < order[b]
      invariant forall a, y :: 0 <= a < |order| && y in rest ==> order[a] < y
      invariant |order| + |rest| == |s|
      decreases |rest|
    {
      ghost var least := Least(rest);
      var m :| m in rest && forall y :: y in rest ==> m <= y;
      order := order + [m];
      rest := rest - {m};
    }
  }

  /** Under a balanced assignment, the farm visited at `i` is never an excess farm. */
  lemma BalancedKeeps(cur: seq<int>, plants: set<int>, order: seq<int>, i: nat,
                      counters: map<int, int>, extra: int, min: nat)
    requires Balanced(cur, plants) && Enumerates(order, plants) && i < |cur|
    requires min == |cur| / |plants|
    requires forall p :: p in plants ==> Get(counters, p) == Count(cur[..i], p)
    requires NumAt(counters, order, min + 1) == |cur| % |plants| - extra
    ensures cur[i] in plants
    ensures Get(counters, cur[i]) < min || (Get(counters, cur[i]) == min && extra > 0)
  {
    var o := cur[i];
    CountPrefixStep(cur, i, o);
    CountPrefixLe(cur, i + 1, o);
    if Get(counters, o) == min {
      var total := map p | p in plants :: Count(cur, p);
      forall x | x in order && Get(counters, x) == min + 1
        ensures Get(total, x) == min + 1
      {
        CountPrefixLe(cur, i, x);
      }
      NumAtLess(counters, total, order, min + 1, o);
      NumAtCard(total, order, min + 1);
      assert (set x | x in order && Get(total, x) == min + 1) ==
             (set p | p in plants && Count(cur, p) == |cur| / |plants| + 1);
    }
  }

  /** Queue and live marks after visiting the first `i` farms. */
  ghost predicate QueueInv(cur: seq<int>, plants: set<int>, i: nat, toChange: seq<nat>, live: seq<Option<int>>) {
    && i <= |cur| && |live| == i
    && (forall k :: 0 <= k < i ==> (live[k] == None <==> k in toChange))
    && (forall k :: 0 <= k < i && live[k] != None ==> live[k] == Some(cur[k]) && cur[k] in plants)
    && (forall a, b :: 0 <= a < b < |toChange| ==> toChange[a] < toChange[b])
    && (forall a :: 0 <= a < |toChange| ==> toChange[a] < i)
  }

  /** Each wanted plant's counter is the number of kept farms growing it, at most one above the share. */
  ghost predicate CounterInv(plants: set<int>, min: nat, counters: map<int, int>, live: seq<Option<int>>) {
    forall p :: p in plants ==> Get(counters, p) == Count(live, Some(p)) <= min + 1
  }

  /** Kept plus queued farms are the farms visited; each spent remainder credit is a plant at min + 1. */
  ghost predicate TallyInv(cur: seq<int>, plants: set<int>, order: seq<int>, min: nat, i: nat,
                           counters: map<int, int>, toChange: seq<nat>, extra: int)
    requires plants != {}
  {
    && SumOver(counters, order) + |toChange| == i
    && 0 <= extra <= |cur| % |plants|
    && NumAt(counters, order, min + 1) == |cur| % |plants| - extra
  }

  /** Farms of a wanted plant seen fewer than `min` times before are kept. */
  ghost predicate ChurnInv(cur: seq<int>, plants: set<int>, min: nat, i: nat, counters: map<int, int>, toChange: seq<nat>)
    requires i <= |cur|
  {
    && (forall p :: p in plants && Count(cur[..i], p) <= min ==> Get(counters, p) == Count(cur[..i], p))
    && (forall k :: 0 <= k < i && cur[k] in plants && Count(cur[..k], cur[k]) < min ==> k !in toChange)
  }

  /** On a balanced assignment nothing is queued and the counters are the prefix counts. */
  ghost predicate BalancedInv(cur: seq<int>, plants: set<int>, i: nat, counters: map<int, int>, toChange: seq<nat>)
    requires i <= |cur|
  {
    Balanced(cur, plants) ==> toChange == [] && forall p :: p in plants ==> Get(counters, p) == Count(cur[..i], p)
  }

  /** What the first pass of `set_farms` has established after visiting the first `i` farms. */
  ghost predicate PassInv(cur: seq<int>, plants: set<int>, order: seq<int>, min: nat, i: nat,
                          counters: map<int, int>, toChange: seq<nat>, extra: int, live: seq<Option<int>>)
    requires plants != {}
  {
    && QueueInv(cur, plants, i, toChange, live)
    && CounterInv(plants, min, counters, live)
    && TallyInv(cur, plants, order, min, i, counters, toChange, extra)
    && ChurnInv(cur, plants, min, i, counters, toChange)
    && BalancedInv(cur, plants, i, counters, toChange)
  }

  lemma PrefixCounts(cur: seq<int>, i: nat)
    requires i < |cur|
    ensures forall p :: Count(cur[..i + 1], p) == Count(cur[..i], p) + (if cur[i] == p then 1 else 0)
  {
    forall p
      ensures Count(cur[..i + 1], p) == Count(cur[..i], p) + (if cur[i] == p then 1 else 0)
    {
      CountPrefixStep(cur, i, p);
    }
  }

  lemma LiveCounts(live: seq<Option<int>>, y: Option<int>)
    ensures forall p :: Count(live + [y], Some(p)) == Count(live, Some(p)) + (if y == Some(p) then 1 else 0)
  {
    forall p
      ensures Count(live + [y], Some(p)) == Count(live, Some(p)) + (if y == Some(p) then 1 else 0)
    {
      CountAppend(live, y, Some(p));
    }
  }

  /** Visiting farm `i` when it is an excess farm: it joins the queue. */
  lemma QueueStep(cur: seq<int>, plants: set<int>, order: seq<int>, min: nat, i: nat,
                  counters: map<int, int>, toChange: seq<nat>, extra: int, live: seq<Option<int>>)
    requires plants != {} && Enumerates(order, plants) && min == |cur| / |plants| && i < |cur|
    requires PassInv(cur, plants, order, min, i, counters, toChange, extra, live)
    requires cur[i] !in plants || Get(counters, cur[i]) > min || (Get(counters, cur[i]) == min && extra == 0)
    ensures PassInv(cur, plants, order, min, i + 1, counters, toChange + [i], extra, live + [None])
  {
    LiveCounts(live, None);
    QueueChurn(cur, plants, min, i, counters, toChange, extra);
    QueueBalanced(cur, plants, order, min, i, counters, toChange, extra);
    assert QueueInv(cur, plants, i + 1, toChange + [i], live + [None]);
  }

  lemma QueueChurn(cur: seq<int>, plants: set<int>, min: nat, i: nat, counters: map<int, int>, toChange: seq<nat>, extra: int)
    requires i < |cur| && ChurnInv(cur, plants, min, i, counters, toChange)
    requires cur[i] !in plants || Get(counters, cur[i]) > min || (Get(counters, cur[i]) == min && extra == 0)
    ensures ChurnInv(cur, plants, min, i + 1, counters, toChange + [i])
  {
    PrefixCounts(cur, i);
    assert cur[..i + 1][..i] == cur[..i];
  }

  lemma QueueBalanced(cur: seq<int>, plants: set<int>, order: seq<int>, min: nat, i: nat,
                      counters: map<int, int>, toChange: seq<nat>, extra: int)
    requires plants != {} && Enumerates(order, plants) && min == |cur| / |plants| && i < |cur|
    requires BalancedInv(cur, plants, i, counters, toChange)
    requires NumAt(counters, order, min + 1) == |cur| % |plants| - extra
    requires cur[i] !in plants || Get(counters, cur[i]) > min || (Get(counters, cur[i]) == min && extra == 0)
    ensures BalancedInv(cur, plants, i + 1, counters, toChange + [i])
  {
    if Balanced(cur, plants) {
      BalancedKeeps(cur, plants, order, i, counters, extra, min);
    }
  }

  /** Visiting farm `i` when its plant is wanted and under its share: it is kept. */
  lemma KeepStep(cur: seq<int>, plants: set<int>, order: seq<int>, min: nat, i: nat,
                 counters: map<int, int>, toChange: seq<nat>, extra: int, live: seq<Option<int>>)
    requires plants != {} && Enumerates(order, plants) && min == |cur| / |plants| && i < |cur|
    requires PassInv(cur, plants, order, min, i, counters, toChange, extra, live)
    requires cur[i] in plants && Get(counters, cur[i]) <= min && (Get(counters, cur[i]) < min || extra > 0)
    ensures var o, c := cur[i], Get(counters, cur[i]);
            PassInv(cur, plants, order, min, i + 1, counters[o := c + 1], toChange,
                    if c == min then extra - 1 else extra, live + [Some(o)])
  {
    var o, c := cur[i], Get(counters, cur[i]);
    var counters', extra', live' := counters[o := c + 1], if c == min then extra - 1 else extra, live + [Some(o)];
    KeepQueue(cur, plants, i, toChange, live);
    KeepCounter(cur, plants, min, i, counters, live);
    KeepTally(cur, plants, order, min, i, counters, toChange, extra);
    KeepChurn(cur, plants, min, i, counters, toChange);
    KeepBalanced(cur, plants, i, counters, toChange);
  }

  lemma KeepQueue(cur: seq<int>, plants: set<int>, i: nat, toChange: seq<nat>, live: seq<Option<int>>)
    requires i < |cur| && cur[i] in plants && QueueInv(cur, plants, i, toChange, live)
    ensures QueueInv(cur, plants, i + 1, toChange, live + [Some(cur[i])])
  {
  }

  lemma KeepCounter(cur: seq<int>, plants: set<int>, min: nat, i: nat, counters: map<int, int>, live: seq<Option<int>>)
    requires i < |cur| && cur[i] in plants && Get(counters, cur[i]) <= min
    requires CounterInv(plants, min, counters, live)
    ensures CounterInv(plants, min, counters[cur[i] := Get(counters, cur[i]) + 1], live + [Some(cur[i])])
  {
    LiveCounts(live, Some(cur[i]));
  }

  lemma KeepTally(cur: seq<int>, plants: set<int>, order: seq<int>, min: nat, i: nat,
                  counters: map<int, int>, toChange: seq<nat>, extra: int)
    requires plants != {} && Enumerates(order, plants) && i < |cur|
    requires cur[i] in plants && Get(counters, cur[i]) <= min && (Get(counters, cur[i]) < min || extra > 0)
    requires TallyInv(cur, plants, order, min, i, counters, toChange, extra)
    ensures var c := Get(counters, cur[i]);
            TallyInv(cur, plants, order, min, i + 1, counters[cur[i] := c + 1], toChange,
                     if c == min then extra - 1 else extra)
  {
    SumOverUpdate(counters, order, cur[i], Get(counters, cur[i]) + 1, min + 1);
  }

  lemma KeepChurn(cur: seq<int>, plants: set<int>, min: nat, i: nat, counters: map<int, int>, toChange: seq<nat>)
    requires i < |cur| && cur[i] in plants && Get(counters, cur[i]) <= min
    requires forall a :: 0 <= a < |toChange| ==> toChange[a] < i
    requires ChurnInv(cur, plants, min, i, counters, toChange)
    ensures ChurnInv(cur, plants, min, i + 1, counters[cur[i] := Get(counters, cur[i]) + 1], toChange)
  {
    PrefixCounts(cur, i);
  }

  lemma KeepBalanced(cur: seq<int>, plants: set<int>, i: nat, counters: map<int, int>, toChange: seq<nat>)
    requires plants != {} && i < |cur| && cur[i] in plants
    requires BalancedInv(cur, plants, i, counters, toChange)
    ensures BalancedInv(cur, plants, i + 1, counters[cur[i] := Get(counters, cur[i]) + 1], toChange)
  {
    PrefixCounts(cur, i);
  }

  /**
   * The first pass of `set_farms`: walk the farms in order, keep a farm while
   * its plant is wanted and under its share, and queue every other farm.
   * `live` marks each kept farm with its plant and each queued farm with None.
   */
  method KeepPass(cur: seq<int>, plants: set<int>, ghost order: seq<int>)
    returns (min: nat, counters: map<int, int>, toChange: seq<nat>, extra: int, ghost live: seq<Option<int>>)
    requires plants != {} && Enumerates(order, plants)
    ensures min == |cur| / |plants|
    ensures PassInv(cur, plants, order, min, |cur|, counters, toChange, extra, live)
  {
    min := |cur| / |plants|;
    extra := |cur| - min * |plants|;
    counters := map[];
    toChange := [];
    live := [];
    PassStart(cur, plants, order, min, extra);
    var i := 0;
    while i < |cur|
      invariant i <= |cur|
      invariant PassInv(cur, plants, order, min, i, counters, toChange, extra, live)
    {
      counters, toChange, extra, live := Visit(cur, plants, order, min, i, counters, toChange, extra, live);
      i := i + 1;
    }
  }

  /** Before the first pass nothing is counted or queued and all the remainder is unspent. */
  lemma PassStart(cur: seq<int>, plants: set<int>, order: seq<int>, min: nat, extra: int)
    requires plants != {} && min == |cur| / |plants| && extra == |cur| - min * |plants|
    ensures PassInv(cur, plants, order, min, 0, map[], [], extra, [])
  {
    NothingCounted(order, min + 1);
  }

  /** One turn of the first pass: farm `i` is kept or queued. */
  method Visit(cur: seq<int>, plants: set<int>, ghost order: seq<int>, min: nat, i: nat,
               counters: map<int, int>, toChange: seq<nat>, extra: int, ghost live: seq<Option<int>>)
    returns (counters': map<int, int>, toChange': seq<nat>, extra': int, ghost live': seq<Option<int>>)
    requires plants != {} && Enumerates(order, plants) && min == |cur| / |plants| && i < |cur|
    requires PassInv(cur, plants, order, min, i, counters, toChange, extra, live)
    ensures PassInv(cur, plants, order, min, i + 1, counters', toChange', extra', live')
  {
    var o := cur[i];
    if o !in plants || Get(counters, o) > min || (Get(counters, o) == min && extra == 0) {
      // an excess farm for the plant it grows now
      QueueStep(cur, plants, order, min, i, counters, toChange, extra, live);
      counters', toChange', extra', live' := counters, toChange + [i], extra, live + [None];
    } else {
      var c := Get(counters, o);
      KeepStep(cur, plants, order, min, i, counters, toChange, extra, live);
      // one of the remainder farms goes to this plant when it reaches its share
      extra' := if c == min then extra - 1 else extra;
      counters', toChange', live' := counters[o := c + 1], toChange, live + [Some(o)];
    }
  }

  /** The position of the next queued farm, or `n` once the queue is drained. */
  function NextQueued(q: seq<nat>, d: nat, n: nat): nat {
    if d < |q| then q[d] else n
  }

  /** The queue built by the first pass: ascending farm positions, `d` of them consumed. */
  ghost predicate QueueShape(n: nat, q0: seq<nat>, d: nat) {
    && d <= |q0|
    && (forall a, b :: 0 <= a < b < |q0| ==> q0[a] < q0[b])
    && (forall a :: 0 <= a < |q0| ==> q0[a] < n)
  }

  /**
   * Marks of the second pass: a farm is unmarked exactly while it waits in the
   * queue, a marked farm grows its mark, and a farm not consumed yet still
   * grows what it grew before.
   */
  ghost predicate Marks(cur: seq<int>, plants: set<int>, q0: seq<nat>, d: nat, now: seq<int>, live: seq<Option<int>>)
    requires d <= |q0|
  {
    && |now| == |cur| == |live|
    && (forall l :: 0 <= l < |cur| ==> (live[l] == None <==> l in q0[d..]))
    && (forall l :: 0 <= l < |cur| && live[l] != None ==> live[l] == Some(now[l]) && now[l] in plants)
    && (forall l :: 0 <= l < |cur| && l !in q0[..d] ==> now[l] == cur[l])
  }

  /** The counters count the marks; marks plus waiting farms are all farms; spent credits are plants at min + 1. */
  ghost predicate Tallies(cur: seq<int>, plants: set<int>, order: seq<int>, min: nat, q0: seq<nat>, d: nat,
                          live: seq<Option<int>>, g: map<int, int>, extra: int)
    requires plants != {} && d <= |q0|
  {
    && (forall p :: p in plants ==> Get(g, p) == Count(live, Some(p)) <= min + 1)
    && SumOver(g, order) + (|q0| - d) == |cur|
    && 0 <= extra
    && NumAt(g, order, min + 1) == |cur| % |plants| - extra
  }

  /**
   * What the second pass of `set_farms` keeps: the queue is consumed from the
   * front, each consumed farm is marked with its new plant, and the log holds
   * the change line of every farm before the next queued one.
   */
  ghost predicate FillInv(cur: seq<int>, plants: set<int>, order: seq<int>, min: nat, ids: seq<int>,
                          q0: seq<nat>, d: nat, now: seq<int>, live: seq<Option<int>>,
                          g: map<int, int>, extra: int, log: seq<Change>)
    requires plants != {}
  {
    && QueueShape(|cur|, q0, d)
    && Marks(cur, plants, q0, d, now, live)
    && Tallies(cur, plants, order, min, q0, d, live, g, extra)
    && |ids| == |cur|
    && log == Diffs(ids, cur, now, NextQueued(q0, d, |cur|))
  }

  /** Once every plant has had its turn, the queue is empty and the outcome is balanced. */
  lemma Drained(cur: seq<int>, plants: set<int>, order: seq<int>, min: nat,
                q0: seq<nat>, d: nat, now: seq<int>, live: seq<Option<int>>, g: map<int, int>, extra: int)
    requires plants != {} && Enumerates(order, plants) && |order| == |plants| && min == |cur| / |plants|
    requires d <= |q0| && Marks(cur, plants, q0, d, now, live) && Tallies(cur, plants, order, min, q0, d, live, g, extra)
    requires d < |q0| ==>
               forall j :: 0 <= j < |order| ==> Get(g, order[j]) >= min && (Get(g, order[j]) == min + 1 || extra == 0)
    ensures d == |q0| && extra == 0
    ensures Balanced(now, plants)
  {
    DrainedQueue(cur, plants, order, min, q0, d, live, g, extra);
    DrainedLive(cur, plants, q0, d, now, live);
    DrainedShares(cur, plants, order, min, q0, d, live, g);
    forall p | p in plants
      ensures Count(now, p) == Get(g, p)
    {
      CountSome(live, now, p);
    }
    SharesBalanced(now, plants, order, min, g);
  }

  /** Counts of `min` or `min + 1` per wanted plant, with the right number at `min + 1`, are a balanced outcome. */
  lemma SharesBalanced(now: seq<int>, plants: set<int>, order: seq<int>, min: nat, g: map<int, int>)
    requires plants != {} && Enumerates(order, plants) && min == |now| / |plants|
    requires forall l :: 0 <= l < |now| ==> now[l] in plants
    requires forall p :: p in plants ==> Count(now, p) == Get(g, p) && min <= Get(g, p) <= min + 1
    requires NumAt(g, order, min + 1) == |now| % |plants|
    ensures Balanced(now, plants)
  {
    NumAtCard(g, order, min + 1);
    var atTop := set x | x in order && Get(g, x) == min + 1;
    var larger := set p | p in plants && Count(now, p) == |now| / |plants| + 1;
    forall x
      ensures x in atTop <==> x in larger
    {
      if x in plants {
        assert Count(now, x) == Get(g, x);
      }
    }
    assert atTop == larger;
  }

  /** With the queue drained and no extra left, every wanted plant has `min` or `min + 1` farms. */
  lemma DrainedShares(cur: seq<int>, plants: set<int>, order: seq<int>, min: nat,
                      q0: seq<nat>, d: nat, live: seq<Option<int>>, g: map<int, int>)
    requires plants != {} && Enumerates(order, plants) && |order| == |plants| && min == |cur| / |plants|
    requires d == |q0| && Tallies(cur, plants, order, min, q0, d, live, g, 0)
    ensures forall p :: p in plants ==> min <= Get(g, p) <= min + 1
  {
    var K := |order|;
    assert |cur| == K * min + |cur| % K;
    assert SumOver(g, order) == K * min + NumAt(g, order, min + 1);
    SumUpper(g, order, min);
  }

  /** With the queue drained, every farm holds a wanted plant again. */
  lemma DrainedLive(cur: seq<int>, plants: set<int>, q0: seq<nat>, d: nat, now: seq<int>, live: seq<Option<int>>)
    requires d == |q0| && Marks(cur, plants, q0, d, now, live)
    ensures forall l :: 0 <= l < |now| ==> live[l] == Some(now[l]) && now[l] in plants
  {
    assert q0[d..] == [];
  }

  lemma DrainedQueue(cur: seq<int>, plants: set<int>, order: seq<int>, min: nat,
                     q0: seq<nat>, d: nat, live: seq<Option<int>>, g: map<int, int>, extra: int)
    requires plants != {} && Enumerates(order, plants) && |order| == |plants| && min == |cur| / |plants|
    requires d <= |q0| && Tallies(cur, plants, order, min, q0, d, live, g, extra)
    requires d < |q0| ==>
               forall j :: 0 <= j < |order| ==> Get(g, order[j]) >= min && (Get(g, order[j]) == min + 1 || extra == 0)
    ensures d == |q0| && extra == 0
  {
    var K := |plants|;
    assert |cur| == K * min + |cur| % K;
    if d < |q0| {
      if extra > 0 {
        NumAtAll(g, order, min + 1);
        assert false;
      } else {
        SumLower(g, order, min);
        assert false;
      }
    }
    SumUpper(g, order, min);
  }

  /** Handing the next queued farm to plant `n` keeps the second-pass invariant. */
  lemma FillStep(cur: seq<int>, plants: set<int>, order: seq<int>, min: nat, ids: seq<int>,
                 q0: seq<nat>, d: nat, now: seq<int>, live: seq<Option<int>>,
                 g: map<int, int>, extra: int, log: seq<Change>, n: int)
    requires plants != {} && Enumerates(order, plants)
    requires FillInv(cur, plants, order, min, ids, q0, d, now, live, g, extra, log)
    requires d < |q0| && n in plants
    requires Get(g, n) < min || (Get(g, n) == min && extra > 0)
    ensures var k, c := q0[d], Get(g, n);
            && now[k] == cur[k]
            && FillInv(cur, plants, order, min, ids, q0, d + 1, now[k := n], live[k := Some(n)],
                       g[n := c + 1], if c == min then extra - 1 else extra,
                       log + (if cur[k] != n then [Change(ids[k], cur[k], n)] else []))
  {
    FillMarks(cur, plants, q0, d, now, live, n);
    FillTallies(cur, plants, order, min, q0, d, live, g, extra, n);
    FillLog(cur, ids, q0, d, now, log, n);
  }

  lemma FillMarks(cur: seq<int>, plants: set<int>, q0: seq<nat>, d: nat, now: seq<int>, live: seq<Option<int>>, n: int)
    requires QueueShape(|cur|, q0, d) && d < |q0| && n in plants
    requires Marks(cur, plants, q0, d, now, live)
    ensures now[q0[d]] == cur[q0[d]] && live[q0[d]] == None
    ensures Marks(cur, plants, q0, d + 1, now[q0[d] := n], live[q0[d] := Some(n)])
  {
    var k := q0[d];
    var now', live' := now[k := n], live[k := Some(n)];
    assert k in q0[d..];
    assert k !in q0[..d];
    assert q0[d + 1..] == q0[d..][1..];
    assert q0[..d + 1] == q0[..d] + [k];
    forall l | 0 <= l < |cur|
      ensures live'[l] == None <==> l in q0[d + 1..]
    {
      if l in q0[d + 1..] {
        assert l != k;
      }
    }
  }

  lemma FillTallies(cur: seq<int>, plants: set<int>, order: seq<int>, min: nat, q0: seq<nat>, d: nat,
                    live: seq<Option<int>>, g: map<int, int>, extra: int, n: int)
    requires plants != {} && Enumerates(order, plants) && d < |q0| && n in plants
    requires q0[d] < |live| && live[q0[d]] == None
    requires Get(g, n) < min || (Get(g, n) == min && extra > 0)
    requires Tallies(cur, plants, order, min, q0, d, live, g, extra)
    ensures var c := Get(g, n);
            Tallies(cur, plants, order, min, q0, d + 1, live[q0[d] := Some(n)], g[n := c + 1],
                    if c == min then extra - 1 else extra)
  {
    var k, c := q0[d], Get(g, n);
    forall p | p in plants
      ensures Count(live[k := Some(n)], Some(p)) == Count(live, Some(p)) + (if n == p then 1 else 0)
    {
      CountUpdate(live, k, Some(n), Some(p));
    }
    SumOverUpdate(g, order, n, c + 1, min + 1);
  }

  lemma FillLog(cur: seq<int>, ids: seq<int>, q0: seq<nat>, d: nat, now: seq<int>, log: seq<Change>, n: int)
    requires QueueShape(|cur|, q0, d) && d < |q0| && |ids| == |now| == |cur|
    requires forall l :: 0 <= l < |cur| && l !in q0[..d] ==> now[l] == cur[l]
    requires log == Diffs(ids, cur, now, NextQueued(q0, d, |cur|))
    ensures var k := q0[d];
            log + (if cur[k] != n then [Change(ids[k], cur[k], n)] else []) ==
            Diffs(ids, cur, now[k := n], NextQueued(q0, d + 1, |cur|))
  {
    QueueGap(cur, q0, d, now, n);
    DiffsExtend(ids, cur, now, q0[d], NextQueued(q0, d + 1, |cur|), n);
  }

  /**
   * Re-planting farm `k` with `n` appends its change line, if any, and farms
   * after it up to `k'` that kept their plant add none.
   */
  lemma DiffsExtend(ids: seq<int>, before: seq<int>, now: seq<int>, k: nat, k': nat, n: int)
    requires k < k' <= |before| && |ids| == |before| == |now|
    requires forall l :: k < l < k' ==> before[l] == now[k := n][l]
    ensures Diffs(ids, before, now, k) + (if before[k] != n then [Change(ids[k], before[k], n)] else []) ==
            Diffs(ids, before, now[k := n], k')
  {
    var now' := now[k := n];
    DiffsSkip(ids, before, now', k + 1, k');
    DiffsAgree(ids, before, now, now', k);
    assert Diffs(ids, before, now', k + 1) ==
           Diffs(ids, before, now', k) + (if before[k] != n then [Change(ids[k], before[k], n)] else []);
  }

  /** Between the farm consumed now and the next queued one, every farm still grows what it grew. */
  lemma QueueGap(cur: seq<int>, q0: seq<nat>, d: nat, now: seq<int>, n: int)
    requires QueueShape(|cur|, q0, d) && d < |q0| && |now| == |cur|
    requires forall l :: 0 <= l < |cur| && l !in q0[..d] ==> now[l] == cur[l]
    ensures q0[d] < NextQueued(q0, d + 1, |cur|) <= |cur|
    ensures forall l :: q0[d] < l < NextQueued(q0, d + 1, |cur|) ==> cur[l] == now[q0[d] := n][l]
  {
    var k := q0[d];
    var k' := NextQueued(q0, d + 1, |cur|);
    assert forall a :: 0 <= a < d ==> q0[a] < k;
    forall l | k < l < k'
      ensures cur[l] == now[k := n][l]
    {
      assert l !in q0[..d];
    }
  }

  /** At the start of the second pass nothing is consumed and nothing is logged. */
  lemma FillStart(cur: seq<int>, plants: set<int>, order: seq<int>, min: nat, ids: seq<int>,
                  q0: seq<nat>, live: seq<Option<int>>, g: map<int, int>, extra: int)
    requires plants != {} && |ids| == |cur|
    requires PassInv(cur, plants, order, min, |cur|, g, q0, extra, live)
    ensures FillInv(cur, plants, order, min, ids, q0, 0, cur, live, g, extra, [])
  {
    assert q0[0..] == q0;
    DiffsSkip(ids, cur, cur, 0, NextQueued(q0, 0, |cur|));
  }

  /** `after` differs from `before` only in the `season` plant of farms of `group`. */
  ghost predicate SeasonEdit(before: seq<FarmPlot>, after: seq<FarmPlot>, group: seq<int>, season: Season) {
    && |after| == |before|
    && (forall j :: 0 <= j < |before| ==> OnlySeasonChanged(before[j], after[j], season))
    && (forall j :: 0 <= j < |before| && j !in group ==> after[j] == before[j])
  }

  /** Re-planting farm `group[k]` moves the group's view at `k` alone and keeps the ids. */
  lemma WriteFarm(start: seq<FarmPlot>, fs: seq<FarmPlot>, gs: seq<FarmPlot>, group: seq<int>, season: Season, k: nat, n: int)
    requires ValidGroup(group, |fs|) && k < |group| && SeasonEdit(start, fs, group, season)
    requires gs == fs[group[k] := fs[group[k]].(plantId := fs[group[k]].plantId[season := n])]
    ensures SeasonEdit(start, gs, group, season)
    ensures View(gs, group, season) == View(fs, group, season)[k := n]
    ensures Ids(gs, group) == Ids(fs, group)
  {
    ViewUpdate(fs, group, season, k, gs[group[k]]);
    var a, b := Ids(gs, group), Ids(fs, group);
    assert forall l :: 0 <= l < |group| ==> a[l] == b[l];
  }

  /** Plants from the `t`-th on still have the counters the first pass left. */
  ghost predicate Untouched(g: map<int, int>, counters: map<int, int>, order: seq<int>, t: int) {
    forall j :: 0 <= j < |order| && t <= j ==> Get(g, order[j]) == Get(counters, order[j])
  }

  /** Plants before the `t`-th took no more farms although the queue was not empty. */
  ghost predicate Saturated(g: map<int, int>, order: seq<int>, t: int, min: int, extra: int) {
    forall j :: 0 <= j < t && j < |order| ==> Get(g, order[j]) >= min && (Get(g, order[j]) == min + 1 || extra == 0)
  }

  /** Giving one more farm to the `t`-th plant leaves the other plants' counters alone. */
  lemma TurnStep(g: map<int, int>, g': map<int, int>, counters: map<int, int>, order: seq<int>, t: nat,
                 min: int, extra: int, extra': int, c: int)
    requires t < |order| && (forall a, b :: 0 <= a < b < |order| ==> order[a] < order[b])
    requires c == Get(g, order[t]) && (c < min || (c == min && extra > 0))
    requires g' == g[order[t] := c + 1] && extra' == if c == min then extra - 1 else extra
    requires Untouched(g, counters, order, t + 1) && Saturated(g, order, t, min, extra)
    ensures Untouched(g', counters, order, t + 1) && Saturated(g', order, t, min, extra')
  {
  }

  /** The first `k` farms of `group` lie fallow, the rest grow what they grew, and `log` has the lines so far. */
  ghost predicate FallowState(start: seq<FarmPlot>, fs: seq<FarmPlot>, group: seq<int>, season: Season,
                              ids: seq<int>, cur: seq<int>, k: nat, log: seq<Change>)
  {
    && ValidGroup(group, |fs|) && k <= |group| && |cur| == |group|
    && SeasonEdit(start, fs, group, season)
    && Ids(fs, group) == ids
    && (forall l :: 0 <= l < k ==> View(fs, group, season)[l] == FALLOW)
    && (forall l :: k <= l < |group| ==> View(fs, group, season)[l] == cur[l])
    && log == Diffs(ids, cur, View(fs, group, season), k)
  }

  /** The fallow branch of `set_farms`: every farm of `group` stops growing anything this season. */
  method Fallow(farms: array<FarmPlot>, group: seq<int>, season: Season) returns (log: seq<Change>)
    requires ValidGroup(group, farms.Length)
    modifies farms
    ensures SeasonEdit(old(farms[..]), farms[..], group, season)
    ensures forall l :: 0 <= l < |group| ==> View(farms[..], group, season)[l] == FALLOW
    ensures log == Diffs(Ids(old(farms[..]), group), View(old(farms[..]), group, season),
                         View(farms[..], group, season), |group|)
  {
    ghost var start := farms[..];
    ghost var ids := Ids(farms[..], group);
    ghost var cur := View(farms[..], group, season);
    log := [];
    var k := 0;
    while k < |group|
      invariant k <= |group|
      invariant FallowState(start, farms[..], group, season, ids, cur, k, log)
    {
      log := FallowFarm(farms, group, season, k, log, start, ids, cur);
      k := k + 1;
    }
  }

  /** One turn of the fallow loop: farm `group[k]` stops growing anything. */
  method FallowFarm(farms: array<FarmPlot>, group: seq<int>, season: Season, k: nat, log: seq<Change>,
                    ghost start: seq<FarmPlot>, ghost ids: seq<int>, ghost cur: seq<int>)
    returns (log': seq<Change>)
    requires k < |group| && FallowState(start, farms[..], group, season, ids, cur, k, log)
    modifies farms
    ensures FallowState(start, farms[..], group, season, ids, cur, k + 1, log')
  {
    ghost var before := farms[..];
    var entry := SetFarm(farms, FALLOW, group[k], season);
    WriteFarm(start, before, farms[..], group, season, k, FALLOW);
    DiffsAgree(ids, cur, View(before, group, season), View(farms[..], group, season), k);
    log' := log + entry;
  }

  /**
   * `set_farms`: re-plant the farms of `group` (one biome) for `season` so
   * that the wanted `plants` share them as equally as possible while as few
   * farms as possible change. With no wanted plant every farm goes fallow.
   */
  method SetFarms(farms: array<FarmPlot>, plants: set<int>, group: seq<int>, season: Season) returns (log: seq<Change>)
    requires ValidGroup(group, farms.Length)
    modifies farms
    ensures SeasonEdit(old(farms[..]), farms[..], group, season)
    ensures Rebalanced(View(old(farms[..]), group, season), View(farms[..], group, season), plants)
    ensures log == Diffs(Ids(old(farms[..]), group), View(old(farms[..]), group, season),
                         View(farms[..], group, season), |group|)
  {
    if |group| == 0 || plants == {} {
      log := Fallow(farms, group, season);
      if plants != {} {
        EmptyBalanced(View(farms[..], group, season), plants);
      }
      return;
    }
    var cur := View(farms[..], group, season);
    var order := Ascending(plants);
    var min, counters, toChange, extra, live := KeepPass(cur, plants, order);
    log := FillPass(farms, group, season, plants, order, min, counters, toChange, extra, cur, live);
  }

  /**
   * The second pass of `set_farms`: plants in ascending order each take
   * excess farms from the front of the queue until they reach their share.
   */
  method FillPass(farms: array<FarmPlot>, group: seq<int>, season: Season, plants: set<int>, order: seq<int>,
                  min: nat, counters: map<int, int>, toChange: seq<nat>, extra: int,
                  ghost cur: seq<int>, ghost live0: seq<Option<int>>)
    returns (log: seq<Change>)
    requires ValidGroup(group, farms.Length) && plants != {}
    requires forall a, b :: 0 <= a < b < |order| ==> order[a] < order[b]
    requires (forall x :: x in order <==> x in plants) && |order| == |plants|
    requires cur == View(farms[..], group, season) && min == |cur| / |plants|
    requires PassInv(cur, plants, order, min, |cur|, counters, toChange, extra, live0)
    modifies farms
    ensures SeasonEdit(old(farms[..]), farms[..], group, season)
    ensures Balanced(View(farms[..], group, season), plants)
    ensures forall l :: 0 <= l < |cur| && l !in toChange ==> View(farms[..], group, season)[l] == cur[l]
    ensures log == Diffs(Ids(old(farms[..]), group), cur, View(farms[..], group, season), |group|)
  {
    ghost var start := farms[..];
    ghost var ids := Ids(farms[..], group);
    ghost var d: nat := 0;
    ghost var q0, g, now, live := toChange, counters, cur, live0;
    FillStart(cur, plants, order, min, ids, q0, live, g, extra);
    var queue, spare := toChange, extra;
    log := [];
    var t := 0;
    while t < |order|
      invariant 0 <= t <= |order|
      invariant FillState(start, farms[..], group, season, cur, plants, order, min, ids, q0, d, now, live, g, spare, log, queue)
      invariant Untouched(g, counters, order, t)
      invariant |queue| > 0 ==> Saturated(g, order, t, min, spare)
    {
      queue, spare, log, d, now, live, g :=
        GiveTurn(farms, group, season, order[t], Get(counters, order[t]), min, queue, spare, log,
                 start, cur, plants, order, ids, q0, d, now, live, g, counters, t);
      t := t + 1;
    }
    Drained(cur, plants, order, min, q0, d, now, live, g, spare);
    assert q0[..d] == toChange;
  }

  /** The state the second pass of `set_farms` keeps, with the farms themselves. */
  ghost predicate FillState(start: seq<FarmPlot>, fs: seq<FarmPlot>, group: seq<int>, season: Season,
                            cur: seq<int>, plants: set<int>, order: seq<int>, min: nat, ids: seq<int>,
                            q0: seq<nat>, d: nat, now: seq<int>, live: seq<Option<int>>,
                            g: map<int, int>, spare: int, log: seq<Change>, queue: seq<nat>)
    requires plants != {}
  {
    && ValidGroup(group, |fs|)
    && SeasonEdit(start, fs, group, season)
    && Ids(fs, group) == ids && View(fs, group, season) == now
    && FillInv(cur, plants, order, min, ids, q0, d, now, live, g, spare, log)
    && queue == q0[d..]
  }

  /**
   * One plant's turn in the second pass of `set_farms`: plant `n`, which the
   * first pass left at `c0` farms, takes excess farms from the front of the
   * queue while it is under its share and the queue is not empty.
   */
  method GiveTurn(farms: array<FarmPlot>, group: seq<int>, season: Season, n: int, c0: int, min: nat,
                  queue0: seq<nat>, spare0: int, log0: seq<Change>,
                  ghost start: seq<FarmPlot>, ghost cur: seq<int>, ghost plants: set<int>, ghost order: seq<int>,
                  ghost ids: seq<int>, ghost q0: seq<nat>, ghost d0: nat, ghost now0: seq<int>,
                  ghost live0: seq<Option<int>>, ghost g0: map<int, int>, ghost counters: map<int, int>, ghost t: nat)
    returns (queue: seq<nat>, spare: int, log: seq<Change>,
             ghost d: nat, ghost now: seq<int>, ghost live: seq<Option<int>>, ghost g: map<int, int>)
    requires plants != {} && Enumerates(order, plants)
    requires forall a, b :: 0 <= a < b < |order| ==> order[a] < order[b]
    requires t < |order| && n == order[t] && c0 == Get(counters, n)
    requires FillState(start, farms[..], group, season, cur, plants, order, min, ids, q0, d0, now0, live0, g0, spare0, log0, queue0)
    requires Untouched(g0, counters, order, t)
    requires |queue0| > 0 ==> Saturated(g0, order, t, min, spare0)
    modifies farms
    ensures FillState(start, farms[..], group, season, cur, plants, order, min, ids, q0, d, now, live, g, spare, log, queue)
    ensures Untouched(g, counters, order, t + 1)
    ensures |queue| > 0 ==> Saturated(g, order, t + 1, min, spare)
  {
    queue, spare, log, d, now, live, g := queue0, spare0, log0, d0, now0, live0, g0;
    var c := c0;
    while |queue| > 0 && (c < min || (c == min && spare > 0))
      invariant FillState(start, farms[..], group, season, cur, plants, order, min, ids, q0, d, now, live, g, spare, log, queue)
      invariant c == Get(g, n)
      invariant Untouched(g, counters, order, t + 1)
      invariant |queue| > 0 ==> Saturated(g, order, t, min, spare)
      decreases |queue|
    {
      queue, spare, log, d, now, live, g :=
        GiveFarm(farms, group, season, n, c, min, queue, spare, log,
                 start, cur, plants, order, ids, q0, d, now, live, g, counters, t);
      c := c + 1;
    }
  }

  /** One step of a plant's turn: plant `n`, at `c` farms, takes the oldest excess farm. */
  method GiveFarm(farms: array<FarmPlot>, group: seq<int>, season: Season, n: int, c: int, min: nat,
                  queue0: seq<nat>, spare0: int, log0: seq<Change>,
                  ghost start: seq<FarmPlot>, ghost cur: seq<int>, ghost plants: set<int>, ghost order: seq<int>,
                  ghost ids: seq<int>, ghost q0: seq<nat>, ghost d0: nat, ghost now0: seq<int>,
                  ghost live0: seq<Option<int>>, ghost g0: map<int, int>, ghost counters: map<int, int>, ghost t: nat)
    returns (queue: seq<nat>, spare: int, log: seq<Change>,
             ghost d: nat, ghost now: seq<int>, ghost live: seq<Option<int>>, ghost g: map<int, int>)
    requires plants != {} && Enumerates(order, plants)
    requires forall a, b :: 0 <= a < b < |order| ==> order[a] < order[b]
    requires t < |order| && n == order[t]
    requires FillState(start, farms[..], group, season, cur, plants, order, min, ids, q0, d0, now0, live0, g0, spare0, log0, queue0)
    requires c == Get(g0, n) && |queue0| > 0 && (c < min || (c == min && spare0 > 0))
    requires Untouched(g0, counters, order, t + 1)
    requires Saturated(g0, order, t, min, spare0)
    modifies farms
    ensures FillState(start, farms[..], group, season, cur, plants, order, min, ids, q0, d, now, live, g, spare, log, queue)
    ensures c + 1 == Get(g, n) && |queue| < |queue0|
    ensures Untouched(g, counters, order, t + 1)
    ensures |queue| > 0 ==> Saturated(g, order, t, min, spare)
  {
    var k := queue0[0];
    FillStep(cur, plants, order, min, ids, q0, d0, now0, live0, g0, spare0, log0, n);
    ghost var before := farms[..];
    var entry := SetFarm(farms, n, group[k], season);
    WriteFarm(start, before, farms[..], group, season, k, n);
    log := log0 + entry;
    queue := queue0[1..];
    spare := if c == min then spare0 - 1 else spare0;
    g := g0[n := c + 1];
    TurnStep(g0, g, counters, order, t, min, spare0, spare, c);
    now, live, d := now0[k := n], live0[k := Some(n)], d0 + 1;
  }

  /** No farm at all is a balanced outcome for any wanted plants. */
  lemma EmptyBalanced(v: seq<int>, plants: set<int>)
    requires |v| == 0 && plants != {}
    ensures Balanced(v, plants)
  {
    assert (set p | p in plants && Count(v, p) == |v| / |plants| + 1) == {};
  }

  /**
   * Running `set_farms` a second time with the same wanted plants changes
   * nothing and logs nothing.
   */
  lemma RerunIsStable(ids: seq<int>, v1: seq<int>, v2: seq<int>, v3: seq<int>, plants: set<int>)
    requires |ids| == |v1|
    requires Rebalanced(v1, v2, plants) && Rebalanced(v2, v3, plants)
    ensures v3 == v2
    ensures Diffs(ids, v2, v3, |v2|) == []
  {
    if plants == {} {
      assert forall k :: 0 <= k < |v2| ==> v3[k] == v2[k];
    }
    DiffsSkip(ids, v2, v3, 0, |v2|);
  }
}
