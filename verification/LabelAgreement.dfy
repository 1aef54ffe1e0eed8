/** When the label simulation shows what the plain filter of the importer does, and what its
    numbers then promise. */
module LabelAgreement {
  import opened Domain
  import opened ImportLines
  import opened Preflight
  import opened LabelSimulation

  /** The labels a series keeps. */
  function KeptLabels(labels: set<string>, drop: set<string>): set<string> {
    set l | l in labels && (l in PROTECTED || l !in drop)
  }

  lemma FilterKeeps(metric: Labels, drop: set<string>)
    ensures FilterMetricLabels(metric, drop).Keys == KeptLabels(metric.Keys, drop)
    ensures |FilterMetricLabels(metric, drop)| == |KeptLabels(metric.Keys, drop)|
    ensures forall k :: k in FilterMetricLabels(metric, drop) ==> FilterMetricLabels(metric, drop)[k] == metric[k]
  {
    assert FilterMetricLabels(metric, drop).Keys == KeptLabels(metric.Keys, drop);
  }

  /** What the plain filter does to the first `n` series. */
  function PlainImpact(series: seq<Series>, drop: set<string>, limit: int, n: nat): Impact
    requires n <= |series|
  {
    if n == 0 then NO_IMPACT
    else
      var last := series[n - 1];
      PlainImpact(series, drop, limit, n - 1).With(|KeptLabels(last.labels, drop)|, last.points, limit)
  }

  // ---- Trimmed names ----

  lemma {:induction false} TrimLeftMeans(s: string)
    ensures TrimLeft(s) == "" || !IsSpace(TrimLeft(s)[0])
    ensures s == "" || !IsSpace(s[0]) ==> TrimLeft(s) == s
  {
    if |s| > 0 && IsSpace(s[0]) { TrimLeftMeans(s[1..]); }
  }

  lemma {:induction false} TrimRightMeans(s: string)
    ensures TrimRight(s) <= s
    ensures TrimRight(s) == "" || !IsSpace(TrimRight(s)[|TrimRight(s)| - 1])
    ensures s == "" || !IsSpace(s[|s| - 1]) ==> TrimRight(s) == s
  {
    if |s| > 0 && IsSpace(s[|s| - 1]) { TrimRightMeans(s[..|s| - 1]); }
  }

  lemma TrimIdempotent(s: string)
    ensures Trim(Trim(s)) == Trim(s)
  {
    TrimLeftMeans(s);
    TrimRightMeans(TrimLeft(s));
    TrimLeftMeans(Trim(s));
    TrimRightMeans(Trim(s));
  }

  /** The page's names are the trimmed ones that are not blank. */
  lemma {:induction false} CleanedMeans(universe: seq<string>)
    ensures |Cleaned(universe)| <= |universe|
    ensures forall l :: l in Cleaned(universe) ==> l != "" && Trim(l) == l
    ensures forall l :: l in universe && l != "" && Trim(l) == l ==> l in Cleaned(universe)
  {
    if |universe| > 0 {
      var n := |universe| - 1;
      CleanedMeans(universe[..n]);
      TrimIdempotent(universe[n]);
      assert universe == universe[..n] + [universe[n]];
    }
  }

  // ---- The page and the plain filter ----

  /** Labels the page lets one select. */
  predicate Selectable(selected: seq<string>) {
    Distinct(selected) && forall l :: l in selected ==> l !in PROTECTED && l != "" && Trim(l) == l
  }

  /** Every name the page offers for dropping stands at its own place in the preflight's list. */
  predicate InPlace(universe: seq<string>) {
    var at := Positions(Cleaned(universe));
    forall l :: l in at && l !in PROTECTED ==> at[l] < |universe| && universe[at[l]] == l
  }

  function Dropped(labels: set<string>, universe: seq<string>, selected: seq<string>): set<string> {
    set l | l in labels && l in selected && l in universe
  }

  /** The bits counted for a series are its dropped labels. */
  lemma {:induction false} CountedAreDropped(
    bitset: Bitset, labels: set<string>, universe: seq<string>, selected: seq<string>)
    requires Encodes(bitset, labels, universe) && InPlace(universe) && Selectable(selected)
    ensures CountBits(bitset, Selected(selected, Cleaned(universe))) == |Dropped(labels, Cleaned(universe), selected)|
  {
    var names := Cleaned(universe);
    if |selected| == 0 {
      assert Dropped(labels, names, selected) == {};
    } else {
      var before, name := selected[..|selected| - 1], selected[|selected| - 1];
      assert selected == before + [name];
      CountedAreDropped(bitset, labels, universe, before);
      OneMoreDropped(labels, names, before, name);
      PositionsMeans(names);
      if name in names {
        var indexes := Selected(selected, names);
        assert indexes[..|indexes| - 1] == Selected(before, names);
        assert BitFits(bitset, labels, universe, Positions(names)[name]);
      }
    }
  }

  lemma OneMoreDropped(labels: set<string>, universe: seq<string>, before: seq<string>, name: string)
    requires name !in before
    ensures |Dropped(labels, universe, before + [name])|
            == |Dropped(labels, universe, before)| + if name in labels && name in universe then 1 else 0
  {
    var was, all := Dropped(labels, universe, before), Dropped(labels, universe, before + [name]);
    assert all == if name in labels && name in universe then was + {name} else was;
  }

  /** What one series keeps in the simulation is what the plain filter keeps. */
  lemma SeriesAgrees(bitset: Bitset, labels: set<string>, universe: seq<string>, selected: seq<string>)
    requires Encodes(bitset, labels, universe) && InPlace(universe) && Selectable(selected)
    requires forall l :: l in labels ==> l in universe || l == ""
    ensures Max(0, |labels| - CountBits(bitset, Selected(selected, Cleaned(universe))))
            == |KeptLabels(labels, Names(selected))|
  {
    CountedAreDropped(bitset, labels, universe, selected);
    CleanedMeans(universe);
    var gone := Dropped(labels, Cleaned(universe), selected);
    var kept := KeptLabels(labels, Names(selected));
    assert gone + kept == labels && gone !! kept;
  }

  ghost predicate Recorded(series: seq<Series>, universe: seq<string>) {
    forall k :: 0 <= k < |series| ==> forall l :: l in series[k].labels ==> l in universe || l == ""
  }

  function LabelCounts(series: seq<Series>): seq<nat> {
    seq(|series|, k requires 0 <= k < |series| => |series[k].labels|)
  }

  function PointCounts(series: seq<Series>): seq<nat> {
    seq(|series|, k requires 0 <= k < |series| => series[k].points)
  }

  /** The simulation the page builds from recorded series and their bitsets over `universe`. */
  ghost predicate Shows(universe: seq<string>, series: seq<Series>, encoded: seq<Bitset>, capped: bool,
                        sim: Simulation) {
    && |series| > 0 && Recorded(series, universe) && |encoded| == |series|
    && (forall k :: 0 <= k < |series| ==> Encodes(encoded[k], series[k].labels, universe))
    && SimulationOf(universe, encoded, LabelCounts(series), PointCounts(series), capped) == Some(sim)
  }

  lemma ShownIsHeld(universe: seq<string>, series: seq<Series>, encoded: seq<Bitset>, capped: bool, sim: Simulation)
    requires Shows(universe, series, encoded, capped, sim)
    ensures sim.Valid() && sim.seriesCount == |series| && sim.universe == Cleaned(universe)
    ensures sim.bitsets == encoded && sim.labelCounts == LabelCounts(series) && sim.pointCounts == PointCounts(series)
  {
  }

  ghost predicate Agrees(series: seq<Series>, sim: Simulation, selected: seq<string>, limit: int) {
    sim.Valid() && sim.seriesCount == |series| &&
    ImpactOf(sim, Selected(selected, sim.universe), limit, |series|)
    == PlainImpact(series, Names(selected), limit, |series|)
  }

  lemma {:induction false} ImpactsAgree(
    universe: seq<string>, series: seq<Series>, sim: Simulation, selected: seq<string>, limit: int, n: nat)
    requires sim.Valid() && sim.seriesCount == |series| && sim.universe == Cleaned(universe) && n <= |series|
    requires forall k :: 0 <= k < |series| ==> Encodes(sim.bitsets[k], series[k].labels, universe)
    requires sim.labelCounts == LabelCounts(series) && sim.pointCounts == PointCounts(series)
    requires InPlace(universe) && Recorded(series, universe) && Selectable(selected)
    ensures ImpactOf(sim, Selected(selected, sim.universe), limit, n) == PlainImpact(series, Names(selected), limit, n)
  {
    if n > 0 {
      ImpactsAgree(universe, series, sim, selected, limit, n - 1);
      SeriesAgrees(sim.bitsets[n - 1], series[n - 1].labels, universe, selected);
    }
  }

  /** When every offered name stands at its own place, the page shows what filtering every
      recorded series gives. */
  lemma SimulationAgreesWithFilter(universe: seq<string>, series: seq<Series>, encoded: seq<Bitset>, capped: bool,
                                   sim: Simulation, selected: seq<string>, limit: int)
    requires InPlace(universe) && Shows(universe, series, encoded, capped, sim) && Selectable(selected)
    ensures Agrees(series, sim, selected, limit)
  {
    ShownIsHeld(universe, series, encoded, capped, sim);
    ImpactsAgree(universe, series, sim, selected, limit, |series|);
  }

  /** The page agrees with the plain filter about all series, selections and limits. */
  ghost predicate AlwaysAgrees(universe: seq<string>) {
    forall series, encoded, capped, sim, selected, limit ::
      Shows(universe, series, encoded, capped, sim) && Selectable(selected) ==> Agrees(series, sim, selected, limit)
  }

  /** There is a bitset for every set of labels. */
  lemma {:induction false} BitsetExists(labels: set<string>, universe: seq<string>, n: nat) returns (bitset: Bitset)
    requires n <= |universe|
    ensures |bitset| == |universe| / 8 + 1
    ensures forall i: nat :: HasBit(bitset, i) <==> i < n && universe[i] in labels
  {
    if n == 0 {
      bitset := seq(|universe| / 8 + 1, _ => 0);
    } else {
      var before := BitsetExists(labels, universe, n - 1);
      bitset := if universe[n - 1] in labels then WithBit(before, n - 1) else before;
      if universe[n - 1] in labels {
        forall i: nat ensures HasBit(bitset, i) <==> HasBit(before, i) || i == n - 1 {
          WithBitSetsOne(before, n - 1, i);
        }
      }
    }
  }

  lemma OneDroppedBit(bitset: Bitset, q: nat)
    requires HasBit(bitset, q)
    ensures CountBits(bitset, [q]) == 1
  {
    assert [q][..0] == [];
  }

  /** A simulation of one series with one label, whose bit is the selected one. */
  lemma OneSeriesGone(sim: Simulation, bitset: Bitset, indexes: seq<nat>, q: nat)
    requires sim.Valid() && sim.seriesCount == 1 && sim.bitsets == [bitset] && sim.labelCounts == [1]
    requires indexes == [q] && HasBit(bitset, q)
    ensures ImpactOf(sim, indexes, 0, 1).maxAfterDrop == 0
  {
    OneDroppedBit(bitset, q);
  }

  /** The filter keeps the label if another one is dropped. */
  lemma OneSeriesKept(other: string, l: string)
    requires other != l
    ensures PlainImpact([Series({other}, 1)], Names([l]), 0, 1).maxAfterDrop == 1
  {
    assert KeptLabels({other}, Names([l])) == {other};
  }

  lemma OneSeriesShown(universe: seq<string>, other: string, bitset: Bitset, encoded: seq<Bitset>)
    returns (sim: Simulation)
    requires other in universe && |Cleaned(universe)| > 0 && encoded == [bitset]
    requires forall i: nat :: HasBit(bitset, i) <==> i < |universe| && universe[i] in {other}
    ensures Shows(universe, [Series({other}, 1)], encoded, false, sim)
    ensures sim == Simulation(Cleaned(universe), [bitset], [1], [1], 1, false)
  {
    forall i: nat ensures BitFits(bitset, {other}, universe, i) {}
    var series := [Series({other}, 1)];
    assert LabelCounts(series) == [1] && PointCounts(series) == [1];
    assert [bitset][..1] == [bitset] && [1][..1] == [1];
    sim := Simulation(Cleaned(universe), [bitset], [1], [1], 1, false);
  }

  /** A name out of place: dropping `l` clears the bit of another label, and keeps that label. */
  lemma OutOfPlaceDisagrees(universe: seq<string>, l: string)
    returns (series: seq<Series>, encoded: seq<Bitset>, sim: Simulation)
    requires l in Positions(Cleaned(universe)) && l !in PROTECTED
    requires var q := Positions(Cleaned(universe))[l]; q >= |universe| || universe[q] != l
    ensures Shows(universe, series, encoded, false, sim) && Selectable([l]) && !Agrees(series, sim, [l], 0)
  {
    CleanedMeans(universe);
    PositionsMeans(Cleaned(universe));
    var q := Positions(Cleaned(universe))[l];
    var other := universe[q];
    var bitset := BitsetExists({other}, universe, |universe|);
    series, encoded := [Series({other}, 1)], [bitset];
    sim := OneSeriesShown(universe, other, bitset, encoded);
    OneSelected(l, Cleaned(universe));
    OneSeriesGone(sim, bitset, Selected([l], sim.universe), q);
    OneSeriesKept(other, l);
  }

  lemma OneSelected(l: string, names: seq<string>)
    requires l in Positions(names)
    ensures Selected([l], names) == [Positions(names)[l]]
  {
    assert [l][..0] == [];
  }

  /** The page agrees with the plain filter exactly when every name it offers for dropping
      stands at its own place in the preflight's list. */
  lemma AgreesIff(universe: seq<string>)
    ensures AlwaysAgrees(universe) <==> InPlace(universe)
  {
    if InPlace(universe) {
      forall series, encoded, capped, sim, selected, limit
        | Shows(universe, series, encoded, capped, sim) && Selectable(selected)
        ensures Agrees(series, sim, selected, limit)
      {
        SimulationAgreesWithFilter(universe, series, encoded, capped, sim, selected, limit);
      }
    } else {
      var at := Positions(Cleaned(universe));
      var l :| l in at && l !in PROTECTED && (at[l] >= |universe| || universe[at[l]] != l);
      var series, encoded, sim := OutOfPlaceDisagrees(universe, l);
    }
  }

  /** Names that are trimmed and not blank are all in place. */
  lemma CleanIsInPlace(universe: seq<string>)
    requires forall k :: 0 <= k < |universe| ==> universe[k] != "" && Trim(universe[k]) == universe[k]
    ensures Cleaned(universe) == universe && InPlace(universe)
  {
    CleanedIsUniverse(universe);
    PositionsMeans(universe);
  }

  lemma {:induction false} CleanedIsUniverse(universe: seq<string>)
    requires forall k :: 0 <= k < |universe| ==> universe[k] != "" && Trim(universe[k]) == universe[k]
    ensures Cleaned(universe) == universe
  {
    if |universe| > 0 {
      var n := |universe| - 1;
      CleanedIsUniverse(universe[..n]);
      assert universe == universe[..n] + [universe[n]];
    }
  }

  /** A universe that lists every counted name except the empty one holds all recorded labels. */
  lemma PreviewIsRecorded(v: Preview, universe: seq<string>)
    requires forall s :: s in v.series ==> WellRecorded(s, v.labelCounts.Keys)
    requires forall l :: l in v.labelCounts ==> l in universe || l == ""
    ensures Recorded(v.series, universe)
  {
    forall k | 0 <= k < |v.series| ensures forall l :: l in v.series[k].labels ==> l in universe || l == "" {
      assert WellRecorded(v.series[k], v.labelCounts.Keys);
    }
  }

  lemma BlankIsLeftOut()
    ensures Cleaned([" ", "a"]) == ["a"]
  {
    assert TrimLeft(" ") == "" && TrimLeft("a") == "a" && TrimRight("a") == "a";
    assert [" "][..0] == [] && [" ", "a"][..1] == [" "];
    assert Cleaned([" "]) == [];
  }

  lemma FirstIsSelected()
    ensures Selected(["a"], ["a"]) == [0]
  {
    PositionsMeans(["a"]);
    assert ["a"][..0] == [];
  }

  lemma BlankSimulation(encoded: Bitset)
    ensures SimulationOf([" ", "a"], [encoded], [1], [1], false)
            == Some(Simulation(["a"], [encoded], [1], [1], 1, false))
  {
    BlankIsLeftOut();
    assert [encoded][..1] == [encoded] && [1][..1] == [1];
  }

  /** A blank name that the page leaves out moves the names after it to other bits: dropping
      "a" is then shown to leave a label that the filter removes. (After all other names it
      would move nothing.) */
  lemma BlankNameShiftsBits(encoded: Bitset, sim: Simulation)
    requires Encodes(encoded, {"a"}, [" ", "a"]) && SimulationOf([" ", "a"], [encoded], [1], [1], false) == Some(sim)
    ensures ImpactOf(sim, Selected(["a"], sim.universe), 0, 1).maxAfterDrop == 1
    ensures PlainImpact([Series({"a"}, 1)], {"a"}, 0, 1).maxAfterDrop == 0
  {
    BlankSimulation(encoded);
    FirstIsSelected();
    assert [" ", "a"][0] == " ";
    assert BitFits(encoded, {"a"}, [" ", "a"], 0);
    assert [0][..0] == [];
    assert CountBits(encoded, [0]) == 0;
    assert KeptLabels({"a"}, {"a"}) == {};
  }

  // ---- The least number of further labels ----

  lemma KeptDropsByAtMost(labels: set<string>, drop: set<string>, more: set<string>)
    ensures |KeptLabels(labels, drop)| <= |KeptLabels(labels, drop + more)| + |more|
  {
    var kept, rest := KeptLabels(labels, drop), KeptLabels(labels, drop + more);
    assert kept <= rest + more;
    SubsetSize(kept, rest + more);
  }

  lemma {:induction false} SubsetSize(a: set<string>, b: set<string>)
    requires a <= b
    ensures |a| <= |b|
  {
    assert b == a + (b - a);
  }

  /** Some series has the largest excess. */
  lemma {:induction false} ExcessIsReached(series: seq<Series>, drop: set<string>, limit: int, n: nat) returns (k: nat)
    requires n <= |series| && PlainImpact(series, drop, limit, n).maxExcess > 0
    ensures k < n && limit > 0
            && |KeptLabels(series[k].labels, drop)| == limit + PlainImpact(series, drop, limit, n).maxExcess
  {
    var after := |KeptLabels(series[n - 1].labels, drop)|;
    var before := PlainImpact(series, drop, limit, n - 1);
    if limit > 0 && after > limit && after - limit > before.maxExcess {
      k := n - 1;
    } else {
      k := ExcessIsReached(series, drop, limit, n - 1);
    }
  }

  lemma {:induction false} OverIsCounted(series: seq<Series>, drop: set<string>, limit: int, k: nat, n: nat)
    requires k < n <= |series| && limit > 0 && |KeptLabels(series[k].labels, drop)| > limit
    ensures PlainImpact(series, drop, limit, n).overSeries > 0
  {
    if k < n - 1 { OverIsCounted(series, drop, limit, k, n - 1); }
  }

  /** The number shown is a true lower bound: dropping fewer labels than that in addition
      leaves a recorded series over the limit. */
  lemma FewerDropsAreNotEnough(series: seq<Series>, drop: set<string>, more: set<string>, limit: int)
    requires |more| < PlainImpact(series, drop, limit, |series|).maxExcess
    ensures PlainImpact(series, drop + more, limit, |series|).overSeries > 0
  {
    var k := ExcessIsReached(series, drop, limit, |series|);
    KeptDropsByAtMost(series[k].labels, drop, more);
    OverIsCounted(series, drop + more, limit, k, |series|);
  }

  /** minAdditionalDrops, as the page shows it, is a true lower bound: dropping fewer labels
      than that beside the selected ones leaves a recorded series over the limit. */
  lemma ShownDropsAreNeeded(universe: seq<string>, series: seq<Series>, encoded: seq<Bitset>, capped: bool,
                            sim: Simulation, selected: seq<string>, more: set<string>, limit: int)
    requires InPlace(universe) && Shows(universe, series, encoded, capped, sim) && Selectable(selected)
    ensures Agrees(series, sim, selected, limit)
    ensures |more| < ImpactOf(sim, Selected(selected, sim.universe), limit, |series|).maxExcess ==>
              PlainImpact(series, Names(selected) + more, limit, |series|).overSeries > 0
  {
    SimulationAgreesWithFilter(universe, series, encoded, capped, sim, selected, limit);
    if |more| < PlainImpact(series, Names(selected), limit, |series|).maxExcess {
      FewerDropsAreNotEnough(series, Names(selected), more, limit);
    }
  }

  // ---- From the bundle to the page ----

  /** The label names the preflight hands out: the counted ones, each once, without the empty one. */
  ghost predicate Lists(universe: seq<string>, counts: map<string, nat>) {
    Distinct(universe) && forall l :: l in universe <==> l in counts && l != ""
  }

  /** The whole way from a bundle to what the page shows: preflight, bitsets, simulation,
      evaluation. If every offered name is in place, it is what filtering each recorded series
      would give. */
  method ShowImpact(codec: Codec, settings: Settings, b: string, sampleLimit: nat,
                    universe: seq<string>, selected: seq<string>, limit: int)
    returns (shown: Option<Impact>)
    requires Lists(universe, Analyze(codec, settings, b, sampleLimit).0.labelCounts)
    requires InPlace(universe) && Selectable(selected)
    ensures var series := Analyze(codec, settings, b, sampleLimit).0.series;
            shown == if |series| == 0 || |Cleaned(universe)| == 0 then None
                     else Some(PlainImpact(series, Names(selected), limit, |series|))
  {
    var preview, _ := AnalyzeBundle(codec, settings, b, sampleLimit);
    PreviewIsWellRecorded(codec, settings, b, sampleLimit);
    PreviewIsRecorded(preview, universe);
    var series := preview.series;
    var labels := seq(|series|, k requires 0 <= k < |series| => series[k].labels);
    var encoded := EncodeSeriesLabelBitsets(labels, universe);
    var sim := BuildLabelSimulation(universe, encoded, LabelCounts(series), PointCounts(series), preview.seriesCut);
    CleanedMeans(universe);
    if sim.None? {
      return None;
    }
    SimulationAgreesWithFilter(universe, series, encoded, preview.seriesCut, sim.value, selected, limit);
    var impact := EvaluateDropImpact(sim.value, selected, limit);
    return Some(impact);
  }

  // ---- What the numbers mean ----

  /** Series `k` keeps more labels than the limit. */
  function IsOver(series: seq<Series>, drop: set<string>, limit: int): nat -> bool {
    (k: nat) => k < |series| && 0 < limit < |KeptLabels(series[k].labels, drop)|
  }

  /** The samples of the series among the first `n` that satisfy `p`. */
  function PointsIf(series: seq<Series>, p: nat -> bool, n: nat): nat
    requires n <= |series|
  {
    if n == 0 then 0 else PointsIf(series, p, n - 1) + if p(n - 1) then series[n - 1].points else 0
  }

  ghost predicate HasCount(series: seq<Series>, drop: set<string>, n: nat, count: nat)
    requires n <= |series|
  {
    exists k :: 0 <= k < n && |KeptLabels(series[k].labels, drop)| == count
  }

  /** The page counts the series over the limit and their samples; the largest label count that is
      left is one that is left and no smaller than any, and the excess is how far it is over. */
  lemma {:induction false} ImpactMeans(series: seq<Series>, drop: set<string>, limit: int, n: nat)
    requires n <= |series|
    ensures var i, over := PlainImpact(series, drop, limit, n), IsOver(series, drop, limit);
            && i.overSeries == CountIf(over, n) && i.overPoints == PointsIf(series, over, n)
            && (forall k :: 0 <= k < n ==> |KeptLabels(series[k].labels, drop)| <= i.maxAfterDrop)
            && (i.maxAfterDrop > 0 ==> HasCount(series, drop, n, i.maxAfterDrop))
            && i.maxExcess == if 0 < limit < i.maxAfterDrop then i.maxAfterDrop - limit else 0
  {
    if n > 0 {
      ImpactMeans(series, drop, limit, n - 1);
      var before := PlainImpact(series, drop, limit, n - 1);
      if before.maxAfterDrop > 0 && HasCount(series, drop, n - 1, before.maxAfterDrop) {
        assert HasCount(series, drop, n, before.maxAfterDrop);
      }
    }
  }
}
