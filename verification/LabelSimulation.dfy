/** The label-drop simulation: the preflight packs the labels of every recorded series into a
    bitset (encodeSeriesLabelBitsets of internal/importer/server/server.go), and the page
    answers from it what dropping some labels would do (static/app.js). */
module LabelSimulation {
  import opened Domain

  type Bitset = seq<bv8>

  // ---- Bits ----

  /** 1 << k */
  function Mask(k: nat): bv8
    requires k < 8
  {
    if k == 0 then 1 else if k == 1 then 2 else if k == 2 then 4 else if k == 3 then 8
    else if k == 4 then 16 else if k == 5 then 32 else if k == 6 then 64 else 128
  }

  lemma MaskSetsOneBit(b: bv8, j: nat, k: nat)
    requires j < 8 && k < 8
    ensures (b | Mask(k)) & Mask(j) != 0 <==> b & Mask(j) != 0 || j == k
  {
  }

  function HasBit(bitset: Bitset, index: int): bool {
    index >= 0 && index / 8 < |bitset| && bitset[index / 8] & Mask(index % 8) != 0
  }

  function WithBit(bitset: Bitset, index: nat): Bitset
    requires index / 8 < |bitset|
  {
    bitset[index / 8 := bitset[index / 8] | Mask(index % 8)]
  }

  lemma WithBitSetsOne(bitset: Bitset, index: nat, i: nat)
    requires index / 8 < |bitset|
    ensures HasBit(WithBit(bitset, index), i) <==> HasBit(bitset, i) || i == index
  {
    if i / 8 == index / 8 {
      MaskSetsOneBit(bitset[index / 8], i % 8, index % 8);
      SamePlace(i, index);
    } else {
      assert i / 8 < |bitset| ==> WithBit(bitset, index)[i / 8] == bitset[i / 8];
    }
  }

  lemma SamePlace(i: nat, j: nat)
    requires i / 8 == j / 8
    ensures i % 8 == j % 8 <==> i == j
  {
  }

  function Names(names: seq<string>): set<string> { set l | l in names }

  /** The bitset has exactly the bits of the series' labels. */
  ghost predicate Encodes(bitset: Bitset, labels: set<string>, universe: seq<string>) {
    forall i: nat :: BitFits(bitset, labels, universe, i)
  }

  ghost predicate BitFits(bitset: Bitset, labels: set<string>, universe: seq<string>, i: nat) {
    HasBit(bitset, i) <==> i < |universe| && universe[i] in labels
  }

  method EncodeSeriesLabelBitsets(seriesLabels: seq<set<string>>, universe: seq<string>) returns (encoded: seq<Bitset>)
    requires Distinct(universe)
    ensures if |seriesLabels| == 0 || |universe| == 0 then encoded == []
            else && |encoded| == |seriesLabels|
                 && forall k :: 0 <= k < |encoded| ==> Encodes(encoded[k], seriesLabels[k], universe)
  {
    encoded := [];
    if |seriesLabels| == 0 || |universe| == 0 {
      return;
    }
    var index := IndexOf(universe);
    var width := (|universe| + 7) / 8;
    for k := 0 to |seriesLabels|
      invariant |encoded| == k
      invariant forall j :: 0 <= j < k ==> Encodes(encoded[j], seriesLabels[j], universe)
    {
      var bitset := EncodeLabels(seriesLabels[k], universe, index, width);
      encoded := encoded + [bitset];
    }
  }

  /** Maps every name to its last position. */
  method IndexOf(names: seq<string>) returns (index: map<string, nat>)
    ensures index == Positions(names)
  {
    index := map[];
    for i := 0 to |names|
      invariant index == Positions(names[..i])
    {
      assert names[..i + 1][..i] == names[..i];
      index := index[names[i] := i];
    }
    assert names[..|names|] == names;
  }

  function Positions(names: seq<string>): map<string, nat> {
    if |names| == 0 then map[] else Positions(names[..|names| - 1])[names[|names| - 1] := |names| - 1]
  }

  lemma {:induction false} PositionsMeans(names: seq<string>)
    ensures forall name :: name in Positions(names) <==> name in names
    ensures forall name :: name in Positions(names) ==>
            Positions(names)[name] < |names| && names[Positions(names)[name]] == name
  {
    if |names| > 0 {
      PositionsMeans(names[..|names| - 1]);
      assert names == names[..|names| - 1] + [names[|names| - 1]];
    }
  }

  /** A name that occurs more than once has the position of its last occurrence. */
  lemma {:induction false} PositionIsLast(names: seq<string>, k: nat)
    requires k < |names|
    ensures names[k] in Positions(names) && k <= Positions(names)[names[k]]
  {
    PositionsMeans(names);
    if k < |names| - 1 {
      PositionIsLast(names[..|names| - 1], k);
      PositionsMeans(names[..|names| - 1]);
    }
  }

  method EncodeLabels(labels: set<string>, universe: seq<string>, index: map<string, nat>, width: nat)
    returns (bitset: Bitset)
    requires Distinct(universe) && index == Positions(universe) && width == (|universe| + 7) / 8
    ensures Encodes(bitset, labels, universe)
  {
    PositionsMeans(universe);
    bitset := seq(width, _ => 0);
    var rest := labels;
    assert forall i :: 0 <= i ==> !HasBit(bitset, i);
    while rest != {}
      invariant rest <= labels && |bitset| == width
      invariant Encodes(bitset, labels - rest, universe)
      decreases |rest|
    {
      var name :| name in rest;
      ghost var before := bitset;
      if name in index {
        bitset := WithBit(bitset, index[name]);
      }
      forall k: nat ensures BitFits(bitset, labels - (rest - {name}), universe, k) {
        assert BitFits(before, labels - rest, universe, k);
        if name in index { WithBitSetsOne(before, index[name], k); }
      }
      rest := rest - {name};
    }
    assert labels - rest == labels;
  }

  // ---- The simulation on the page ----

  /** What JavaScript's trim removes. */
  predicate IsSpace(c: char) {
    var n := c as int;
    || 0x09 <= n <= 0x0D || n == 0x20 || n == 0xA0 || n == 0x1680 || 0x2000 <= n <= 0x200A
    || n == 0x2028 || n == 0x2029 || n == 0x202F || n == 0x205F || n == 0x3000 || n == 0xFEFF
  }

  function TrimLeft(s: string): string { if |s| > 0 && IsSpace(s[0]) then TrimLeft(s[1..]) else s }

  function TrimRight(s: string): string { if |s| > 0 && IsSpace(s[|s| - 1]) then TrimRight(s[..|s| - 1]) else s }

  function Trim(s: string): string { TrimRight(TrimLeft(s)) }

  /** The names trimmed, and blank ones left out. */
  function Cleaned(names: seq<string>): seq<string> {
    if |names| == 0 then []
    else
      var before, name := Cleaned(names[..|names| - 1]), Trim(names[|names| - 1]);
      if name == "" then before else before + [name]
  }

  datatype Simulation = Simulation(
    universe: seq<string>, bitsets: seq<Bitset>, labelCounts: seq<nat>, pointCounts: seq<nat>, seriesCount: nat,
    capped: bool)
  {
    predicate Valid() { |bitsets| == |labelCounts| == |pointCounts| == seriesCount }
  }

  function SimulationOf(names: seq<string>, encoded: seq<Bitset>, labelCounts: seq<nat>, pointCounts: seq<nat>,
                        capped: bool):
    (r: Option<Simulation>)
    ensures r.Some? ==> r.value.Valid() && 0 < r.value.seriesCount
  {
    var universe, n := Cleaned(names), Min(|encoded|, |labelCounts|);
    if |universe| == 0 || |encoded| == 0 || n <= 0 then None
    else
      var points := if |pointCounts| >= n then pointCounts[..n] else pointCounts + seq(n - |pointCounts|, _ => 0);
      Some(Simulation(universe, encoded[..n], labelCounts[..n], points, n, capped))
  }

  method BuildLabelSimulation(names: seq<string>, encoded: seq<Bitset>, labelCounts: seq<nat>, pointCounts: seq<nat>,
                              capped: bool)
    returns (r: Option<Simulation>)
    ensures r == SimulationOf(names, encoded, labelCounts, pointCounts, capped)
  {
    var universe: seq<string> := [];
    for i := 0 to |names|
      invariant universe == Cleaned(names[..i])
    {
      assert names[..i + 1][..i] == names[..i];
      var name := Trim(names[i]);
      if name != "" {
        universe := universe + [name];
      }
    }
    assert names[..|names|] == names;
    if |universe| == 0 || |encoded| == 0 {
      return None;
    }
    var seriesCount := Min(|encoded|, |labelCounts|);
    if seriesCount <= 0 {
      return None;
    }
    var points := if |pointCounts| > seriesCount then pointCounts[..seriesCount] else pointCounts;
    while |points| < seriesCount
      invariant |pointCounts| >= seriesCount ==> points == pointCounts[..seriesCount]
      invariant |pointCounts| < seriesCount ==> |pointCounts| <= |points| <= seriesCount
      invariant |pointCounts| < seriesCount ==> points == pointCounts + seq(|points| - |pointCounts|, _ => 0)
    {
      points := points + [0];
    }
    return Some(Simulation(universe, encoded[..seriesCount], labelCounts[..seriesCount], points, seriesCount, capped));
  }

  /** What dropping labels leaves over the limit; `maxExcess` is shown as the least number of
      labels that still have to go. */
  datatype Impact = Impact(overSeries: nat, overPoints: nat, maxAfterDrop: nat, maxExcess: nat) {
    /** One series more, which keeps `after` labels. */
    function With(after: nat, points: nat, limit: int): Impact {
      var w := this.(maxAfterDrop := Max(maxAfterDrop, after));
      if limit > 0 && after > limit then
        w.(overSeries := overSeries + 1, overPoints := overPoints + points, maxExcess := Max(maxExcess, after - limit))
      else w
    }
  }

  const NO_IMPACT: Impact := Impact(0, 0, 0, 0)

  /** The positions of the selected names that the universe has. */
  function Selected(names: seq<string>, universe: seq<string>): seq<nat> {
    if |names| == 0 then []
    else
      var before, name := Selected(names[..|names| - 1], universe), names[|names| - 1];
      if name in Positions(universe) then before + [Positions(universe)[name]] else before
  }

  function CountBits(bitset: Bitset, indexes: seq<nat>): (n: nat)
    ensures n <= |indexes|
  {
    if |indexes| == 0 then 0
    else CountBits(bitset, indexes[..|indexes| - 1]) + if HasBit(bitset, indexes[|indexes| - 1]) then 1 else 0
  }

  function ImpactOf(sim: Simulation, indexes: seq<nat>, limit: int, n: nat): Impact
    requires sim.Valid() && n <= sim.seriesCount
  {
    if n == 0 then NO_IMPACT
    else
      ImpactOf(sim, indexes, limit, n - 1).With(
        Max(0, sim.labelCounts[n - 1] - CountBits(sim.bitsets[n - 1], indexes)), sim.pointCounts[n - 1], limit)
  }

  method SelectIndexes(universe: seq<string>, selectedLabels: seq<string>) returns (indexes: seq<nat>)
    ensures indexes == Selected(selectedLabels, universe)
  {
    var index := IndexOf(universe);
    indexes := [];
    for i := 0 to |selectedLabels|
      invariant indexes == Selected(selectedLabels[..i], universe)
    {
      assert selectedLabels[..i + 1][..i] == selectedLabels[..i];
      if selectedLabels[i] in index {
        indexes := indexes + [index[selectedLabels[i]]];
      }
    }
    assert selectedLabels[..|selectedLabels|] == selectedLabels;
  }

  method CountDropped(bitset: Bitset, indexes: seq<nat>) returns (dropped: nat)
    ensures dropped == CountBits(bitset, indexes)
  {
    dropped := 0;
    for j := 0 to |indexes|
      invariant dropped == CountBits(bitset, indexes[..j])
    {
      assert indexes[..j + 1][..j] == indexes[..j];
      if HasBit(bitset, indexes[j]) {
        dropped := dropped + 1;
      }
    }
    assert indexes[..|indexes|] == indexes;
  }

  method EvaluateDropImpact(sim: Simulation, selectedLabels: seq<string>, maxLabelsLimit: int) returns (impact: Impact)
    requires sim.Valid()
    ensures impact == ImpactOf(sim, Selected(selectedLabels, sim.universe), maxLabelsLimit, sim.seriesCount)
  {
    var selectedIndexes := SelectIndexes(sim.universe, selectedLabels);
    var overSeries: nat, overPoints: nat, maxAfterDrop: nat, maxExcess: nat := 0, 0, 0, 0;
    for i := 0 to sim.seriesCount
      invariant Impact(overSeries, overPoints, maxAfterDrop, maxExcess)
                == ImpactOf(sim, selectedIndexes, maxLabelsLimit, i)
    {
      var dropped := CountDropped(sim.bitsets[i], selectedIndexes);
      var original: int := sim.labelCounts[i];
      var after := Max(0, original - dropped);
      if after > maxAfterDrop {
        maxAfterDrop := after;
      }
      if maxLabelsLimit > 0 && after > maxLabelsLimit {
        var excess := after - maxLabelsLimit;
        overSeries := overSeries + 1;
        overPoints := overPoints + sim.pointCounts[i];
        if excess > maxExcess {
          maxExcess := excess;
        }
      }
    }
    return Impact(overSeries, overPoints, maxAfterDrop, maxExcess);
  }
}
