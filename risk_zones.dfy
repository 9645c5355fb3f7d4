/** The risk-zone map (ZonasRiscoScreen): the sample zones of the Federal
    District and the legend that counts them by danger level. */
module RiskZones {

  /** A risk zone; its polygon is drawn by the map and is not modelled. */
  datatype RiskZone = RiskZone(id: nat, name: string, dangerLevel: string, incidents: nat, description: string)

  const High: string := "Alto"
  const Medium: string := "M\U{e9}dio"

  /** RISK_ZONES_DF without the polygon coordinates. */
  const RiskZonesDF: seq<RiskZone> := [
    RiskZone(1, "Setor Comercial Sul", High, 23, "Alta concentra\U{e7}\U{e3}o de assaltos noturnos"),
    RiskZone(2, "Rodovi\U{e1}ria do Plano Piloto", Medium, 15, "Movimento suspeito em hor\U{e1}rios de pico")
  ]

  /** `zones.filter(z => z.dangerLevel === level)`: the zones of that level, in
      their original order. */
  function FilterByLevel(zones: seq<RiskZone>, level: string): (r: seq<RiskZone>)
    ensures |r| <= |zones|
    ensures forall i :: 0 <= i < |r| ==> r[i].dangerLevel == level && r[i] in zones
    ensures forall z :: z in zones && z.dangerLevel == level ==> z in r
  {
    if zones == [] then []
    else
      var rest := FilterByLevel(zones[1..], level);
      if zones[0].dangerLevel == level then [zones[0]] + rest else rest
  }

  /** The filter keeps every copy of a zone of the level and no other zone: as
      multisets, the result is exactly the input's zones of that level. */
  lemma {:induction false} FilterCounts(zones: seq<RiskZone>, level: string, z: RiskZone)
    ensures multiset(FilterByLevel(zones, level))[z] ==
      if z.dangerLevel == level then multiset(zones)[z] else 0
  {
    if zones != [] {
      assert zones == [zones[0]] + zones[1..];
      FilterCounts(zones[1..], level, z);
    }
  }

  /** Filtering a concatenation filters each part and keeps them in order, so
      the kept zones appear in the order of the input. */
  lemma {:induction false} FilterKeepsOrder(a: seq<RiskZone>, b: seq<RiskZone>, level: string)
    ensures FilterByLevel(a + b, level) == FilterByLevel(a, level) + FilterByLevel(b, level)
  {
    if a == [] {
      assert a + b == b;
    } else {
      assert (a + b)[1..] == a[1..] + b;
      FilterKeepsOrder(a[1..], b, level);
    }
  }

  /** The number shown in the legend next to a danger level. */
  function LegendCount(zones: seq<RiskZone>, level: string): nat {
    |FilterByLevel(zones, level)|
  }

  /** Two different levels never count the same zone, so the two legend
      entries together never exceed the number of zones. */
  lemma {:induction false} LegendCountsDisjoint(zones: seq<RiskZone>, a: string, b: string)
    requires a != b
    ensures LegendCount(zones, a) + LegendCount(zones, b) <= |zones|
  {
    if zones != [] {
      LegendCountsDisjoint(zones[1..], a, b);
    }
  }

  /** When every zone is rated high or medium, the legend accounts for all of
      them. */
  lemma {:induction false} LegendCountsCover(zones: seq<RiskZone>)
    requires forall i :: 0 <= i < |zones| ==> zones[i].dangerLevel in {High, Medium}
    ensures LegendCount(zones, High) + LegendCount(zones, Medium) == |zones|
  {
    if zones != [] {
      LegendCountsCover(zones[1..]);
    }
  }

  /** The legend of the sample data: one high-risk and one moderate-risk zone. */
  lemma SampleLegend()
    ensures LegendCount(RiskZonesDF, High) == 1
    ensures LegendCount(RiskZonesDF, Medium) == 1
  {
    var zs := RiskZonesDF;
    assert High != Medium by { assert High[0] != Medium[0]; }
    assert zs[1..][1..] == [];
    assert FilterByLevel(zs[1..], High) == [];
    assert FilterByLevel(zs[1..], Medium) == [zs[1]];
  }
}
