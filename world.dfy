/** The world store: keyed catalogs, armies, borders and relations, the read
    queries over them, and the derivation of the border graph from the tile grid. */
module World {
  import opened Models

  // ---------------------------------------------------------------------------
  // Regions and holdings
  // ---------------------------------------------------------------------------

  /** Ids of the regions that faction `f` currently occupies. */
  function FactionRegions(regions: map<string, Region>, f: string): (r: set<string>)
    ensures r <= regions.Keys
    ensures forall id :: id in r ==> regions[id].factionId == f
  {
    set id | id in regions && regions[id].factionId == f
  }

  /** Every holding that counts (a non-Empty one) lies in a known region. */
  ghost predicate HoldingsPlaced(holdings: map<string, Holding>, regions: map<string, Region>)
  {
    forall h :: h in holdings && holdings[h].holdingType != Empty ==> holdings[h].regionId in regions
  }

  /** Ids of the non-Empty holdings that lie in regions occupied by `f`. */
  function FactionHoldings(holdings: map<string, Holding>, regions: map<string, Region>, f: string): (r: set<string>)
    requires HoldingsPlaced(holdings, regions)
    ensures forall h :: h in r ==> h in holdings && holdings[h].holdingType != Empty
    ensures forall h :: h in r ==> holdings[h].regionId in FactionRegions(regions, f)
  {
    set h | h in holdings && holdings[h].holdingType != Empty && regions[holdings[h].regionId].factionId == f
  }

  /** Ids of the non-Empty holdings of region `regionId`. */
  function RegionHoldings(holdings: map<string, Holding>, regionId: string): (r: set<string>)
    ensures forall h :: h in r ==> h in holdings && holdings[h].holdingType != Empty
    ensures forall h :: h in r ==> holdings[h].regionId == regionId
  {
    set h | h in holdings && holdings[h].holdingType != Empty && holdings[h].regionId == regionId
  }

  /** The holdings of a region are holdings of the faction that occupies it, and
      a faction's holdings are exactly the holdings of the regions it occupies. */
  lemma {:induction false} HoldingsFollowRegions(holdings: map<string, Holding>, regions: map<string, Region>, f: string)
    requires HoldingsPlaced(holdings, regions)
    ensures forall r :: r in FactionRegions(regions, f) ==> RegionHoldings(holdings, r) <= FactionHoldings(holdings, regions, f)
    ensures forall h :: h in FactionHoldings(holdings, regions, f) <==>
              exists r :: r in FactionRegions(regions, f) && h in RegionHoldings(holdings, r)
  {
    forall h | h in FactionHoldings(holdings, regions, f)
      ensures exists r :: r in FactionRegions(regions, f) && h in RegionHoldings(holdings, r)
    {
      var r := holdings[h].regionId;
      assert h in RegionHoldings(holdings, r);
    }
  }

  /** A faction's capital: a region it occupies, is sovereign of, and whose type
      is Capital. None stands for the case where no region qualifies, in which
      the query dereferences null. */
  ghost function FactionCapital(regions: map<string, Region>, f: string): (r: Option<string>)
    ensures r.Some? ==> r.value in FactionRegions(regions, f)
    ensures r.Some? ==> regions[r.value].sovereignFactionId == f && regions[r.value].regionType == Capital
    ensures r.None? <==> forall id :: id in regions ==>
              !(regions[id].factionId == f && regions[id].sovereignFactionId == f && regions[id].regionType == Capital)
  {
    if exists id :: id in regions && regions[id].factionId == f && regions[id].sovereignFactionId == f && regions[id].regionType == Capital
    then
      var id :| id in regions && regions[id].factionId == f && regions[id].sovereignFactionId == f && regions[id].regionType == Capital;
      Some(id)
    else None
  }

  /** The region map after region `r` has been given to faction `f`. */
  function Transfer(regions: map<string, Region>, r: string, f: string): (res: map<string, Region>)
    requires r in regions
    ensures res.Keys == regions.Keys
    ensures res[r].factionId == f
    ensures res[r].id == regions[r].id && res[r].sovereignFactionId == regions[r].sovereignFactionId
    ensures res[r].regionType == regions[r].regionType
    ensures forall id :: id in regions && id != r ==> res[id] == regions[id]
  {
    regions[r := regions[r].(factionId := f)]
  }

  /** Giving region `r` to `f` moves exactly that region from its previous
      occupier to `f`; every other faction keeps its regions. */
  lemma {:induction false} TransferMovesOneRegion(regions: map<string, Region>, r: string, f: string, g: string)
    requires r in regions
    ensures var before := regions[r].factionId;
            var after := Transfer(regions, r, f);
            && (g == f ==> FactionRegions(after, g) == FactionRegions(regions, g) + {r})
            && (g != f && g == before ==> FactionRegions(after, g) == FactionRegions(regions, g) - {r})
            && (g != f && g != before ==> FactionRegions(after, g) == FactionRegions(regions, g))
  {
    var after := Transfer(regions, r, f);
    if g == f {
      assert FactionRegions(after, g) == FactionRegions(regions, g) + {r} by {
        forall id ensures id in FactionRegions(after, g) <==> id in FactionRegions(regions, g) + {r} {
          if id != r && id in regions { assert after[id] == regions[id]; }
        }
      }
    } else {
      forall id ensures id in FactionRegions(after, g) <==> id in FactionRegions(regions, g) - {r} {
        if id != r && id in regions { assert after[id] == regions[id]; }
      }
    }
  }

  /** A transfer from one faction to another changes their region counts by one. */
  lemma {:induction false} TransferRegionCounts(regions: map<string, Region>, r: string, f: string)
    requires r in regions && regions[r].factionId != f
    ensures |FactionRegions(Transfer(regions, r, f), f)| == |FactionRegions(regions, f)| + 1
    ensures |FactionRegions(Transfer(regions, r, f), regions[r].factionId)| == |FactionRegions(regions, regions[r].factionId)| - 1
  {
    TransferMovesOneRegion(regions, r, f, f);
    TransferMovesOneRegion(regions, r, f, regions[r].factionId);
    assert r !in FactionRegions(regions, f);
    assert r in FactionRegions(regions, regions[r].factionId);
  }

  // ---------------------------------------------------------------------------
  // Armies
  // ---------------------------------------------------------------------------

  /** Faction `f` has an army entry for unit `u`. */
  ghost predicate HasArmy(armies: seq<Army>, f: string, u: string)
  {
    exists i :: 0 <= i < |armies| && armies[i].factionId == f && armies[i].unitId == u
  }

  /** Every army entry names a unit of the catalog. */
  ghost predicate ArmiesPriced(armies: seq<Army>, units: map<string, Unit>)
  {
    forall i :: 0 <= i < |armies| ==> armies[i].unitId in units
  }

  /** The armies dictionary is keyed by (faction, unit): no pair occurs twice.
      This only records the dictionary's key; no result depends on it, because
      every lookup takes the first matching entry. */
  ghost predicate ArmiesKeyed(armies: seq<Army>)
  {
    forall i, j :: 0 <= i < j < |armies| ==>
      armies[i].factionId != armies[j].factionId || armies[i].unitId != armies[j].unitId
  }

  /** Two army tables hold the same (faction, unit) entries in the same order. */
  ghost predicate SameArmyKeys(a: seq<Army>, b: seq<Army>)
  {
    |a| == |b| && forall i :: 0 <= i < |a| ==> a[i].factionId == b[i].factionId && a[i].unitId == b[i].unitId
  }

  /** Changing only the sizes of a table keeps its entries distinct. */
  lemma SameArmyKeysKeyed(a: seq<Army>, b: seq<Army>)
    requires SameArmyKeys(a, b) && ArmiesKeyed(a)
    ensures ArmiesKeyed(b)
  {
  }

  /** Index of the first army entry of faction `f` and unit `u`, as FirstOrDefault finds it. */
  function FindArmy(armies: seq<Army>, f: string, u: string): (r: Option<nat>)
    ensures r.Some? ==> r.value < |armies| && armies[r.value].factionId == f && armies[r.value].unitId == u
    ensures r.Some? ==> forall j :: 0 <= j < r.value ==> !(armies[j].factionId == f && armies[j].unitId == u)
    ensures r.None? <==> !HasArmy(armies, f, u)
  {
    if armies == [] then None
    else if armies[0].factionId == f && armies[0].unitId == u then Some(0)
    else
      match FindArmy(armies[1..], f, u)
      case None =>
        assert forall i :: 1 <= i < |armies| ==> armies[i] == armies[1..][i - 1];
        None
      case Some(k) => Some(k + 1)
  }

  /** The army table after `n` troops are added to the first entry of (`f`, `u`). */
  function AddToArmy(armies: seq<Army>, f: string, u: string, n: int): (r: seq<Army>)
    requires HasArmy(armies, f, u)
    ensures SameArmyKeys(armies, r)
    ensures var i := FindArmy(armies, f, u).value;
            r[i].size == armies[i].size + n && forall j :: 0 <= j < |armies| && j != i ==> r[j] == armies[j]
  {
    var i := FindArmy(armies, f, u).value;
    armies[i := armies[i].(size := armies[i].size + n)]
  }

  /** The army entries of faction `f`, in table order. */
  function FactionArmies(armies: seq<Army>, f: string): (r: seq<Army>)
    ensures |r| <= |armies|
    ensures forall k :: 0 <= k < |r| ==> r[k].factionId == f
    ensures (forall i :: 0 <= i < |armies| ==> armies[i].factionId != f) ==> r == []
  {
    if armies == [] then []
    else (if armies[0].factionId == f then [armies[0]] else []) + FactionArmies(armies[1..], f)
  }

  /** The army entries of `f` are exactly the entries of the table that belong to `f`. */
  lemma {:induction false} FactionArmiesExact(armies: seq<Army>, f: string, a: Army)
    ensures a in FactionArmies(armies, f) <==> a in armies && a.factionId == f
  {
    if armies != [] {
      FactionArmiesExact(armies[1..], f, a);
      assert armies == [armies[0]] + armies[1..];
    }
  }

  function SumSizes(armies: seq<Army>): int
  {
    if armies == [] then 0 else armies[0].size + SumSizes(armies[1..])
  }

  /** Total number of troops of faction `f`: the sum of its army sizes. */
  function TroopsCount(armies: seq<Army>, f: string): (r: int)
    ensures (forall i :: 0 <= i < |armies| ==> armies[i].factionId != f) ==> r == 0
  {
    SumSizes(FactionArmies(armies, f))
  }

  /** The troop count of a non-empty table splits into its first entry and the rest. */
  lemma TroopsCountCons(armies: seq<Army>, f: string)
    requires armies != []
    ensures TroopsCount(armies, f) == (if armies[0].factionId == f then armies[0].size else 0) + TroopsCount(armies[1..], f)
  {
    var rest := FactionArmies(armies[1..], f);
    if armies[0].factionId == f {
      assert ([armies[0]] + rest)[1..] == rest;
    } else {
      assert [] + rest == rest;
    }
  }

  /** Changing the size of one entry by `n` changes its faction's troop count by
      `n` and no other faction's. */
  lemma {:induction false} TroopsCountUpdate(armies: seq<Army>, i: nat, n: int, f: string)
    requires i < |armies|
    ensures TroopsCount(armies[i := armies[i].(size := armies[i].size + n)], f)
         == TroopsCount(armies, f) + (if armies[i].factionId == f then n else 0)
  {
    var updated := armies[i := armies[i].(size := armies[i].size + n)];
    TroopsCountCons(armies, f);
    TroopsCountCons(updated, f);
    var tail := armies[1..];
    if i == 0 {
      assert updated[1..] == tail;
    } else {
      var tailUpdated := tail[i - 1 := tail[i - 1].(size := tail[i - 1].size + n)];
      assert updated[0] == armies[0] && tail[i - 1] == armies[i];
      assert updated[1..] == tailUpdated;
      TroopsCountUpdate(tail, i - 1, n, f);
      var head := if armies[0].factionId == f then armies[0].size else 0;
      assert TroopsCount(updated, f) == head + TroopsCount(tailUpdated, f);
      assert TroopsCount(armies, f) == head + TroopsCount(tail, f);
    }
  }

  /** Adding `n` troops to the entry of (`f`, `u`) raises `f`'s troop count by
      `n` and leaves every other faction's count alone. */
  lemma AddToArmyTroops(armies: seq<Army>, f: string, u: string, n: int, g: string)
    requires HasArmy(armies, f, u)
    ensures TroopsCount(AddToArmy(armies, f, u, n), g) == TroopsCount(armies, g) + (if g == f then n else 0)
  {
    var i := FindArmy(armies, f, u).value;
    assert AddToArmy(armies, f, u, n) == armies[i := armies[i].(size := armies[i].size + n)];
    TroopsCountUpdate(armies, i, n, g);
  }

  /** With no negative army, no faction has a negative troop count. */
  lemma {:induction false} TroopsCountNonNegative(armies: seq<Army>, f: string)
    requires forall i :: 0 <= i < |armies| ==> armies[i].size >= 0
    ensures TroopsCount(armies, f) >= 0
  {
    if armies != [] {
      TroopsCountCons(armies, f);
      TroopsCountNonNegative(armies[1..], f);
    }
  }

  // ---------------------------------------------------------------------------
  // Borders
  // ---------------------------------------------------------------------------

  /** Two stored borders join the same two regions, in either orientation. */
  predicate SamePair(p: Border, q: Border)
  {
    p == q || (p.region1Id == q.region2Id && p.region2Id == q.region1Id)
  }

  /** No border is stored twice, in either orientation. */
  ghost predicate BordersCanonical(borders: seq<Border>)
  {
    forall i, j :: 0 <= i < j < |borders| ==> !SamePair(borders[i], borders[j])
  }

  /** No region borders itself. */
  ghost predicate NoSelfBorders(borders: seq<Border>)
  {
    forall i :: 0 <= i < |borders| ==> borders[i].region1Id != borders[i].region2Id
  }

  /** Regions `a` and `b` share a border, whichever way round it was stored. */
  function RegionHasBorder(borders: seq<Border>, a: string, b: string): (r: bool)
  {
    Border(a, b) in borders || Border(b, a) in borders
  }

  /** In a canonical border list a pair of regions is stored at most once:
      two entries joining `a` and `b`, in either orientation, are one entry. */
  lemma RegionHasBorderStoredOnce(borders: seq<Border>, a: string, b: string, i: int, j: int)
    requires BordersCanonical(borders)
    requires 0 <= i < |borders| && SamePair(borders[i], Border(a, b))
    requires 0 <= j < |borders| && SamePair(borders[j], Border(a, b))
    ensures i == j
  {
  }

  /** Appending a border, as `SetBorder` does, makes the lookup true for exactly
      the pairs it already held for and the appended pair in either orientation. */
  lemma RegionHasBorderAppend(borders: seq<Border>, c: string, d: string, a: string, b: string)
    ensures RegionHasBorder(borders + [Border(c, d)], a, b)
        <==> RegionHasBorder(borders, a, b) || SamePair(Border(c, d), Border(a, b))
  {
  }

  /** The border lookup is symmetric. */
  lemma RegionHasBorderSymmetric(borders: seq<Border>, a: string, b: string)
    ensures RegionHasBorder(borders, a, b) == RegionHasBorder(borders, b, a)
  {
  }

  /** Some region of `f1` borders some region of `f2`. */
  ghost predicate FactionsAdjacent(regions: map<string, Region>, borders: seq<Border>, f1: string, f2: string)
    ensures FactionsAdjacent(regions, borders, f1, f2) ==> FactionRegions(regions, f1) != {} && FactionRegions(regions, f2) != {}
  {
    exists r1, r2 :: r1 in FactionRegions(regions, f1) && r2 in FactionRegions(regions, f2) && RegionHasBorder(borders, r1, r2)
  }

  /** Faction adjacency is symmetric, because region adjacency is. */
  lemma FactionsAdjacentSymmetric(regions: map<string, Region>, borders: seq<Border>, f1: string, f2: string)
    ensures FactionsAdjacent(regions, borders, f1, f2) == FactionsAdjacent(regions, borders, f2, f1)
  {
    if FactionsAdjacent(regions, borders, f1, f2) {
      var r1, r2 :| r1 in FactionRegions(regions, f1) && r2 in FactionRegions(regions, f2) && RegionHasBorder(borders, r1, r2);
      RegionHasBorderSymmetric(borders, r1, r2);
    }
    if FactionsAdjacent(regions, borders, f2, f1) {
      var r2, r1 :| r2 in FactionRegions(regions, f2) && r1 in FactionRegions(regions, f1) && RegionHasBorder(borders, r2, r1);
      RegionHasBorderSymmetric(borders, r2, r1);
    }
  }

  /** Cell (x2, y2) is inspected from sample point (x, y): the sample lies on the
      stride-5 lattice, and the cell is in the 5x5 window around it, clipped to the grid. */
  ghost predicate SampleWindow(tiles: array2<string>, x: int, y: int, x2: int, y2: int)
    reads tiles
  {
    && 0 <= x < tiles.Length0 && 0 <= y < tiles.Length1 && x % 5 == 0 && y % 5 == 0
    && 0 <= x2 < tiles.Length0 && 0 <= y2 < tiles.Length1
    && x - 2 <= x2 <= x + 2 && y - 2 <= y2 <= y + 2
  }

  /** Region `b` occurs in the window of a sample point that lies in region `a`. */
  ghost predicate Detected(tiles: array2<string>, a: string, b: string)
    reads tiles
  {
    exists x, y, x2, y2 :: SampleWindow(tiles, x, y, x2, y2) && tiles[x, y] == a && tiles[x2, y2] == b
  }

  /** Every stored border was found by the sampling. */
  ghost predicate BordersDetected(tiles: array2<string>, borders: seq<Border>)
    reads tiles
  {
    forall i :: 0 <= i < |borders| ==> Detected(tiles, borders[i].region1Id, borders[i].region2Id)
  }

  /** Registering the border between a sample's region and another region of its
      window keeps every border detected and none of them a self-border. */
  lemma DetectedBorderAdded(tiles: array2<string>, borders: seq<Border>, x: int, y: int, x2: int, y2: int)
    requires BordersDetected(tiles, borders) && NoSelfBorders(borders)
    requires SampleWindow(tiles, x, y, x2, y2) && tiles[x, y] != tiles[x2, y2]
    ensures BordersDetected(tiles, borders + [Border(tiles[x, y], tiles[x2, y2])])
    ensures NoSelfBorders(borders + [Border(tiles[x, y], tiles[x2, y2])])
  {
    var added := borders + [Border(tiles[x, y], tiles[x2, y2])];
    assert Detected(tiles, added[|borders|].region1Id, added[|borders|].region2Id);
  }

  /** Every pair of different regions met in a sample window is bordered. */
  ghost predicate WindowsCovered(tiles: array2<string>, borders: seq<Border>)
    reads tiles
  {
    forall x, y, x2, y2 :: SampleWindow(tiles, x, y, x2, y2) && tiles[x, y] != tiles[x2, y2] ==>
      RegionHasBorder(borders, tiles[x, y], tiles[x2, y2])
  }

  /** Every region met in the window of sample point (x, y), other than the
      sample's own region, borders it. */
  ghost predicate SampleCovered(tiles: array2<string>, borders: seq<Border>, x: int, y: int)
    reads tiles
  {
    forall x2, y2 :: SampleWindow(tiles, x, y, x2, y2) && tiles[x, y] != tiles[x2, y2] ==>
      RegionHasBorder(borders, tiles[x, y], tiles[x2, y2])
  }

  /** Every sample point before (x, y), in column-major scanning order, is covered. */
  ghost predicate ScannedBefore(tiles: array2<string>, borders: seq<Border>, x: int, y: int)
    reads tiles
  {
    forall x1, y1 ::
      (0 <= x1 < tiles.Length0 && 0 <= y1 < tiles.Length1 && x1 % 5 == 0 && y1 % 5 == 0 && (x1 < x || (x1 == x && y1 < y)))
      ==> SampleCovered(tiles, borders, x1, y1)
  }

  /** Coverage survives the addition of borders. */
  lemma SampleCoveredGrows(tiles: array2<string>, b1: seq<Border>, b2: seq<Border>, x: int, y: int)
    requires SampleCovered(tiles, b1, x, y)
    requires forall a, b :: RegionHasBorder(b1, a, b) ==> RegionHasBorder(b2, a, b)
    ensures SampleCovered(tiles, b2, x, y)
  {
    forall x2, y2 | SampleWindow(tiles, x, y, x2, y2) && tiles[x, y] != tiles[x2, y2]
      ensures RegionHasBorder(b2, tiles[x, y], tiles[x2, y2])
    {
      assert RegionHasBorder(b1, tiles[x, y], tiles[x2, y2]);
    }
  }

  /** Scanning sample point (x, y) moves the scan on to (x, y + 5). */
  lemma {:induction false} ScanNextSample(tiles: array2<string>, b1: seq<Border>, b2: seq<Border>, x: int, y: int)
    requires ScannedBefore(tiles, b1, x, y) && SampleCovered(tiles, b2, x, y)
    requires forall a, b :: RegionHasBorder(b1, a, b) ==> RegionHasBorder(b2, a, b)
    requires y % 5 == 0
    ensures ScannedBefore(tiles, b2, x, y + 5)
  {
    forall x1, y1 | 0 <= x1 < tiles.Length0 && 0 <= y1 < tiles.Length1 && x1 % 5 == 0 && y1 % 5 == 0
                    && (x1 < x || (x1 == x && y1 < y + 5))
      ensures SampleCovered(tiles, b2, x1, y1)
    {
      if x1 < x || y1 < y {
        SampleCoveredGrows(tiles, b1, b2, x1, y1);
      } else {
        assert y1 == y;
      }
    }
  }

  /** A finished column moves the scan on to the next column. */
  lemma {:induction false} ScanNextColumn(tiles: array2<string>, borders: seq<Border>, x: int, y: int)
    requires ScannedBefore(tiles, borders, x, y) && y >= tiles.Length1 && x % 5 == 0
    ensures ScannedBefore(tiles, borders, x + 5, 0)
  {
    forall x1, y1 | 0 <= x1 < tiles.Length0 && 0 <= y1 < tiles.Length1 && x1 % 5 == 0 && y1 % 5 == 0 && x1 < x + 5
      ensures SampleCovered(tiles, borders, x1, y1)
    {
      assert x1 <= x;
    }
  }

  /** A finished scan covers every window. */
  lemma ScanFinished(tiles: array2<string>, borders: seq<Border>, x: int)
    requires ScannedBefore(tiles, borders, x, 0) && x >= tiles.Length0
    ensures WindowsCovered(tiles, borders)
  {
    forall x1, y1, x2, y2 | SampleWindow(tiles, x1, y1, x2, y2) && tiles[x1, y1] != tiles[x2, y2]
      ensures RegionHasBorder(borders, tiles[x1, y1], tiles[x2, y2])
    {
      assert SampleCovered(tiles, borders, x1, y1);
    }
  }

  /** Sound, complete and self-free sampling makes the border lookup coincide
      with detection, in either orientation, of two different regions. */
  lemma BordersExact(tiles: array2<string>, borders: seq<Border>)
    requires NoSelfBorders(borders) && BordersDetected(tiles, borders) && WindowsCovered(tiles, borders)
    ensures forall a, b :: RegionHasBorder(borders, a, b) <==> a != b && (Detected(tiles, a, b) || Detected(tiles, b, a))
  {
    forall a, b ensures RegionHasBorder(borders, a, b) <==> a != b && (Detected(tiles, a, b) || Detected(tiles, b, a)) {
      if RegionHasBorder(borders, a, b) {
        if Border(a, b) in borders {
          var i :| 0 <= i < |borders| && borders[i] == Border(a, b);
        } else {
          var i :| 0 <= i < |borders| && borders[i] == Border(b, a);
        }
      }
      if a != b && Detected(tiles, a, b) {
        var x1, y1, x2, y2 :| SampleWindow(tiles, x1, y1, x2, y2) && tiles[x1, y1] == a && tiles[x2, y2] == b;
      }
      if a != b && Detected(tiles, b, a) {
        var x1, y1, x2, y2 :| SampleWindow(tiles, x1, y1, x2, y2) && tiles[x1, y1] == b && tiles[x2, y2] == a;
      }
    }
  }

  // ---------------------------------------------------------------------------
  // The world manager
  // ---------------------------------------------------------------------------

  /** Every faction occurs exactly once in the enumeration order of the factions dictionary. */
  ghost predicate OrderCovers(order: seq<string>, factions: map<string, Faction>)
  {
    && (forall i :: 0 <= i < |order| ==> order[i] in factions)
    && (forall f :: f in factions ==> f in order)
    && (forall i, j :: 0 <= i < j < |order| ==> order[i] != order[j])
  }

  class WorldManager {
    var definition: WorldDefinition
    /** Region id of every map cell, indexed [x, y]. */
    var tiles: array2<string>
    var regions: map<string, Region>
    var factions: map<string, Faction>
    /** The enumeration order of the factions dictionary (catalog order). */
    var factionOrder: seq<string>
    var holdings: map<string, Holding>
    var units: map<string, Unit>
    /** The values of the armies dictionary, in insertion order. */
    var armies: seq<Army>
    /** The values of the borders dictionary, in insertion order. */
    var borders: seq<Border>
    /** Relation values keyed by (source faction, target faction). */
    var relations: map<(string, string), int>

    ghost predicate Valid()
      reads this, tiles
    {
      Stored() && BordersCanonical(borders)
    }

    /** What the loaders guarantee about everything but the borders and relations:
        the grid has the world's size and names known regions, every catalog is
        keyed by the ids of its entries, and holdings and armies refer to known
        regions and units. */
    ghost predicate Stored()
      reads this`definition, this`tiles, tiles, this`regions, this`factions, this`factionOrder
      reads this`holdings, this`units, this`armies
    {
      && tiles.Length0 == definition.width && tiles.Length1 == definition.height
      && (forall x, y :: 0 <= x < tiles.Length0 && 0 <= y < tiles.Length1 ==> tiles[x, y] in regions)
      && (forall id :: id in regions ==> regions[id].id == id)
      && (forall id :: id in factions ==> factions[id].id == id)
      && OrderCovers(factionOrder, factions)
      && HoldingsPlaced(holdings, regions)
      && ArmiesPriced(armies, units)
      && ArmiesKeyed(armies)
    }

    /** The store as the entity and map loaders leave it: catalogs and tile grid
        filled in, no borders yet. */
    constructor (definition: WorldDefinition, tiles: array2<string>,
                 regions: map<string, Region>, factions: map<string, Faction>, factionOrder: seq<string>,
                 holdings: map<string, Holding>, units: map<string, Unit>,
                 armies: seq<Army>, relations: map<(string, string), int>)
      requires tiles.Length0 == definition.width && tiles.Length1 == definition.height
      requires forall x, y :: 0 <= x < tiles.Length0 && 0 <= y < tiles.Length1 ==> tiles[x, y] in regions
      requires forall id :: id in regions ==> regions[id].id == id
      requires forall id :: id in factions ==> factions[id].id == id
      requires OrderCovers(factionOrder, factions)
      requires HoldingsPlaced(holdings, regions)
      requires ArmiesPriced(armies, units) && ArmiesKeyed(armies)
      ensures Valid()
      ensures this.definition == definition && this.tiles == tiles
      ensures this.regions == regions && this.factions == factions && this.factionOrder == factionOrder
      ensures this.holdings == holdings && this.units == units
      ensures this.armies == armies && this.relations == relations
      ensures borders == []
    {
      this.definition := definition;
      this.tiles := tiles;
      this.regions := regions;
      this.factions := factions;
      this.factionOrder := factionOrder;
      this.holdings := holdings;
      this.units := units;
      this.armies := armies;
      this.relations := relations;
      this.borders := [];
    }

    /** The faction that occupies the region of cell (x, y). */
    function FactionIdAtPosition(x: int, y: int): (f: string)
      reads this, tiles
      requires Valid()
      requires 0 <= x < tiles.Length0 && 0 <= y < tiles.Length1
      ensures tiles[x, y] in FactionRegions(regions, f)
    {
      regions[tiles[x, y]].factionId
    }

    /** Gives region `regionId` to faction `factionId`; nothing else changes. */
    method TransferRegion(regionId: string, factionId: string)
      requires Valid()
      requires regionId in regions
      modifies this`regions
      ensures Valid()
      ensures regions == Transfer(old(regions), regionId, factionId)
      ensures forall x, y :: 0 <= x < tiles.Length0 && 0 <= y < tiles.Length1 ==>
                FactionIdAtPosition(x, y) == if tiles[x, y] == regionId then factionId else old(FactionIdAtPosition(x, y))
    {
      regions := regions[regionId := regions[regionId].(factionId := factionId)];
    }

    /** Registers the border (region1Id, region2Id) unless the two regions already
        share a border, stored either way round. */
    method SetBorder(region1Id: string, region2Id: string)
      requires Valid()
      modifies this`borders
      ensures Valid()
      ensures old(RegionHasBorder(borders, region1Id, region2Id)) ==> borders == old(borders)
      ensures !old(RegionHasBorder(borders, region1Id, region2Id)) ==> borders == old(borders) + [Border(region1Id, region2Id)]
      ensures RegionHasBorder(borders, region1Id, region2Id)
    {
      if RegionHasBorder(borders, region1Id, region2Id) {
        return;
      }
      var border := Border(region1Id, region2Id);
      forall i | 0 <= i < |borders| ensures !SamePair(borders[i], border) {
        assert borders[i] != Border(region1Id, region2Id) && borders[i] != Border(region2Id, region1Id);
      }
      borders := borders + [border];
    }

    /** Inspects the 5x5 window around sample point (x, y) and registers a border
        between the sample's region and every other region found in the window. */
    method ScanSample(x: int, y: int)
      requires Valid() && NoSelfBorders(borders) && BordersDetected(tiles, borders)
      requires 0 <= x < definition.width && 0 <= y < definition.height && x % 5 == 0 && y % 5 == 0
      modifies this`borders
      ensures Valid() && NoSelfBorders(borders) && BordersDetected(tiles, borders)
      ensures forall a, b :: old(RegionHasBorder(borders, a, b)) ==> RegionHasBorder(borders, a, b)
      ensures SampleCovered(tiles, borders, x, y)
    {
      var visited: seq<string> := [];
      var dx := -2;
      while dx <= 2
        invariant -2 <= dx <= 3
        invariant Valid() && NoSelfBorders(borders) && BordersDetected(tiles, borders)
        invariant forall a, b :: old(RegionHasBorder(borders, a, b)) ==> RegionHasBorder(borders, a, b)
        invariant forall v :: v in visited ==> RegionHasBorder(borders, tiles[x, y], v)
        invariant forall x2, y2 :: SampleWindow(tiles, x, y, x2, y2) && x2 < x + dx && tiles[x2, y2] != tiles[x, y] ==>
                    RegionHasBorder(borders, tiles[x, y], tiles[x2, y2])
      {
        var column := x + dx;
        if 0 <= column < definition.width {
          visited := ScanWindowColumn(x, y, column, visited);
        }
        dx := dx + 1;
      }
    }

    /** Inspects column `column` of the window around sample point (x, y), clipped
        to the grid, registering a border between the sample's region and every
        other region not yet visited. */
    method ScanWindowColumn(x: int, y: int, column: int, visited: seq<string>) returns (visited': seq<string>)
      requires Valid() && NoSelfBorders(borders) && BordersDetected(tiles, borders)
      requires 0 <= x < definition.width && 0 <= y < definition.height && x % 5 == 0 && y % 5 == 0
      requires x - 2 <= column <= x + 2 && 0 <= column < definition.width
      requires forall v :: v in visited ==> RegionHasBorder(borders, tiles[x, y], v)
      modifies this`borders
      ensures Valid() && NoSelfBorders(borders) && BordersDetected(tiles, borders)
      ensures forall a, b :: old(RegionHasBorder(borders, a, b)) ==> RegionHasBorder(borders, a, b)
      ensures forall v :: v in visited' ==> RegionHasBorder(borders, tiles[x, y], v)
      ensures forall y2 :: SampleWindow(tiles, x, y, column, y2) && tiles[column, y2] != tiles[x, y] ==>
                RegionHasBorder(borders, tiles[x, y], tiles[column, y2])
    {
      visited' := visited;
      var region1Id := tiles[x, y];
      var dy := -2;
      while dy <= 2
        invariant -2 <= dy <= 3
        invariant Valid() && NoSelfBorders(borders) && BordersDetected(tiles, borders)
        invariant forall a, b :: old(RegionHasBorder(borders, a, b)) ==> RegionHasBorder(borders, a, b)
        invariant forall v :: v in visited' ==> RegionHasBorder(borders, region1Id, v)
        invariant forall y2 :: SampleWindow(tiles, x, y, column, y2) && y2 < y + dy && tiles[column, y2] != region1Id ==>
                    RegionHasBorder(borders, region1Id, tiles[column, y2])
      {
        if 0 <= y + dy < definition.height {
          var region2Id := tiles[column, y + dy];
          if region2Id !in visited' && region1Id != region2Id {
            assert SampleWindow(tiles, x, y, column, y + dy);
            DetectedBorderAdded(tiles, borders, x, y, column, y + dy);
            SetBorder(region1Id, region2Id);
            visited' := visited' + [region2Id];
          }
        }
        dy := dy + 1;
      }
    }

    /** Derives the border graph from the tile grid: a border joins two different
        regions exactly when one of them occurs in the sample window of a sample
        point lying in the other. */
    method LoadBorders()
      requires Valid() && borders == []
      modifies this`borders
      ensures Valid() && NoSelfBorders(borders)
      ensures forall a, b :: RegionHasBorder(borders, a, b) <==> a != b && (Detected(tiles, a, b) || Detected(tiles, b, a))
    {
      var x := 0;
      while x < definition.width
        invariant 0 <= x && x % 5 == 0
        invariant Valid() && NoSelfBorders(borders) && BordersDetected(tiles, borders)
        invariant ScannedBefore(tiles, borders, x, 0)
      {
        var y := 0;
        while y < definition.height
          invariant 0 <= y && y % 5 == 0
          invariant Valid() && NoSelfBorders(borders) && BordersDetected(tiles, borders)
          invariant ScannedBefore(tiles, borders, x, y)
        {
          ghost var before := borders;
          ScanSample(x, y);
          ScanNextSample(tiles, before, borders, x, y);
          y := y + 5;
        }
        ScanNextColumn(tiles, borders, x, y);
        x := x + 5;
      }
      ScanFinished(tiles, borders, x);
      BordersExact(tiles, borders);
    }

    /** Whether some region of `faction1Id` borders some region of `faction2Id`,
        by scanning every pair of their regions. */
    method FactionHasBorder(faction1Id: string, faction2Id: string) returns (b: bool)
      ensures b <==> FactionsAdjacent(regions, borders, faction1Id, faction2Id)
    {
      var regions1 := FactionRegions(regions, faction1Id);
      var regions2 := FactionRegions(regions, faction2Id);
      var todo1 := regions1;
      while todo1 != {}
        invariant todo1 <= regions1
        invariant forall r1, r2 :: r1 in regions1 - todo1 && r2 in regions2 ==> !RegionHasBorder(borders, r1, r2)
      {
        var region1 :| region1 in todo1;
        var todo2 := regions2;
        while todo2 != {}
          invariant todo2 <= regions2
          invariant forall r2 :: r2 in regions2 - todo2 ==> !RegionHasBorder(borders, region1, r2)
        {
          var region2 :| region2 in todo2;
          if RegionHasBorder(borders, region1, region2) {
            return true;
          }
          todo2 := todo2 - {region2};
        }
        todo1 := todo1 - {region1};
      }
      return false;
    }
  }
}
