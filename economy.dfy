/** The per-faction economy: income, upkeep ("outcome") and recruitment, and the
    rule that caps a purchase of troops at what the faction can pay for. */
module Economy {
  import opened Models
  import opened World

  /** Fixed gameplay constants: what each kind of holding yields per turn. */
  const HoldingCastleIncome: nat := 5
  const HoldingCastleRecruitment: nat := 15
  const HoldingCityIncome: nat := 15
  const HoldingCityRecruitment: nat := 5
  const HoldingTempleIncome: nat := 10
  const HoldingTempleRecruitment: nat := 10

  /** The unit that receives each turn's recruits. */
  const MilitiaUnitId: string := "militia"

  /** The holdings of kind `t` that faction `f` owns through its regions. */
  function HoldingsOfType(holdings: map<string, Holding>, regions: map<string, Region>, f: string, t: HoldingType): (r: set<string>)
    requires HoldingsPlaced(holdings, regions)
    ensures r <= FactionHoldings(holdings, regions, f)
    ensures forall h :: h in r ==> holdings[h].holdingType == t
  {
    set h | h in FactionHoldings(holdings, regions, f) && holdings[h].holdingType == t
  }

  /** The holdings of kind `t` in region `r`. */
  function RegionHoldingsOfType(holdings: map<string, Holding>, r: string, t: HoldingType): set<string>
  {
    set h | h in RegionHoldings(holdings, r) && holdings[h].holdingType == t
  }

  /** Income of faction `f` per turn: a base amount per region it occupies plus
      a fixed amount per castle, city and temple in those regions. */
  function Income(regions: map<string, Region>, holdings: map<string, Holding>, baseRegionIncome: nat, f: string): (r: int)
    requires HoldingsPlaced(holdings, regions)
    ensures r >= |FactionRegions(regions, f)| * baseRegionIncome
  {
    |FactionRegions(regions, f)| * baseRegionIncome
    + |HoldingsOfType(holdings, regions, f, Castle)| * HoldingCastleIncome
    + |HoldingsOfType(holdings, regions, f, City)| * HoldingCityIncome
    + |HoldingsOfType(holdings, regions, f, Temple)| * HoldingTempleIncome
  }

  /** What one region adds to the income of the faction that occupies it. */
  function RegionIncome(holdings: map<string, Holding>, baseRegionIncome: nat, r: string): (v: int)
    ensures v >= baseRegionIncome
  {
    baseRegionIncome
    + |RegionHoldingsOfType(holdings, r, Castle)| * HoldingCastleIncome
    + |RegionHoldingsOfType(holdings, r, City)| * HoldingCityIncome
    + |RegionHoldingsOfType(holdings, r, Temple)| * HoldingTempleIncome
  }

  /** Which holdings of kind `t` a faction owns after region `r` passes to `f`:
      `f` adds those of `r`, the previous occupier loses them, nobody else changes. */
  lemma {:induction false} HoldingsOfTypeMembership(regions: map<string, Region>, holdings: map<string, Holding>, r: string, f: string, t: HoldingType, g: string, h: string)
    requires HoldingsPlaced(holdings, regions) && r in regions
    ensures HoldingsPlaced(holdings, Transfer(regions, r, f))
    ensures h in HoldingsOfType(holdings, Transfer(regions, r, f), g, t) <==>
            if h in RegionHoldingsOfType(holdings, r, t) then g == f
            else h in HoldingsOfType(holdings, regions, g, t)
  {
    var after := Transfer(regions, r, f);
    if h in holdings && holdings[h].holdingType != Empty && holdings[h].regionId != r {
      assert after[holdings[h].regionId] == regions[holdings[h].regionId];
    }
  }

  /** After region `r` passes to `f`, `f` owns the holdings of kind `t` it had
      plus those of `r`, and the previous occupier loses those of `r`. */
  lemma {:induction false} HoldingsOfTypeAfterTransfer(regions: map<string, Region>, holdings: map<string, Holding>, r: string, f: string, t: HoldingType)
    requires HoldingsPlaced(holdings, regions) && r in regions && regions[r].factionId != f
    ensures HoldingsPlaced(holdings, Transfer(regions, r, f))
    ensures |HoldingsOfType(holdings, Transfer(regions, r, f), f, t)|
         == |HoldingsOfType(holdings, regions, f, t)| + |RegionHoldingsOfType(holdings, r, t)|
    ensures |HoldingsOfType(holdings, Transfer(regions, r, f), regions[r].factionId, t)|
         == |HoldingsOfType(holdings, regions, regions[r].factionId, t)| - |RegionHoldingsOfType(holdings, r, t)|
  {
    var after := Transfer(regions, r, f);
    var g := regions[r].factionId;
    HoldingsOfTypeMembership(regions, holdings, r, f, t, f, "");
    var here := RegionHoldingsOfType(holdings, r, t);
    var gainedBefore, gainedAfter := HoldingsOfType(holdings, regions, f, t), HoldingsOfType(holdings, after, f, t);
    var lostBefore, lostAfter := HoldingsOfType(holdings, regions, g, t), HoldingsOfType(holdings, after, g, t);
    forall h ensures h in gainedAfter <==> h in gainedBefore + here {
      HoldingsOfTypeMembership(regions, holdings, r, f, t, f, h);
    }
    forall h ensures h in lostBefore <==> h in lostAfter + here {
      HoldingsOfTypeMembership(regions, holdings, r, f, t, g, h);
    }
    assert gainedAfter == gainedBefore + here;
    assert gainedBefore !! here;
    assert lostBefore == lostAfter + here;
    assert lostAfter !! here;
  }

  /** Conquering region `r` raises the conqueror's income by what `r` yields
      and lowers the previous occupier's income by the same amount. */
  lemma {:induction false} IncomeAfterTransfer(regions: map<string, Region>, holdings: map<string, Holding>, baseRegionIncome: nat, r: string, f: string)
    requires HoldingsPlaced(holdings, regions) && r in regions && regions[r].factionId != f
    ensures HoldingsPlaced(holdings, Transfer(regions, r, f))
    ensures Income(Transfer(regions, r, f), holdings, baseRegionIncome, f)
         == Income(regions, holdings, baseRegionIncome, f) + RegionIncome(holdings, baseRegionIncome, r)
    ensures Income(Transfer(regions, r, f), holdings, baseRegionIncome, regions[r].factionId)
         == Income(regions, holdings, baseRegionIncome, regions[r].factionId) - RegionIncome(holdings, baseRegionIncome, r)
  {
    TransferRegionCounts(regions, r, f);
    HoldingsOfTypeAfterTransfer(regions, holdings, r, f, Castle);
    HoldingsOfTypeAfterTransfer(regions, holdings, r, f, City);
    HoldingsOfTypeAfterTransfer(regions, holdings, r, f, Temple);
  }

  /** Upkeep ("outcome") of faction `f` per turn: the sum, over its army
      entries, of the size times the unit's maintenance. */
  function Outcome(armies: seq<Army>, units: map<string, Unit>, f: string): (r: int)
    requires forall i :: 0 <= i < |armies| && armies[i].factionId == f ==> armies[i].unitId in units
    ensures (forall i :: 0 <= i < |armies| ==> armies[i].factionId != f) ==> r == 0
  {
    if armies == [] then 0
    else (if armies[0].factionId == f then armies[0].size * units[armies[0].unitId].maintenance else 0)
         + Outcome(armies[1..], units, f)
  }

  /** Adding `n` troops to one entry raises its faction's upkeep by `n` times the
      unit's maintenance and leaves every other faction's upkeep alone. */
  lemma {:induction false} OutcomeUpdate(armies: seq<Army>, units: map<string, Unit>, i: nat, n: int, f: string)
    requires i < |armies| && ArmiesPriced(armies, units)
    ensures ArmiesPriced(armies[i := armies[i].(size := armies[i].size + n)], units)
    ensures Outcome(armies[i := armies[i].(size := armies[i].size + n)], units, f)
         == Outcome(armies, units, f) + (if armies[i].factionId == f then n * units[armies[i].unitId].maintenance else 0)
  {
    var updated := armies[i := armies[i].(size := armies[i].size + n)];
    assert ArmiesPriced(updated, units);
    if i == 0 {
      assert updated[1..] == armies[1..];
    } else {
      assert updated[1..] == armies[1..][i - 1 := armies[1..][i - 1].(size := armies[1..][i - 1].size + n)];
      OutcomeUpdate(armies[1..], units, i - 1, n, f);
    }
  }

  /** With no negative army, upkeep is never negative. */
  lemma {:induction false} OutcomeNonNegative(armies: seq<Army>, units: map<string, Unit>, f: string)
    requires ArmiesPriced(armies, units)
    requires forall i :: 0 <= i < |armies| ==> armies[i].size >= 0
    ensures Outcome(armies, units, f) >= 0
  {
    if armies != [] {
      var a := armies[0];
      if a.factionId == f {
        NonNegativeProduct(a.size, units[a.unitId].maintenance);
      }
      OutcomeNonNegative(armies[1..], units, f);
    }
  }

  /** Recruits per turn: a base amount per region plus a base amount per
      faction. Holdings do not contribute. */
  function Recruitment(regions: map<string, Region>, baseRegionRecruitment: nat, baseFactionRecruitment: nat, f: string): (r: int)
    ensures r >= baseFactionRecruitment
    ensures |FactionRegions(regions, f)| > 0 ==> r >= baseRegionRecruitment + baseFactionRecruitment
  {
    |FactionRegions(regions, f)| * baseRegionRecruitment + baseFactionRecruitment
  }

  /** Conquering a region raises the conqueror's recruitment by the per-region
      base and lowers the previous occupier's by the same amount. */
  lemma RecruitmentAfterTransfer(regions: map<string, Region>, baseRegionRecruitment: nat, baseFactionRecruitment: nat, r: string, f: string)
    requires r in regions && regions[r].factionId != f
    ensures Recruitment(Transfer(regions, r, f), baseRegionRecruitment, baseFactionRecruitment, f)
         == Recruitment(regions, baseRegionRecruitment, baseFactionRecruitment, f) + baseRegionRecruitment
    ensures Recruitment(Transfer(regions, r, f), baseRegionRecruitment, baseFactionRecruitment, regions[r].factionId)
         == Recruitment(regions, baseRegionRecruitment, baseFactionRecruitment, regions[r].factionId) - baseRegionRecruitment
  {
    TransferRegionCounts(regions, r, f);
  }

  lemma {:induction false} NonNegativeProduct(a: int, b: nat)
    requires a >= 0
    ensures a * b >= 0
  {
    if b > 0 {
      NonNegativeProduct(a, b - 1);
      assert a * b == a * (b - 1) + a;
    }
  }

  /** Multiplying by a non-negative factor keeps the order. */
  lemma MultiplyMonotone(p: nat, x: int, y: int)
    requires x <= y
    ensures p * x <= p * y
  {
    NonNegativeProduct(y - x, p);
    assert p * y - p * x == (y - x) * p;
  }

  /** What Euclidean division of a non-negative number by a positive one gives. */
  lemma DivisionBounds(a: int, b: int)
    requires a >= 0 && b > 0
    ensures a / b >= 0 && b * (a / b) <= a < b * (a / b) + b
  {
  }

  /** C#'s integer division by a positive divisor, which truncates toward zero. */
  function TruncDiv(a: int, b: int): (q: int)
    requires b > 0
    ensures a >= 0 ==> q >= 0 && b * q <= a < b * (q + 1)
    ensures a < 0 ==> q <= 0 && b * (q - 1) < a <= b * q
  {
    if a >= 0 then
      DivisionBounds(a, b);
      a / b
    else
      DivisionBounds(-a, b);
      -((-a) / b)
  }

  /** The number of troops actually recruited when `amount` are ordered at
      `price` each by a faction holding `wealth`. When the order is affordable it
      is met in full; otherwise the wealth is divided by the price, truncating. */
  function RecruitAmount(wealth: int, price: nat, amount: int): (r: int)
    requires price == 0 ==> wealth >= 0
    ensures wealth >= price * amount ==> r == amount
    ensures 0 <= wealth < price * amount ==> 0 <= r < amount && price * r <= wealth < price * (r + 1)
    ensures wealth < 0 && wealth < price * amount ==> r <= 0 && price * (r - 1) < wealth <= price * r
  {
    if wealth < price * amount then
      assert price > 0;
      var r := TruncDiv(wealth, price);
      assert wealth >= 0 ==> r < amount by {
        if wealth >= 0 && amount <= r {
          MultiplyMonotone(price, amount, r);
        }
      }
      r
    else amount
  }
}
