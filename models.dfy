/** Entities of the conquest game's world store. */
module Models {

  datatype Option<+T> = None | Some(value: T)

  datatype RegionType = Capital | Ordinary

  datatype HoldingType = Empty | Castle | City | Temple

  /** Outcome of one attack on a region. */
  datatype BattleResult = Victory | Defeat

  /** A region of the map; `factionId` is its current occupier and
      `sovereignFactionId` its rightful owner. */
  datatype Region = Region(id: string, factionId: string, sovereignFactionId: string, regionType: RegionType)

  datatype Faction = Faction(id: string, alive: bool, wealth: int)

  datatype Holding = Holding(id: string, regionId: string, holdingType: HoldingType)

  /** A unit template; the non-negative fields carry a [0, int.MaxValue] range. */
  datatype Unit = Unit(id: string, power: nat, health: nat, price: nat, maintenance: nat)

  /** The troops of one unit type that one faction owns. */
  datatype Army = Army(factionId: string, unitId: string, size: int)

  /** A border as stored: the key and the value both hold the two region ids in
      the order in which the border was first registered. */
  datatype Border = Border(region1Id: string, region2Id: string)

  /** The world parameters that are read by the simulation kernel. */
  datatype WorldDefinition = WorldDefinition(
    width: nat,
    height: nat,
    baseRegionIncome: nat,
    baseRegionRecruitment: nat,
    baseFactionRecruitment: nat,
    minTroopsPerAttack: nat,
    startingWealth: nat,
    startingTroops: nat)

  /** The "player region attacked" notification. */
  datatype RegionAttack = RegionAttack(regionId: string, attackerFactionId: string, result: BattleResult)

  /** What the attack planner decides for one faction: the region it attacks
      and how the battle ends. */
  datatype AttackDecision = AttackDecision(regionId: string, result: BattleResult)
}
