/** The turn engine: the player's faction, the turn counter, and the
    operations that change the world store between turns. */
module Game {
  import opened Models
  import opened World
  import opened Economy
  import opened Turn

  const MinRelations: int := -100
  const MaxRelations: int := 100

  /** `v` forced into [MinRelations, MaxRelations]. */
  function ClampRelations(v: int): (r: int)
    ensures MinRelations <= r <= MaxRelations
    ensures MinRelations <= v <= MaxRelations ==> r == v
    ensures v < MinRelations ==> r == MinRelations
    ensures v > MaxRelations ==> r == MaxRelations
  {
    if v > MaxRelations then MaxRelations
    else if v < MinRelations then MinRelations
    else v
  }

  /** Every relation value is within bounds and equals the one in the opposite
      direction. */
  ghost predicate RelationsConsistent(relations: map<(string, string), int>)
  {
    forall p :: p in relations ==>
      && MinRelations <= relations[p] <= MaxRelations
      && (p.1, p.0) in relations && relations[(p.1, p.0)] == relations[p]
  }

  /** The relations after `delta` is applied to source → target: that value is
      moved by `delta` within bounds and copied to target → source. */
  function Relate(relations: map<(string, string), int>, source: string, target: string, delta: int): (r: map<(string, string), int>)
    requires (source, target) in relations && (target, source) in relations
    ensures r.Keys == relations.Keys
    ensures r[(source, target)] == r[(target, source)]
    ensures MinRelations <= r[(source, target)] <= MaxRelations
    ensures r[(source, target)] == ClampRelations(relations[(source, target)] + delta)
    ensures MinRelations <= relations[(source, target)] + delta <= MaxRelations ==>
              r[(source, target)] == relations[(source, target)] + delta
    ensures forall p :: p in relations && p != (source, target) && p != (target, source) ==> r[p] == relations[p]
  {
    var v := ClampRelations(relations[(source, target)] + delta);
    relations[(source, target) := v][(target, source) := v]
  }

  /** Changing a relation keeps all relations bounded and symmetric. */
  lemma {:induction false} RelateKeepsConsistent(relations: map<(string, string), int>, source: string, target: string, delta: int)
    requires RelationsConsistent(relations)
    requires (source, target) in relations
    ensures (target, source) in relations
    ensures RelationsConsistent(Relate(relations, source, target, delta))
  {
    var r := Relate(relations, source, target, delta);
    forall p | p in r
      ensures MinRelations <= r[p] <= MaxRelations && (p.1, p.0) in r && r[(p.1, p.0)] == r[p]
    {
      if p != (source, target) && p != (target, source) {
        assert (p.1, p.0) != (source, target) && (p.1, p.0) != (target, source);
      }
    }
  }

  class GameManager {
    var world: WorldManager
    var playerFactionId: string
    var turn: int

    ghost predicate Valid()
      reads this, world, world.tiles
    {
      world.Valid()
    }

    /** The part of the store a turn reads only. */
    function TurnRules(): Rules
      reads this`world, this`playerFactionId, world`holdings, world`units, world`definition
    {
      Rules(world.holdings, world.units, world.definition, playerFactionId)
    }

    /** A new game over a world whose catalogs and tile grid are loaded, played by
        faction `factionId`: the border graph is derived from the tile grid, and
        the game starts at turn 0. */
    constructor (world: WorldManager, factionId: string)
      requires world.Valid() && world.borders == []
      modifies world`borders
      ensures Valid()
      ensures this.world == world && playerFactionId == factionId && turn == 0
      ensures forall a, b :: RegionHasBorder(world.borders, a, b) <==>
                a != b && (Detected(world.tiles, a, b) || Detected(world.tiles, b, a))
    {
      this.world := world;
      new;
      world.LoadBorders();
      InitializeGame(factionId);
    }

    /** Sets the player's faction and restarts the turn counter. */
    method InitializeGame(factionId: string)
      modifies this`playerFactionId, this`turn
      ensures playerFactionId == factionId && turn == 0
    {
      playerFactionId := factionId;
      turn := 0;
    }

    /** The store as a turn state, with the notifications raised so far. */
    function Current(events: seq<RegionAttack>): TurnState
      reads this`world, world`regions, world`factions, world`armies
    {
      TurnState(world.regions, world.factions, world.armies, events)
    }

    /** Faction `factionId` collects its income and pays its upkeep. */
    method EarnIncome(factionId: string, ghost events: seq<RegionAttack>)
      requires Valid() && factionId in world.factions
      modifies world`factions
      ensures Valid()
      ensures Current(events) == Earn(old(Current(events)), TurnRules(), factionId)
    {
      var faction := world.factions[factionId];
      faction := faction.(wealth := faction.wealth + Income(world.regions, world.holdings, world.definition.baseRegionIncome, factionId));
      faction := faction.(wealth := faction.wealth - Outcome(world.armies, world.units, factionId));
      world.factions := world.factions[factionId := faction];
    }

    /** Faction `factionId`'s militia receives its recruits. */
    method EnlistRecruits(factionId: string, ghost events: seq<RegionAttack>)
      requires Valid() && HasArmy(world.armies, factionId, MilitiaUnitId)
      modifies world`armies
      ensures Valid()
      ensures Current(events) == Enlist(old(Current(events)), TurnRules(), factionId)
    {
      var recruits := Recruitment(world.regions, world.definition.baseRegionRecruitment,
                                  world.definition.baseFactionRecruitment, factionId);
      AddUnits(factionId, MilitiaUnitId, recruits);
    }

    /** Faction `factionId`, which holds no region any more, drops out of the game. */
    method EliminateFaction(factionId: string)
      requires Valid() && factionId in world.factions
      modifies world`factions
      ensures Valid()
      ensures world.factions == old(world.factions)[factionId := old(world.factions)[factionId].(alive := false)]
    {
      var faction := world.factions[factionId];
      world.factions := world.factions[factionId := faction.(alive := false)];
    }

    /** The attack of faction `factionId`'s step, appending to `events` the
        notification it raises. */
    method CampaignFaction(factionId: string, plan: Planner, events: seq<RegionAttack>) returns (events': seq<RegionAttack>)
      requires Valid() && plan(factionId).regionId in world.regions
      modifies world`regions
      ensures Valid()
      ensures Current(events') == Campaign(old(Current(events)), TurnRules(), plan, factionId)
    {
      events' := events;
      if factionId != playerFactionId && TroopsCount(world.armies, factionId) >= world.definition.minTroopsPerAttack {
        var decision := plan(factionId);
        var owner := world.regions[decision.regionId].factionId;
        if decision.result == Victory {
          world.TransferRegion(decision.regionId, factionId);
        }
        if owner == playerFactionId {
          events' := events' + [RegionAttack(decision.regionId, factionId, decision.result)];
        }
      }
    }

    /** The step of faction `factionId` within a turn, appending to `events`
        the notifications it raises. */
    method PlayFaction(factionId: string, plan: Planner, events: seq<RegionAttack>) returns (events': seq<RegionAttack>)
      requires Valid() && factionId in world.factions && Ready(Current(events), TurnRules(), plan)
      modifies world`regions, world`factions, world`armies
      ensures Valid()
      ensures Current(events') == Step(old(Current(events)), TurnRules(), plan, factionId)
    {
      events' := events;
      var faction := world.factions[factionId];
      if !faction.alive {
        return;
      }
      if |FactionRegions(world.regions, factionId)| == 0 {
        EliminateFaction(factionId);
        return;
      }
      ghost var prev := Current(events);
      // Economy
      EarnIncome(factionId, events);
      // Recruit
      EnlistRecruits(factionId, events);
      assert Current(events) == Grow(prev, TurnRules(), plan, factionId);
      // A.I.
      events' := CampaignFaction(factionId, plan, events);
    }

    /** Every faction's step, in the store's order. */
    method PlayFactions(plan: Planner) returns (events: seq<RegionAttack>)
      requires Valid() && Ready(Current([]), TurnRules(), plan)
      modifies world`regions, world`factions, world`armies
      ensures Valid()
      ensures Current(events) == Steps(old(Current([])), TurnRules(), plan, world.factionOrder)
    {
      ghost var s0, rules := Current([]), TurnRules();
      var order := world.factionOrder;
      events := [];
      var i := 0;
      while i < |order|
        invariant 0 <= i <= |order|
        invariant Valid()
        invariant Current(events) == Steps(s0, rules, plan, order[..i])
      {
        events := PlayNextFaction(s0, rules, plan, order, i, events);
        i := i + 1;
      }
      assert order[..i] == order;
    }

    /** The step of the `i`-th faction of `order`, after the steps of the
        factions before it. */
    method PlayNextFaction(ghost s0: TurnState, ghost rules: Rules, plan: Planner, order: seq<string>, i: nat, events: seq<RegionAttack>)
      returns (events': seq<RegionAttack>)
      requires i < |order| && Ready(s0, rules, plan)
      requires Valid() && world.factionOrder == order && TurnRules() == rules
      requires Current(events) == Steps(s0, rules, plan, order[..i])
      modifies world`regions, world`factions, world`armies
      ensures Valid()
      ensures Current(events') == Steps(s0, rules, plan, order[..i + 1])
    {
      StepsExtend(s0, rules, plan, order, i);
      events' := PlayFaction(order[i], plan, events);
    }

    /** Plays one turn: every faction takes its step, in the store's order, as
        the planner decides the attacks; then the turn counter advances by one.
        Returns the "player region attacked" notifications in the order raised. */
    method NextTurn(plan: Planner) returns (events: seq<RegionAttack>)
      requires Valid() && Ready(Current([]), TurnRules(), plan)
      modifies this`turn, world`regions, world`factions, world`armies
      ensures Valid()
      ensures var r := Steps(old(Current([])), old(TurnRules()), plan, world.factionOrder);
              && world.regions == r.regions && world.factions == r.factions && world.armies == r.armies
              && events == r.events
      ensures turn == old(turn) + 1
    {
      events := PlayFactions(plan);
      turn := turn + 1;
    }

    /** Adds `amount` troops to the army of (`factionId`, `unitId`); no other
        army entry changes. */
    method AddUnits(factionId: string, unitId: string, amount: int)
      requires Valid() && HasArmy(world.armies, factionId, unitId)
      modifies world`armies
      ensures Valid()
      ensures world.armies == AddToArmy(old(world.armies), factionId, unitId, amount)
    {
      SameArmyKeysKeyed(world.armies, AddToArmy(world.armies, factionId, unitId, amount));
      world.armies := AddToArmy(world.armies, factionId, unitId, amount);
    }

    /** Buys up to `amount` troops of `unitId` for `factionId`: the whole order
        when it is affordable, otherwise as many as the wealth pays for. The
        faction's wealth is not charged. */
    method RecruitUnits(factionId: string, unitId: string, amount: int)
      requires Valid() && unitId in world.units && factionId in world.factions
      requires HasArmy(world.armies, factionId, unitId)
      requires world.units[unitId].price == 0 ==> world.factions[factionId].wealth >= 0
      modifies world`armies
      ensures Valid()
      ensures world.armies == AddToArmy(old(world.armies), factionId, unitId,
                RecruitAmount(world.factions[factionId].wealth, world.units[unitId].price, amount))
    {
      var costPerTroop := world.units[unitId].price;
      var factionWealth := world.factions[factionId].wealth;
      var recruited := amount;
      if factionWealth < costPerTroop * amount {
        recruited := TruncDiv(factionWealth, costPerTroop);
      }
      AddUnits(factionId, unitId, recruited);
    }

    /** Moves the relations from `sourceFactionId` towards `targetFactionId` by
        `delta`, within [-100, 100], and makes the opposite relation equal. */
    method ChangeRelations(sourceFactionId: string, targetFactionId: string, delta: int)
      requires Valid()
      requires (sourceFactionId, targetFactionId) in world.relations
      requires (targetFactionId, sourceFactionId) in world.relations
      modifies world`relations
      ensures Valid()
      ensures world.relations == Relate(old(world.relations), sourceFactionId, targetFactionId, delta)
    {
      var value := ClampRelations(world.relations[(sourceFactionId, targetFactionId)] + delta);
      world.relations := world.relations[(sourceFactionId, targetFactionId) := value];
      world.relations := world.relations[(targetFactionId, sourceFactionId) := world.relations[(sourceFactionId, targetFactionId)]];
    }

    /** The player attacks `regionId` with the given outcome, taking the region
        on a victory; then one turn is played. */
    method PlayerAttackRegion(regionId: string, result: BattleResult, plan: Planner) returns (r: BattleResult, events: seq<RegionAttack>)
      requires Valid() && regionId in world.regions && Ready(Current([]), TurnRules(), plan)
      modifies this`turn, world`regions, world`factions, world`armies
      ensures Valid() && r == result
      ensures var attacked := if result == Victory then Transfer(old(world.regions), regionId, playerFactionId)
                              else old(world.regions);
              var s := Steps(old(Current([])).(regions := attacked), old(TurnRules()), plan, world.factionOrder);
              && world.regions == s.regions && world.factions == s.factions && world.armies == s.armies
              && events == s.events
      ensures turn == old(turn) + 1
    {
      ghost var s0 := Current([]);
      if result == Victory {
        world.TransferRegion(regionId, playerFactionId);
      }
      ReadySuccessor(s0, Current([]), TurnRules(), plan);
      events := NextTurn(plan);
      r := result;
    }
  }
}
