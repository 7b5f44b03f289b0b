/** What one turn does to the world store, as functions: the step of one faction
    and the sequence of steps over all factions in the store's order. The turn
    engine's imperative loop is proved to compute exactly this. */
module Turn {
  import opened Models
  import opened World
  import opened Economy

  /** The parts of the store that a turn changes, and the "player region
      attacked" notifications raised so far. */
  datatype TurnState = TurnState(
    regions: map<string, Region>,
    factions: map<string, Faction>,
    armies: seq<Army>,
    events: seq<RegionAttack>)

  /** What a turn reads and never changes. */
  datatype Rules = Rules(
    holdings: map<string, Holding>,
    units: map<string, Unit>,
    definition: WorldDefinition,
    playerFactionId: string)

  /** The attack planner and combat resolver: for each faction, the region it
      attacks this turn and the result of the battle. */
  type Planner = string -> AttackDecision

  /** What the steps of a turn need from the state in order not to fail: known
      regions for the holdings, known units for the armies, a militia entry for
      every living faction, and planned targets that exist. */
  ghost predicate Ready(s: TurnState, rules: Rules, plan: Planner)
  {
    && HoldingsPlaced(rules.holdings, s.regions)
    && ArmiesPriced(s.armies, rules.units)
    && (forall g :: g in s.factions && s.factions[g].alive ==> HasArmy(s.armies, g, MilitiaUnitId))
    && (forall g :: g in s.factions ==> plan(g).regionId in s.regions)
  }

  /** `s2` can follow `s1` within a turn: the same regions, factions and army
      entries; regions keep their identity, sovereign and type; a dead faction
      keeps its identity and stays dead; notifications are only appended. */
  ghost predicate Successor(s1: TurnState, s2: TurnState)
  {
    && s2.regions.Keys == s1.regions.Keys
    && (forall id :: id in s1.regions ==>
          && s2.regions[id].id == s1.regions[id].id
          && s2.regions[id].sovereignFactionId == s1.regions[id].sovereignFactionId
          && s2.regions[id].regionType == s1.regions[id].regionType)
    && s2.factions.Keys == s1.factions.Keys
    && (forall g :: g in s2.factions ==> s2.factions[g].id == s1.factions[g].id)
    && (forall g :: g in s2.factions && s2.factions[g].alive ==> s1.factions[g].alive)
    && SameArmyKeys(s1.armies, s2.armies)
    && s1.events <= s2.events
  }

  lemma SuccessorTransitive(s1: TurnState, s2: TurnState, s3: TurnState)
    requires Successor(s1, s2) && Successor(s2, s3)
    ensures Successor(s1, s3)
  {
  }

  /** A successor state is as ready for the remaining steps as its predecessor. */
  lemma ReadySuccessor(s1: TurnState, s2: TurnState, rules: Rules, plan: Planner)
    requires Ready(s1, rules, plan) && Successor(s1, s2)
    ensures Ready(s2, rules, plan)
  {
    forall g | g in s2.factions && s2.factions[g].alive
      ensures HasArmy(s2.armies, g, MilitiaUnitId)
    {
      var i :| 0 <= i < |s1.armies| && s1.armies[i].factionId == g && s1.armies[i].unitId == MilitiaUnitId;
      assert s2.armies[i].factionId == g && s2.armies[i].unitId == MilitiaUnitId;
    }
  }

  /** Faction `f` collects its income and pays its upkeep. */
  function Earn(s: TurnState, rules: Rules, f: string): (r: TurnState)
    requires HoldingsPlaced(rules.holdings, s.regions) && ArmiesPriced(s.armies, rules.units) && f in s.factions
    ensures r.regions == s.regions && r.armies == s.armies && r.events == s.events
    ensures r.factions.Keys == s.factions.Keys
    ensures r.factions[f].id == s.factions[f].id && r.factions[f].alive == s.factions[f].alive
    ensures forall g :: g in s.factions && g != f ==> r.factions[g] == s.factions[g]
  {
    var faction := s.factions[f];
    var wealth := faction.wealth + Income(s.regions, rules.holdings, rules.definition.baseRegionIncome, f)
                                 - Outcome(s.armies, rules.units, f);
    s.(factions := s.factions[f := faction.(wealth := wealth)])
  }

  /** Faction `f`'s militia receives its recruits. */
  function Enlist(s: TurnState, rules: Rules, f: string): (r: TurnState)
    requires HasArmy(s.armies, f, MilitiaUnitId)
    ensures r.regions == s.regions && r.factions == s.factions && r.events == s.events
    ensures SameArmyKeys(s.armies, r.armies)
    ensures forall i :: 0 <= i < |s.armies| && s.armies[i].factionId != f ==> r.armies[i] == s.armies[i]
  {
    var def := rules.definition;
    var recruits := Recruitment(s.regions, def.baseRegionRecruitment, def.baseFactionRecruitment, f);
    s.(armies := AddToArmy(s.armies, f, MilitiaUnitId, recruits))
  }

  /** The economy part of a living faction's step: wealth grows by income and
      shrinks by upkeep, both taken on the state the step starts from, and then
      the militia receives the faction's recruits. */
  function Grow(s: TurnState, rules: Rules, plan: Planner, f: string): (r: TurnState)
    requires Ready(s, rules, plan) && f in s.factions
    ensures r.regions == s.regions && r.events == s.events && r.factions.Keys == s.factions.Keys
  {
    if s.factions[f].alive then Enlist(Earn(s, rules, f), rules, f) else s
  }

  /** The economy part of a step yields a successor state and changes only the
      faction's own record and army entries. */
  lemma GrowFrame(s: TurnState, rules: Rules, plan: Planner, f: string)
    requires Ready(s, rules, plan) && f in s.factions
    ensures Successor(s, Grow(s, rules, plan, f))
    ensures forall g :: g in s.factions && g != f ==> Grow(s, rules, plan, f).factions[g] == s.factions[g]
    ensures forall i :: 0 <= i < |s.armies| && s.armies[i].factionId != f ==> Grow(s, rules, plan, f).armies[i] == s.armies[i]
  {
  }

  /** The attack part of a faction's step: unless it is the player or too weak,
      the faction attacks the planned region, takes it on a victory, and a
      notification is raised when the player occupied it before the attack. */
  function Campaign(s: TurnState, rules: Rules, plan: Planner, f: string): (r: TurnState)
    requires plan(f).regionId in s.regions
    ensures r.factions == s.factions && r.armies == s.armies
  {
    if f == rules.playerFactionId || TroopsCount(s.armies, f) < rules.definition.minTroopsPerAttack then s
    else
      var decision := plan(f);
      var owner := s.regions[decision.regionId].factionId;
      var regions := if decision.result == Victory then Transfer(s.regions, decision.regionId, f) else s.regions;
      var events := if owner == rules.playerFactionId
                    then s.events + [RegionAttack(decision.regionId, f, decision.result)]
                    else s.events;
      s.(regions := regions, events := events)
  }

  /** The attack part of a step yields a successor state. */
  lemma CampaignFrame(s: TurnState, rules: Rules, plan: Planner, f: string)
    requires plan(f).regionId in s.regions
    ensures Successor(s, Campaign(s, rules, plan, f))
  {
    var r := Campaign(s, rules, plan, f);
    if r.regions != s.regions {
      TransferMovesOneRegion(s.regions, plan(f).regionId, f, "");
    }
  }

  /** The step of faction `f`: a dead faction is skipped (as is an id the store
      does not hold, which the turn never visits); a faction without regions
      dies; any other faction grows and then campaigns. */
  function Step(s: TurnState, rules: Rules, plan: Planner, f: string): (r: TurnState)
    requires Ready(s, rules, plan)
    ensures s.events <= r.events && |r.events| <= |s.events| + 1
  {
    if f !in s.factions || !s.factions[f].alive then s
    else if |FactionRegions(s.regions, f)| == 0 then
      s.(factions := s.factions[f := s.factions[f].(alive := false)])
    else
      Campaign(Grow(s, rules, plan, f), rules, plan, f)
  }

  /** A step yields a successor state and changes only the stepping
      faction's record and army entries. */
  lemma StepFrame(s: TurnState, rules: Rules, plan: Planner, f: string)
    requires Ready(s, rules, plan)
    ensures Successor(s, Step(s, rules, plan, f))
    ensures forall g :: g in s.factions && g != f ==> Step(s, rules, plan, f).factions[g] == s.factions[g]
    ensures forall i :: 0 <= i < |s.armies| && s.armies[i].factionId != f ==> Step(s, rules, plan, f).armies[i] == s.armies[i]
  {
    if f in s.factions && s.factions[f].alive && |FactionRegions(s.regions, f)| != 0 {
      var grown := Grow(s, rules, plan, f);
      GrowFrame(s, rules, plan, f);
      CampaignFrame(grown, rules, plan, f);
      SuccessorTransitive(s, grown, Campaign(grown, rules, plan, f));
    }
  }

  /** The steps of the factions in `order`, one after the other. */
  function Steps(s: TurnState, rules: Rules, plan: Planner, order: seq<string>): (r: TurnState)
    requires Ready(s, rules, plan)
    ensures Ready(r, rules, plan)
    decreases |order|
  {
    if order == [] then s
    else
      var prev := Steps(s, rules, plan, order[..|order| - 1]);
      var r := Step(prev, rules, plan, order[|order| - 1]);
      StepFrame(prev, rules, plan, order[|order| - 1]);
      ReadySuccessor(prev, r, rules, plan);
      r
  }

  /** The whole turn is a successor of its starting state. */
  lemma {:induction false} StepsSuccessor(s: TurnState, rules: Rules, plan: Planner, order: seq<string>)
    requires Ready(s, rules, plan)
    ensures Successor(s, Steps(s, rules, plan, order))
    decreases |order|
  {
    if order != [] {
      var prev := Steps(s, rules, plan, order[..|order| - 1]);
      StepsSuccessor(s, rules, plan, order[..|order| - 1]);
      StepFrame(prev, rules, plan, order[|order| - 1]);
      SuccessorTransitive(s, prev, Step(prev, rules, plan, order[|order| - 1]));
    }
  }

  /** The steps of a longer prefix of the order are one more step. */
  lemma StepsExtend(s: TurnState, rules: Rules, plan: Planner, order: seq<string>, i: nat)
    requires Ready(s, rules, plan)
    requires i < |order|
    ensures Ready(Steps(s, rules, plan, order[..i]), rules, plan)
    ensures Steps(s, rules, plan, order[..i + 1]) == Step(Steps(s, rules, plan, order[..i]), rules, plan, order[i])
  {
    assert order[..i + 1][..i] == order[..i];
  }

  // ---------------------------------------------------------------------------
  // One step
  // ---------------------------------------------------------------------------

  /** A faction that is already dead is not visited. */
  lemma StepSkipsDead(s: TurnState, rules: Rules, plan: Planner, f: string)
    requires Ready(s, rules, plan) && f in s.factions && !s.factions[f].alive
    ensures Step(s, rules, plan, f) == s
  {
  }

  /** A living faction that occupies no region dies, and nothing else happens:
      no income, no upkeep, no recruits, no attack. */
  lemma StepEliminates(s: TurnState, rules: Rules, plan: Planner, f: string)
    requires Ready(s, rules, plan) && f in s.factions && s.factions[f].alive
    requires FactionRegions(s.regions, f) == {}
    ensures var r := Step(s, rules, plan, f);
            && r.factions == s.factions[f := s.factions[f].(alive := false)]
            && r.regions == s.regions && r.armies == s.armies && r.events == s.events
  {
  }

  /** A surviving faction's wealth grows by its income and shrinks by its
      upkeep, both taken before the militia grows; no other faction changes. */
  lemma StepEconomy(s: TurnState, rules: Rules, plan: Planner, f: string)
    requires Ready(s, rules, plan) && f in s.factions && s.factions[f].alive
    requires FactionRegions(s.regions, f) != {}
    ensures var r := Step(s, rules, plan, f);
            && r.factions[f].alive
            && r.factions[f].wealth == s.factions[f].wealth
                 + Income(s.regions, rules.holdings, rules.definition.baseRegionIncome, f)
                 - Outcome(s.armies, rules.units, f)
            && forall g :: g in s.factions && g != f ==> r.factions[g] == s.factions[g]
  {
  }

  /** A surviving faction's militia grows by exactly its recruitment, so its
      troop count does too; every other army entry is unchanged. */
  lemma StepRecruits(s: TurnState, rules: Rules, plan: Planner, f: string)
    requires Ready(s, rules, plan) && f in s.factions && s.factions[f].alive
    requires FactionRegions(s.regions, f) != {}
    ensures var r := Step(s, rules, plan, f);
            var i := FindArmy(s.armies, f, MilitiaUnitId).value;
            var recruits := Recruitment(s.regions, rules.definition.baseRegionRecruitment, rules.definition.baseFactionRecruitment, f);
            && r.armies[i].size == s.armies[i].size + recruits
            && (forall j :: 0 <= j < |s.armies| && j != i ==> r.armies[j] == s.armies[j])
            && TroopsCount(r.armies, f) == TroopsCount(s.armies, f) + recruits
  {
    var grown := Grow(s, rules, plan, f);
    assert Step(s, rules, plan, f).armies == grown.armies;
    var i := FindArmy(s.armies, f, MilitiaUnitId).value;
    var recruits := Recruitment(s.regions, rules.definition.baseRegionRecruitment, rules.definition.baseFactionRecruitment, f);
    assert grown.armies == AddToArmy(s.armies, f, MilitiaUnitId, recruits);
    AddToArmyTroops(s.armies, f, MilitiaUnitId, recruits, f);
  }

  /** The player's faction, and a faction with fewer troops than an attack
      needs, attack nobody: regions and notifications stay as they are. */
  lemma StepNoAttack(s: TurnState, rules: Rules, plan: Planner, f: string)
    requires Ready(s, rules, plan) && f in s.factions
    requires f == rules.playerFactionId
          || TroopsCount(s.armies, f) + Recruitment(s.regions, rules.definition.baseRegionRecruitment, rules.definition.baseFactionRecruitment, f)
             < rules.definition.minTroopsPerAttack
    ensures Step(s, rules, plan, f).regions == s.regions && Step(s, rules, plan, f).events == s.events
  {
    if s.factions[f].alive && |FactionRegions(s.regions, f)| != 0 {
      var grown := Grow(s, rules, plan, f);
      var recruits := Recruitment(s.regions, rules.definition.baseRegionRecruitment, rules.definition.baseFactionRecruitment, f);
      assert grown.armies == AddToArmy(s.armies, f, MilitiaUnitId, recruits);
      AddToArmyTroops(s.armies, f, MilitiaUnitId, recruits, f);
      assert Step(s, rules, plan, f) == Campaign(grown, rules, plan, f) == grown;
    }
  }

  /** An attack changes at most the planned region, and only to the attacker on
      a victory; a notification is raised only when the region belonged to the
      player, and it names the region, the attacker and the result. */
  lemma StepAttack(s: TurnState, rules: Rules, plan: Planner, f: string)
    requires Ready(s, rules, plan)
    ensures var r := Step(s, rules, plan, f);
            var target := plan(f).regionId;
            && (r.regions == s.regions || (plan(f).result == Victory && r.regions == Transfer(s.regions, target, f)))
            && (r.events == s.events
                || (&& r.events == s.events + [RegionAttack(target, f, plan(f).result)]
                    && s.regions[target].factionId == rules.playerFactionId
                    && f != rules.playerFactionId))
  {
  }

  /** A computer faction with enough troops attacks the planned region: it takes
      the region on a victory, and a notification is raised exactly when the
      player occupied the region before the attack. */
  lemma CampaignAttacks(s: TurnState, rules: Rules, plan: Planner, f: string)
    requires plan(f).regionId in s.regions
    requires f != rules.playerFactionId && TroopsCount(s.armies, f) >= rules.definition.minTroopsPerAttack
    ensures var r := Campaign(s, rules, plan, f);
            var target := plan(f).regionId;
            && r.regions == (if plan(f).result == Victory then Transfer(s.regions, target, f) else s.regions)
            && r.events == s.events + (if s.regions[target].factionId == rules.playerFactionId
                                       then [RegionAttack(target, f, plan(f).result)] else [])
  {
  }

  /** A surviving computer faction whose troops after recruiting reach the attack
      minimum attacks the planned region: it takes the region on a victory, and
      a notification is raised exactly when the player occupied the region. */
  lemma StepAttacks(s: TurnState, rules: Rules, plan: Planner, f: string)
    requires Ready(s, rules, plan) && f in s.factions && s.factions[f].alive
    requires FactionRegions(s.regions, f) != {} && f != rules.playerFactionId
    requires TroopsCount(s.armies, f) + Recruitment(s.regions, rules.definition.baseRegionRecruitment, rules.definition.baseFactionRecruitment, f)
             >= rules.definition.minTroopsPerAttack
    ensures var r := Step(s, rules, plan, f);
            var target := plan(f).regionId;
            && r.regions == (if plan(f).result == Victory then Transfer(s.regions, target, f) else s.regions)
            && r.events == s.events + (if s.regions[target].factionId == rules.playerFactionId
                                       then [RegionAttack(target, f, plan(f).result)] else [])
  {
    var grown := Grow(s, rules, plan, f);
    var recruits := Recruitment(s.regions, rules.definition.baseRegionRecruitment, rules.definition.baseFactionRecruitment, f);
    assert grown.armies == AddToArmy(s.armies, f, MilitiaUnitId, recruits);
    AddToArmyTroops(s.armies, f, MilitiaUnitId, recruits, f);
    CampaignAttacks(grown, rules, plan, f);
  }

  /** A step of faction `f` leaves alone every other faction `g` that occupies
      no region: `g` still occupies none, and its record and armies are unchanged. */
  lemma {:induction false} StepSparesLandless(s: TurnState, rules: Rules, plan: Planner, f: string, g: string)
    requires Ready(s, rules, plan) && g != f
    requires FactionRegions(s.regions, g) == {}
    ensures var r := Step(s, rules, plan, f);
            && FactionRegions(r.regions, g) == {}
            && (g in s.factions ==> r.factions[g] == s.factions[g])
            && forall i :: 0 <= i < |s.armies| && s.armies[i].factionId == g ==> r.armies[i] == s.armies[i]
  {
    StepFrame(s, rules, plan, f);
    if f in s.factions {
      StepAttack(s, rules, plan, f);
      TransferMovesOneRegion(s.regions, plan(f).regionId, f, g);
    }
  }

  // ---------------------------------------------------------------------------
  // A whole turn
  // ---------------------------------------------------------------------------

  /** A faction that is dead when the turn starts is untouched by it. */
  lemma {:induction false} TurnSkipsDead(s: TurnState, rules: Rules, plan: Planner, order: seq<string>, g: string)
    requires Ready(s, rules, plan)
    requires g in s.factions && !s.factions[g].alive
    ensures var r := Steps(s, rules, plan, order); g in r.factions && r.factions[g] == s.factions[g]
    decreases |order|
  {
    if order != [] {
      var front := order[..|order| - 1];
      TurnSkipsDead(s, rules, plan, front, g);
      StepFrame(Steps(s, rules, plan, front), rules, plan, order[|order| - 1]);
    }
  }

  /** `g` still occupies no region, and its wealth and army entries are those
      it had in `s0`. */
  ghost predicate StillLandless(s0: TurnState, r: TurnState, g: string)
  {
    && g in s0.factions && g in r.factions
    && FactionRegions(r.regions, g) == {}
    && r.factions[g].wealth == s0.factions[g].wealth
    && |r.armies| == |s0.armies|
    && forall i :: 0 <= i < |s0.armies| && s0.armies[i].factionId == g ==> r.armies[i] == s0.armies[i]
  }

  /** One step keeps a landless faction landless with its wealth and armies;
      the faction's own step leaves it dead, any other step leaves its record. */
  lemma StepKeepsLandless(s0: TurnState, s: TurnState, rules: Rules, plan: Planner, f: string, g: string)
    requires Ready(s, rules, plan) && StillLandless(s0, s, g)
    ensures StillLandless(s0, Step(s, rules, plan, f), g)
    ensures f == g ==> !Step(s, rules, plan, f).factions[g].alive
    ensures f != g ==> Step(s, rules, plan, f).factions[g] == s.factions[g]
  {
    StepFrame(s, rules, plan, f);
    if f == g {
      if s.factions[g].alive {
        StepEliminates(s, rules, plan, g);
      } else {
        StepSkipsDead(s, rules, plan, g);
      }
    } else {
      StepSparesLandless(s, rules, plan, f, g);
    }
  }

  /** A faction that occupies no region when the turn starts and whose turn
      comes up is dead afterwards, with the wealth and armies it had; one whose
      turn does not come up is untouched. */
  lemma {:induction false} TurnEliminatesLandless(s: TurnState, rules: Rules, plan: Planner, order: seq<string>, g: string)
    requires Ready(s, rules, plan)
    requires g in s.factions && FactionRegions(s.regions, g) == {}
    ensures StillLandless(s, Steps(s, rules, plan, order), g)
    ensures g in order ==> !Steps(s, rules, plan, order).factions[g].alive
    ensures !(g in order) ==> Steps(s, rules, plan, order).factions[g] == s.factions[g]
    decreases |order|
  {
    if order != [] {
      var front := order[..|order| - 1];
      var f := order[|order| - 1];
      assert order == front + [f];
      TurnEliminatesLandless(s, rules, plan, front, g);
      var prev := Steps(s, rules, plan, front);
      var r := Step(prev, rules, plan, f);
      assert Steps(s, rules, plan, order) == r;
      StepKeepsLandless(s, prev, rules, plan, f, g);
      assert g in order <==> g in front || g == f;
    }
  }

  /** The notifications from index `from` on were raised by factions of
      `order` other than the player. */
  ghost predicate RaisedByOthers(events: seq<RegionAttack>, from: nat, player: string, order: seq<string>)
  {
    forall k :: from <= k < |events| ==> events[k].attackerFactionId != player && events[k].attackerFactionId in order
  }

  /** Every notification raised during a turn names an attacker that is not the
      player and whose step belongs to the turn. */
  lemma {:induction false} TurnNotificationsFromOthers(s: TurnState, rules: Rules, plan: Planner, order: seq<string>)
    requires Ready(s, rules, plan)
    ensures RaisedByOthers(Steps(s, rules, plan, order).events, |s.events|, rules.playerFactionId, order)
    decreases |order|
  {
    if order != [] {
      var front := order[..|order| - 1];
      var f := order[|order| - 1];
      assert order == front + [f];
      TurnNotificationsFromOthers(s, rules, plan, front);
      var prev := Steps(s, rules, plan, front);
      var r := Step(prev, rules, plan, f);
      assert Steps(s, rules, plan, order) == r;
      StepAttack(prev, rules, plan, f);
      assert RaisedByOthers(prev.events, |s.events|, rules.playerFactionId, front);
      forall k | |s.events| <= k < |r.events|
        ensures r.events[k].attackerFactionId != rules.playerFactionId && r.events[k].attackerFactionId in order
      {
        if k < |prev.events| {
          assert r.events[k] == prev.events[k];
        }
      }
    }
  }
}
