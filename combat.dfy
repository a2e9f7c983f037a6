/**
 * The combat resolver (`BattlefieldCombatHandler`): turns an attacking card and the
 * cards under the pointer, front to back, into at most one queued damage action,
 * and records the attacking creature's id in the per-round attack-history set.
 * The two battlefields and the hit list are inputs of each call.
 */
module BattlefieldCombat {
  import opened Wrappers
  import opened Entities
  import opened Actions

  /**
   * A card view (`CardController`): its identity, its side and the id of the
   * creature it shows; `""` stands for a null or empty linked id.
   */
  datatype CardController = CardController(handle: nat, isPlayer1: bool, linkedCreatureId: string)

  /**
   * `IsValidTarget`: a card, not the attacker itself, on the other side. The self-check
   * never decides anything: a valid target is exactly a non-null card on the opposing side.
   */
  predicate IsValidTarget(target: Option<CardController>, attacker: CardController): (valid: bool)
    ensures valid <==> target.Some? && target.value.isPlayer1 != attacker.isPlayer1
  {
    target.Some? && target.value != attacker && target.value.isPlayer1 != attacker.isPlayer1
  }

  /** The position of the first valid target among the hits, or `|hits|` when there is none. */
  function FirstValidIndex(hits: seq<Option<CardController>>, attacker: CardController): (k: nat)
    ensures k <= |hits|
    ensures forall j :: 0 <= j < k ==> !IsValidTarget(hits[j], attacker)
    ensures k < |hits| ==> IsValidTarget(hits[k], attacker)
  {
    if hits == [] then 0
    else if IsValidTarget(hits[0], attacker) then 0
    else 1 + FirstValidIndex(hits[1..], attacker)
  }

  /**
   * `FindTargetCard` over the raycast results, front to back: the first hit that is a
   * valid target, or null.
   */
  method FindTargetCard(attackingCard: CardController, hits: seq<Option<CardController>>)
    returns (target: Option<CardController>)
    ensures target.None? <==> forall i :: 0 <= i < |hits| ==> !IsValidTarget(hits[i], attackingCard)
    ensures target.Some? ==> IsValidTarget(target, attackingCard)
    ensures target == var k := FirstValidIndex(hits, attackingCard); if k < |hits| then hits[k] else None
  {
    var i := 0;
    while i < |hits|
      invariant i <= |hits|
      invariant forall j :: 0 <= j < i ==> !IsValidTarget(hits[j], attackingCard)
    {
      if IsValidTarget(hits[i], attackingCard) {
        return hits[i];
      }
      i := i + 1;
    }
    return None;
  }

  /** Whether some creature of the battlefield has the id. */
  ghost predicate HasId(battlefield: seq<Creature>, id: string) {
    exists i :: 0 <= i < |battlefield| && battlefield[i].targetId == id
  }

  /** The position of the first creature with the id, or `|battlefield|` when there is none. */
  function FirstIndexWithId(battlefield: seq<Creature>, id: string): (k: nat)
    ensures k <= |battlefield|
    ensures forall j :: 0 <= j < k ==> battlefield[j].targetId != id
    ensures k < |battlefield| ==> battlefield[k].targetId == id
  {
    if battlefield == [] then 0
    else if battlefield[0].targetId == id then 0
    else 1 + FirstIndexWithId(battlefield[1..], id)
  }

  /** `FirstOrDefault(c => c.TargetId == id)`. */
  function FirstWithId(battlefield: seq<Creature>, id: string): (r: Option<Creature>)
    ensures r.None? <==> !HasId(battlefield, id)
    ensures r.Some? ==> r.value == battlefield[FirstIndexWithId(battlefield, id)]
  {
    var k := FirstIndexWithId(battlefield, id);
    if k < |battlefield| then Some(battlefield[k]) else None
  }

  /** The linked creature id of a possibly null card (`""` for null). */
  function LinkedId(card: Option<CardController>): string {
    if card.Some? then card.value.linkedCreatureId else ""
  }

  /**
   * `FindCreatureByTargetId`: null for a null card or an empty id; otherwise the
   * first creature with the card's id on Player 1's battlefield, else the first on
   * Player 2's, else null.
   */
  function FindCreatureByTargetId(card: Option<CardController>, battlefield1: seq<Creature>, battlefield2: seq<Creature>)
    : (r: Option<Creature>)
    ensures r.None? <==>
      card.None? || LinkedId(card) == "" || (!HasId(battlefield1, LinkedId(card)) && !HasId(battlefield2, LinkedId(card)))
    ensures r.Some? ==> card.Some? && r.value.targetId == LinkedId(card)
    ensures r.Some? && HasId(battlefield1, LinkedId(card)) ==>
      r.value == battlefield1[FirstIndexWithId(battlefield1, LinkedId(card))]
    ensures r.Some? && !HasId(battlefield1, LinkedId(card)) ==>
      r.value == battlefield2[FirstIndexWithId(battlefield2, LinkedId(card))]
  {
    if card.None? then None
    else
      var id := card.value.linkedCreatureId;
      if id == "" then None
      else
        match FirstWithId(battlefield1, id)
        case Some(c) => Some(c)
        case None => FirstWithId(battlefield2, id)
  }

  /**
   * The action `HandleCreatureCombat` queues, if any. It is absent when the attacker
   * does not resolve, when no hit is a valid target, or when the first valid target
   * does not resolve; otherwise it damages the target creature by the attacker's
   * attack, with the attacker as source.
   */
  function CombatAction(attackingCard: Option<CardController>, hits: seq<Option<CardController>>,
                        battlefield1: seq<Creature>, battlefield2: seq<Creature>): (r: Option<Action>)
    ensures FindCreatureByTargetId(attackingCard, battlefield1, battlefield2).None? ==> r.None?
    ensures attackingCard.Some? && (forall i :: 0 <= i < |hits| ==> !IsValidTarget(hits[i], attackingCard.value)) ==> r.None?
    ensures r.Some? ==>
      && attackingCard.Some?
      && FindCreatureByTargetId(attackingCard, battlefield1, battlefield2) == Some(r.value.source)
      && r.value.amount == r.value.source.attack
    ensures r.Some? ==>
      var k := FirstValidIndex(hits, attackingCard.value);
      && k < |hits| && hits[k].Some? && hits[k].value.isPlayer1 != attackingCard.value.isPlayer1
      && (forall j :: 0 <= j < k ==> !IsValidTarget(hits[j], attackingCard.value))
      && FindCreatureByTargetId(hits[k], battlefield1, battlefield2) == Some(r.value.target)
      && r.value.target.targetId == hits[k].value.linkedCreatureId
    ensures r.None? && FindCreatureByTargetId(attackingCard, battlefield1, battlefield2).Some? ==>
      var k := FirstValidIndex(hits, attackingCard.value);
      k == |hits| || FindCreatureByTargetId(hits[k], battlefield1, battlefield2).None?
  {
    match FindCreatureByTargetId(attackingCard, battlefield1, battlefield2)
    case None => None
    case Some(attacker) =>
      var k := FirstValidIndex(hits, attackingCard.value);
      if k == |hits| then None
      else
        match FindCreatureByTargetId(hits[k], battlefield1, battlefield2)
        case None => None
        case Some(target) => Some(DamageCreature(target, attacker.attack, attacker))
  }

  class CombatHandler {
    /** The game manager's actions queue. */
    const queue: ActionsQueue
    /** Ids of the creatures that have attacked this round. */
    var attackingCreatureIds: set<string>

    constructor (queue: ActionsQueue)
      ensures this.queue == queue && attackingCreatureIds == {}
    {
      this.queue := queue;
      attackingCreatureIds := {};
    }

    /**
     * `HandleCreatureCombat`: appends `CombatAction(...)` to the queue when there is
     * one and then records the attacker's id; every abort leaves the queue and the
     * set as they were. The set is never consulted, so a creature may attack again.
     */
    method HandleCreatureCombat(attackingCard: Option<CardController>, hits: seq<Option<CardController>>,
                                battlefield1: seq<Creature>, battlefield2: seq<Creature>)
      modifies this`attackingCreatureIds, queue
      ensures var a := CombatAction(attackingCard, hits, battlefield1, battlefield2);
        && queue.pending == old(queue.pending) + (if a.Some? then [a.value] else [])
        && attackingCreatureIds == old(attackingCreatureIds) + (if a.Some? then {a.value.source.targetId} else {})
    {
      var attackerCreature := FindCreatureByTargetId(attackingCard, battlefield1, battlefield2);
      if attackerCreature.None? {
        return;
      }
      var targetCard := FindTargetCard(attackingCard.value, hits);
      if targetCard.None? {
        return;
      }
      var targetCreature := FindCreatureByTargetId(targetCard, battlefield1, battlefield2);
      if targetCreature.Some? {
        CreateAndQueueDamageAction(attackerCreature.value, targetCreature.value);
        attackingCreatureIds := attackingCreatureIds + {attackerCreature.value.targetId};
      }
    }

    /** `CreateAndQueueDamageAction`: queues the attacker's attack against the target. */
    method CreateAndQueueDamageAction(attacker: Creature, target: Creature)
      modifies queue
      ensures queue.pending == old(queue.pending) + [DamageCreature(target, attacker.attack, attacker)]
    {
      queue.AddAction(DamageCreature(target, attacker.attack, attacker));
    }

    /** `ResetAttackingCreatures`: the round boundary forgets every attacker. */
    method ResetAttackingCreatures()
      modifies this`attackingCreatureIds
      ensures attackingCreatureIds == {}
      ensures forall id :: !HasCreatureAttacked(id)
    {
      attackingCreatureIds := {};
    }

    /** `HasCreatureAttacked`: membership in the attack-history set. */
    function HasCreatureAttacked(creatureId: string): (r: bool)
      reads this`attackingCreatureIds
      ensures r <==> creatureId in attackingCreatureIds
    {
      creatureId in attackingCreatureIds
    }
  }

  /**
   * Two identical attacks in one round both queue an action, while the attacker's id
   * is in the history set once: nothing enforces one attack per round.
   */
  method AttackTwiceInOneRound(handler: CombatHandler, attackingCard: Option<CardController>,
                               hits: seq<Option<CardController>>, battlefield1: seq<Creature>, battlefield2: seq<Creature>)
    requires CombatAction(attackingCard, hits, battlefield1, battlefield2).Some?
    modifies handler`attackingCreatureIds, handler.queue
    ensures var a := CombatAction(attackingCard, hits, battlefield1, battlefield2).value;
      && handler.queue.pending == old(handler.queue.pending) + [a, a]
      && handler.attackingCreatureIds == old(handler.attackingCreatureIds) + {a.source.targetId}
      && handler.HasCreatureAttacked(a.source.targetId)
  {
    handler.HandleCreatureCombat(attackingCard, hits, battlefield1, battlefield2);
    handler.HandleCreatureCombat(attackingCard, hits, battlefield1, battlefield2);
  }
}
