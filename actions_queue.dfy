/**
 * The pending-actions queue the combat resolver appends to (`ActionsQueue`), and
 * the one action kind the resolver constructs (`DamageCreatureAction`).
 */
module Actions {
  import opened Entities

  /** `DamageCreatureAction(target, amount, source)`: snapshots of the creatures and the amount. */
  datatype Action = DamageCreature(target: Creature, amount: int, source: Creature)

  class ActionsQueue {
    /** The actions not yet resolved, in enqueue order. */
    var pending: seq<Action>

    constructor ()
      ensures pending == []
    {
      pending := [];
    }

    /** `AddAction`: the action goes to the tail; nothing is reordered or dropped. */
    method AddAction(action: Action)
      modifies this
      ensures pending == old(pending) + [action]
    {
      pending := pending + [action];
    }
  }
}
