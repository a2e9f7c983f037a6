/**
 * The game entities the core reads. Only the fields the core looks at are kept;
 * everything else about cards, creatures and players belongs to classes that are
 * not part of this model.
 */
module Entities {
  import opened Wrappers

  /** The identity of a player object (reference identity in the game). */
  type PlayerId = nat

  /** A creature on a battlefield (`ICreature`): its stable `TargetId`, display name, attack and health. */
  datatype Creature = Creature(targetId: string, name: string, attack: int, health: int)

  /**
   * A player (`IPlayer`): identity, side, current health and the opposing player,
   * which may be missing (a null `Opponent`).
   */
  datatype Player = Player(id: PlayerId, isPlayer1: bool, health: int, opponent: Option<PlayerId>)
}
