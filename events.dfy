/** The combat-log events the Blur of Talons analyzer reacts to, and its constants. */
module BlurEvents {

  /** Spell id of the Blur of Talons buff, the aura whose stacks are tracked. */
  const BLUR_OF_TALONS_BUFF_ID: int := 277969

  /** The buff stacks up to five times. */
  const MAX_BLUR_STACKS: nat := 5

  /** One bin of interval lengths per stack level 0 .. MAX_BLUR_STACKS. */
  const BIN_COUNT: nat := MAX_BLUR_STACKS + 1

  /** The four event kinds the stack handler accepts. Timestamps are integer
      milliseconds; a fight-end event carries no ability. */
  datatype Event =
    | ApplyBuff(timestamp: int, abilityId: int)
    | ApplyBuffStack(timestamp: int, abilityId: int, stack: int)
    | RemoveBuff(timestamp: int, abilityId: int)
    | FightEnd(timestamp: int)

  /** A buff event about the Blur of Talons buff itself. */
  predicate IsBlurBuff(e: Event)
  {
    !e.FightEnd? && e.abilityId == BLUR_OF_TALONS_BUFF_ID
  }
}
