/**
 * The values of the player module that the witness operations hand to the
 * engine. The player module itself is not part of this model: an upgrade is
 * its type and level, and a ranged weapon slot is an opaque index.
 */
module Player {
  datatype UpgradeType = Toughness | Accuracy | Endurance

  datatype UpgradeLevel = Level1 | Level2

  /** player::Upgrade: what the player chose in the upgrade menu. */
  datatype Upgrade = Upgrade(typ: UpgradeType, level: UpgradeLevel)

  /** player::RangedWeaponSlot: where a picked-up ranged weapon goes. */
  datatype RangedWeaponSlot = RangedWeaponSlot(index: nat)
}
