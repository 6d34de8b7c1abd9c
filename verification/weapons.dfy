/** The equipment a combatant attacks with. */
module Weapons {

  /** A weapon: its display name, the base threshold a die roll from 1 to 100
      is compared with, and the base damage it deals on a direct hit. Neither
      number is range-checked: any integer is accepted. */
  datatype Weapon = Weapon(name: string, hitRate: int, damage: int)

  /** `Weapon::new`: stores its three arguments unchanged. */
  function NewWeapon(name: string, hitRate: int, damage: int): (w: Weapon)
    ensures w.name == name
    ensures w.hitRate == hitRate
    ensures w.damage == damage
  {
    Weapon(name, hitRate, damage)
  }

  /** The `Display` text of a weapon. */
  function Display(w: Weapon): (text: string)
    ensures NewWeapon(text, w.hitRate, w.damage) == w
  {
    w.name
  }
}
