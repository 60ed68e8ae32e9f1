/** The client's game store (client/src/stores/game.ts): the player's level, experience,
    health, gold, weapons and potions, and the shop operations that change them. Weapon
    icons and descriptions and the player's skill list are display data no operation
    reads, and are not modelled. */
module GameStore {
  import opened Wrappers

  datatype Weapon = Weapon(id: string, name: string, damage: int, ranged: bool)

  datatype Potion = Potion(id: string, name: string, healAmount: int, price: int)

  /** The weapons the shop sells. */
  const ShopWeapons: seq<Weapon> := [
    Weapon("w1", "木剑", 5, false),
    Weapon("w2", "板砖", 8, false),
    Weapon("w3", "铁棍", 12, false),
    Weapon("w4", "金刚棒", 18, false)]

  /** The potions the shop sells. */
  const ShopPotions: seq<Potion> := [
    Potion("p1", "小红瓶", 30, 50),
    Potion("p2", "中红瓶", 60, 100),
    Potion("p3", "大红瓶", 100, 150)]

  datatype Player = Player(
    name: string,
    level: int,
    exp: int,
    maxExp: int,
    hp: int,
    maxHp: int,
    strength: int,
    agility: int,
    gold: int,
    weapon: Option<Weapon>,
    inventory: seq<Weapon>,
    potions: map<string, int>)

  /** The player a fresh store starts with when nothing was saved. */
  const DefaultPlayer: Player :=
    Player("Q宠大侠", 1, 0, 100, 100, 100, 10, 5, 500, None, [ShopWeapons[0], ShopWeapons[1]], map["p1" := 2])

  /** `weapons.find(w => w.id === id)` */
  function FindWeapon(weapons: seq<Weapon>, id: string): (r: Option<Weapon>)
    ensures r.Some? ==> r.value in weapons && r.value.id == id
    ensures r.None? <==> forall w :: w in weapons ==> w.id != id
  {
    if weapons == [] then None
    else if weapons[0].id == id then Some(weapons[0])
    else
      assert forall w :: w in weapons <==> w == weapons[0] || w in weapons[1..];
      FindWeapon(weapons[1..], id)
  }

  /** `potions.find(p => p.id === id)` */
  function FindPotion(potions: seq<Potion>, id: string): (r: Option<Potion>)
    ensures r.Some? ==> r.value in potions && r.value.id == id
    ensures r.None? <==> forall p :: p in potions ==> p.id != id
  {
    if potions == [] then None
    else if potions[0].id == id then Some(potions[0])
    else
      assert forall p :: p in potions <==> p == potions[0] || p in potions[1..];
      FindPotion(potions[1..], id)
  }

  /** `inventory.some(w => w.id === id)` */
  predicate Owns(p: Player, id: string)
  {
    exists w :: w in p.inventory && w.id == id
  }

  /** No two weapons of the inventory share an id. */
  predicate UniqueIds(weapons: seq<Weapon>)
  {
    forall i, j :: 0 <= i < j < |weapons| ==> weapons[i].id != weapons[j].id
  }

  /** equipWeapon */
  function Equipped(p: Player, id: string): Player
  {
    match FindWeapon(p.inventory, id)
    case Some(w) => p.(weapon := Some(w))
    case None => p
  }

  /** levelUp; `Math.floor(maxExp * 1.2)` is taken as `(6 * maxExp) / 5`. */
  function LeveledUp(p: Player): Player
  {
    p.(level := p.level + 1,
       exp := p.exp - p.maxExp,
       maxExp := (6 * p.maxExp) / 5,
       maxHp := p.maxHp + 20,
       hp := p.maxHp + 20,
       strength := p.strength + 2,
       agility := p.agility + 1)
  }

  /** gainExp: one level-up at most, whatever the amount. */
  function ExpGained(p: Player, amount: int): Player
  {
    var gained := p.(exp := p.exp + amount);
    if gained.exp >= gained.maxExp then LeveledUp(gained) else gained
  }

  /** gainGold */
  function GoldGained(p: Player, amount: int): Player
  {
    p.(gold := p.gold + amount)
  }

  /** buyWeapon: the new player and whether the purchase went through. The price is the
      caller's, not a shop field. */
  function WeaponBought(p: Player, id: string, price: int): (Player, bool)
  {
    if p.gold < price then (p, false)
    else
      match FindWeapon(ShopWeapons, id)
      case None => (p, false)
      case Some(w) =>
        if Owns(p, id) then (p, false)
        else (p.(gold := p.gold - price, inventory := p.inventory + [w]), true)
  }

  /** `(potions[id] || 0)` */
  function PotionCount(p: Player, id: string): int
  {
    if id in p.potions then p.potions[id] else 0
  }

  /** buyPotion: any id is accepted, shop potion or not. */
  function PotionBought(p: Player, id: string, price: int): (Player, bool)
  {
    if p.gold < price then (p, false)
    else (p.(gold := p.gold - price, potions := p.potions[id := PotionCount(p, id) + 1]), true)
  }

  /** usePotion: heals by the potion's amount capped at the missing HP, and uses one. */
  function PotionUsed(p: Player, id: string): (Player, bool)
  {
    if id !in p.potions || p.potions[id] <= 0 then (p, false)
    else
      match FindPotion(ShopPotions, id)
      case None => (p, false)
      case Some(potion) =>
        var heal := Min(potion.healAmount, p.maxHp - p.hp);
        (p.(hp := p.hp + heal, potions := p.potions[id := p.potions[id] - 1]), true)
  }

  /** Equipping picks the first inventory weapon with the id and changes nothing else;
      an id not in the inventory changes nothing. */
  lemma EquipOnlyOwned(p: Player, id: string)
    ensures var r := Equipped(p, id);
            && r.(weapon := p.weapon) == p
            && (Owns(p, id) ==> r.weapon.Some? && r.weapon.value in p.inventory && r.weapon.value.id == id)
            && (!Owns(p, id) ==> r == p)
  {
  }

  /** One level-up: one more level, the old threshold's experience spent, a threshold
      one fifth higher (rounded down), twenty more maximum HP, full health, two more
      strength and one more agility. */
  lemma LevelUpEffects(p: Player)
    requires p.maxExp >= 0
    ensures var r := LeveledUp(p);
            && r.level == p.level + 1 && r.exp == p.exp - p.maxExp
            && 5 * r.maxExp <= 6 * p.maxExp < 5 * r.maxExp + 5 && r.maxExp >= p.maxExp
            && r.maxHp == p.maxHp + 20 && r.hp == r.maxHp
            && r.strength == p.strength + 2 && r.agility == p.agility + 1
            && r.gold == p.gold && r.inventory == p.inventory && r.potions == p.potions && r.weapon == p.weapon
  {
  }

  /** Gaining experience levels up exactly when the new total reaches the threshold, and
      never by more than one level. */
  lemma GainExpLevelsOnce(p: Player, amount: int)
    ensures var r := ExpGained(p, amount);
            && (r.level == p.level + 1 <==> p.exp + amount >= p.maxExp)
            && (r.level == p.level <==> p.exp + amount < p.maxExp)
            && (r.level == p.level ==> r == p.(exp := p.exp + amount))
            && (r.level == p.level + 1 ==> r.exp == p.exp + amount - p.maxExp)
  {
  }

  /** 300 experience on the default player leaves it at level 2 with 200 experience
      against a threshold of 120: the surplus is not spent on a second level. */
  lemma GainExpLeavesSurplus()
    ensures var r := ExpGained(DefaultPlayer, 300);
            r.level == 2 && r.exp == 200 && r.maxExp == 120 && r.exp >= r.maxExp
  {
  }

  /** buyWeapon fails, changing nothing, exactly when gold is short, the shop does not
      sell the id, or the player already owns it; otherwise it costs exactly the price
      and adds the one shop weapon, keeping inventory ids unique. */
  lemma BuyWeaponOutcome(p: Player, id: string, price: int)
    ensures var (r, ok) := WeaponBought(p, id, price);
            && (ok <==> p.gold >= price && FindWeapon(ShopWeapons, id).Some? && !Owns(p, id))
            && (!ok ==> r == p)
            && (ok ==> r == p.(gold := p.gold - price, inventory := p.inventory + [FindWeapon(ShopWeapons, id).value])
                       && r.gold >= 0)
    ensures UniqueIds(p.inventory) ==> UniqueIds(WeaponBought(p, id, price).0.inventory)
  {
    var (r, ok) := WeaponBought(p, id, price);
    if ok && UniqueIds(p.inventory) {
      var w := FindWeapon(ShopWeapons, id).value;
      forall i, j | 0 <= i < j < |r.inventory|
        ensures r.inventory[i].id != r.inventory[j].id
      {
        if j == |p.inventory| {
          assert r.inventory[i] in p.inventory;
        }
      }
    }
  }

  /** The shop sells exactly the four weapon ids. */
  lemma ShopWeaponIds(id: string)
    ensures FindWeapon(ShopWeapons, id).Some? <==> id in {"w1", "w2", "w3", "w4"}
  {
  }

  /** buyPotion succeeds exactly when gold covers the price, then costs exactly the price
      and adds one to that potion's count and nothing else. */
  lemma BuyPotionOutcome(p: Player, id: string, price: int)
    ensures var (r, ok) := PotionBought(p, id, price);
            && (ok <==> p.gold >= price)
            && (!ok ==> r == p)
            && (ok ==> r.gold == p.gold - price && r.gold >= 0
                       && r.potions.Keys == p.potions.Keys + {id}
                       && r.potions[id] == PotionCount(p, id) + 1
                       && (forall k :: k in p.potions && k != id ==> r.potions[k] == p.potions[k])
                       && r.(gold := p.gold, potions := p.potions) == p)
  {
  }

  /** usePotion fails, changing nothing, when the count is missing or not positive or the
      shop has no such potion; otherwise it uses one and sets HP to the smaller of HP
      plus the heal amount and maximum HP. */
  lemma UsePotionOutcome(p: Player, id: string)
    ensures var (r, ok) := PotionUsed(p, id);
            && (ok <==> id in p.potions && p.potions[id] > 0 && FindPotion(ShopPotions, id).Some?)
            && (!ok ==> r == p)
            && (ok ==> r.hp == Min(p.hp + FindPotion(ShopPotions, id).value.healAmount, p.maxHp)
                       && r.potions == p.potions[id := p.potions[id] - 1]
                       && r.(hp := p.hp, potions := p.potions) == p)
    ensures var (r, ok) := PotionUsed(p, id);
            ok && p.hp <= p.maxHp ==> p.hp <= r.hp <= r.maxHp
  {
  }

  /** The heal is not clamped from below: a player above maximum HP who drinks a potion
      drops to maximum HP. */
  lemma PotionLowersOverfullHp()
    ensures var p := DefaultPlayer.(hp := 150);
            PotionUsed(p, "p1") == (DefaultPlayer.(potions := map["p1" := 1]), true)
  {
    assert FindPotion(ShopPotions, "p1") == Some(ShopPotions[0]);
    assert map["p1" := 2]["p1" := 1] == map["p1" := 1];
  }

  /** What the store keeps between operations, given non-negative gold gains: gold is
      not negative, HP does not exceed its maximum, weapon ids are unique and no potion
      count is negative. */
  predicate Valid(p: Player)
  {
    && p.gold >= 0
    && p.hp <= p.maxHp
    && UniqueIds(p.inventory)
    && (forall k :: k in p.potions ==> p.potions[k] >= 0)
  }

  lemma DefaultPlayerValid()
    ensures Valid(DefaultPlayer)
  {
  }

  /** Every operation keeps the invariant, gold gains as long as they are not negative. */
  lemma OperationsKeepValid(p: Player, id: string, price: int, amount: int)
    requires Valid(p)
    ensures Valid(Equipped(p, id)) && Valid(ExpGained(p, amount))
    ensures Valid(WeaponBought(p, id, price).0) && Valid(PotionBought(p, id, price).0) && Valid(PotionUsed(p, id).0)
    ensures amount >= 0 ==> Valid(GoldGained(p, amount))
  {
    BuyWeaponOutcome(p, id, price);
  }

  /** The store itself: the player record whose fields the operations update in place. */
  class Store {
    var name: string
    var level: int
    var exp: int
    var maxExp: int
    var hp: int
    var maxHp: int
    var strength: int
    var agility: int
    var gold: int
    var weapon: Option<Weapon>
    var inventory: seq<Weapon>
    var potions: map<string, int>

    function View(): Player
      reads this
    {
      Player(name, level, exp, maxExp, hp, maxHp, strength, agility, gold, weapon, inventory, potions)
    }

    /** A store with nothing saved. */
    constructor()
      ensures View() == DefaultPlayer
    {
      name := "Q宠大侠";
      level := 1;
      exp := 0;
      maxExp := 100;
      hp := 100;
      maxHp := 100;
      strength := 10;
      agility := 5;
      gold := 500;
      weapon := None;
      inventory := [ShopWeapons[0], ShopWeapons[1]];
      potions := map["p1" := 2];
    }

    method EquipWeapon(id: string)
      modifies this
      ensures View() == Equipped(old(View()), id)
    {
      var found := FindWeapon(inventory, id);
      if found.Some? {
        weapon := found;
      }
    }

    method GainExp(amount: int)
      modifies this
      ensures View() == ExpGained(old(View()), amount)
    {
      exp := exp + amount;
      if exp >= maxExp {
        LevelUp();
      }
    }

    method LevelUp()
      modifies this
      ensures View() == LeveledUp(old(View()))
    {
      level := level + 1;
      exp := exp - maxExp;
      maxExp := (6 * maxExp) / 5;
      maxHp := maxHp + 20;
      hp := maxHp;
      strength := strength + 2;
      agility := agility + 1;
    }

    method GainGold(amount: int)
      modifies this
      ensures View() == GoldGained(old(View()), amount)
    {
      gold := gold + amount;
    }

    method BuyWeapon(id: string, price: int) returns (ok: bool)
      modifies this
      ensures (View(), ok) == WeaponBought(old(View()), id, price)
    {
      if gold < price {
        return false;
      }
      var found := FindWeapon(ShopWeapons, id);
      if found.None? {
        return false;
      }
      if exists w :: w in inventory && w.id == id {
        return false;
      }
      gold := gold - price;
      inventory := inventory + [found.value];
      return true;
    }

    method BuyPotion(id: string, price: int) returns (ok: bool)
      modifies this
      ensures (View(), ok) == PotionBought(old(View()), id, price)
    {
      if gold < price {
        return false;
      }
      gold := gold - price;
      potions := potions[id := (if id in potions then potions[id] else 0) + 1];
      return true;
    }

    method UsePotion(id: string) returns (ok: bool)
      modifies this
      ensures (View(), ok) == PotionUsed(old(View()), id)
    {
      if id !in potions || potions[id] <= 0 {
        return false;
      }
      var found := FindPotion(ShopPotions, id);
      if found.None? {
        return false;
      }
      var heal := Min(found.value.healAmount, maxHp - hp);
      hp := hp + heal;
      potions := potions[id := potions[id] - 1];
      return true;
    }
  }
}
