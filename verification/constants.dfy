/** Numeric constants and price/delta tables of the game, with the attribute
    names that the upgrade tables are keyed by turned into enumerations. */
module Constants {

  const DISTANCE: int := 70

  const TIME_TICKS_PER_TURN: nat := 15
  const SPAWN_RATE_IN_TURNS: nat := 3
  const SPAWN_RATE: nat := TIME_TICKS_PER_TURN * SPAWN_RATE_IN_TURNS

  const CASTLE_HP: real := 10000.0
  /** CASTLE_HP as the integer the program stores in a player's castle_hp. */
  const CASTLE_HP_POINTS: int := 10000
  const CASTLE_RECEIVE_DAMAGE: real := 0.1

  const UNIT_HP: real := 5.0
  const UNIT_DMG: real := 1.0
  const UNIT_SPD: real := 1.0
  const UNIT_ATSPD: real := 1.0
  const UNIT_REGEN: real := 0.0

  const GOLD: int := 1000

  const UNIT_PRICE: int := 5
  const REWARD_FOR_KILLING: int := 1
  const UPGRADE_GOLD_REWARD: int := 1

  /** Income for each cell of land a side holds. */
  const LAND_INCOME: int := 10

  const SPAWN_COST: nat := 200

  /** A unit needs this much accumulated attack rate for one hit. */
  const ATTACK_RATE: real := 5.0

  /** The two sides of the battlefield. */
  datatype Side = PlayerSide | ComputerSide {
    function Enemy(): Side {
      if PlayerSide? then ComputerSide else PlayerSide
    }
  }

  /** Unit attributes that can be upgraded. */
  datatype UnitAttr = Hp | Dmg | Speed | AttackSpeed | Regen

  /** Castle attributes that can be upgraded. */
  datatype CastleAttr = Income | Dmg | Regen | Hp

  /** UNIT_UPGRADES: what one level adds to a unit attribute. */
  function UnitUpgrade(attr: UnitAttr): real {
    match attr
    case Hp => 5.0
    case Dmg => 1.0
    case Speed => 1.0
    case AttackSpeed => 0.1
    case Regen => 1.0
  }

  /** UNIT_UPGRADE_PRICES: the gold one level costs. */
  function UnitUpgradePrice(attr: UnitAttr): nat {
    match attr
    case Hp => 100
    case Dmg => 100
    case Speed => 100
    case AttackSpeed => 100
    case Regen => 100
  }

  /** CASTLE_UPGRADES: what one level adds to a castle attribute. */
  function CastleUpgrade(attr: CastleAttr): int {
    match attr
    case Income => 10
    case Dmg => 5
    case Regen => 10
    case Hp => 1000
  }

  /** CASTLE_UPGRADE_PRICES: the gold one level costs. */
  function CastleUpgradePrice(attr: CastleAttr): nat {
    match attr
    case Income => 100
    case Dmg => 300
    case Regen => 200
    case Hp => 500
  }

  /** PLAYER_POSITIONS: the cell where a side's castle stands and its new
      armies appear; the player's is the first cell of the road, the
      computer's the last, DISTANCE cells between them. */
  function StartPosition(side: Side): (p: int)
    ensures 0 <= p <= DISTANCE + 1
    ensures p == 0 <==> side == PlayerSide
    ensures p == DISTANCE + 1 <==> side == ComputerSide
  {
    match side
    case PlayerSide => 0
    case ComputerSide => DISTANCE + 1
  }

  /** PLAYER_MOVEMENTS: the direction a side's armies walk, one cell a
      step, from their own castle toward the enemy's. */
  function Movement(side: Side): (m: int)
    ensures m == 1 || m == -1
    ensures StartPosition(side) + m * (DISTANCE + 1) == StartPosition(side.Enemy())
  {
    match side
    case PlayerSide => 1
    case ComputerSide => -1
  }

  /** The actions the computer player chooses among (the keys of COSTS). */
  datatype Action =
    | Spawn | UnitHp | UnitDmg | UnitAttackSpeed | UnitRegen
    | IncomeUp | CastleDmg | CastleRegen | CastleHp
  {
    /** The unit attribute an upgrade action buys, if it is one. */
    predicate IsUnitUpgrade() {
      UnitHp? || UnitDmg? || UnitAttackSpeed? || UnitRegen?
    }

    function UnitAttribute(): UnitAttr
      requires IsUnitUpgrade()
    {
      match this
      case UnitHp => UnitAttr.Hp
      case UnitDmg => UnitAttr.Dmg
      case UnitAttackSpeed => UnitAttr.AttackSpeed
      case UnitRegen => UnitAttr.Regen
    }

    function CastleAttribute(): CastleAttr
      requires !Spawn? && !IsUnitUpgrade()
    {
      match this
      case IncomeUp => CastleAttr.Income
      case CastleDmg => CastleAttr.Dmg
      case CastleRegen => CastleAttr.Regen
      case CastleHp => CastleAttr.Hp
    }
  }

  /** COSTS: the gold the computer player must hold to consider an action. */
  function Cost(action: Action): (c: nat)
    ensures action.Spawn? ==> c == SPAWN_COST
    ensures action.IsUnitUpgrade() ==> c == UnitUpgradePrice(action.UnitAttribute())
    ensures !action.Spawn? && !action.IsUnitUpgrade() ==> c == CastleUpgradePrice(action.CastleAttribute())
  {
    match action
    case Spawn => SPAWN_COST
    case UnitHp => UnitUpgradePrice(UnitAttr.Hp)
    case UnitDmg => UnitUpgradePrice(UnitAttr.Dmg)
    case UnitAttackSpeed => UnitUpgradePrice(UnitAttr.AttackSpeed)
    case UnitRegen => UnitUpgradePrice(UnitAttr.Regen)
    case IncomeUp => CastleUpgradePrice(CastleAttr.Income)
    case CastleDmg => CastleUpgradePrice(CastleAttr.Dmg)
    case CastleRegen => CastleUpgradePrice(CastleAttr.Regen)
    case CastleHp => CastleUpgradePrice(CastleAttr.Hp)
  }

  /** The price list the computer player checks before acting: the spawn
      cost, then every unit upgrade price, then every castle upgrade price. */
  function AllPrices(): seq<nat> {
    [SPAWN_COST,
     UnitUpgradePrice(UnitAttr.Hp), UnitUpgradePrice(UnitAttr.Dmg),
     UnitUpgradePrice(UnitAttr.Speed), UnitUpgradePrice(UnitAttr.AttackSpeed),
     UnitUpgradePrice(UnitAttr.Regen),
     CastleUpgradePrice(CastleAttr.Income), CastleUpgradePrice(CastleAttr.Dmg),
     CastleUpgradePrice(CastleAttr.Regen), CastleUpgradePrice(CastleAttr.Hp)]
  }

  /** The smallest element of a non-empty list. */
  function MinOf(s: seq<nat>): (m: nat)
    requires |s| > 0
    ensures m in s
    ensures forall i :: 0 <= i < |s| ==> m <= s[i]
  {
    if |s| == 1 then s[0]
    else
      var rest := MinOf(s[1..]);
      if s[0] <= rest then s[0] else rest
  }

  /** The cheapest price in the game. */
  function MinPrice(): nat {
    MinOf(AllPrices())
  }

  /** The cheapest price is 100, the income upgrade's, and no action
      costs less. */
  lemma CheapestPriceIs100()
    ensures MinPrice() == 100 == Cost(IncomeUp)
    ensures forall a: Action :: Cost(a) >= 100
  {
    MinPriceIs100();
    EveryCostAtLeast100();
  }

  lemma MinPriceIs100()
    ensures MinPrice() == 100
  {
    var s := AllPrices();
    assert s == [200, 100, 100, 100, 100, 100, 100, 300, 200, 500];
    var m := MinOf(s);
    assert m in s && m <= s[6];
  }

  /** No action costs less than 100. */
  lemma EveryCostAtLeast100()
    ensures forall a: Action :: Cost(a) >= 100
  {
    forall a: Action ensures Cost(a) >= 100 {
      match a
      case Spawn =>
      case UnitHp =>
      case UnitDmg =>
      case UnitAttackSpeed =>
      case UnitRegen =>
      case IncomeUp =>
      case CastleDmg =>
      case CastleRegen =>
      case CastleHp =>
    }
  }

  /** Holding less than the cheapest price is the same as being able to
      afford no action at all. */
  lemma NothingAffordableBelowMinPrice(gold: int)
    ensures gold < MinPrice() <==> forall a: Action :: Cost(a) > gold
  {
    CheapestPriceIs100();
    if forall a: Action :: Cost(a) > gold {
      assert Cost(IncomeUp) > gold;
    }
  }

  /** SPAWN_RATE is the spawn cadence in ticks. */
  lemma SpawnRateInTicks()
    ensures SPAWN_RATE == TIME_TICKS_PER_TURN * SPAWN_RATE_IN_TURNS == 45
  {
  }
}
