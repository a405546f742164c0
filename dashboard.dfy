/** The progression engine of the six-resource variant
    (src/components/ClickerGameDashboard.tsx): coins, wood, food, knowledge,
    iron and rock, each fed by its own miner; every miner starts at level 0. */
module ClickerGameDashboard {
  import opened Economy

  datatype ResourceType = Coins | Wood | Food | Knowledge | Iron | Rock

  datatype Resources = Resources(coins: int, wood: int, food: int, knowledge: int, iron: int, rock: int)

  datatype Generator = Generator(level: nat, cost: nat)

  datatype GeneratorKind = CoinMiner | KnowledgeMiner | FoodMiner | WoodMiner | IronMiner | RockMiner

  datatype Generators = Generators(coinMiner: Generator, knowledgeMiner: Generator, foodMiner: Generator,
                                   woodMiner: Generator, ironMiner: Generator, rockMiner: Generator)

  datatype Stats = Stats(level: int, totalClicks: int)

  /** The three pieces of state the component holds. */
  datatype Game = Game(resources: Resources, generators: Generators, stats: Stats)

  /** The kinds a bonus drop can hit: all six, coins included. */
  const DropPool: seq<ResourceType> := [Coins, Wood, Food, Knowledge, Iron, Rock]

  function Balance(r: Resources, t: ResourceType): int
  {
    match t
    case Coins => r.coins
    case Wood => r.wood
    case Food => r.food
    case Knowledge => r.knowledge
    case Iron => r.iron
    case Rock => r.rock
  }

  /** `r` with `n` more units of `t`. */
  function AddTo(r: Resources, t: ResourceType, n: int): (r': Resources)
    ensures forall u :: Balance(r', u) == Balance(r, u) + (if u == t then n else 0)
  {
    match t
    case Coins => r.(coins := r.coins + n)
    case Wood => r.(wood := r.wood + n)
    case Food => r.(food := r.food + n)
    case Knowledge => r.(knowledge := r.knowledge + n)
    case Iron => r.(iron := r.iron + n)
    case Rock => r.(rock := r.rock + n)
  }

  function Get(gs: Generators, k: GeneratorKind): Generator
  {
    match k
    case CoinMiner => gs.coinMiner
    case KnowledgeMiner => gs.knowledgeMiner
    case FoodMiner => gs.foodMiner
    case WoodMiner => gs.woodMiner
    case IronMiner => gs.ironMiner
    case RockMiner => gs.rockMiner
  }

  /** `gs` with the entry of `k` replaced by `g`, every other entry kept. */
  function Set(gs: Generators, k: GeneratorKind, g: Generator): (gs': Generators)
    ensures forall j :: Get(gs', j) == if j == k then g else Get(gs, j)
  {
    match k
    case CoinMiner => gs.(coinMiner := g)
    case KnowledgeMiner => gs.(knowledgeMiner := g)
    case FoodMiner => gs.(foodMiner := g)
    case WoodMiner => gs.(woodMiner := g)
    case IronMiner => gs.(ironMiner := g)
    case RockMiner => gs.(rockMiner := g)
  }

  /** The miner whose level a tick adds to resource `t`. */
  function ProducerOf(t: ResourceType): GeneratorKind
  {
    match t
    case Coins => CoinMiner
    case Wood => WoodMiner
    case Food => FoodMiner
    case Knowledge => KnowledgeMiner
    case Iron => IronMiner
    case Rock => RockMiner
  }

  /** The cost each miner starts at, before any purchase. */
  function BaseCost(k: GeneratorKind): nat
  {
    match k
    case CoinMiner => 10
    case KnowledgeMiner => 20
    case FoodMiner => 30
    case WoodMiner => 30
    case IronMiner => 30
    case RockMiner => 30
  }

  /** What holds of every state the game can reach: balances are never
      negative, every miner costs what the price schedule says after as
      many purchases as its level, the player level stays 1 and the click
      count is not negative. */
  ghost predicate Invariant(g: Game)
  {
    (forall t :: Balance(g.resources, t) >= 0)
    && (forall k :: Get(g.generators, k).cost == CostAt(BaseCost(k), Get(g.generators, k).level))
    && g.stats.level == 1
    && g.stats.totalClicks >= 0
  }

  /** The state the component starts with. */
  function Initial(): (g: Game)
    ensures Invariant(g)
    ensures forall t :: Balance(g.resources, t) == 0
    ensures forall k :: Get(g.generators, k) == Generator(0, BaseCost(k))
  {
    Game(Resources(0, 0, 0, 0, 0, 0),
         Generators(Generator(0, 10), Generator(0, 20), Generator(0, 30),
                    Generator(0, 30), Generator(0, 30), Generator(0, 30)),
         Stats(1, 0))
  }

  /** One timer tick: every resource grows by the level of its own miner;
      generators and stats stay as they are. */
  function Tick(g: Game): (r: Game)
    ensures r.generators == g.generators && r.stats == g.stats
    ensures forall t :: Balance(r.resources, t) == Balance(g.resources, t) + Get(g.generators, ProducerOf(t)).level
  {
    var res, gens := g.resources, g.generators;
    g.(resources := Resources(res.coins + gens.coinMiner.level,
                              res.wood + gens.woodMiner.level,
                              res.food + gens.foodMiner.level,
                              res.knowledge + gens.knowledgeMiner.level,
                              res.iron + gens.ironMiner.level,
                              res.rock + gens.rockMiner.level))
  }

  /** Buying one level of miner `k`: all or nothing. Without enough coins
      nothing changes; otherwise the pre-purchase cost is paid, the level
      goes up by one and the cost takes one step of the schedule. Nothing
      else changes, the stats included. */
  function Upgrade(g: Game, k: GeneratorKind): (r: Game)
    ensures g.resources.coins < Get(g.generators, k).cost ==> r == g
    ensures g.resources.coins >= Get(g.generators, k).cost ==>
              var before := Get(g.generators, k);
              && Get(r.generators, k) == Generator(before.level + 1, NextCost(before.cost))
              && (forall j :: j != k ==> Get(r.generators, j) == Get(g.generators, j))
              && Balance(r.resources, Coins) == Balance(g.resources, Coins) - before.cost
              && (forall t :: t != Coins ==> Balance(r.resources, t) == Balance(g.resources, t))
              && r.stats == g.stats
  {
    var cost := Get(g.generators, k).cost;
    if g.resources.coins >= cost then
      var gen := Get(g.generators, k);
      Game(g.resources.(coins := g.resources.coins - cost),
           Set(g.generators, k, Generator(gen.level + 1, NextCost(gen.cost))),
           g.stats)
    else
      g
  }

  /** What a click's bonus drop adds to resource `t`. */
  function DropGain(roll: Roll, t: ResourceType): int
    requires Fits(roll, |DropPool|)
  {
    if roll.triggered && DropPool[roll.pick] == t then roll.amount else 0
  }

  /** One click: a coin and a click, plus the bonus drop when it fires.
      Generators and the player level do not change. */
  function Click(g: Game, roll: Roll): (r: Game)
    requires Fits(roll, |DropPool|)
    ensures r.generators == g.generators
    ensures r.stats == Stats(g.stats.level, g.stats.totalClicks + 1)
    ensures forall t :: Balance(r.resources, t) == Balance(g.resources, t) + (if t == Coins then 1 else 0) + DropGain(roll, t)
  {
    var res := g.resources.(coins := g.resources.coins + 1);
    var stats := g.stats.(totalClicks := g.stats.totalClicks + 1);
    var res' := if roll.triggered then AddTo(res, DropPool[roll.pick], roll.amount) else res;
    Game(res', g.generators, stats)
  }

  /** A fired drop adds 1..10 to exactly one resource, and every resource,
      coins included, is one the drop can hit; a drop that does not fire
      adds nothing. */
  lemma DropHitsExactlyOneResource(roll: Roll)
    requires Fits(roll, |DropPool|)
    ensures !roll.triggered ==> forall t :: DropGain(roll, t) == 0
    ensures roll.triggered ==>
              exists t :: 1 <= DropGain(roll, t) <= 10
                          && forall u :: u != t ==> DropGain(roll, u) == 0
    ensures forall t :: t in DropPool
  {
    if roll.triggered {
      var t := DropPool[roll.pick];
      assert 1 <= DropGain(roll, t) <= 10;
    }
    forall t ensures t in DropPool {
      match t
      case Coins => assert DropPool[0] == t;
      case Wood => assert DropPool[1] == t;
      case Food => assert DropPool[2] == t;
      case Knowledge => assert DropPool[3] == t;
      case Iron => assert DropPool[4] == t;
      case Rock => assert DropPool[5] == t;
    }
  }

  /** With every miner at level 0 a tick changes nothing. */
  lemma IdleTick(g: Game)
    requires forall k :: Get(g.generators, k).level == 0
    ensures Tick(g) == g
  {
    forall t ensures Balance(Tick(g).resources, t) == Balance(g.resources, t) {
      assert Get(g.generators, ProducerOf(t)).level == 0;
    }
    // Resources are equal field by field, one field per resource type.
    var before, after := g.resources, Tick(g).resources;
    assert Balance(after, Coins) == Balance(before, Coins) && Balance(after, Wood) == Balance(before, Wood);
    assert Balance(after, Food) == Balance(before, Food) && Balance(after, Knowledge) == Balance(before, Knowledge);
    assert Balance(after, Iron) == Balance(before, Iron) && Balance(after, Rock) == Balance(before, Rock);
  }

  lemma TickPreservesInvariant(g: Game)
    requires Invariant(g)
    ensures Invariant(Tick(g))
  {
  }

  lemma UpgradePreservesInvariant(g: Game, k: GeneratorKind)
    requires Invariant(g)
    ensures Invariant(Upgrade(g, k))
  {
  }

  lemma ClickPreservesInvariant(g: Game, roll: Roll)
    requires Invariant(g) && Fits(roll, |DropPool|)
    ensures Invariant(Click(g, roll))
  {
  }

  /** The events the component reacts to: the interval timer, a press of a
      miner's upgrade button, and a click with its random draws. */
  datatype Event = TickEvent | UpgradeEvent(kind: GeneratorKind) | ClickEvent(roll: Roll)

  predicate Admissible(e: Event)
  {
    e.ClickEvent? ==> Fits(e.roll, |DropPool|)
  }

  function Step(g: Game, e: Event): Game
    requires Admissible(e)
  {
    match e
    case TickEvent => Tick(g)
    case UpgradeEvent(k) => Upgrade(g, k)
    case ClickEvent(roll) => Click(g, roll)
  }

  /** The state after handling `evs` one after another. */
  function Run(g: Game, evs: seq<Event>): Game
    requires forall e :: e in evs ==> Admissible(e)
    decreases |evs|
  {
    if evs == [] then g else Run(Step(g, evs[0]), evs[1..])
  }

  lemma StepPreservesInvariant(g: Game, e: Event)
    requires Invariant(g) && Admissible(e)
    ensures Invariant(Step(g, e))
  {
  }

  /** Every sequence of events keeps the invariant. */
  lemma {:induction false} RunPreservesInvariant(g: Game, evs: seq<Event>)
    requires Invariant(g)
    requires forall e :: e in evs ==> Admissible(e)
    ensures Invariant(Run(g, evs))
    decreases |evs|
  {
    if evs != [] {
      StepPreservesInvariant(g, evs[0]);
      assert forall e :: e in evs[1..] ==> e in evs;
      RunPreservesInvariant(Step(g, evs[0]), evs[1..]);
    }
  }

  /** In every reachable state coins, like every other balance, are not
      negative: the one decrement is the guarded purchase. */
  lemma ReachableBalancesNonNegative(evs: seq<Event>, t: ResourceType)
    requires forall e :: e in evs ==> Admissible(e)
    ensures Balance(Run(Initial(), evs).resources, t) >= 0
  {
    RunPreservesInvariant(Initial(), evs);
  }

  /** Without a purchase event the miners never change. */
  lemma {:induction false} NoPurchaseKeepsGenerators(g: Game, evs: seq<Event>)
    requires forall e :: e in evs ==> Admissible(e) && !e.UpgradeEvent?
    ensures Run(g, evs).generators == g.generators
    decreases |evs|
  {
    if evs != [] {
      assert forall e :: e in evs[1..] ==> e in evs;
      NoPurchaseKeepsGenerators(Step(g, evs[0]), evs[1..]);
    }
  }

  /** Until something is bought, every miner is still at level 0, so a tick
      changes no balance. */
  lemma NoIncomeBeforeFirstPurchase(evs: seq<Event>)
    requires forall e :: e in evs ==> Admissible(e) && !e.UpgradeEvent?
    ensures var g := Run(Initial(), evs);
            Tick(g) == g
  {
    NoPurchaseKeepsGenerators(Initial(), evs);
    IdleTick(Run(Initial(), evs));
  }

  /** Only a purchase lowers a balance, and it lowers only coins. */
  lemma OnlyPurchaseSpends(g: Game, e: Event, t: ResourceType)
    requires Admissible(e)
    requires Balance(Step(g, e).resources, t) < Balance(g.resources, t)
    ensures e.UpgradeEvent? && t == Coins
  {
  }

  /** The component: the three hook-held pieces of state and the handlers
      that update them, one setter call at a time. */
  class Engine {
    var resources: Resources
    var generators: Generators
    var stats: Stats

    function State(): Game
      reads this
    {
      Game(resources, generators, stats)
    }

    ghost predicate Valid()
      reads this
    {
      Invariant(State())
    }

    constructor ()
      ensures State() == Initial() && Valid()
    {
      resources := Resources(0, 0, 0, 0, 0, 0);
      generators := Generators(Generator(0, 10), Generator(0, 20), Generator(0, 30),
                               Generator(0, 30), Generator(0, 30), Generator(0, 30));
      stats := Stats(1, 0);
    }

    /** The interval callback. */
    method OnTick()
      modifies this
      ensures State() == Tick(old(State()))
      ensures old(Valid()) ==> Valid()
    {
      resources := Resources(resources.coins + generators.coinMiner.level,
                             resources.wood + generators.woodMiner.level,
                             resources.food + generators.foodMiner.level,
                             resources.knowledge + generators.knowledgeMiner.level,
                             resources.iron + generators.ironMiner.level,
                             resources.rock + generators.rockMiner.level);
      if old(Valid()) { TickPreservesInvariant(old(State())); }
    }

    method UpgradeGenerator(kind: GeneratorKind)
      modifies this
      ensures State() == Upgrade(old(State()), kind)
      ensures old(Valid()) ==> Valid()
    {
      var cost := Get(generators, kind).cost;
      if resources.coins >= cost {
        var gen := Get(generators, kind);
        generators := Set(generators, kind, Generator(gen.level + 1, NextCost(gen.cost)));
        resources := resources.(coins := resources.coins - cost);
      }
      if old(Valid()) { UpgradePreservesInvariant(old(State()), kind); }
    }

    method HandleClick(roll: Roll)
      requires Fits(roll, |DropPool|)
      modifies this
      ensures State() == Click(old(State()), roll)
      ensures old(Valid()) ==> Valid()
    {
      resources := resources.(coins := resources.coins + 1);
      stats := stats.(totalClicks := stats.totalClicks + 1);
      if roll.triggered {
        var dropped := DropPool[roll.pick];
        resources := AddTo(resources, dropped, roll.amount);
      }
      if old(Valid()) { ClickPreservesInvariant(old(State()), roll); }
    }
  }
}
