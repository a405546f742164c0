/** The progression engine of the three-resource variant (src/App.tsx):
    coins, energy and data, fed by a coin miner, an energy plant and a data
    centre that all start at level 1. */
module App {
  import opened Economy

  datatype ResourceType = Coins | Energy | Data

  datatype Resources = Resources(coins: int, energy: int, data: int)

  datatype Generator = Generator(level: nat, cost: nat)

  datatype GeneratorKind = CoinMiner | EnergyPlant | DataCenter

  datatype Generators = Generators(coinMiner: Generator, energyPlant: Generator, dataCenter: Generator)

  datatype Stats = Stats(level: int, totalClicks: int, totalResources: int, generatorsOwned: int)

  /** The three pieces of state the component holds. */
  datatype Game = Game(resources: Resources, generators: Generators, stats: Stats)

  /** The kinds a bonus drop can hit: coins are not among them. */
  const DropPool: seq<ResourceType> := [Energy, Data]

  function Balance(r: Resources, t: ResourceType): int
  {
    match t
    case Coins => r.coins
    case Energy => r.energy
    case Data => r.data
  }

  /** `r` with `n` more units of `t`. */
  function AddTo(r: Resources, t: ResourceType, n: int): (r': Resources)
    ensures forall u :: Balance(r', u) == Balance(r, u) + (if u == t then n else 0)
  {
    match t
    case Coins => r.(coins := r.coins + n)
    case Energy => r.(energy := r.energy + n)
    case Data => r.(data := r.data + n)
  }

  function Get(gs: Generators, k: GeneratorKind): Generator
  {
    match k
    case CoinMiner => gs.coinMiner
    case EnergyPlant => gs.energyPlant
    case DataCenter => gs.dataCenter
  }

  /** `gs` with the entry of `k` replaced by `g`, every other entry kept. */
  function Set(gs: Generators, k: GeneratorKind, g: Generator): (gs': Generators)
    ensures forall j :: Get(gs', j) == if j == k then g else Get(gs, j)
  {
    match k
    case CoinMiner => gs.(coinMiner := g)
    case EnergyPlant => gs.(energyPlant := g)
    case DataCenter => gs.(dataCenter := g)
  }

  /** The generator whose level a tick adds to resource `t`. */
  function ProducerOf(t: ResourceType): GeneratorKind
  {
    match t
    case Coins => CoinMiner
    case Energy => EnergyPlant
    case Data => DataCenter
  }

  /** The cost each generator starts at, before any purchase. */
  function BaseCost(k: GeneratorKind): nat
  {
    match k
    case CoinMiner => 10
    case EnergyPlant => 20
    case DataCenter => 30
  }

  function LevelSum(gs: Generators): int
  {
    gs.coinMiner.level + gs.energyPlant.level + gs.dataCenter.level
  }

  /** What holds of every state the game can reach: balances are never
      negative, every generator has level at least 1 and costs what the
      price schedule says after level - 1 purchases, `generatorsOwned`
      counts the levels, the player level stays 1, and `totalResources`
      (bumped only by clicks) equals `totalClicks`. */
  ghost predicate Invariant(g: Game)
  {
    (forall t :: Balance(g.resources, t) >= 0)
    && (forall k :: Get(g.generators, k).level >= 1
                    && Get(g.generators, k).cost == CostAt(BaseCost(k), Get(g.generators, k).level - 1))
    && g.stats.generatorsOwned == LevelSum(g.generators)
    && g.stats.level == 1
    && g.stats.totalClicks >= 0
    && g.stats.totalResources == g.stats.totalClicks
  }

  /** The state the component starts with. */
  function Initial(): (g: Game)
    ensures Invariant(g)
    ensures forall t :: Balance(g.resources, t) == 0
    ensures forall k :: Get(g.generators, k) == Generator(1, BaseCost(k))
    ensures g.stats.generatorsOwned == 3
  {
    Game(Resources(0, 0, 0),
         Generators(Generator(1, 10), Generator(1, 20), Generator(1, 30)),
         Stats(1, 0, 0, 3))
  }

  /** One timer tick: every resource grows by the level of its own
      generator; generators and stats stay as they are. */
  function Tick(g: Game): (r: Game)
    ensures r.generators == g.generators && r.stats == g.stats
    ensures forall t :: Balance(r.resources, t) == Balance(g.resources, t) + Get(g.generators, ProducerOf(t)).level
  {
    var res, gens := g.resources, g.generators;
    g.(resources := Resources(res.coins + gens.coinMiner.level,
                              res.energy + gens.energyPlant.level,
                              res.data + gens.dataCenter.level))
  }

  /** Buying one level of generator `k`: all or nothing. Without enough
      coins nothing changes; otherwise the pre-purchase cost is paid, the
      level goes up by one, the cost takes one step of the schedule and
      one more generator is owned. Nothing else changes. */
  function Upgrade(g: Game, k: GeneratorKind): (r: Game)
    ensures g.resources.coins < Get(g.generators, k).cost ==> r == g
    ensures g.resources.coins >= Get(g.generators, k).cost ==>
              var before := Get(g.generators, k);
              && Get(r.generators, k) == Generator(before.level + 1, NextCost(before.cost))
              && (forall j :: j != k ==> Get(r.generators, j) == Get(g.generators, j))
              && Balance(r.resources, Coins) == Balance(g.resources, Coins) - before.cost
              && (forall t :: t != Coins ==> Balance(r.resources, t) == Balance(g.resources, t))
              && r.stats == g.stats.(generatorsOwned := g.stats.generatorsOwned + 1)
  {
    var cost := Get(g.generators, k).cost;
    if g.resources.coins >= cost then
      var gen := Get(g.generators, k);
      Game(g.resources.(coins := g.resources.coins - cost),
           Set(g.generators, k, Generator(gen.level + 1, NextCost(gen.cost))),
           g.stats.(generatorsOwned := g.stats.generatorsOwned + 1))
    else
      g
  }

  /** What a click's bonus drop adds to resource `t`. */
  function DropGain(roll: Roll, t: ResourceType): int
    requires Fits(roll, |DropPool|)
  {
    if roll.triggered && DropPool[roll.pick] == t then roll.amount else 0
  }

  /** One click: a coin, a click and a unit of `totalResources`, plus the
      bonus drop when it fires. Generators do not change. */
  function Click(g: Game, roll: Roll): (r: Game)
    requires Fits(roll, |DropPool|)
    ensures r.generators == g.generators
    ensures r.stats == g.stats.(totalClicks := g.stats.totalClicks + 1,
                                totalResources := g.stats.totalResources + 1)
    ensures forall t :: Balance(r.resources, t) == Balance(g.resources, t) + (if t == Coins then 1 else 0) + DropGain(roll, t)
  {
    var res := g.resources.(coins := g.resources.coins + 1);
    var stats := g.stats.(totalClicks := g.stats.totalClicks + 1,
                          totalResources := g.stats.totalResources + 1);
    var res' := if roll.triggered then AddTo(res, DropPool[roll.pick], roll.amount) else res;
    Game(res', g.generators, stats)
  }

  /** A fired drop adds 1..10 to exactly one resource, never to coins;
      a drop that does not fire adds nothing. */
  lemma DropHitsOneNonCoinResource(roll: Roll)
    requires Fits(roll, |DropPool|)
    ensures DropGain(roll, Coins) == 0
    ensures !roll.triggered ==> forall t :: DropGain(roll, t) == 0
    ensures roll.triggered ==>
              exists t :: t != Coins && 1 <= DropGain(roll, t) <= 10
                          && forall u :: u != t ==> DropGain(roll, u) == 0
  {
    if roll.triggered {
      var t := DropPool[roll.pick];
      assert t != Coins && 1 <= DropGain(roll, t) <= 10;
    }
  }

  lemma TickPreservesInvariant(g: Game)
    requires Invariant(g)
    ensures Invariant(Tick(g))
  {
  }

  lemma UpgradePreservesInvariant(g: Game, k: GeneratorKind)
    requires Invariant(g)
    ensures Invariant(Upgrade(g, k))
  {
  }

  lemma ClickPreservesInvariant(g: Game, roll: Roll)
    requires Invariant(g) && Fits(roll, |DropPool|)
    ensures Invariant(Click(g, roll))
  {
  }

  /** The events the component reacts to: the interval timer, a press of a
      generator's upgrade button, and a click with its random draws. */
  datatype Event = TickEvent | UpgradeEvent(kind: GeneratorKind) | ClickEvent(roll: Roll)

  predicate Admissible(e: Event)
  {
    e.ClickEvent? ==> Fits(e.roll, |DropPool|)
  }

  function Step(g: Game, e: Event): Game
    requires Admissible(e)
  {
    match e
    case TickEvent => Tick(g)
    case UpgradeEvent(k) => Upgrade(g, k)
    case ClickEvent(roll) => Click(g, roll)
  }

  /** The state after handling `evs` one after another. */
  function Run(g: Game, evs: seq<Event>): Game
    requires forall e :: e in evs ==> Admissible(e)
    decreases |evs|
  {
    if evs == [] then g else Run(Step(g, evs[0]), evs[1..])
  }

  lemma StepPreservesInvariant(g: Game, e: Event)
    requires Invariant(g) && Admissible(e)
    ensures Invariant(Step(g, e))
  {
  }

  /** Every sequence of events keeps the invariant. */
  lemma {:induction false} RunPreservesInvariant(g: Game, evs: seq<Event>)
    requires Invariant(g)
    requires forall e :: e in evs ==> Admissible(e)
    ensures Invariant(Run(g, evs))
    decreases |evs|
  {
    if evs != [] {
      StepPreservesInvariant(g, evs[0]);
      assert forall e :: e in evs[1..] ==> e in evs;
      RunPreservesInvariant(Step(g, evs[0]), evs[1..]);
    }
  }

  /** In every reachable state no balance is negative and
      `generatorsOwned` is the sum of the three generator levels. */
  lemma ReachableStatesAreSound(evs: seq<Event>)
    requires forall e :: e in evs ==> Admissible(e)
    ensures var g := Run(Initial(), evs);
            && g.resources.coins >= 0 && g.resources.energy >= 0 && g.resources.data >= 0
            && g.stats.generatorsOwned == g.generators.coinMiner.level
                 + g.generators.energyPlant.level + g.generators.dataCenter.level
  {
    RunPreservesInvariant(Initial(), evs);
    var g := Run(Initial(), evs);
    assert Balance(g.resources, Coins) >= 0 && Balance(g.resources, Energy) >= 0 && Balance(g.resources, Data) >= 0;
  }

  /** Only a purchase lowers a balance, and it lowers only coins. */
  lemma OnlyPurchaseSpends(g: Game, e: Event, t: ResourceType)
    requires Admissible(e)
    requires Balance(Step(g, e).resources, t) < Balance(g.resources, t)
    ensures e.UpgradeEvent? && t == Coins
  {
  }

  /** The component: the three hook-held pieces of state and the handlers
      that update them, one setter call at a time. */
  class Engine {
    var resources: Resources
    var generators: Generators
    var stats: Stats

    function State(): Game
      reads this
    {
      Game(resources, generators, stats)
    }

    ghost predicate Valid()
      reads this
    {
      Invariant(State())
    }

    constructor ()
      ensures State() == Initial() && Valid()
    {
      resources := Resources(0, 0, 0);
      generators := Generators(Generator(1, 10), Generator(1, 20), Generator(1, 30));
      stats := Stats(1, 0, 0, 3);
    }

    /** The interval callback. */
    method OnTick()
      modifies this
      ensures State() == Tick(old(State()))
      ensures old(Valid()) ==> Valid()
    {
      resources := Resources(resources.coins + generators.coinMiner.level,
                             resources.energy + generators.energyPlant.level,
                             resources.data + generators.dataCenter.level);
      if old(Valid()) { TickPreservesInvariant(old(State())); }
    }

    method UpgradeGenerator(kind: GeneratorKind)
      modifies this
      ensures State() == Upgrade(old(State()), kind)
      ensures old(Valid()) ==> Valid()
    {
      var cost := Get(generators, kind).cost;
      if resources.coins >= cost {
        var gen := Get(generators, kind);
        generators := Set(generators, kind, Generator(gen.level + 1, NextCost(gen.cost)));
        resources := resources.(coins := resources.coins - cost);
        stats := stats.(generatorsOwned := stats.generatorsOwned + 1);
      }
      if old(Valid()) { UpgradePreservesInvariant(old(State()), kind); }
    }

    method HandleClick(roll: Roll)
      requires Fits(roll, |DropPool|)
      modifies this
      ensures State() == Click(old(State()), roll)
      ensures old(Valid()) ==> Valid()
    {
      resources := resources.(coins := resources.coins + 1);
      stats := stats.(totalClicks := stats.totalClicks + 1,
                      totalResources := stats.totalResources + 1);
      if roll.triggered {
        var dropped := DropPool[roll.pick];
        resources := AddTo(resources, dropped, roll.amount);
      }
      if old(Valid()) { ClickPreservesInvariant(old(State()), roll); }
    }
  }
}
