/**
 The token symbol cache, shared by concurrent lookups.

 A lookup reads under one lock, queries the chain with no lock held, and writes under another, so
 other lookups run in between. A run is any interleaving of such reads and writes.
 */
module SymbolCache {
  import opened Wrappers
  import opened OrderTypes

  const UNKNOWN := "unknown"

  type Task = nat

  datatype Event = Read(task: Task, address: Address) | Write(task: Task, answer: Result<string>)

  /** `waiting` are the lookups that missed and are out querying the chain. */
  datatype Cache = Cache(symbols: map<Address, string>, waiting: map<Task, Address>)

  function SymbolOf(answer: Result<string>): string {
    if answer.Ok? then answer.value else UNKNOWN
  }

  function Step(c: Cache, e: Event): Cache {
    match e
    case Read(task, address) => if address in c.symbols then c else c.(waiting := c.waiting[task := address])
    case Write(task, answer) =>
      if task !in c.waiting then c
      else Cache(c.symbols[c.waiting[task] := SymbolOf(answer)], c.waiting - {task})
  }

  predicate CanStep(c: Cache, e: Event) {
    match e
    case Read(task, _) => task !in c.waiting
    case Write(task, _) => task in c.waiting
  }

  function Run(c: Cache, events: seq<Event>): Cache
    decreases |events|
  {
    if events == [] then c else Run(Step(c, events[0]), events[1..])
  }

  predicate CanRun(c: Cache, events: seq<Event>)
    decreases |events|
  {
    events == [] || (CanStep(c, events[0]) && CanRun(Step(c, events[0]), events[1..]))
  }

  /** No lookup is out for this address. */
  predicate Quiet(c: Cache, a: Address) {
    forall t :: t in c.waiting ==> c.waiting[t] != a
  }

  /**
   A symbol that is cached while no lookup is out for its address is there for good: every later
   lookup returns it and none queries the chain. Seeded tokens start out that way.
   */
  lemma {:induction false} QuietIsForGood(c: Cache, events: seq<Event>, a: Address)
    requires CanRun(c, events) && a in c.symbols && Quiet(c, a)
    ensures var d := Run(c, events);
      a in d.symbols && d.symbols[a] == c.symbols[a] && Quiet(d, a)
    decreases |events|
  {
    if events == [] {
    } else {
      QuietIsForGood(Step(c, events[0]), events[1..], a);
    }
  }

  /** Whatever happens next, the cached symbol of this address stays as it is. */
  ghost predicate Settled(c: Cache, a: Address)
    requires a in c.symbols
  {
    forall events :: CanRun(c, events) ==>
      var d := Run(c, events); a in d.symbols && d.symbols[a] == c.symbols[a]
  }

  /** A cached symbol is settled iff no lookup is out for its address: one that is may still answer differently. */
  lemma SettledIffQuiet(c: Cache, a: Address)
    requires a in c.symbols
    ensures Settled(c, a) <==> Quiet(c, a)
  {
    if Quiet(c, a) {
      forall events | CanRun(c, events)
        ensures var d := Run(c, events); a in d.symbols && d.symbols[a] == c.symbols[a]
      {
        QuietIsForGood(c, events, a);
      }
    } else {
      var t :| t in c.waiting && c.waiting[t] == a;
      var other := Write(t, Ok(c.symbols[a] + "!"));
      assert [other][1..] == [];
      assert CanRun(Step(c, other), []) && CanRun(c, [other]);
      assert Run(c, [other]) == Run(Step(c, other), []) == Step(c, other);
      assert Step(c, other).symbols[a] != c.symbols[a];
    }
  }

  /** A cached address stays cached, and from then on lookups only return from, never go out for, it. */
  lemma {:induction false} OutstandingOnlyShrinks(c: Cache, events: seq<Event>, a: Address)
    requires CanRun(c, events) && a in c.symbols
    ensures var d := Run(c, events);
      a in d.symbols && forall t :: t in d.waiting && d.waiting[t] == a ==> t in c.waiting && c.waiting[t] == a
    decreases |events|
  {
    if events == [] {
    } else {
      OutstandingOnlyShrinks(Step(c, events[0]), events[1..], a);
    }
  }

  /** Two lookups of one address, one after the other going out; the first is answered, the second fails. */
  function Race(a: Address, t: Task, u: Task, good: string): seq<Event> {
    [Read(t, a), Read(u, a), Write(t, Ok(good)), Write(u, Err)]
  }

  /**
   From any cache that does not know an address, two lookups of it that overlap can run this race: the
   late failure replaces the good symbol, and "unknown" then stays for good.
   */
  lemma LateFailureWins(c: Cache, a: Address, t: Task, u: Task, good: string, later: seq<Event>)
    requires a !in c.symbols && Quiet(c, a)
    requires t != u && t !in c.waiting && u !in c.waiting
    requires CanRun(Run(c, Race(a, t, u, good)), later)
    ensures CanRun(c, Race(a, t, u, good))
    ensures Run(c, Race(a, t, u, good)[..3]).symbols == c.symbols[a := good]
    ensures var d := Run(Run(c, Race(a, t, u, good)), later);
      a in d.symbols && d.symbols[a] == UNKNOWN
  {
    RunFour(c, Read(t, a), Read(u, a), Write(t, Ok(good)), Write(u, Err));
    var d := Run(c, Race(a, t, u, good));
    assert Quiet(d, a);
    QuietIsForGood(d, later, a);
  }

  lemma RunCons(c: Cache, e: Event, rest: seq<Event>)
    ensures Run(c, [e] + rest) == Run(Step(c, e), rest)
    ensures CanRun(c, [e] + rest) <==> CanStep(c, e) && CanRun(Step(c, e), rest)
  {
    assert ([e] + rest)[1..] == rest;
  }

  lemma RunFour(c: Cache, e1: Event, e2: Event, e3: Event, e4: Event)
    ensures var c1 := Step(c, e1); var c2 := Step(c1, e2); var c3 := Step(c2, e3);
      && Run(c, [e1, e2, e3, e4]) == Step(c3, e4)
      && Run(c, [e1, e2, e3, e4][..3]) == c3
      && (CanRun(c, [e1, e2, e3, e4]) <==> CanStep(c, e1) && CanStep(c1, e2) && CanStep(c2, e3) && CanStep(c3, e4))
  {
    var c1 := Step(c, e1);
    var c2 := Step(c1, e2);
    var c3 := Step(c2, e3);
    assert [e1, e2, e3, e4][..3] == [e1, e2, e3];
    RunCons(c, e1, [e2, e3, e4]);
    RunCons(c1, e2, [e3, e4]);
    RunCons(c2, e3, [e4]);
    RunCons(c3, e4, []);
    RunCons(c, e1, [e2, e3]);
    RunCons(c1, e2, [e3]);
    RunCons(c2, e3, []);
  }

  class TokenSymbolCache {
    var symbols: map<Address, string>
    ghost var waiting: map<Task, Address>

    ghost function Model(): Cache
      reads this
    {
      Cache(symbols, waiting)
    }

    /** Rollup tokens first, then host tokens, which win where addresses coincide. */
    constructor (rollupWeth: Address, rollupWbtc: Address, weth: Address, wbtc: Address, usdc: Address, usdt: Address)
      ensures symbols.Keys == {rollupWeth, rollupWbtc, weth, wbtc, usdc, usdt} && waiting == map[]
      ensures symbols[usdt] == "USDT"
      ensures usdc != usdt ==> symbols[usdc] == "USDC"
      ensures wbtc !in {usdc, usdt} ==> symbols[wbtc] == "WBTC"
      ensures weth !in {wbtc, usdc, usdt} ==> symbols[weth] == "WETH"
      ensures rollupWbtc !in {weth, wbtc, usdc, usdt} ==> symbols[rollupWbtc] == "WBTC"
      ensures rollupWeth !in {rollupWbtc, weth, wbtc, usdc, usdt} ==> symbols[rollupWeth] == "WETH"
    {
      var rollupTokens := map[rollupWeth := "WETH"][rollupWbtc := "WBTC"];
      symbols := rollupTokens[weth := "WETH"][wbtc := "WBTC"][usdc := "USDC"][usdt := "USDT"];
      waiting := map[];
    }

    /** The read half of a lookup. */
    method Lookup(ghost task: Task, address: Address) returns (cached: Option<string>)
      requires task !in waiting
      modifies this`waiting
      ensures Model() == Step(old(Model()), Read(task, address))
      ensures cached == if address in symbols then Some(symbols[address]) else None
    {
      if address in symbols {
        return Some(symbols[address]);
      }
      waiting := waiting[task := address];
      return None;
    }

    /** The write half, once the chain has answered or failed to. */
    method Store(ghost task: Task, address: Address, answer: Result<string>) returns (symbol: string)
      requires task in waiting && waiting[task] == address
      modifies this
      ensures Model() == Step(old(Model()), Write(task, answer))
      ensures symbol == SymbolOf(answer) && address in symbols && symbols[address] == symbol
    {
      symbol := match answer case Ok(s) => s case Err => UNKNOWN;
      symbols := symbols[address := symbol];
      waiting := waiting - {task};
    }
  }
}
