/**
 * Households and firms (agents/core.py, agents/sector.py). An establishment
 * sits at a node and holds the agents currently inside it; its contact rate
 * and infected density are derived from that list. Python's subclasses
 * Household and Firm become classes that own their Establishment part.
 *
 * agents/sector.py calls `super().__init__` with a capacity and a contact
 * rate, which the Establishment constructor of agents/core.py does not
 * accept; the model follows the evident intent and stores both on the
 * establishment (constructor WithLimits), next to the as-written
 * constructor that keeps the class defaults.
 *
 * The random draws of the constructors are parameters.
 */
module Establishments {
  import opened Wrappers
  import opened Ids
  import opened Agents
  import opened GraphCore

  // --- occupancy metrics -----------------------------------------------------

  /** How many of the agents are in compartment I. */
  function CountInfected(s: seq<Agent>): (n: nat)
    ensures n <= |s|
  {
    if s == [] then 0
    else CountInfected(s[..|s| - 1]) + (if s[|s| - 1].compartment == I then 1 else 0)
  }

  /** No infected agent counted means none is infected, and conversely. */
  lemma {:induction false} CountInfectedZero(s: seq<Agent>)
    ensures CountInfected(s) == 0 <==> forall i :: 0 <= i < |s| ==> s[i].compartment != I
  {
    if s != [] {
      CountInfectedZero(s[..|s| - 1]);
      assert forall i :: 0 <= i < |s| - 1 ==> s[..|s| - 1][i] == s[i];
    }
  }

  /** Every agent counted means every agent is infected, and conversely. */
  lemma {:induction false} CountInfectedAll(s: seq<Agent>)
    ensures CountInfected(s) == |s| <==> forall i :: 0 <= i < |s| ==> s[i].compartment == I
  {
    if s != [] {
      CountInfectedAll(s[..|s| - 1]);
      assert forall i :: 0 <= i < |s| - 1 ==> s[..|s| - 1][i] == s[i];
    }
  }

  class Establishment {
    const node: Node
    const id: int
    var agents: seq<Agent>
    const maxContactRate: real
    const maxCapacity: int

    /**
     * `Establishment(node)` as agents/core.py writes it: the next id, no
     * agents, and the class defaults 10.0 and 100.
     */
    constructor (ids: IdCounter, node: Node)
      modifies ids
      ensures this.node == node && id == old(ids.next) && ids.next == old(ids.next) + 1
      ensures agents == [] && maxContactRate == 10.0 && maxCapacity == 100
    {
      this.node := node;
      id := ids.next;
      agents := [];
      maxContactRate := 10.0;
      maxCapacity := 100;
      new;
      ids.next := ids.next + 1;
    }

    /** The constructor agents/sector.py calls: capacity and contact rate given. */
    constructor WithLimits(ids: IdCounter, node: Node, maxCapacity: int, maxContactRate: real)
      modifies ids
      ensures this.node == node && id == old(ids.next) && ids.next == old(ids.next) + 1
      ensures agents == [] && this.maxContactRate == maxContactRate && this.maxCapacity == maxCapacity
    {
      this.node := node;
      id := ids.next;
      agents := [];
      this.maxContactRate := maxContactRate;
      this.maxCapacity := maxCapacity;
      new;
      ids.next := ids.next + 1;
    }

    /**
     * `contact_rate()`: the maximum contact rate scaled by occupancy over
     * capacity. Python divides by `max_capacity`, so it must not be 0.
     */
    function ContactRate(): (r: real)
      reads this
      requires maxCapacity != 0
      ensures r * (maxCapacity as real) == maxContactRate * (|agents| as real)
      ensures agents == [] ==> r == 0.0
    {
      maxContactRate * ((|agents| as real) / (maxCapacity as real))
    }

    /**
     * `infected_density()`: 0 for an empty establishment, otherwise the share
     * of its agents in compartment I, counted in one pass over `agents`.
     */
    method InfectedDensity() returns (d: real)
      ensures agents == [] ==> d == 0.0
      ensures agents != [] ==> d == (CountInfected(agents) as real) / (|agents| as real)
      ensures 0.0 <= d <= 1.0
      ensures d == 0.0 <==> forall i :: 0 <= i < |agents| ==> agents[i].compartment != I
      ensures agents != [] ==> (d == 1.0 <==> forall i :: 0 <= i < |agents| ==> agents[i].compartment == I)
    {
      if |agents| == 0 {
        return 0.0;
      }
      var infected := 0;
      for i := 0 to |agents|
        invariant infected == CountInfected(agents[..i])
      {
        assert agents[..i + 1][..i] == agents[..i];
        if agents[i].compartment == I {
          infected := infected + 1;
        }
      }
      assert agents[..|agents|] == agents;
      CountInfectedZero(agents);
      CountInfectedAll(agents);
      d := infected as real / |agents| as real;
      ShareFacts(infected, |agents|);
    }
  }

  /** A share a/n of a non-empty whole lies in [0, 1], is 0 only for a = 0 and 1 only for a = n. */
  lemma ShareFacts(a: nat, n: nat)
    requires 0 < n && a <= n
    ensures 0.0 <= (a as real) / (n as real) <= 1.0
    ensures (a as real) / (n as real) == 0.0 <==> a == 0
    ensures (a as real) / (n as real) == 1.0 <==> a == n
  {
    var q := (a as real) / (n as real);
    assert q * (n as real) == a as real;
  }

  /** With the class defaults the contact rate is one tenth of the occupancy. */
  lemma DefaultContactRate(e: Establishment)
    requires e.maxContactRate == 10.0 && e.maxCapacity == 100
    ensures e.ContactRate() == (|e.agents| as real) / 10.0
  {
  }

  /** Within capacity and for a non-negative maximum, the rate lies in [0, maximum]. */
  lemma ContactRateBounds(e: Establishment)
    requires 0 < e.maxCapacity && 0.0 <= e.maxContactRate
    requires |e.agents| <= e.maxCapacity
    ensures 0.0 <= e.ContactRate() <= e.maxContactRate
  {
    var q := (|e.agents| as real) / (e.maxCapacity as real);
    assert 0.0 <= q <= 1.0;
    assert e.ContactRate() == e.maxContactRate * q;
  }

  // --- households ------------------------------------------------------------

  class Household {
    const site: Establishment
    const residentCount: int
    var residentAgents: seq<Agent>

    /**
     * `Household(node)`: `random.choices([1, 2, 3, 4, 5], ...)` picks the
     * resident count, which is also handed up as the capacity.
     */
    constructor (ids: IdCounter, node: Node, residentCount: int, maxContactRate: real := 10.0)
      requires 1 <= residentCount <= 5
      modifies ids
      ensures fresh(site) && site.node == node
      ensures site.id == old(ids.next) && ids.next == old(ids.next) + 1
      ensures site.agents == [] && site.maxCapacity == residentCount && site.maxContactRate == maxContactRate
      ensures this.residentCount == residentCount && residentAgents == []
    {
      site := new Establishment.WithLimits(ids, node, residentCount, maxContactRate);
      this.residentCount := residentCount;
      residentAgents := [];
    }
  }

  // --- firms -----------------------------------------------------------------

  datatype FirmError = InvalidSize(size: string)

  /** How many values `random.randrange(start, stop, step)` can return. */
  function RangeSize(start: int, stop: int, step: int): nat
    requires step > 0
  {
    if stop <= start then 0 else (stop - start + step - 1) / step
  }

  /** The size ranges of `Firm.__init__`: the (start, stop, step) of its `randrange` call. */
  function SizeRange(size: string): Option<(int, int, int)>
  {
    if size == "micro" then Some((1, 9, 1))
    else if size == "small" then Some((10, 99, 5))
    else if size == "medium" then Some((100, 199, 10))
    else if size == "large" then Some((200, 500, 50))
    else None
  }

  /** How many capacities a size can draw from (0 for an unknown size). */
  function SizeChoices(size: string): nat
  {
    match SizeRange(size)
    case None => 0
    case Some((start, stop, step)) => RangeSize(start, stop, step)
  }

  /** The capacities each firm size admits, written out. */
  predicate CapacityFits(size: string, capacity: int)
  {
    if size == "micro" then 1 <= capacity <= 8
    else if size == "small" then 10 <= capacity <= 95 && capacity % 5 == 0
    else if size == "medium" then 100 <= capacity <= 190 && capacity % 10 == 0
    else if size == "large" then 200 <= capacity <= 450 && capacity % 50 == 0
    else false
  }

  /**
   * The capacity branch of `Firm.__init__`: an unknown size is a ValueError,
   * otherwise `randrange(start, stop, step)` returns `start + step * draw`
   * for the draw-th of its values.
   */
  function FirmCapacity(size: string, draw: nat): (r: Result<int, FirmError>)
    requires SizeChoices(size) > 0 ==> draw < SizeChoices(size)
    ensures r.Failure? <==> size !in {"micro", "small", "medium", "large"}
    ensures r.Failure? ==> r.error == InvalidSize(size)
    ensures r.Success? ==> CapacityFits(size, r.value)
  {
    match SizeRange(size)
    case None => Failure(InvalidSize(size))
    case Some((start, stop, step)) => Success(start + step * draw)
  }

  /** The four ranges hold 8, 18, 10 and 6 capacities. */
  lemma SizeChoicesCounts()
    ensures SizeChoices("micro") == 8 && SizeChoices("small") == 18
    ensures SizeChoices("medium") == 10 && SizeChoices("large") == 6
  {
  }

  /** Every capacity a size admits is the result of some draw. */
  lemma FirmCapacityOnto(size: string, capacity: int)
    requires CapacityFits(size, capacity)
    ensures exists draw: nat :: draw < SizeChoices(size) && FirmCapacity(size, draw) == Success(capacity)
  {
    var draw: nat;
    if size == "micro" {
      draw := capacity - 1;
    } else if size == "small" {
      draw := (capacity - 10) / 5;
    } else if size == "medium" {
      draw := (capacity - 100) / 10;
    } else {
      draw := (capacity - 200) / 50;
    }
    assert FirmCapacity(size, draw) == Success(capacity);
  }

  /** Sum of the minimum salaries of a list of agents. */
  function SalarySum(s: seq<Agent>): real
  {
    if s == [] then 0.0 else SalarySum(s[..|s| - 1]) + s[|s| - 1].minimumSalary
  }

  /** `sum(agent.minimum_salary * 1.5 for each worked agent)`, left to right. */
  function WorkTotal(s: seq<Agent>): real
  {
    if s == [] then 0.0 else WorkTotal(s[..|s| - 1]) + s[|s| - 1].minimumSalary * 1.5
  }

  /** `sum(agent.minimum_salary * 1.5 * 0.75 for each customer)`, left to right. */
  function ConsumptionTotal(s: seq<Agent>): real
  {
    if s == [] then 0.0 else ConsumptionTotal(s[..|s| - 1]) + s[|s| - 1].minimumSalary * 1.5 * 0.75
  }

  /** The work total is 1.5 times the salaries and the consumption total 1.125 times. */
  lemma {:induction false} TotalsScaleSalaries(s: seq<Agent>)
    ensures WorkTotal(s) == 1.5 * SalarySum(s)
    ensures ConsumptionTotal(s) == 1.125 * SalarySum(s)
  {
    if s != [] {
      TotalsScaleSalaries(s[..|s| - 1]);
    }
  }

  /** Both totals add up over consecutive stretches of a list. */
  lemma {:induction false} TotalsAppend(a: seq<Agent>, b: seq<Agent>)
    ensures WorkTotal(a + b) == WorkTotal(a) + WorkTotal(b)
    ensures ConsumptionTotal(a + b) == ConsumptionTotal(a) + ConsumptionTotal(b)
  {
    if b != [] {
      assert (a + b)[..|a + b| - 1] == a + b[..|b| - 1];
      TotalsAppend(a, b[..|b| - 1]);
    } else {
      assert a + b == a;
    }
  }

  /**
   * Agents that attend (or are served) after the ones already listed add
   * exactly their own share to the next `get_activity_total`: 1.5 times
   * their salaries to the work total, 1.125 times to the consumption total.
   */
  lemma AddedShares(listed: seq<Agent>, added: seq<Agent>)
    ensures WorkTotal(listed + added) == WorkTotal(listed) + 1.5 * SalarySum(added)
    ensures ConsumptionTotal(listed + added) == ConsumptionTotal(listed) + 1.125 * SalarySum(added)
  {
    TotalsAppend(listed, added);
    TotalsScaleSalaries(added);
  }

  class Firm {
    const site: Establishment
    const essential: bool
    var workedAgents: seq<Agent>
    var customers: seq<Agent>
    var residentAgents: seq<Agent>

    constructor Init(ids: IdCounter, node: Node, capacity: int, essential: bool, maxContactRate: real)
      requires capacity > 0
      modifies ids
      ensures fresh(site) && site.node == node
      ensures site.id == old(ids.next) && ids.next == old(ids.next) + 1
      ensures site.agents == [] && site.maxCapacity == capacity && site.maxContactRate == maxContactRate
      ensures this.essential == essential
      ensures workedAgents == [] && customers == [] && residentAgents == []
    {
      site := new Establishment.WithLimits(ids, node, capacity, maxContactRate);
      this.essential := essential;
      workedAgents, customers, residentAgents := [], [], [];
    }

    /**
     * `Firm(node, size)`: the capacity is drawn from the size's range (an
     * unknown size raises ValueError before any id is taken), the firm is
     * essential when `random.random()` falls below 0.3, and its three agent
     * lists start empty.
     */
    static method Create(ids: IdCounter, node: Node, size: string, capacityDraw: nat,
                         essentialDraw: real, maxContactRate: real := 4.0)
      returns (r: Result<Firm, FirmError>)
      requires SizeChoices(size) > 0 ==> capacityDraw < SizeChoices(size)
      requires 0.0 <= essentialDraw < 1.0
      modifies ids
      ensures r.Failure? <==> FirmCapacity(size, capacityDraw).Failure?
      ensures r.Failure? ==> r.error == InvalidSize(size) && ids.next == old(ids.next)
      ensures r.Success? ==> var f := r.value;
        fresh(f) && fresh(f.site) && f.site.maxCapacity > 0 && f.site.node == node &&
        f.site.id == old(ids.next) && ids.next == old(ids.next) + 1 &&
        f.site.agents == [] && f.site.maxContactRate == maxContactRate &&
        Success(f.site.maxCapacity) == FirmCapacity(size, capacityDraw) &&
        f.essential == (essentialDraw < 0.3) &&
        f.workedAgents == [] && f.customers == [] && f.residentAgents == []
    {
      var capacity := FirmCapacity(size, capacityDraw);
      if capacity.Failure? {
        return Failure(capacity.error);
      }
      var f := new Firm.Init(ids, node, capacity.value, essentialDraw < 0.3, maxContactRate);
      r := Success(f);
    }

    /** `attend(agent)`: only the worked-agents list grows. */
    method Attend(agent: Agent)
      modifies this
      ensures workedAgents == old(workedAgents) + [agent]
      ensures customers == old(customers) && residentAgents == old(residentAgents)
    {
      workedAgents := workedAgents + [agent];
    }

    /** `serve(agent)`: only the customer list grows. */
    method Serve(agent: Agent)
      modifies this
      ensures customers == old(customers) + [agent]
      ensures workedAgents == old(workedAgents) && residentAgents == old(residentAgents)
    {
      customers := customers + [agent];
    }

    /**
     * `get_activity_total()`: the work and consumption totals of the period;
     * the worked agents are cleared, the customers are not, so customers keep
     * counting towards every later collection.
     */
    method GetActivityTotal() returns (work: real, consumption: real)
      modifies this
      ensures work == WorkTotal(old(workedAgents)) && work == 1.5 * SalarySum(old(workedAgents))
      ensures consumption == ConsumptionTotal(old(customers)) && consumption == 1.125 * SalarySum(old(customers))
      ensures workedAgents == [] && customers == old(customers) && residentAgents == old(residentAgents)
    {
      TotalsScaleSalaries(workedAgents);
      TotalsScaleSalaries(customers);
      work, consumption := WorkTotal(workedAgents), ConsumptionTotal(customers);
      workedAgents := [];
    }
  }
}
