/**
 * The four-stage instruction pipeline simulator of test.py. Each clock cycle
 * retires the instruction in writeback, moves execute to writeback and
 * decode to execute when the stage's duration has elapsed and the next
 * stage is free, issues one fetched instruction into decode unless the
 * first fetched instruction uses a register that is in use, and fetches
 * the next instruction of the program. An instruction is named by its
 * index in the program. The two attributes the loop changes on an
 * instruction object, its timeline (the cycle at which it entered each
 * stage) and its `complete` flag, are kept in sequences indexed the same
 * way, beside the unchanging operation and registers.
 */
module Pipeline {
  import opened Wrappers

  /** The `duration` of every stage in `stages`. */
  const Duration: int := 1

  datatype Timeline = Timeline(f: int, d: int, e: int, w: int)

  /** The fixed part of an `Instruction`. */
  datatype Instruction = Instruction(operation: string, dest: string, operand1: string, operand2: string)
  {
    /** `registers_used()`: destination first, then the two operands. */
    function RegistersUsed(): seq<string> {
      [dest, operand1, operand2]
    }

    /** The set of `registers_used()`. */
    function Registers(): set<string> {
      {dest, operand1, operand2}
    }
  }

  /** The register set holds exactly the registers of `registers_used()`. */
  lemma RegistersOfUsed(i: Instruction)
    ensures i.Registers() == set x | x in i.RegistersUsed()
  {
    var used := i.RegistersUsed();
    assert forall x :: x in used <==> x == i.dest || x == i.operand1 || x == i.operand2;
  }

  /**
   * The simulator's globals: the program, each instruction's timeline and
   * completion, the fetched list, the instruction held by decode, execute
   * and writeback (the fetch stage never holds one), the entry cycles in
   * `counters`, the registers in use, pc and clock.
   */
  datatype State = State(code: seq<Instruction>, timelines: seq<Timeline>, complete: seq<bool>,
                         fetched: seq<nat>,
                         decode: Option<nat>, execute: Option<nat>, writeback: Option<nat>,
                         counterD: int, counterE: int, counterW: int,
                         inUse: set<string>, pc: nat, clock: nat)

  /**
   * The state before the first cycle (lines 42-53): every `Instruction(...)`
   * starts with the timeline {"f": 0, "d": 0, "e": 0, "w": 0} and not
   * complete; nothing is fetched, no stage is occupied, every counter is zero.
   */
  function Initial(code: seq<Instruction>): (r: State)
    ensures Indexed(r) && r.code == code
    ensures AllComplete(r) <==> code == []
  {
    var r := State(code, seq(|code|, _ => Timeline(0, 0, 0, 0)), seq(|code|, _ => false),
                   [], None, None, None, 0, 0, 0, {}, 0, 0);
    assert code != [] ==> !r.complete[0];
    r
  }

  predicate AllComplete(s: State) {
    forall k :: 0 <= k < |s.complete| ==> s.complete[k]
  }

  /** Every instruction named by the state is one of the program. */
  predicate Indexed(s: State) {
    |s.timelines| == |s.code| && |s.complete| == |s.code| &&
    s.pc <= |s.code| &&
    (forall i :: 0 <= i < |s.fetched| ==> s.fetched[i] < |s.code|) &&
    (s.decode.Some? ==> s.decode.value < |s.code|) &&
    (s.execute.Some? ==> s.execute.value < |s.code|) &&
    (s.writeback.Some? ==> s.writeback.value < |s.code|)
  }

  /** Lines 62-66: the instruction in writeback completes and frees its registers. */
  function Retire(s: State): (r: State)
    requires Indexed(s)
    ensures Indexed(r) && r.code == s.code
  {
    if s.writeback.Some? && s.clock - s.counterW >= Duration then
      var k := s.writeback.value;
      s.(complete := s.complete[k := true],
         inUse := s.inUse - s.code[k].Registers(),
         writeback := None)
    else s
  }

  /** Lines 68-73: execute moves to a free writeback stage. */
  function ExecuteToWriteback(s: State): (r: State)
    requires Indexed(s)
    ensures Indexed(r) && r.code == s.code
  {
    if s.execute.Some? && s.clock - s.counterE >= Duration && s.writeback.None? then
      var k := s.execute.value;
      s.(writeback := Some(k),
         timelines := s.timelines[k := s.timelines[k].(w := s.clock)],
         counterW := s.clock,
         execute := None)
    else s
  }

  /** Lines 75-80: decode moves to a free execute stage. */
  function DecodeToExecute(s: State): (r: State)
    requires Indexed(s)
    ensures Indexed(r) && r.code == s.code
  {
    if s.decode.Some? && s.clock - s.counterD >= Duration && s.execute.None? then
      var k := s.decode.value;
      s.(execute := Some(k),
         timelines := s.timelines[k := s.timelines[k].(e := s.clock)],
         counterE := s.clock,
         decode := None)
    else s
  }

  /** The first fetched instruction uses a register that is in use. */
  predicate Hazard(s: State)
    requires Indexed(s) && s.fetched != []
  {
    s.inUse * s.code[s.fetched[0]].Registers() != {}
  }

  /**
   * Lines 82-88: unless the FIRST fetched instruction is blocked, the LAST
   * fetched instruction (`fetched.pop()`) enters decode and takes its
   * registers.
   */
  function Issue(s: State): (r: State)
    requires Indexed(s)
    ensures Indexed(r) && r.code == s.code
  {
    if s.fetched != [] && !Hazard(s) then
      var k := s.fetched[|s.fetched| - 1];
      s.(fetched := s.fetched[..|s.fetched| - 1],
         inUse := s.inUse + s.code[k].Registers(),
         decode := Some(k),
         timelines := s.timelines[k := s.timelines[k].(d := s.clock)],
         counterD := s.clock)
    else s
  }

  /** Lines 90-93: the instruction at pc is appended to the fetched list. */
  function Fetch(s: State): (r: State)
    requires Indexed(s)
    ensures Indexed(r) && r.code == s.code
  {
    if s.pc < |s.code| then
      s.(fetched := s.fetched + [s.pc],
         timelines := s.timelines[s.pc := s.timelines[s.pc].(f := s.clock)],
         pc := s.pc + 1)
    else s
  }

  /** The first half of a cycle: the clock ticks and the three moves run. */
  function Advance(s: State): (r: State)
    requires Indexed(s)
    ensures Indexed(r) && r.code == s.code
  {
    DecodeToExecute(ExecuteToWriteback(Retire(s.(clock := s.clock + 1))))
  }

  /** One iteration of the loop body, lines 60-93. */
  function Next(s: State): (r: State)
    requires Indexed(s)
    ensures Indexed(r) && r.code == s.code
  {
    Fetch(Issue(Advance(s)))
  }

  function Flag(b: bool): nat {
    if b then 1 else 0
  }

  /** How many places hold instruction `k`: the fetched list, a stage, or completion. */
  function Occ(s: State, k: nat): nat {
    multiset(s.fetched)[k] + Flag(s.decode == Some(k)) + Flag(s.execute == Some(k)) +
    Flag(s.writeback == Some(k)) + Flag(k < |s.complete| && s.complete[k])
  }

  /** How far instruction `k` has come: 1 fetched, 2 decode, 3 execute, 4 writeback, 5 complete. */
  function Level(s: State, k: nat): nat
    requires Indexed(s) && k < |s.code|
  {
    if s.complete[k] then 5
    else if s.writeback == Some(k) then 4
    else if s.execute == Some(k) then 3
    else if s.decode == Some(k) then 2
    else 1
  }

  function RegistersOf(s: State, slot: Option<nat>): set<string>
    requires Indexed(s)
    requires slot.Some? ==> slot.value < |s.code|
  {
    if slot.Some? then s.code[slot.value].Registers() else {}
  }

  /** The registers of the instructions in decode, execute and writeback. */
  function InFlight(s: State): set<string>
    requires Indexed(s)
  {
    RegistersOf(s, s.decode) + RegistersOf(s, s.execute) + RegistersOf(s, s.writeback)
  }

  /** The stage entry cycles of instruction `k`, at its level, against the clock. */
  predicate Stamped(s: State, k: nat)
    requires Indexed(s) && k < |s.code|
  {
    var t := s.timelines[k];
    var l := Level(s, k);
    1 <= t.f <= s.clock &&
    (l >= 2 ==> t.f < t.d <= s.clock) &&
    (l >= 3 ==> t.d < t.e <= s.clock) &&
    (l >= 4 ==> t.e < t.w <= s.clock) &&
    (l == 5 ==> t.w < s.clock)
  }

  /**
   * The simulator's invariant: each fetched instruction is in exactly one
   * place and each unfetched one in none, the registers in use belong to
   * instructions in flight, the counters are the entry cycles of the stages'
   * instructions, and the timelines are ordered.
   */
  predicate Sound(s: State) {
    Indexed(s) && Placed(s) && Held(s) && Counted(s) && AllStamped(s)
  }

  /** Each fetched instruction is in exactly one place, each unfetched one in none. */
  predicate Placed(s: State) {
    forall k :: 0 <= k < |s.code| ==> Occ(s, k) == (if k < s.pc then 1 else 0)
  }

  /** The registers in use belong to instructions in flight. */
  predicate Held(s: State)
    requires Indexed(s)
  {
    s.inUse <= InFlight(s)
  }

  /** The counters are the entry cycles of the stages' instructions. */
  predicate Counted(s: State)
    requires Indexed(s)
  {
    (s.decode.Some? ==> s.counterD == s.timelines[s.decode.value].d) &&
    (s.execute.Some? ==> s.counterE == s.timelines[s.execute.value].e) &&
    (s.writeback.Some? ==> s.counterW == s.timelines[s.writeback.value].w)
  }

  predicate AllStamped(s: State)
    requires Indexed(s)
  {
    forall k :: 0 <= k < s.pc ==> Stamped(s, k)
  }

  /** Everything the fetched list names was fetched before the current cycle. */
  predicate FetchedEarlier(s: State)
    requires Indexed(s)
  {
    forall i :: 0 <= i < |s.fetched| ==> s.timelines[s.fetched[i]].f < s.clock
  }

  /** The bound that every cycle lowers until the program is complete. */
  function Measure(s: State): int {
    5 * (|s.code| - s.pc) + 4 * |s.fetched| + 3 * Flag(s.decode.Some?) +
    2 * Flag(s.execute.Some?) + Flag(s.writeback.Some?)
  }

  lemma InitialSound(code: seq<Instruction>)
    ensures Sound(Initial(code))
  {
  }

  /** The instructions held by the stages entered them no later than now. */
  lemma HeldBefore(s: State)
    requires Sound(s)
    ensures s.decode.Some? ==> s.counterD <= s.clock
    ensures s.execute.Some? ==> s.counterE <= s.clock
    ensures s.writeback.Some? ==> s.counterW <= s.clock
  {
    if s.decode.Some? {
      var j := s.decode.value;
      assert Occ(s, j) >= 1;
      assert Stamped(s, j);
    }
    if s.execute.Some? {
      var j := s.execute.value;
      assert Occ(s, j) >= 1;
      assert Stamped(s, j);
    }
    if s.writeback.Some? {
      var j := s.writeback.value;
      assert Occ(s, j) >= 1;
      assert Stamped(s, j);
    }
  }

  lemma TickSound(s: State)
    requires Sound(s)
    ensures Sound(s.(clock := s.clock + 1)) && FetchedEarlier(s.(clock := s.clock + 1))
  {
    var t := s.(clock := s.clock + 1);
    forall k | 0 <= k < |t.code|
      ensures Occ(t, k) == Occ(s, k)
    {
    }
    forall k | 0 <= k < t.pc
      ensures Stamped(t, k)
    {
      assert Stamped(s, k);
    }
    forall i | 0 <= i < |t.fetched|
      ensures t.timelines[t.fetched[i]].f < t.clock
    {
      var k := t.fetched[i];
      assert k in multiset(s.fetched);
      assert Occ(s, k) >= 1;
      assert Stamped(s, k);
    }
  }

  /**
   * With every duration one cycle, the writeback stage has always been held
   * for a cycle after the clock ticks, so it retires.
   */
  lemma RetireSound(s: State)
    requires Sound(s) && FetchedEarlier(s)
    requires s.writeback.Some? ==> s.counterW < s.clock
    ensures var r := Retire(s);
      Sound(r) && FetchedEarlier(r) && r.writeback == None &&
      r.fetched == s.fetched && r.decode == s.decode && r.execute == s.execute &&
      r.pc == s.pc && r.clock == s.clock &&
      r.counterD == s.counterD && r.counterE == s.counterE
  {
    var r := Retire(s);
    if s.writeback.Some? {
      var j := s.writeback.value;
      assert Occ(s, j) == 1;
      forall k | 0 <= k < |r.code|
        ensures Occ(r, k) == Occ(s, k)
      {
      }
      forall k | 0 <= k < r.pc
        ensures Stamped(r, k)
      {
        assert Stamped(s, k);
        if k == j {
          assert Level(s, k) == 4;
        }
      }
      assert r.inUse <= InFlight(r);
    }
  }

  lemma ExecuteSound(s: State)
    requires Sound(s) && FetchedEarlier(s) && s.writeback == None
    requires s.execute.Some? ==> s.counterE < s.clock
    ensures var r := ExecuteToWriteback(s);
      Sound(r) && FetchedEarlier(r) && r.execute == None && r.writeback == s.execute &&
      r.fetched == s.fetched && r.decode == s.decode && r.inUse == s.inUse &&
      r.pc == s.pc && r.clock == s.clock && r.counterD == s.counterD &&
      (r.writeback.Some? ==> r.counterW == r.clock)
  {
    var r := ExecuteToWriteback(s);
    if s.execute.Some? {
      var j := s.execute.value;
      assert Occ(s, j) == 1;
      forall k | 0 <= k < |r.code|
        ensures Occ(r, k) == Occ(s, k)
      {
      }
      forall k | 0 <= k < r.pc
        ensures Stamped(r, k)
      {
        assert Stamped(s, k);
        if k == j {
          assert Level(s, k) == 3;
        }
      }
      assert InFlight(r) == InFlight(s);
      forall i | 0 <= i < |r.fetched|
        ensures r.timelines[r.fetched[i]].f < r.clock
      {
      }
    }
  }

  lemma DecodeSound(s: State)
    requires Sound(s) && FetchedEarlier(s) && s.execute == None
    requires s.decode.Some? ==> s.counterD < s.clock
    ensures var r := DecodeToExecute(s);
      Sound(r) && FetchedEarlier(r) && r.decode == None && r.execute == s.decode &&
      r.writeback == s.writeback && r.fetched == s.fetched && r.inUse == s.inUse &&
      r.pc == s.pc && r.clock == s.clock && r.counterW == s.counterW &&
      (r.execute.Some? ==> r.counterE == r.clock)
  {
    var r := DecodeToExecute(s);
    if s.decode.Some? {
      var j := s.decode.value;
      assert Occ(s, j) == 1;
      forall k | 0 <= k < |r.code|
        ensures Occ(r, k) == Occ(s, k)
      {
      }
      forall k | 0 <= k < r.pc
        ensures Stamped(r, k)
      {
        assert Stamped(s, k);
        if k == j {
          assert Level(s, k) == 2;
        }
      }
      assert InFlight(r) == InFlight(s);
      forall i | 0 <= i < |r.fetched|
        ensures r.timelines[r.fetched[i]].f < r.clock
      {
      }
    }
  }

  /**
   * After the three moves of a cycle everything has advanced one stage: the
   * old execute is in writeback, the old decode in execute, and decode is
   * free for the instruction about to issue.
   */
  lemma AdvanceSound(s: State)
    requires Sound(s)
    ensures var a := Advance(s);
      Sound(a) && FetchedEarlier(a) && a.decode == None &&
      a.execute == s.decode && a.writeback == s.execute &&
      a.fetched == s.fetched && a.pc == s.pc && a.clock == s.clock + 1 &&
      (a.execute.Some? ==> a.counterE == a.clock) &&
      (a.writeback.Some? ==> a.counterW == a.clock)
  {
    var t := s.(clock := s.clock + 1);
    TickSound(s);
    HeldBefore(s);
    RetireSound(t);
    var r1 := Retire(t);
    ExecuteSound(r1);
    var r2 := ExecuteToWriteback(r1);
    DecodeSound(r2);
  }

  lemma IssuePlaced(s: State)
    requires Sound(s) && s.decode == None
    ensures Placed(Issue(s))
  {
    var r := Issue(s);
    if s.fetched != [] && !Hazard(s) {
      var j := s.fetched[|s.fetched| - 1];
      assert s.fetched == r.fetched + [j];
      assert multiset(s.fetched) == multiset(r.fetched) + multiset{j};
      forall k | 0 <= k < |r.code|
        ensures Occ(r, k) == Occ(s, k)
      {
      }
    }
  }

  lemma IssueStamped(s: State)
    requires Sound(s) && FetchedEarlier(s) && s.decode == None
    ensures AllStamped(Issue(s))
  {
    var r := Issue(s);
    if s.fetched != [] && !Hazard(s) {
      var j := s.fetched[|s.fetched| - 1];
      assert j in multiset(s.fetched);
      assert Occ(s, j) == 1;
      forall k | 0 <= k < r.pc
        ensures Stamped(r, k)
      {
        assert Stamped(s, k);
        if k == j {
          assert Level(s, k) == 1;
        } else {
          assert Level(r, k) == Level(s, k);
        }
      }
    }
  }

  lemma IssueSound(s: State)
    requires Sound(s) && FetchedEarlier(s) && s.decode == None
    ensures var r := Issue(s);
      Sound(r) && r.pc == s.pc && r.clock == s.clock &&
      r.execute == s.execute && r.writeback == s.writeback
  {
    IssuePlaced(s);
    IssueStamped(s);
  }

  lemma FetchSound(s: State)
    requires Sound(s) && s.clock >= 1
    ensures var r := Fetch(s);
      Sound(r) && r.decode == s.decode && r.execute == s.execute && r.writeback == s.writeback
  {
    var r := Fetch(s);
    if s.pc < |s.code| {
      var j := s.pc;
      assert Occ(s, j) == 0;
      assert multiset(r.fetched) == multiset(s.fetched) + multiset{j};
      forall k | 0 <= k < |r.code|
        ensures Occ(r, k) == (if k < r.pc then 1 else 0)
      {
        assert Occ(s, k) == (if k < s.pc then 1 else 0);
      }
      forall k | 0 <= k < r.pc
        ensures Stamped(r, k)
      {
        if k < s.pc {
          assert Stamped(s, k);
        }
      }
      assert InFlight(r) == InFlight(s);
    }
  }

  /** Everything in the fetched list comes before pc. */
  predicate FetchedBefore(s: State) {
    forall i :: 0 <= i < |s.fetched| ==> s.fetched[i] < s.pc
  }

  lemma FetchedBeforePc(s: State)
    requires Sound(s)
    ensures FetchedBefore(s)
  {
    forall i | 0 <= i < |s.fetched|
      ensures s.fetched[i] < s.pc
    {
      assert s.fetched[i] in multiset(s.fetched);
      assert Occ(s, s.fetched[i]) >= 1;
    }
  }

  /** Fetching touches only pc, the fetched list and the fetched instruction. */
  lemma FetchKeeps(s: State)
    requires Indexed(s)
    ensures var r := Fetch(s);
      r.decode == s.decode && r.execute == s.execute && r.writeback == s.writeback &&
      r.inUse == s.inUse && r.clock == s.clock &&
      r.counterD == s.counterD && r.counterE == s.counterE && r.counterW == s.counterW &&
      r.code == s.code && r.complete == s.complete &&
      (forall k :: 0 <= k < s.pc ==> r.timelines[k] == s.timelines[k])
  {
  }

  /** A cycle keeps the invariant. */
  lemma {:induction false} NextSound(s: State)
    requires Sound(s)
    ensures Sound(Next(s))
  {
    AdvanceSound(s);
    IssueSound(Advance(s));
    FetchSound(Issue(Advance(s)));
  }

  /** Issuing and fetching each lower the measure by one when they happen. */
  lemma IssueFetchMeasure(a: State)
    requires Indexed(a) && a.decode == None
    ensures Measure(Fetch(Issue(a))) ==
      Measure(a) - Flag(a.fetched != [] && !Hazard(a)) - Flag(a.pc < |a.code|)
  {
  }

  /**
   * With every stage empty and the whole program fetched, an unfinished
   * program still has an instruction waiting in the fetched list.
   */
  lemma IdleWaiting(s: State)
    requires Sound(s) && !AllComplete(s) && s.pc == |s.code|
    requires s.decode.None? && s.execute.None? && s.writeback.None?
    ensures s.fetched != []
  {
    if s.fetched == [] {
      forall k | 0 <= k < |s.code|
        ensures s.complete[k]
      {
        assert Occ(s, k) == 1;
      }
    }
  }

  /**
   * A cycle of a program that is not complete makes progress: either an
   * instruction moves on, issues or is fetched. In particular the hazard
   * check can never block when the pipeline is empty, so the loop of
   * lines 55-93 terminates.
   */
  lemma {:induction false} NextDecreases(s: State)
    requires Sound(s) && !AllComplete(s)
    ensures Measure(Next(s)) < Measure(s)
  {
    var a := Advance(s);
    var idle := s.decode.None? && s.execute.None? && s.writeback.None?;
    assert Measure(a) == Measure(s) - Flag(s.decode.Some?) - Flag(s.execute.Some?) - Flag(s.writeback.Some?) &&
           a.decode == None && a.fetched == s.fetched && a.pc == s.pc &&
           (idle ==> InFlight(a) == {} && Held(a)) by {
      AdvanceSound(s);
    }
    IssueFetchMeasure(a);
    if idle && s.pc == |s.code| {
      IdleWaiting(s);
      assert !Hazard(a);
    }
  }

  /**
   * The state in which the loop of lines 55-58 stops when started from `s`:
   * `s` itself when every instruction is complete, otherwise the stopping
   * state of the next cycle. So it is the first complete state of the run.
   */
  ghost function Final(s: State): (r: State)
    requires Sound(s)
    ensures Sound(r) && AllComplete(r) && r.code == s.code
    decreases Measure(s)
  {
    if AllComplete(s) then s
    else
      NextSound(s);
      NextDecreases(s);
      Final(Next(s))
  }

  /**
   * Fetching: at most one instruction per cycle, in program order, stamped
   * with the new clock, appended after whatever is still waiting.
   */
  lemma FetchOrder(s: State)
    requires Sound(s)
    ensures var r := Next(s);
      r.clock == s.clock + 1 &&
      (s.pc < |s.code| ==> r.pc == s.pc + 1 && r.fetched[|r.fetched| - 1] == s.pc &&
                                r.timelines[s.pc].f == r.clock) &&
      (s.pc == |s.code| ==> r.pc == s.pc)
  {
    AdvanceSound(s);
    IssueSound(Advance(s));
  }

  /**
   * What one cycle does to every global, in terms of the state before it:
   * writeback completes its instruction and frees its registers; execute
   * and decode each move one stage on, stamping `w` and `e`; decode is
   * then filled exactly when something is fetched and the first fetched
   * instruction shares no register with those still in use, and what
   * enters is the last fetched instruction, stamped `d`, whose registers
   * become in use; the instruction at pc, if any, is stamped `f` and joins
   * the end of the fetched list. Each counter is the clock when its stage
   * was entered. `CycleStamps` gives the timelines.
   */
  lemma CycleSummary(s: State)
    requires Sound(s)
    ensures var r := Next(s);
      var n := |s.fetched|;
      var freed := if s.writeback.Some? then s.inUse - s.code[s.writeback.value].Registers() else s.inUse;
      var issued := n > 0 && freed * s.code[s.fetched[0]].Registers() == {};
      r.clock == s.clock + 1 &&
      r.writeback == s.execute && r.execute == s.decode &&
      r.decode == (if issued then Some(s.fetched[n - 1]) else None) &&
      r.inUse == (if issued then freed + s.code[s.fetched[n - 1]].Registers() else freed) &&
      r.fetched == (if issued then s.fetched[..n - 1] else s.fetched) +
                   (if s.pc < |s.code| then [s.pc] else []) &&
      r.pc == (if s.pc < |s.code| then s.pc + 1 else s.pc) &&
      r.complete == (if s.writeback.Some? then s.complete[s.writeback.value := true] else s.complete) &&
      r.counterW == (if s.execute.Some? then r.clock else s.counterW) &&
      r.counterE == (if s.decode.Some? then r.clock else s.counterE) &&
      r.counterD == (if issued then r.clock else s.counterD) &&
      (issued ==> r.timelines[s.fetched[n - 1]].d == r.clock)
  {
    AdvanceSummary(s);
    IssueFetchSummary(Advance(s));
  }

  /**
   * The stamps one cycle writes, in terms of the state before it (the
   * timeline part of `CycleSummary`): `w` for the instruction leaving
   * execute, `e` for the one leaving decode, `d` for the one issued and `f`
   * for the one fetched, each with the new clock; every other stamp stays.
   */
  lemma CycleStamps(s: State)
    requires Sound(s)
    ensures var r := Next(s);
      var n := |s.fetched|;
      var freed := if s.writeback.Some? then s.inUse - s.code[s.writeback.value].Registers() else s.inUse;
      var issued := n > 0 && freed * s.code[s.fetched[0]].Registers() == {};
      |r.timelines| == |s.timelines| &&
      forall k :: 0 <= k < |s.timelines| ==>
        var t := s.timelines[k];
        r.timelines[k] == t.(f := if k == s.pc then r.clock else t.f,
                             d := if issued && k == s.fetched[n - 1] then r.clock else t.d,
                             e := if s.decode == Some(k) then r.clock else t.e,
                             w := if s.execute == Some(k) then r.clock else t.w)
  {
    var a := Advance(s);
    AdvanceSummary(s);
    IssueFetchSummary(a);
    var n := |s.fetched|;
    var freed := if s.writeback.Some? then s.inUse - s.code[s.writeback.value].Registers() else s.inUse;
    var issued := n > 0 && freed * s.code[s.fetched[0]].Registers() == {};
    var entering := if issued then Some(s.fetched[n - 1]) else None;
    SlotsDistinct(s);
    StampUpdates(s.timelines, s.execute, s.decode, entering, s.pc, s.clock + 1);
  }

  /**
   * On a sound state the instructions in execute and decode, the last one
   * fetched and the one at pc are four different instructions.
   */
  lemma SlotsDistinct(s: State)
    requires Sound(s)
    ensures s.decode.Some? ==> s.decode != s.execute
    ensures s.fetched != [] ==> var j := s.fetched[|s.fetched| - 1];
      Some(j) != s.execute && Some(j) != s.decode && j < s.pc
    ensures s.pc < |s.code| ==> Some(s.pc) != s.execute && Some(s.pc) != s.decode
  {
    if s.fetched != [] {
      var j := s.fetched[|s.fetched| - 1];
      assert j in multiset(s.fetched);
      assert Occ(s, j) == 1;
    }
    if s.decode.Some? {
      assert Occ(s, s.decode.value) == 1;
    }
    if s.pc < |s.code| {
      assert Occ(s, s.pc) == 0;
    }
  }

  /**
   * Stamping four different instructions one after another changes, for
   * each of them, only its own stamp.
   */
  lemma StampUpdates(ts: seq<Timeline>, ex: Option<nat>, de: Option<nat>, entering: Option<nat>,
                     pc: nat, c: int)
    requires ex.Some? ==> ex.value < |ts|
    requires de.Some? ==> de.value < |ts| && de != ex
    requires entering.Some? ==> entering.value < |ts| && entering != ex && entering != de && entering.value < pc
    requires pc < |ts| ==> Some(pc) != ex && Some(pc) != de
    ensures var t1 := if ex.Some? then ts[ex.value := ts[ex.value].(w := c)] else ts;
      var t2 := if de.Some? then t1[de.value := t1[de.value].(e := c)] else t1;
      var t3 := if entering.Some? then t2[entering.value := t2[entering.value].(d := c)] else t2;
      var t4 := if pc < |ts| then t3[pc := t3[pc].(f := c)] else t3;
      |t4| == |ts| &&
      forall k :: 0 <= k < |ts| ==>
        t4[k] == ts[k].(f := if k == pc then c else ts[k].f,
                        d := if entering == Some(k) then c else ts[k].d,
                        e := if de == Some(k) then c else ts[k].e,
                        w := if ex == Some(k) then c else ts[k].w)
  {
  }

  /** The first half of a cycle on a sound state, in terms of the state before it. */
  lemma AdvanceSummary(s: State)
    requires Sound(s)
    ensures var a := Advance(s);
      a.decode == None && a.execute == s.decode && a.writeback == s.execute &&
      a.fetched == s.fetched && a.pc == s.pc && a.clock == s.clock + 1 && FetchedBefore(a) &&
      a.inUse == (if s.writeback.Some? then s.inUse - s.code[s.writeback.value].Registers() else s.inUse) &&
      a.complete == (if s.writeback.Some? then s.complete[s.writeback.value := true] else s.complete) &&
      a.counterW == (if s.execute.Some? then a.clock else s.counterW) &&
      a.counterE == (if s.decode.Some? then a.clock else s.counterE) &&
      a.counterD == s.counterD &&
      var t1 := if s.execute.Some? then s.timelines[s.execute.value := s.timelines[s.execute.value].(w := a.clock)]
                else s.timelines;
      a.timelines == if s.decode.Some? then t1[s.decode.value := t1[s.decode.value].(e := a.clock)] else t1
  {
    var a := Advance(s);
    AdvanceSound(s);
    HeldBefore(s);
    FetchedBeforePc(a);
  }

  /** The second half of a cycle, issue then fetch, after decode has emptied. */
  lemma IssueFetchSummary(a: State)
    requires Indexed(a) && a.decode == None && FetchedBefore(a)
    ensures var r := Fetch(Issue(a));
      var n := |a.fetched|;
      var issued := n > 0 && a.inUse * a.code[a.fetched[0]].Registers() == {};
      r.clock == a.clock && r.writeback == a.writeback && r.execute == a.execute &&
      r.decode == (if issued then Some(a.fetched[n - 1]) else None) &&
      r.inUse == (if issued then a.inUse + a.code[a.fetched[n - 1]].Registers() else a.inUse) &&
      r.fetched == (if issued then a.fetched[..n - 1] else a.fetched) +
                   (if a.pc < |a.code| then [a.pc] else []) &&
      r.pc == (if a.pc < |a.code| then a.pc + 1 else a.pc) &&
      r.complete == a.complete && r.counterW == a.counterW && r.counterE == a.counterE &&
      r.counterD == (if issued then r.clock else a.counterD) &&
      var t3 := if issued then a.timelines[a.fetched[n - 1] := a.timelines[a.fetched[n - 1]].(d := a.clock)]
                else a.timelines;
      r.timelines == if a.pc < |a.code| then t3[a.pc := t3[a.pc].(f := a.clock)] else t3
  {
    FetchKeeps(Issue(a));
  }

  /**
   * With one-cycle durations everything flows one stage per cycle: the old
   * execute is in writeback, the old decode in execute, and the instruction
   * that was in writeback is complete and in no stage.
   */
  lemma StageFlow(s: State)
    requires Sound(s)
    ensures var r := Next(s);
      r.writeback == s.execute && r.execute == s.decode &&
      (s.writeback.Some? ==>
         var j := s.writeback.value;
         r.complete[j] && r.decode != Some(j) && r.execute != Some(j) && r.writeback != Some(j))
  {
    var a := Advance(s);
    assert a.writeback == s.execute && a.execute == s.decode && a.decode == None && a.fetched == s.fetched by {
      AdvanceSound(s);
    }
    if s.writeback.Some? {
      var j := s.writeback.value;
      assert a.complete[j] by {
        HeldBefore(s);
      }
      assert s.execute != Some(j) && s.decode != Some(j) && (a.fetched != [] ==> a.fetched[|a.fetched| - 1] != j) by {
        DistinctStages(s);
      }
    }
    FetchKeeps(Issue(a));
  }

  /** Each stage holds at most one instruction, and no instruction is in two stages. */
  lemma DistinctStages(s: State)
    requires Sound(s)
    ensures s.decode.Some? && s.execute.Some? ==> s.decode != s.execute
    ensures s.decode.Some? && s.writeback.Some? ==> s.decode != s.writeback
    ensures s.execute.Some? && s.writeback.Some? ==> s.execute != s.writeback
    ensures forall i :: 0 <= i < |s.fetched| ==> Some(s.fetched[i]) != s.decode
    ensures forall i :: 0 <= i < |s.fetched| ==> Some(s.fetched[i]) != s.execute
    ensures forall i :: 0 <= i < |s.fetched| ==> Some(s.fetched[i]) != s.writeback
  {
    if s.decode.Some? {
      assert Occ(s, s.decode.value) <= 1;
    }
    if s.execute.Some? {
      assert Occ(s, s.execute.value) <= 1;
    }
    forall i | 0 <= i < |s.fetched|
      ensures Some(s.fetched[i]) != s.decode && Some(s.fetched[i]) != s.execute &&
              Some(s.fetched[i]) != s.writeback
    {
      var k := s.fetched[i];
      assert k in multiset(s.fetched);
      assert Occ(s, k) <= 1;
    }
  }

  /** No instruction waits twice in the fetched list. */
  lemma DistinctFetched(s: State)
    requires Sound(s)
    ensures forall i, j :: 0 <= i < j < |s.fetched| ==> s.fetched[i] != s.fetched[j]
  {
    forall i, j | 0 <= i < j < |s.fetched|
      ensures s.fetched[i] != s.fetched[j]
    {
      RepeatCounted(s.fetched, i, j);
      assert s.fetched[i] in multiset(s.fetched);
      assert Occ(s, s.fetched[i]) <= 1;
    }
  }

  /** A value at two positions of a sequence counts at least twice. */
  lemma RepeatCounted(q: seq<nat>, i: int, j: int)
    requires 0 <= i < j < |q|
    ensures q[i] == q[j] ==> multiset(q)[q[i]] >= 2
  {
    if q[i] == q[j] {
      assert q == q[..i] + [q[i]] + q[i + 1..j] + [q[j]] + q[j + 1..];
    }
  }

  /**
   * When the loop stops, every instruction went through the four stages in
   * order, one at a time, all before the completion time.
   */
  lemma {:induction false} CompleteTimelines(s: State, k: nat)
    requires Sound(s) && AllComplete(s) && k < |s.code|
    ensures var t := s.timelines[k];
      1 <= t.f < t.d < t.e < t.w < s.clock
  {
    assert s.complete[k];
    assert Occ(s, k) >= 1;
    assert Stamped(s, k);
  }

  /**
   * The hazard check looks at the first fetched instruction but issues the
   * last one, so an instruction can enter decode while one that uses the
   * same registers is still in flight. In this program the second pair
   * (both on R7, R8, R9) is issued back to back in cycles 5 and 6, because
   * the check each time inspects the first instruction, which uses R1-R3.
   */
  function HazardProgram(): seq<Instruction> {
    [Instruction("add", "R1", "R2", "R3"), Instruction("add", "R1", "R2", "R3"),
     Instruction("add", "R7", "R8", "R9"), Instruction("add", "R7", "R8", "R9")]
  }

  /** A sound state of the hazard program, described by its stages and fetched list. */
  predicate HazardAt(s: State, fetched: seq<nat>, decode: Option<nat>, execute: Option<nat>,
                     writeback: Option<nat>, inUse: set<string>, pc: nat, clock: nat)
  {
    Sound(s) && s.code == HazardProgram() &&
    s.fetched == fetched && s.decode == decode && s.execute == execute && s.writeback == writeback &&
    s.inUse == inUse && s.pc == pc && s.clock == clock
  }

  lemma HazardCycle1(s: State)
    requires HazardAt(s, [], None, None, None, {}, 0, 0)
    ensures HazardAt(Next(s), [0], None, None, None, {}, 1, 1)
  {
    CycleSummary(s);
    NextSound(s);
  }

  lemma HazardCycle2(s: State)
    requires HazardAt(s, [0], None, None, None, {}, 1, 1)
    ensures HazardAt(Next(s), [1], Some(0), None, None, {"R1", "R2", "R3"}, 2, 2)
  {
    CycleSummary(s);
    NextSound(s);
  }

  lemma HazardCycle3(s: State)
    requires HazardAt(s, [1], Some(0), None, None, {"R1", "R2", "R3"}, 2, 2)
    ensures HazardAt(Next(s), [1, 2], None, Some(0), None, {"R1", "R2", "R3"}, 3, 3)
  {
    CycleSummary(s);
    NextSound(s);
    assert "R1" in s.inUse * s.code[1].Registers();
  }

  lemma HazardCycle4(s: State)
    requires HazardAt(s, [1, 2], None, Some(0), None, {"R1", "R2", "R3"}, 3, 3)
    ensures HazardAt(Next(s), [1, 2, 3], None, None, Some(0), {"R1", "R2", "R3"}, 4, 4)
  {
    CycleSummary(s);
    NextSound(s);
    assert "R1" in s.inUse * s.code[1].Registers();
  }

  lemma HazardCycle5(s: State)
    requires HazardAt(s, [1, 2, 3], None, None, Some(0), {"R1", "R2", "R3"}, 4, 4)
    ensures HazardAt(Next(s), [1, 2], Some(3), None, None, {"R7", "R8", "R9"}, 4, 5)
  {
    CycleSummary(s);
    NextSound(s);
    assert [1, 2, 3][..2] == [1, 2];
  }

  lemma HazardCycle6(s: State)
    requires HazardAt(s, [1, 2], Some(3), None, None, {"R7", "R8", "R9"}, 4, 5)
    ensures HazardAt(Next(s), [1], Some(2), Some(3), None, {"R7", "R8", "R9"}, 4, 6)
  {
    CycleSummary(s);
    NextSound(s);
    assert {"R7", "R8", "R9"} * {"R1", "R2", "R3"} == {};
    assert [1, 2][..1] == [1];
  }

  lemma HazardCycle7(s: State)
    requires HazardAt(s, [1], Some(2), Some(3), None, {"R7", "R8", "R9"}, 4, 6)
    ensures HazardAt(Next(s), [], Some(1), Some(2), Some(3), {"R1", "R2", "R3", "R7", "R8", "R9"}, 4, 7)
  {
    CycleSummary(s);
    NextSound(s);
    assert {"R7", "R8", "R9"} * {"R1", "R2", "R3"} == {};
    assert {"R7", "R8", "R9"} + {"R1", "R2", "R3"} == {"R1", "R2", "R3", "R7", "R8", "R9"};
    assert [1][..0] == [];
  }

  lemma HazardCycle8(s: State)
    requires HazardAt(s, [], Some(1), Some(2), Some(3), {"R1", "R2", "R3", "R7", "R8", "R9"}, 4, 7)
    ensures HazardAt(Next(s), [], None, Some(1), Some(2), {"R1", "R2", "R3"}, 4, 8)
  {
    CycleSummary(s);
    NextSound(s);
    assert {"R1", "R2", "R3", "R7", "R8", "R9"} - {"R7", "R8", "R9"} == {"R1", "R2", "R3"};
  }

  /**
   * Retiring frees the registers of the retired instruction even when an
   * instruction still in flight uses the same ones (line 65): two cycles
   * after the state `IssueMissesHazard` reaches, instruction 2 sits in
   * writeback while none of its registers is in use.
   */
  lemma EarlyRelease(s: State)
    requires HazardAt(s, [1], Some(2), Some(3), None, {"R7", "R8", "R9"}, 4, 6)
    ensures var r := Next(Next(s));
      r.writeback == Some(2) && r.inUse * HazardProgram()[2].Registers() == {}
  {
    HazardCycle7(s);
    HazardCycle8(Next(s));
    assert {"R1", "R2", "R3"} * {"R7", "R8", "R9"} == {};
  }

  lemma IssueMissesHazard()
    ensures var p := HazardProgram();
      var s6 := Next(Next(Next(Next(Next(Next(Initial(p)))))));
      s6.clock == 6 && s6.decode == Some(2) && s6.execute == Some(3) &&
      p[2].Registers() * p[3].Registers() != {}
  {
    var s0 := Initial(HazardProgram());
    InitialSound(HazardProgram());
    HazardCycle1(s0);
    HazardCycle2(Next(s0));
    HazardCycle3(Next(Next(s0)));
    HazardCycle4(Next(Next(Next(s0))));
    HazardCycle5(Next(Next(Next(Next(s0)))));
    HazardCycle6(Next(Next(Next(Next(Next(s0))))));
    assert "R7" in HazardProgram()[2].Registers();
  }

  // ---------------------------------------------------------------------
  // print_timeline

  /** The timeline's entries in the order of its keys. */
  function Items(t: Timeline): seq<(char, int)> {
    [('f', t.f), ('d', t.d), ('e', t.e), ('w', t.w)]
  }

  /** The first stage whose cycle window holds cycle `i`. */
  function StageAt(items: seq<(char, int)>, i: int): Option<char> {
    if items == [] then None
    else if items[0].1 <= i < items[0].1 + Duration then Some(items[0].0)
    else StageAt(items[1..], i)
  }

  function Upper(c: char): char {
    if 'a' <= c <= 'z' then (c as int - 32) as char else c
  }

  /** The character print_timeline writes for cycle `i`. */
  function TimelineChar(t: Timeline, i: int): char {
    match StageAt(Items(t), i)
    case Some(c) => Upper(c)
    case None => if t.f < i < t.w then 'S' else '.'
  }

  /** The line for cycles 1..n. */
  function TimelineLine(t: Timeline, n: int): (line: string)
    ensures |line| == if n <= 0 then 0 else n
    ensures forall i :: 0 <= i < |line| ==> line[i] == TimelineChar(t, i + 1)
  {
    if n <= 0 then "" else TimelineLine(t, n - 1) + [TimelineChar(t, n)]
  }

  /** With ordered entry cycles, cycle `i` falls in at most one stage's window. */
  lemma {:induction false} StageAtItems(t: Timeline, i: int)
    requires t.f < t.d < t.e < t.w
    ensures StageAt(Items(t), i) ==
      if i == t.f then Some('f') else if i == t.d then Some('d')
      else if i == t.e then Some('e') else if i == t.w then Some('w') else None
  {
    var it := Items(t);
    assert it[1..] == [('d', t.d), ('e', t.e), ('w', t.w)];
    assert it[1..][1..] == [('e', t.e), ('w', t.w)];
    assert it[1..][1..][1..] == [('w', t.w)];
    assert it[1..][1..][1..][1..] == [];
    assert StageAt(it[1..][1..][1..], i) == if i == t.w then Some('w') else None;
    assert StageAt(it[1..][1..], i) == if i == t.e then Some('e') else StageAt(it[1..][1..][1..], i);
    assert StageAt(it[1..], i) == if i == t.d then Some('d') else StageAt(it[1..][1..], i);
  }

  /**
   * For an instruction that went through all four stages, the line shows
   * each stage letter at the cycle it entered that stage, 'S' for a cycle
   * between fetch and writeback spent waiting, and '.' outside.
   */
  lemma TimelineLetters(t: Timeline, i: int)
    requires 1 <= t.f < t.d < t.e < t.w
    ensures TimelineChar(t, i) == 'F' <==> i == t.f
    ensures TimelineChar(t, i) == 'D' <==> i == t.d
    ensures TimelineChar(t, i) == 'E' <==> i == t.e
    ensures TimelineChar(t, i) == 'W' <==> i == t.w
    ensures TimelineChar(t, i) == 'S' <==> t.f < i < t.w && i != t.d && i != t.e
    ensures TimelineChar(t, i) == '.' <==> i < t.f || t.w < i
  {
    StageAtItems(t, i);
    assert Upper('f') == 'F' && Upper('d') == 'D' && Upper('e') == 'E' && Upper('w') == 'W';
  }

  /** `print_timeline(instruction)` for the given completion time. */
  method PrintTimeline(timeline: Timeline, completeTime: nat) returns (line: string)
    ensures line == TimelineLine(timeline, completeTime)
  {
    line := "";
    var i := 1;
    while i <= completeTime
      invariant 1 <= i <= completeTime + 1
      invariant line == TimelineLine(timeline, i - 1)
    {
      var items := Items(timeline);
      var stage: Option<char> := None;
      var j := 0;
      while j < |items|
        invariant 0 <= j <= |items|
        invariant stage.None? ==> StageAt(items, i) == StageAt(items[j..], i)
        invariant stage.Some? ==> StageAt(items, i) == stage
      {
        if i >= items[j].1 && i < items[j].1 + Duration {
          stage := Some(items[j].0);
          break;
        }
        assert items[j..][1..] == items[j + 1..];
        j := j + 1;
      }
      assert stage.None? ==> items[j..] == [];
      if stage.Some? {
        line := line + [Upper(stage.value)];
      } else if timeline.f < i < timeline.w {
        line := line + "S";
      } else {
        line := line + ".";
      }
      i := i + 1;
    }
  }

  // ---------------------------------------------------------------------
  // The simulator

  class Simulator {
    const code: seq<Instruction>
    var timelines: seq<Timeline>
    var complete: seq<bool>
    var fetched: seq<nat>
    var decode: Option<nat>
    var execute: Option<nat>
    var writeback: Option<nat>
    var counterD: int
    var counterE: int
    var counterW: int
    var inUse: set<string>
    var pc: nat
    var clock: nat
    var completeTime: nat

    function Current(): State
      reads this
    {
      State(code, timelines, complete, fetched, decode, execute, writeback, counterD, counterE, counterW,
            inUse, pc, clock)
    }

    /** Lines 42-53: the program, nothing fetched, every counter zero. */
    constructor (code: seq<Instruction>)
      ensures Current() == Initial(code) && completeTime == 0
      ensures Sound(Current())
    {
      this.code := code;
      timelines := seq(|code|, _ => Timeline(0, 0, 0, 0));
      complete := seq(|code|, _ => false);
      fetched := [];
      decode, execute, writeback := None, None, None;
      counterD, counterE, counterW := 0, 0, 0;
      inUse := {};
      pc, clock, completeTime := 0, 0, 0;
      new;
      InitialSound(code);
    }

    /** One clock cycle, lines 60-93. */
    method Step()
      requires Indexed(Current())
      modifies this
      ensures Current() == Next(old(Current()))
      ensures completeTime == old(completeTime)
    {
      ghost var s := Current();
      clock := clock + 1;
      ghost var s1 := Current();
      assert s1 == s.(clock := s.clock + 1);
      RetireStage();
      ghost var s2 := Current();
      ExecuteStage();
      ghost var s3 := Current();
      DecodeStage();
      ghost var s4 := Current();
      assert s4 == Advance(s);
      IssueStage();
      ghost var s5 := Current();
      FetchStage();
      assert Current() == Fetch(s5);
    }

    /** Lines 62-66. */
    method RetireStage()
      requires Indexed(Current())
      modifies this
      ensures Current() == Retire(old(Current())) && completeTime == old(completeTime)
    {
      if writeback.Some? && clock - counterW >= Duration {
        var k := writeback.value;
        inUse := inUse - code[k].Registers();
        complete := complete[k := true];
        writeback := None;
      }
    }

    /** Lines 68-73. */
    method ExecuteStage()
      requires Indexed(Current())
      modifies this
      ensures Current() == ExecuteToWriteback(old(Current())) && completeTime == old(completeTime)
    {
      if execute.Some? && clock - counterE >= Duration && writeback.None? {
        var k := execute.value;
        writeback := Some(k);
        timelines := timelines[k := timelines[k].(w := clock)];
        counterW := clock;
        execute := None;
      }
    }

    /** Lines 75-80. */
    method DecodeStage()
      requires Indexed(Current())
      modifies this
      ensures Current() == DecodeToExecute(old(Current())) && completeTime == old(completeTime)
    {
      if decode.Some? && clock - counterD >= Duration && execute.None? {
        var k := decode.value;
        execute := Some(k);
        timelines := timelines[k := timelines[k].(e := clock)];
        counterE := clock;
        decode := None;
      }
    }

    /** Lines 82-88. */
    method IssueStage()
      requires Indexed(Current())
      modifies this
      ensures Current() == Issue(old(Current())) && completeTime == old(completeTime)
    {
      if fetched != [] {
        if inUse * code[fetched[0]].Registers() == {} {
          var k := fetched[|fetched| - 1];
          fetched := fetched[..|fetched| - 1];
          inUse := inUse + code[k].Registers();
          decode := Some(k);
          timelines := timelines[k := timelines[k].(d := clock)];
          counterD := clock;
        }
      }
    }

    /** Lines 90-93. */
    method FetchStage()
      requires Indexed(Current())
      modifies this
      ensures Current() == Fetch(old(Current())) && completeTime == old(completeTime)
    {
      if pc < |code| {
        fetched := fetched + [pc];
        timelines := timelines[pc := timelines[pc].(f := clock)];
        pc := pc + 1;
      }
    }

    /**
     * The loop of lines 55-93: cycles until every instruction is complete,
     * then records the completion time. It always stops, and then every
     * instruction's timeline is ordered within the completion time.
     */
    method Run()
      requires Sound(Current())
      modifies this
      ensures Current() == Final(old(Current()))
      ensures Sound(Current()) && AllComplete(Current())
      ensures completeTime == clock
      ensures forall k :: 0 <= k < |code| ==>
        1 <= timelines[k].f < timelines[k].d < timelines[k].e < timelines[k].w < completeTime
    {
      ghost var start := Current();
      while !AllComplete(Current())
        invariant Sound(Current())
        invariant Final(Current()) == Final(start)
        decreases Measure(Current())
      {
        NextDecreases(Current());
        NextSound(Current());
        Step();
      }
      completeTime := clock;
      forall k | 0 <= k < |code|
        ensures 1 <= timelines[k].f < timelines[k].d < timelines[k].e < timelines[k].w < completeTime
      {
        CompleteTimelines(Current(), k);
      }
    }
  }
}
