/** Context switching by sched_yield (switch.c): copies of the switcher at one priority
    under SCHED_FIFO on one processor. The head of the run queue runs; a yield moves the
    caller to the tail; a fork puts the child at the tail. */
module Switch {
  datatype Pc = Forking | Yielding | Counting

  /** queue[0] is running. total: how many copies main makes in all (two in the source). */
  datatype State = State(total: nat, queue: seq<nat>, pcs: seq<Pc>, nswitch: seq<nat>)

  ghost predicate Shape(s: State) {
    && |s.pcs| == |s.nswitch| <= s.total && s.queue != []
    && forall i | 0 <= i < |s.queue| :: s.queue[i] < |s.pcs|
  }

  function Init(total: nat): State
    requires total > 0
  {
    State(total, [0], [if total > 1 then Forking else Yielding], [0])
  }

  /** The next statement of the running process: there is no other choice. */
  function Step(s: State): (r: State)
    requires Shape(s)
    ensures r.total == s.total
  {
    var p := s.queue[0];
    match s.pcs[p]
    case Forking =>
      var pcs := s.pcs[p := if |s.pcs| + 1 < s.total then Forking else Yielding];
      s.(queue := s.queue + [|s.pcs|], pcs := pcs + [Yielding], nswitch := s.nswitch + [0])
    case Yielding => s.(queue := s.queue[1..] + [p], pcs := s.pcs[p := Counting])
    case Counting => s.(nswitch := s.nswitch[p := s.nswitch[p] + 1], pcs := s.pcs[p := Yielding])
  }

  /** The state of round robin: `round` full turns, then the turns of processes 0 to
      head - 1, and possibly the head's count. */
  datatype Phase = Forks(made: nat) | Turn(round: nat, head: nat, counted: bool)

  ghost predicate PhaseOk(total: nat, ph: Phase) {
    match ph
    case Forks(made) => 1 <= made < total
    case Turn(round, head, counted) => head < total && (counted ==> round > 0)
  }

  function Rotated(total: nat, head: nat): (q: seq<nat>)
    requires head < total
    ensures |q| == total
  {
    seq(total, j requires 0 <= j < total => if head + j < total then head + j else head + j - total)
  }

  function CountOf(ph: Phase, i: nat): nat
    requires ph.Turn?
  {
    if i < ph.head || (i == ph.head && ph.counted) then ph.round
    else if ph.round > 0 then ph.round - 1 else 0
  }

  function PcOf(ph: Phase, i: nat): Pc
    requires ph.Turn?
  {
    if i < ph.head || (ph.round > 0 && !(i == ph.head && ph.counted)) then Counting else Yielding
  }

  /** What every process has done at a phase: a closed form of the whole state. */
  function Expected(total: nat, ph: Phase): State
    requires PhaseOk(total, ph)
  {
    match ph
    case Forks(made) =>
      State(total, seq(made, i => i), seq(made, i => if i == 0 then Forking else Yielding), seq(made, _ => 0))
    case Turn(round, head, counted) =>
      State(total, Rotated(total, head), seq(total, i requires i >= 0 => PcOf(ph, i)),
            seq(total, i requires i >= 0 => CountOf(ph, i)))
  }

  function NextPhase(total: nat, ph: Phase): (n: Phase)
    requires PhaseOk(total, ph)
    ensures PhaseOk(total, n)
  {
    match ph
    case Forks(made) => if made + 1 < total then Forks(made + 1) else Turn(0, 0, false)
    case Turn(round, head, counted) =>
      if round > 0 && !counted then Turn(round, head, true)
      else if head + 1 < total then Turn(round, head + 1, false)
      else Turn(round + 1, 0, false)
  }

  lemma YieldRotates(total: nat, head: nat)
    requires head < total
    ensures Rotated(total, head)[1..] + [head] == Rotated(total, if head + 1 < total then head + 1 else 0)
  {
  }

  lemma StepIsExpected(total: nat, ph: Phase)
    requires PhaseOk(total, ph)
    ensures Shape(Expected(total, ph)) && Step(Expected(total, ph)) == Expected(total, NextPhase(total, ph))
  {
    var s := Expected(total, ph);
    var n := NextPhase(total, ph);
    var r := Step(s);
    var e := Expected(total, n);
    if ph.Turn? { YieldRotates(total, ph.head); }
    assert r.queue == e.queue;
    assert r.pcs == e.pcs;
    assert r.nswitch == e.nswitch;
  }

  ghost function PhaseAfter(total: nat, n: nat): (ph: Phase)
    requires total > 0
    ensures PhaseOk(total, ph)
  {
    if n == 0 then (if total > 1 then Forks(1) else Turn(0, 0, false))
    else NextPhase(total, PhaseAfter(total, n - 1))
  }

  ghost function After(total: nat, n: nat): State
    requires total > 0
  {
    Expected(total, PhaseAfter(total, n))
  }

  /** The scheduler really produces that state after n statements. */
  ghost predicate RunsTo(total: nat, n: nat, s: State)
    requires total > 0
    decreases n
  {
    if n == 0 then s == Init(total)
    else exists before :: RunsTo(total, n - 1, before) && Shape(before) && Step(before) == s
  }

  lemma {:induction false} RunIsRoundRobin(total: nat, n: nat, s: State)
    requires total > 0 && RunsTo(total, n, s)
    ensures s == After(total, n)
    decreases n
  {
    if n == 0 {
      assert Init(total).pcs == After(total, 0).pcs && Init(total).nswitch == After(total, 0).nswitch;
      assert Init(total).queue == After(total, 0).queue;
    } else {
      var before :| RunsTo(total, n - 1, before) && Shape(before) && Step(before) == s;
      RunIsRoundRobin(total, n - 1, before);
      StepIsExpected(total, PhaseAfter(total, n - 1));
    }
  }

  lemma {:induction false} RunExists(total: nat, n: nat)
    requires total > 0
    ensures RunsTo(total, n, After(total, n))
    decreases n
  {
    if n == 0 {
      assert Init(total).pcs == After(total, 0).pcs && Init(total).nswitch == After(total, 0).nswitch;
      assert Init(total).queue == After(total, 0).queue;
    } else {
      RunExists(total, n - 1);
      StepIsExpected(total, PhaseAfter(total, n - 1));
    }
  }

  /** In every reachable state the counts of any two copies differ by at most one. */
  lemma CountsWithinOne(total: nat, n: nat, s: State, i: nat, j: nat)
    requires total > 0 && RunsTo(total, n, s) && i < |s.nswitch| && j < |s.nswitch|
    ensures s.nswitch[i] <= s.nswitch[j] + 1
  {
    RunIsRoundRobin(total, n, s);
  }

  /** Statements executed before round `round` begins. */
  function Statements(total: nat, round: nat): nat
    requires total > 0
  {
    if round == 0 then total - 1
    else if round == 1 then 2 * total - 1
    else Statements(total, round - 1) + 2 * total
  }

  /** The rate: a process's count is known from the number of statements executed. */
  lemma {:induction false} PhaseIsTimed(total: nat, n: nat)
    requires total > 0
    ensures var ph := PhaseAfter(total, n);
      n == match ph
           case Forks(made) => made - 1
           case Turn(round, head, counted) =>
             Statements(total, round) + (if round == 0 then head else 2 * head + (if counted then 1 else 0))
    decreases n
  {
    if n > 0 { PhaseIsTimed(total, n - 1); }
  }

  // ---------- the program ----------

  /** The run queue and the processes' counters, updated in place. */
  class Processor {
    const total: nat
    var queue: seq<nat>
    var pcs: seq<Pc>
    const nswitch: array<nat>

    function Model(): State
      reads this, nswitch
      requires |pcs| <= nswitch.Length
    {
      State(total, queue, pcs, nswitch[..|pcs|])
    }

    constructor (total: nat)
      requires total > 0
      ensures this.total == total && |pcs| <= nswitch.Length == total && Model() == Init(total) && fresh(nswitch)
    {
      this.total := total;
      queue := [0];
      pcs := [if total > 1 then Forking else Yielding];
      nswitch := new nat[total](_ => 0);
      new;
      assert nswitch[..1] == [0];
    }

    /** fork: the child joins the tail with a zero count. */
    method Fork(p: nat)
      requires |pcs| < nswitch.Length == total && Shape(Model()) && queue[0] == p && pcs[p] == Forking
      modifies this, nswitch
      ensures |pcs| <= nswitch.Length && Model() == Step(old(Model()))
    {
      var child := |pcs|;
      pcs := pcs[p := if child + 1 < total then Forking else Yielding] + [Yielding];
      nswitch[child] := 0;
      queue := queue + [child];
      assert nswitch[..child + 1] == old(nswitch[..child]) + [0];
    }

    /** sched_yield: the caller moves to the tail. */
    method SchedYield(p: nat)
      requires |pcs| <= nswitch.Length && Shape(Model()) && queue[0] == p && pcs[p] == Yielding
      modifies this`queue, this`pcs
      ensures |pcs| <= nswitch.Length && Model() == Step(old(Model()))
    {
      queue := queue[1..] + [p];
      pcs := pcs[p := Counting];
    }

    /** nswitch++. */
    method CountSwitch(p: nat)
      requires |pcs| <= nswitch.Length && Shape(Model()) && queue[0] == p && pcs[p] == Counting
      modifies this`pcs, nswitch
      ensures |pcs| <= nswitch.Length && Model() == Step(old(Model()))
    {
      nswitch[p] := nswitch[p] + 1;
      pcs := pcs[p := Yielding];
      assert nswitch[..|pcs|] == old(nswitch[..|pcs|])[p := old(nswitch[p]) + 1];
    }

    /** One statement of whichever process runs. */
    method RunHead()
      requires |pcs| <= nswitch.Length == total && Shape(Model()) && (pcs[queue[0]] == Forking ==> |pcs| < total)
      modifies this, nswitch
      ensures |pcs| <= nswitch.Length && Model() == Step(old(Model()))
    {
      var p := queue[0];
      match pcs[p]
      case Forking => Fork(p);
      case Yielding => SchedYield(p);
      case Counting => CountSwitch(p);
    }
  }

  /** The benchmark stopped after n statements: all printed counts agree to within one. */
  method RunBenchmark(total: nat, n: nat) returns (counts: seq<nat>)
    requires total > 0
    ensures counts == After(total, n).nswitch
    ensures forall i, j | 0 <= i < |counts| && 0 <= j < |counts| :: counts[i] <= counts[j] + 1
  {
    var cpu := new Processor(total);
    RunExists(total, 0);
    RunIsRoundRobin(total, 0, Init(total));
    for k := 0 to n
      invariant fresh(cpu) && fresh(cpu.nswitch) && cpu.total == total == cpu.nswitch.Length
      invariant |cpu.pcs| <= total && cpu.Model() == After(total, k)
    {
      StepIsExpected(total, PhaseAfter(total, k));
      cpu.RunHead();
    }
    counts := cpu.nswitch[..|cpu.pcs|];
  }
}
