/** The ping-pong's promises: one token, counters in step, no lost wake-up, steady
    progress under any schedule, and a bounded end after the alarm. */
module PingPongResults {
  import opened SignalKernel
  import opened PingPong
  import opened PingPongInvariant

  ghost predicate Reachable(queued: bool, s: State) {
    exists acts :: CanRun(queued, Init(queued), acts) && Run(queued, Init(queued), acts) == s
  }

  lemma ReachableInv(queued: bool, s: State)
    requires Reachable(queued, s)
    ensures Inv(queued, s)
  {
    var acts :| CanRun(queued, Init(queued), acts) && Run(queued, Init(queued), acts) == s;
    InitInv(queued);
    RunInv(queued, Init(queued), acts);
  }

  // ---------- safety ----------

  /** Where the ping is: pending, being handled, or with a process about to send it. */
  ghost function TokensOf(queued: bool, p: Proc, who: Who): nat {
    InBox(queued, p) + if Holds(queued, p, who) then 1 else 0
  }

  lemma TokenIsOne(queued: bool, s: State)
    requires Inv(queued, s) && !s.alarmSent
    ensures TokensOf(queued, s.parent, Parent) + TokensOf(queued, s.child, Child) == 1
  {
  }

  /** Before the alarm there is exactly one token, so a send never meets a pending ping
      and no signal is merged; the counters stay in step and in order. */
  lemma OneToken(queued: bool, s: State)
    requires Reachable(queued, s) && !s.alarmSent
    ensures TokensOf(queued, s.parent, Parent) + TokensOf(queued, s.child, Child) == 1
    ensures forall who :: Enabled(queued, s, Main(who)) && Sends(Get(s, who)) ==> InBox(queued, Get(s, Other(who))) == 0
    ensures s.parent.recv <= s.parent.sent <= s.parent.recv + 1
    ensures s.child.sent <= s.child.recv <= s.child.sent + 1
    ensures s.parent.sent - 1 <= s.child.recv <= s.parent.sent + 1
  {
    ReachableInv(queued, s);
    TokenIsOne(queued, s);
  }

  /** Mask discipline over whole runs: handlers nest at most one deep, two in the queued
      form, where only the terminating handler can interrupt the counting one. */
  lemma HandlerDepth(queued: bool, s: State, who: Who)
    requires Reachable(queued, s)
    ensures var p := Get(s, who);
      && |p.frames| <= (if queued then 2 else 1)
      && (|p.frames| == 2 ==> p.frames[0].sig == RTMIN && p.frames[1].sig == Last(who))
      && (p.frames != [] ==> Top(p).sig in p.mask)
  {
    ReachableInv(queued, s);
  }

  /** In the queued form the values delivered to either process are 0, 1, 2, ... */
  lemma ValuesInOrder(s: State, who: Who)
    requires Reachable(true, s)
    ensures var p := Get(s, who);
      && (!s.alarmSent ==> |p.queue| <= 1)
      && |p.got| == Deliveries(true, p)
      && forall i | 0 <= i < |p.got| :: p.got[i] == i
  {
    ReachableInv(true, s);
  }

  // ---------- progress ----------

  /** Before the alarm some process can always step. */
  lemma NoDeadlock(queued: bool, s: State)
    requires Reachable(queued, s) && !s.alarmSent
    ensures exists a :: a != Alarm && Enabled(queued, s, a)
  {
    ReachableInv(queued, s);
    var a := PreAlarmAction(queued, s);
  }

  ghost function PreAlarmAction(queued: bool, s: State): (a: Action)
    requires Inv(queued, s) && !s.alarmSent
    ensures a != Alarm && Enabled(queued, s, a)
  {
    if s.parent.frames != [] then Handler(Parent)
    else if s.child.frames != [] then Handler(Child)
    else if !s.parent.wait.Waiting? then Main(Parent)
    else if !s.child.wait.Waiting? then Main(Child)
    else if InBox(queued, s.parent) > 0 then Deliver(Parent, Ping(queued))
    else Deliver(Child, Ping(queued))
  }

  /** Statements each process executes for one round trip. */
  function Lap(queued: bool): nat {
    if queued then 8 else 7
  }

  function Laps(queued: bool, n: int): int {
    if queued then 8 * n else 7 * n
  }

  /** How many steps a process has taken, read off its program counter. */
  ghost function StepsTaken(queued: bool, p: Proc, who: Who): int {
    if who == Parent then
      var done := Laps(queued, Kills(p) - 1);
      if p.pc == CallAlarm then 0
      else if p.wait.Waiting? then done + 4 + if InPing(queued, p) then 1 + p.frames[0].stage else 0
      else if p.wait.Woken? then done + 7
      else match p.pc
        case Count => done + 2
        case Suspend => done + 3
        case Bump => done + 8
        case _ => Laps(queued, Kills(p)) + 1
    else
      var done := Laps(queued, Kills(p));
      if p.wait.Waiting? then done + 1 + if InPing(queued, p) then 1 + p.frames[0].stage else 0
      else if p.wait.Woken? then done + 4
      else match p.pc
        case Send => done + 5
        case Count => Laps(queued, Kills(p) - 1) + 6
        case Bump => Laps(queued, Kills(p) - 1) + 7
        case _ => done
  }

  ghost function Elapsed(queued: bool, s: State): int {
    StepsTaken(queued, s.parent, Parent) + StepsTaken(queued, s.child, Child)
  }

  // One process's share of each kind of step.

  lemma MainCounts(queued: bool, p: Proc, who: Who)
    requires ProcOk(queued, p, who) && MainReady(p)
    ensures StepsTaken(queued, MainSelf(queued, p, who), who) == StepsTaken(queued, p, who) + 1
  {
  }

  lemma HandlerCounts(queued: bool, p: Proc, who: Who)
    requires ProcOk(queued, p, who) && p.frames != [] && !InLast(p, who)
    ensures StepsTaken(queued, HandlerSelf(queued, p, who), who) == StepsTaken(queued, p, who) + 1
  {
    assert |p.frames| == 1;
  }

  lemma CatchCounts(queued: bool, p: Proc, who: Who)
    requires ProcOk(queued, p, who) && Deliverable(p, Ping(queued)) && !Holds(queued, p, who)
    ensures StepsTaken(queued, Catch(p, Ping(queued), SaMask(queued, Ping(queued))), who) == StepsTaken(queued, p, who) + 1
  {
  }

  lemma PostCounts(queued: bool, p: Proc, who: Who, v: int)
    ensures StepsTaken(queued, Post(p, Ping(queued), v), who) == StepsTaken(queued, p, who)
  {
  }

  lemma StepCounts(queued: bool, s: State, a: Action)
    requires Inv(queued, s) && !s.alarmSent && a != Alarm && Enabled(queued, s, a)
    ensures Elapsed(queued, Apply(queued, s, a)) == Elapsed(queued, s) + 1
    ensures !Apply(queued, s, a).alarmSent
  {
    match a
    case Main(who) =>
      MainCounts(queued, Get(s, who), who);
      PostCounts(queued, Get(s, Other(who)), Other(who), Get(s, who).val);
    case Deliver(who, sig) =>
      assert sig == Ping(queued) && !Holds(queued, Get(s, who), who);
      CatchCounts(queued, Get(s, who), who);
    case Handler(who) =>
      assert !InLast(Get(s, who), who);
      HandlerCounts(queued, Get(s, who), who);
    case _ =>
  }

  ghost predicate NoAlarm(acts: seq<Action>) {
    Alarm !in acts
  }

  lemma {:induction false} RunCounts(queued: bool, s: State, acts: seq<Action>)
    requires Inv(queued, s) && !s.alarmSent && CanRun(queued, s, acts) && NoAlarm(acts)
    ensures var r := Run(queued, s, acts);
      Inv(queued, r) && !r.alarmSent && Elapsed(queued, r) == Elapsed(queued, s) + |acts|
    decreases |acts|
  {
    if acts != [] {
      StepInv(queued, s, acts[0]);
      StepCounts(queued, s, acts[0]);
      RunCounts(queued, Apply(queued, s, acts[0]), acts[1..]);
    }
  }

  lemma InitElapsed(queued: bool)
    ensures Elapsed(queued, Init(queued)) == 0
  {
  }

  lemma RunElapsed(queued: bool, s: State, acts: seq<Action>)
    requires Inv(queued, s) && !s.alarmSent && CanRun(queued, s, acts) && NoAlarm(acts) && Elapsed(queued, s) == 0
    ensures Elapsed(queued, Run(queued, s, acts)) == |acts|
  {
    RunCounts(queued, s, acts);
  }

  /** The two positions together tell how many steps have been taken since fork. */
  lemma StepsAreTimed(queued: bool, acts: seq<Action>)
    requires CanRun(queued, Init(queued), acts) && NoAlarm(acts)
    ensures Elapsed(queued, Run(queued, Init(queued), acts)) == |acts|
  {
    InitInv(queued);
    InitElapsed(queued);
    RunElapsed(queued, Init(queued), acts);
  }

  lemma ElapsedAtMost(queued: bool, s: State)
    requires Inv(queued, s) && !s.alarmSent
    ensures Elapsed(queued, s) <= Laps(queued, 2 * s.parent.recv + 1) + 6
  {
  }

  lemma ElapsedAtLeast(queued: bool, s: State)
    requires Inv(queued, s) && !s.alarmSent
    ensures Elapsed(queued, s) >= if s.parent.recv == 0 then 0 else Laps(queued, 2 * s.parent.recv - 2) + 12
  {
  }

  /** Under any schedule whatever, 3 * lap - 5 further steps before the alarm include the
      completion of another round trip. */
  lemma SteadyProgress(queued: bool, s: State, acts: seq<Action>)
    requires Reachable(queued, s) && !s.alarmSent && CanRun(queued, s, acts) && NoAlarm(acts)
    requires |acts| >= 3 * Lap(queued) - 5
    ensures Run(queued, s, acts).parent.recv > s.parent.recv
  {
    ReachableInv(queued, s);
    var r := Run(queued, s, acts);
    RunCounts(queued, s, acts);
    ElapsedAtLeast(queued, s);
    ElapsedAtMost(queued, r);
    RecvGrows(queued, s, acts);
  }

  lemma {:induction false} RecvGrows(queued: bool, s: State, acts: seq<Action>)
    requires CanRun(queued, s, acts)
    ensures Run(queued, s, acts).parent.recv >= s.parent.recv
    decreases |acts|
  {
    if acts != [] {
      RecvGrows(queued, Apply(queued, s, acts[0]), acts[1..]);
    }
  }
}
