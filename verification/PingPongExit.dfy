/** After SIGALRM both ping-pong processes exit within a fixed number of steps, provided
    only that the parent takes no further statement while SIGALRM is deliverable to it. */
module PingPongExit {
  import opened SignalKernel
  import opened PingPong
  import opened PingPongInvariant
  import opened PingPongResults

  /** The alarm is delivered before the parent's next statement once it is unblocked;
      delivery to the child may be as late as the kernel likes. */
  ghost predicate Prompt(s: State, a: Action) {
    Deliverable(s.parent, ALRM) ==> a != Main(Parent) && a != Handler(Parent)
  }

  ghost predicate AllPrompt(queued: bool, s: State, acts: seq<Action>)
    requires CanRun(queued, s, acts)
    decreases |acts|
  {
    acts == [] || (Prompt(s, acts[0]) && AllPrompt(queued, Apply(queued, s, acts[0]), acts[1..]))
  }

  /** Statements left to the parent: at most one pending ping to handle, then the alarm. */
  ghost function ParentRank(queued: bool, p: Proc): nat {
    if !p.alive then 0
    else if InLast(p, Parent) then (if Top(p).stage == 0 then 2 else 1)
    else
      var handling := if !InPing(queued, p) then 0 else if p.frames[0].stage == 0 then 2 else 1;
      3 + 3 * InBox(queued, p) + handling
  }

  /** Statements left to the child: it may answer the ping it has, and then meets SIGUSR2. */
  ghost function ChildRank(queued: bool, p: Proc): nat {
    if !p.alive then 0
    else if InLast(p, Child) then 1
    else 2 + 13 * InBox(queued, p) + TurnRank(queued, p)
  }

  ghost function TurnRank(queued: bool, p: Proc): nat {
    if InPing(queued, p) then (if p.frames[0].stage == 0 then 12 else 11)
    else if p.wait.Woken? then 10
    else if p.wait.Waiting? then 0
    else match p.pc
      case Send => 9
      case Count => 5
      case Bump => 4
      case _ => 3
  }

  ghost function Rank(queued: bool, s: State): nat {
    ParentRank(queued, s.parent) + ChildRank(queued, s.child)
  }

  lemma ParentStepRank(queued: bool, s: State, a: Action)
    requires Inv(queued, s) && s.alarmSent && Enabled(queued, s, a) && Prompt(s, a)
    requires a == Main(Parent) || a == Handler(Parent) || (a.Deliver? && a.who == Parent)
    ensures Rank(queued, Apply(queued, s, a)) < Rank(queued, s)
  {
  }

  lemma ChildMainRank(queued: bool, s: State)
    requires Inv(queued, s) && s.alarmSent && Enabled(queued, s, Main(Child))
    ensures Rank(queued, Apply(queued, s, Main(Child))) < Rank(queued, s)
  {
  }

  lemma ChildStepRank(queued: bool, s: State, a: Action)
    requires Inv(queued, s) && s.alarmSent && Enabled(queued, s, a)
    requires a == Handler(Child) || (a.Deliver? && a.who == Child) || a == KillFails
    ensures Rank(queued, Apply(queued, s, a)) < Rank(queued, s)
  {
  }

  lemma StepRank(queued: bool, s: State, a: Action)
    requires Inv(queued, s) && s.alarmSent && Enabled(queued, s, a) && Prompt(s, a)
    ensures Rank(queued, Apply(queued, s, a)) < Rank(queued, s) && Apply(queued, s, a).alarmSent
  {
    if a == Main(Parent) || a == Handler(Parent) || (a.Deliver? && a.who == Parent) {
      ParentStepRank(queued, s, a);
    } else if a == Main(Child) {
      ChildMainRank(queued, s);
    } else {
      ChildStepRank(queued, s, a);
    }
  }

  lemma {:induction false} RunRank(queued: bool, s: State, acts: seq<Action>)
    requires Inv(queued, s) && s.alarmSent && CanRun(queued, s, acts) && AllPrompt(queued, s, acts)
    ensures var r := Run(queued, s, acts);
      Inv(queued, r) && r.alarmSent && |acts| <= Rank(queued, s) - Rank(queued, r)
    decreases |acts|
  {
    if acts != [] {
      StepInv(queued, s, acts[0]);
      StepRank(queued, s, acts[0]);
      RunRank(queued, Apply(queued, s, acts[0]), acts[1..]);
    }
  }

  lemma RankBound(queued: bool, s: State)
    requires Inv(queued, s) && s.alarmSent && ALRM in s.parent.bits
    ensures Rank(queued, s) <= 23
  {
  }

  /** A child about to send when the parent has exited may see its kill fail, and exit, and
      then nothing can happen any more. */
  lemma FailedKillEnds(queued: bool, s: State)
    requires Reachable(queued, s) && !s.parent.alive && MainReady(s.child) && Sends(s.child)
    ensures Enabled(queued, s, KillFails)
    ensures var r := Apply(queued, s, KillFails);
      !r.parent.alive && !r.child.alive && forall a :: !Enabled(queued, r, a)
  {
  }

  /** An action that can be taken until both processes are gone. */
  ghost function EndAction(queued: bool, s: State): (a: Action)
    requires Inv(queued, s) && s.alarmSent && (s.parent.alive || s.child.alive)
    ensures Enabled(queued, s, a) && Prompt(s, a)
  {
    if s.parent.alive then
      if Deliverable(s.parent, ALRM) then Deliver(Parent, ALRM)
      else Handler(Parent)
    else if s.child.frames != [] then Handler(Child)
    else if MainReady(s.child) then Main(Child)
    else Deliver(Child, USR2)
  }

  /** Once the parent has set the alarm it can come at any moment, and it comes once. */
  lemma AlarmCanCome(queued: bool, s: State)
    requires Reachable(queued, s)
    ensures Enabled(queued, s, Alarm) <==> s.parent.pc != CallAlarm && !s.alarmSent
  {
    ReachableInv(queued, s);
  }

  /** Wherever the processes are when SIGALRM arrives, at most 23 further steps are
      possible, and no run can stop before both have exited. */
  lemma ExitsAfterAlarm(queued: bool, s: State, acts: seq<Action>)
    requires Reachable(queued, s) && Enabled(queued, s, Alarm)
    requires CanRun(queued, Apply(queued, s, Alarm), acts) && AllPrompt(queued, Apply(queued, s, Alarm), acts)
    ensures |acts| <= 23
    ensures var r := Run(queued, Apply(queued, s, Alarm), acts);
      (forall a :: !(Enabled(queued, r, a) && Prompt(r, a))) ==> !r.parent.alive && !r.child.alive
  {
    ReachableInv(queued, s);
    var s1 := Apply(queued, s, Alarm);
    StepInv(queued, s, Alarm);
    RankBound(queued, s1);
    RunRank(queued, s1, acts);
    var r := Run(queued, s1, acts);
    if r.parent.alive || r.child.alive {
      var a := EndAction(queued, r);
    }
  }
}
