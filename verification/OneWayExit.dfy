/** After SIGALRM both one-way experiments end within a fixed number of steps, provided
    only that the parent takes no statement while SIGALRM is deliverable to it. */
module OneWayExit {
  import opened SignalKernel
  import opened OneWay

  ghost predicate Prompt(s: State, a: Action) {
    Deliverable(s.parent, ALRM) ==> a != Main(Parent) && a != Handler(Parent)
  }

  ghost predicate AllPrompt(v: Variant, s: State, acts: seq<Action>)
    requires CanRun(v, s, acts)
    decreases |acts|
  {
    acts == [] || (Prompt(s, acts[0]) && AllPrompt(v, Apply(v, s, acts[0]), acts[1..]))
  }

  ghost function ParentRank(p: Proc): nat {
    if !p.alive then 0
    else if p.frames == [] then 3
    else if p.frames[0].stage == 0 then 2 else 1
  }

  /** The child may handle the signal it has, return to sigsuspend, and then ends. */
  ghost function ChildRank(c: Proc): nat {
    if !c.alive then 0
    else if Ending(c) then 1
    else
      var handling := if !InUsr1(c) then 0 else if c.frames[0].stage == 0 then 4 else 3;
      var waking := if c.wait.Woken? then 2 else if c.wait.Running? then 1 else 0;
      2 + 5 * PendingUsr1(c) + handling + waking
  }

  ghost function Rank(s: State): nat {
    ParentRank(s.parent) + ChildRank(s.child)
  }

  lemma ParentStepRank(v: Variant, s: State, a: Action)
    requires Inv(v, s) && s.alarmSent && Enabled(s, a) && Prompt(s, a)
    requires a == Main(Parent) || a == Handler(Parent) || (a.Deliver? && a.who == Parent)
    ensures Rank(Apply(v, s, a)) < Rank(s)
  {
  }

  lemma ChildStepRank(v: Variant, s: State, a: Action)
    requires Inv(v, s) && s.alarmSent && Enabled(s, a)
    requires a == Main(Child) || a == Handler(Child) || (a.Deliver? && a.who == Child)
    ensures Rank(Apply(v, s, a)) < Rank(s)
  {
  }

  lemma StepRank(v: Variant, s: State, a: Action)
    requires Inv(v, s) && s.alarmSent && Enabled(s, a) && Prompt(s, a)
    ensures Rank(Apply(v, s, a)) < Rank(s) && Apply(v, s, a).alarmSent
  {
    if a == Main(Parent) || a == Handler(Parent) || (a.Deliver? && a.who == Parent) {
      ParentStepRank(v, s, a);
    } else {
      ChildStepRank(v, s, a);
    }
  }

  lemma {:induction false} RunRank(v: Variant, s: State, acts: seq<Action>)
    requires Inv(v, s) && s.alarmSent && CanRun(v, s, acts) && AllPrompt(v, s, acts)
    ensures var r := Run(v, s, acts);
      Inv(v, r) && r.alarmSent && |acts| <= Rank(s) - Rank(r)
    decreases |acts|
  {
    if acts != [] {
      StepInv(v, s, acts[0]);
      StepRank(v, s, acts[0]);
      RunRank(v, Apply(v, s, acts[0]), acts[1..]);
    }
  }

  /** An action that can be taken until both processes are gone. */
  ghost function EndAction(v: Variant, s: State): (a: Action)
    requires Inv(v, s) && s.alarmSent && (s.parent.alive || s.child.alive)
    ensures Enabled(s, a) && Prompt(s, a)
  {
    if s.parent.alive then
      if s.parent.frames == [] then Deliver(Parent, ALRM) else Handler(Parent)
    else if s.child.frames != [] then Handler(Child)
    else if MainReady(s.child) then Main(Child)
    else Deliver(Child, USR2)
  }

  lemma RankBound(v: Variant, s: State)
    requires Inv(v, s)
    ensures Rank(s) <= 16
  {
  }

  /** Once the parent has set the alarm it can come at any moment, and it comes once. */
  lemma AlarmCanCome(v: Variant, s: State)
    requires Reachable(v, s)
    ensures Enabled(s, Alarm) <==> s.parent.pc != CallAlarm && !s.alarmSent
  {
    ReachableInv(v, s);
  }

  /** Wherever the processes are when SIGALRM arrives, at most 16 further steps are
      possible, and no run can stop before both have exited. */
  lemma ExitsAfterAlarm(v: Variant, s: State, acts: seq<Action>)
    requires Reachable(v, s) && Enabled(s, Alarm)
    requires CanRun(v, Apply(v, s, Alarm), acts) && AllPrompt(v, Apply(v, s, Alarm), acts)
    ensures |acts| <= 16
    ensures var r := Run(v, Apply(v, s, Alarm), acts);
      (forall a :: !(Enabled(r, a) && Prompt(r, a))) ==> !r.parent.alive && !r.child.alive
  {
    ReachableInv(v, s);
    var s1 := Apply(v, s, Alarm);
    StepInv(v, s, Alarm);
    RankBound(v, s1);
    RunRank(v, s1, acts);
    var r := Run(v, s1, acts);
    if r.parent.alive || r.child.alive {
      var a := EndAction(v, r);
    }
  }
}
