/** sigs_sent_noswtch.c and sending_sigs.c in their own form. */
module OneWayProgram {
  import opened SignalKernel
  import opened SignalProcess
  import opened OneWay

  class Experiment {
    const v: Variant
    const parent: Process
    const child: Process
    var alarmSent: bool
    var merged: nat

    function Model(): State
      reads this, parent, child
    {
      State(parent.Value(), child.Value(), alarmSent, merged)
    }

    constructor (v: Variant)
      ensures Model() == Init(v) && this.v == v
      ensures parent != child && fresh(parent) && fresh(child)
    {
      this.v := v;
      var blockem := if v == Blocking then {USR1} else {};
      parent := new Process(CallAlarm, blockem);
      child := new Process(Suspend, blockem);
      alarmSent, merged := false, 0;
    }

    /** The next statement of be_the_parent. */
    method BeTheParent()
      requires parent != child && Enabled(Model(), Main(Parent))
      modifies this`merged, parent, child
      ensures Model() == ParentStep(old(Model()))
    {
      match parent.pc
      case CallAlarm => parent.pc := Send;
      case Send =>
        if child.alive && USR1 in child.bits { merged := merged + 1; }
        child.Receive(USR1, 0);
        parent.pc := Count;
      case _ =>
        parent.nsigsSent := parent.nsigsSent + 1;
        parent.pc := Send;
    }

    /** The next statement of be_a_child. */
    method BeAChild()
      requires parent != child && Enabled(Model(), Main(Child))
      modifies child
      ensures Model() == ChildStep(v, old(Model()))
    {
      if child.wait.Woken? {
        child.mask := child.wait.prior;
        child.wait := Running;
        child.pc := Suspend;
      } else {
        child.SigSuspend(SuspendMask(v));
      }
    }

    /** panic_handler, alarm_handler and child_terminate: all end in exit. */
    method Terminate(who: Who)
      requires parent != child && Enabled(Model(), Handler(who))
      requires !(Top(Get(Model(), who)).sig == USR1 && v == Counting)
      modifies parent, child
      ensures Model() == HandlerStep(v, old(Model()), who)
    {
      var self := if who == Parent then parent else child;
      var n := |self.frames| - 1;
      var f := self.frames[n];
      if f.sig == USR1 && f.stage == 0 {
        if who == Child { parent.Receive(ALRM, 0); }
        self.frames := self.frames[..n] + [f.(stage := 1)];
      } else if f.sig == ALRM && who == Parent && f.stage == 0 {
        child.Receive(USR2, 0);
        self.frames := self.frames[..n] + [f.(stage := 1)];
      } else {
        self.alive := false;
      }
    }

    method Step(a: Action)
      requires parent != child && Enabled(Model(), a)
      modifies this, parent, child
      ensures Model() == Apply(v, old(Model()), a)
    {
      match a
      case Main(who) => if who == Parent { BeTheParent(); } else { BeAChild(); }
      case Deliver(who, sig) =>
        if who == Parent { parent.EnterHandler(sig, SaMask(sig)); } else { child.EnterHandler(sig, SaMask(sig)); }
      case Handler(who) =>
        if !(Top(Get(Model(), who)).sig == USR1 && v == Counting) { Terminate(who); }
        else if who == Parent { parent.NullHandler(); }
        else { child.NullHandler(); }
      case Alarm =>
        parent.Receive(ALRM, 0);
        alarmSent := true;
    }
  }

  /** The benchmark under an arbitrary schedule: sends are conserved, so the two printed
      totals differ by the merged, pending and uncounted ones and no others. */
  method RunExperiment(v: Variant, schedule: seq<Action>) returns (final: State)
    ensures final == Play(v, Init(v), schedule) && Reachable(v, final)
    ensures Kills(final.parent) == final.child.recv + Uncounted(final.child) + PendingUsr1(final.child) + final.merged
    ensures v == Blocking ==> final.child.recv == 0
  {
    var e := new Experiment(v);
    ghost var acts: seq<Action> := [];
    for i := 0 to |schedule|
      invariant e.v == v && e.parent != e.child && fresh(e) && fresh(e.parent) && fresh(e.child)
      invariant CanRun(v, Init(v), acts) && Run(v, Init(v), acts) == e.Model() == Play(v, Init(v), schedule[..i])
    {
      var a := schedule[i];
      assert schedule[..i + 1][..i] == schedule[..i];
      if Enabled(e.Model(), a) {
        RunSnoc(v, acts, a);
        e.Step(a);
        acts := acts + [a];
      }
    }
    assert schedule[..|schedule|] == schedule;
    final := e.Model();
    SendsAreConserved(v, final);
    if v == Blocking { BlockedSignalNeverHandled(final); }
  }
}
