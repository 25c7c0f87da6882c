/** sigs_sent_swtch.c and sigs_sent_swtch.p4.c in their own form: two processes whose
    counters, masks and pending signals are updated statement by statement. */
module PingPongProgram {
  import opened SignalKernel
  import opened SignalProcess
  import opened PingPong
  import opened PingPongInvariant
  import opened PingPongResults

  class Experiment {
    const queued: bool
    const parent: Process
    const child: Process
    var alarmSent: bool

    function Model(): State
      reads this, parent, child
    {
      State(parent.Value(), child.Value(), alarmSent)
    }

    constructor (queued: bool)
      ensures Model() == Init(queued) && this.queued == queued
      ensures parent != child && fresh(parent) && fresh(child)
    {
      this.queued := queued;
      parent := new Process(CallAlarm, {Ping(queued)});
      child := new Process(Suspend, {Ping(queued)});
      alarmSent := false;
    }

    /** The next statement of be_the_parent. */
    method BeTheParent()
      requires parent != child && Enabled(queued, Model(), Main(Parent))
      modifies parent, child
      ensures Model() == MainStep(queued, old(Model()), Parent)
    {
      if parent.wait.Woken? {
        parent.mask := parent.wait.prior;
        parent.wait := Running;
        parent.pc := if queued then Bump else Send;
      } else {
        match parent.pc
        case CallAlarm => parent.pc := Send;
        case Send =>
          child.Receive(Ping(queued), parent.val);
          parent.pc := Count;
        case Count => parent.nsigsSent, parent.pc := parent.nsigsSent + 1, Suspend;
        case Bump => parent.val, parent.pc := parent.val + 1, Send;
        case Suspend => parent.SigSuspend({});
      }
    }

    /** The next statement of be_a_child. */
    method BeAChild()
      requires parent != child && Enabled(queued, Model(), Main(Child))
      modifies parent, child
      ensures Model() == MainStep(queued, old(Model()), Child)
    {
      if child.wait.Woken? {
        child.mask := child.wait.prior;
        child.wait := Running;
        child.pc := Send;
      } else {
        match child.pc
        case CallAlarm => child.pc := Send;
        case Send =>
          parent.Receive(Ping(queued), child.val);
          child.pc := Count;
        case Count =>
          child.nsigsSent := child.nsigsSent + 1;
          child.pc := if queued then Bump else Suspend;
        case Bump => child.val, child.pc := child.val + 1, Suspend;
        case Suspend => child.SigSuspend({});
      }
    }

    /** alarm_handler in the parent, child_terminate in the child. */
    method Terminate(who: Who)
      requires parent != child && Enabled(queued, Model(), Handler(who))
      requires Top(Get(Model(), who)).sig != Ping(queued)
      modifies parent, child
      ensures Model() == HandlerStep(queued, old(Model()), who)
    {
      if who == Parent {
        var n := |parent.frames| - 1;
        var f := parent.frames[n];
        if f.sig == ALRM && f.stage == 0 {
          child.Receive(USR2, 0);
          parent.frames := parent.frames[..n] + [f.(stage := 1)];
        } else {
          parent.alive := false;
        }
      } else {
        child.alive := false;
      }
    }

    method Step(a: Action)
      requires parent != child && Enabled(queued, Model(), a)
      modifies this, parent, child
      ensures Model() == Apply(queued, old(Model()), a)
    {
      match a
      case Main(who) => if who == Parent { BeTheParent(); } else { BeAChild(); }
      case Deliver(who, sig) =>
        if who == Parent { parent.EnterHandler(sig, SaMask(queued, sig)); }
        else { child.EnterHandler(sig, SaMask(queued, sig)); }
      case Handler(who) =>
        if Top(Get(Model(), who)).sig != Ping(queued) { Terminate(who); }
        else if who == Parent { parent.NullHandler(); }
        else { child.NullHandler(); }
      case Alarm =>
        parent.Receive(ALRM, 0);
        alarmSent := true;
      case KillFails => child.alive := false;
    }
  }

  /** The benchmark under an arbitrary schedule (choices that are not possible when their
      turn comes are passed over): as long as the alarm has not come, the printed counts
      agree to within one. */
  method RunExperiment(queued: bool, schedule: seq<Action>) returns (final: State)
    ensures final == Play(queued, Init(queued), schedule) && Reachable(queued, final)
    ensures !final.alarmSent ==>
      && final.parent.recv <= final.parent.sent <= final.parent.recv + 1
      && final.child.sent <= final.child.recv <= final.child.sent + 1
      && final.parent.sent - 1 <= final.child.recv <= final.parent.sent + 1
  {
    var e := new Experiment(queued);
    ghost var acts: seq<Action> := [];
    for i := 0 to |schedule|
      invariant e.queued == queued && e.parent != e.child && fresh(e) && fresh(e.parent) && fresh(e.child)
      invariant CanRun(queued, Init(queued), acts) && Run(queued, Init(queued), acts) == e.Model()
      invariant e.Model() == Play(queued, Init(queued), schedule[..i])
    {
      var a := schedule[i];
      assert schedule[..i + 1][..i] == schedule[..i];
      if Enabled(queued, e.Model(), a) {
        RunSnoc(queued, Init(queued), acts, a);
        e.Step(a);
        acts := acts + [a];
      }
    }
    assert schedule[..|schedule|] == schedule;
    final := e.Model();
    if !final.alarmSent { OneToken(queued, final); }
  }

  lemma {:induction false} RunSnoc(queued: bool, s: State, acts: seq<Action>, a: Action)
    requires CanRun(queued, s, acts) && Enabled(queued, Run(queued, s, acts), a)
    ensures CanRun(queued, s, acts + [a])
    ensures Run(queued, s, acts + [a]) == Apply(queued, Run(queued, s, acts), a)
    decreases |acts|
  {
    if acts == [] {
      assert acts + [a] == [a] && [a][1..] == [];
    } else {
      RunSnoc(queued, Apply(queued, s, acts[0]), acts[1..], a);
      assert (acts + [a])[1..] == acts[1..] + [a];
    }
  }
}
