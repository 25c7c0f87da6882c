/** A process that signals itself with the signal unblocked
    (sending_recving_sigs_self.c). */
module SelfSend {
  import opened SignalKernel
  import opened SignalProcess

  /** merged: sends that found SIGUSR1 already pending. */
  datatype State = State(p: Proc, alarmSent: bool, merged: nat)

  datatype Action = Main | Deliver(sig: Sig) | Handler | Alarm

  function Init(): State {
    State(Start(CallAlarm, {}), false, 0)
  }

  /** kill to oneself does not return while the signal it sent can be delivered. */
  predicate Enabled(s: State, a: Action) {
    match a
    case Main => MainReady(s.p) && (s.p.pc == Count ==> !Deliverable(s.p, USR1))
    case Deliver(sig) => Deliverable(s.p, sig)
    case Handler => s.p.alive && s.p.frames != []
    case Alarm => s.p.alive && s.p.pc != CallAlarm && !s.alarmSent
  }

  /** send_sigs_self: alarm, then kill and nsigs_sent++ for ever. */
  function MainStep(s: State): State {
    var p := s.p;
    match p.pc
    case CallAlarm => s.(p := p.(pc := Send))
    case Send => s.(p := Post(p, USR1, 0).(pc := Count), merged := s.merged + if USR1 in p.bits then 1 else 0)
    case _ => s.(p := p.(sent := p.sent + 1, pc := Send))
  }

  function HandlerStep(s: State): State
    requires s.p.frames != []
  {
    var p := s.p;
    if Top(p).sig == USR1 then
      s.(p := if Top(p).stage == 0 then Advance(p).(recv := p.recv + 1) else Leave(p))
    else
      s.(p := Exit(p))
  }

  function Apply(s: State, a: Action): State
    requires Enabled(s, a)
  {
    match a
    case Main => MainStep(s)
    case Deliver(sig) => s.(p := Catch(s.p, sig, {}))
    case Handler => HandlerStep(s)
    case Alarm => s.(p := Post(s.p, ALRM, 0), alarmSent := true)
  }

  ghost predicate CanRun(s: State, acts: seq<Action>)
    decreases |acts|
  {
    acts == [] || (Enabled(s, acts[0]) && CanRun(Apply(s, acts[0]), acts[1..]))
  }

  ghost function Run(s: State, acts: seq<Action>): State
    requires CanRun(s, acts)
    decreases |acts|
  {
    if acts == [] then s else Run(Apply(s, acts[0]), acts[1..])
  }

  /** A scheduler's choices one after another, those that are not possible when their turn
      comes passed over. */
  ghost function Play(s: State, choices: seq<Action>): (r: State)
    decreases |choices|
  {
    if choices == [] then s
    else
      var before := Play(s, choices[..|choices| - 1]);
      var a := choices[|choices| - 1];
      if Enabled(before, a) then Apply(before, a) else before
  }

  function Kills(p: Proc): nat {
    p.sent + if p.pc == Count then 1 else 0
  }

  /** SIGUSR1 handlers on the stack: number, and those that have not counted yet. */
  ghost predicate InUsr1(p: Proc) {
    exists i :: 0 <= i < |p.frames| && p.frames[i].sig == USR1
  }

  ghost function Uncounted(p: Proc): nat {
    if exists i :: 0 <= i < |p.frames| && p.frames[i].sig == USR1 && p.frames[i].stage == 0 then 1 else 0
  }

  /** The handlers' masks are empty, so each can interrupt the other but not itself. */
  ghost predicate FramesOk(p: Proc) {
    && |p.frames| <= 2
    && (forall i | 0 <= i < |p.frames| :: p.frames[i].sig == USR1 || p.frames[i].sig == ALRM)
    && (|p.frames| == 0 ==> p.mask == {})
    && (|p.frames| == 1 ==> p.mask == {p.frames[0].sig} && p.frames[0].saved == {})
    && (|p.frames| == 2 ==>
          && p.frames[0].sig != p.frames[1].sig && p.frames[0].saved == {}
          && p.mask == {p.frames[0].sig, p.frames[1].sig} && p.frames[1].saved == {p.frames[0].sig})
  }

  ghost predicate Inv(s: State) {
    var p := s.p;
    && p.wait.Running? && p.queue == [] && p.bits <= {USR1, ALRM}
    && (p.pc == CallAlarm || p.pc == Send || p.pc == Count) && (p.pc == CallAlarm ==> p.sent == 0)
    && FramesOk(p)
    && (!s.alarmSent ==> p.alive && ALRM !in p.bits && forall i | 0 <= i < |p.frames| :: p.frames[i].sig == USR1)
    && (USR1 in p.bits || InUsr1(p) ==> p.pc == Count)
    && (USR1 in p.bits ==> !InUsr1(p))
    && Kills(p) == p.recv + Uncounted(p) + (if USR1 in p.bits then 1 else 0)
    && s.merged == 0
  }

  lemma HandlerInv(s: State)
    requires Inv(s) && Enabled(s, Handler)
    ensures Inv(HandlerStep(s))
  {
    var p := s.p;
    var r := HandlerStep(s).p;
    if Top(p).sig == USR1 {
      if Top(p).stage == 0 {
        assert p.frames[|p.frames| - 1].stage == 0;
        assert r.frames[|p.frames| - 1].sig == USR1;
      } else {
        assert forall i | 0 <= i < |r.frames| :: r.frames[i] == p.frames[i];
      }
    }
  }

  lemma DeliverInv(s: State, sig: Sig)
    requires Inv(s) && Enabled(s, Deliver(sig))
    ensures Inv(Apply(s, Deliver(sig)))
  {
    var r := Apply(s, Deliver(sig)).p;
    assert r.frames[|s.p.frames|] == Frame(sig, 0, s.p.mask);
    assert forall i | 0 <= i < |s.p.frames| :: r.frames[i] == s.p.frames[i];
  }

  lemma StepInv(s: State, a: Action)
    requires Inv(s) && Enabled(s, a)
    ensures Inv(Apply(s, a))
  {
    match a
    case Main =>
    case Deliver(sig) => DeliverInv(s, sig);
    case Handler => HandlerInv(s);
    case Alarm =>
  }

  lemma {:induction false} RunInv(s: State, acts: seq<Action>)
    requires Inv(s) && CanRun(s, acts)
    ensures Inv(Run(s, acts))
    decreases |acts|
  {
    if acts != [] {
      StepInv(s, acts[0]);
      RunInv(Apply(s, acts[0]), acts[1..]);
    }
  }

  /** In every state, inside a handler or not, the two counters differ by at most one and
      the receiver is never behind; a send never finds the signal pending, so none is
      merged. */
  lemma SentWithinReceived(acts: seq<Action>)
    requires CanRun(Init(), acts)
    ensures var s := Run(Init(), acts);
      s.p.sent <= s.p.recv + Uncounted(s.p) + (if USR1 in s.p.bits then 1 else 0) <= s.p.sent + 1 && s.merged == 0
    ensures var p := Run(Init(), acts).p;
      p.frames == [] && USR1 !in p.bits ==> p.sent <= p.recv <= p.sent + 1
    ensures var p := Run(Init(), acts).p;
      p.pc == Send ==> USR1 !in p.bits
  {
    RunInv(Init(), acts);
  }

  // ---------- progress ----------

  ghost predicate NoAlarm(acts: seq<Action>) {
    Alarm !in acts
  }

  /** How many steps have been taken, read off the position: a lap is the kill, the
      delivery, the handler's count and return, and the loop's count. */
  ghost function StepsTaken(p: Proc): nat {
    if p.pc == CallAlarm then 0
    else
      1 + 5 * p.sent
      + (if p.pc == Send then 0
         else if USR1 in p.bits then 1
         else if p.frames != [] then (if p.frames[0].stage == 0 then 2 else 3)
         else 4)
  }

  /** Before the alarm a step is always possible, and there is only one to choose. */
  ghost function NextAction(s: State): (a: Action)
    requires Inv(s) && !s.alarmSent
    ensures a != Alarm && Enabled(s, a)
    ensures forall b | b != Alarm && Enabled(s, b) :: b == a
  {
    if s.p.frames != [] then Handler
    else if USR1 in s.p.bits then Deliver(USR1)
    else Main
  }

  lemma StepCounts(s: State, a: Action)
    requires Inv(s) && !s.alarmSent && a != Alarm && Enabled(s, a)
    ensures StepsTaken(Apply(s, a).p) == StepsTaken(s.p) + 1 && !Apply(s, a).alarmSent
  {
    OneFrame(s.p);
    StepInv(s, a);
    OneFrame(Apply(s, a).p);
  }

  /** Without SIGALRM frames the quantifiers over frames are about the only frame. */
  lemma OneFrame(p: Proc)
    requires FramesOk(p) && forall i | 0 <= i < |p.frames| :: p.frames[i].sig == USR1
    ensures |p.frames| <= 1 && (InUsr1(p) <==> p.frames != [])
    ensures Uncounted(p) == if p.frames != [] && p.frames[0].stage == 0 then 1 else 0
  {
  }

  lemma {:induction false} RunCounts(s: State, acts: seq<Action>)
    requires Inv(s) && !s.alarmSent && CanRun(s, acts) && NoAlarm(acts)
    ensures var r := Run(s, acts);
      Inv(r) && !r.alarmSent && StepsTaken(r.p) == StepsTaken(s.p) + |acts|
    decreases |acts|
  {
    if acts != [] {
      StepInv(s, acts[0]);
      StepCounts(s, acts[0]);
      RunCounts(Apply(s, acts[0]), acts[1..]);
    }
  }

  lemma CountsAreTimed(s: State)
    requires Inv(s) && !s.alarmSent
    ensures var n := StepsTaken(s.p);
      s.p.sent == (if n == 0 then 0 else (n - 1) / 5) && s.p.recv == (n + 1) / 5
  {
    OneFrame(s.p);
  }

  /** The experiment never stops before the alarm, and both counters are known from the
      number of steps: the loop is entered in one, and every five more are a signal sent,
      handled and counted on both sides. */
  lemma SteadyProgress(acts: seq<Action>)
    requires CanRun(Init(), acts) && NoAlarm(acts)
    ensures var s := Run(Init(), acts);
      && s.p.recv == (|acts| + 1) / 5
      && s.p.sent == (if acts == [] then 0 else (|acts| - 1) / 5)
      && exists a :: a != Alarm && Enabled(s, a)
  {
    RunCounts(Init(), acts);
    var s := Run(Init(), acts);
    CountsAreTimed(s);
    assert Enabled(s, NextAction(s));
  }

  // ---------- the end of the experiment ----------

  /** No statement is taken while SIGALRM is deliverable. */
  ghost predicate Prompt(s: State, a: Action) {
    Deliverable(s.p, ALRM) ==> a.Deliver?
  }

  ghost predicate AllPrompt(s: State, acts: seq<Action>)
    requires CanRun(s, acts)
    decreases |acts|
  {
    acts == [] || (Prompt(s, acts[0]) && AllPrompt(Apply(s, acts[0]), acts[1..]))
  }

  ghost function FrameRank(f: Frame): nat {
    if f.sig == USR1 && f.stage == 0 then 2 else 1
  }

  ghost function FramesRank(frames: seq<Frame>): nat {
    if frames == [] then 0
    else FrameRank(frames[|frames| - 1]) + FramesRank(frames[..|frames| - 1])
  }

  ghost function Rank(p: Proc): nat {
    if !p.alive then 0
    else FramesRank(p.frames) + (if USR1 in p.bits then 3 else 0) + (if ALRM in p.bits then 2 else 0)
  }

  ghost predicate Catching(p: Proc) {
    exists i :: 0 <= i < |p.frames| && p.frames[i].sig == ALRM
  }

  /** The alarm has been generated and not yet taken effect. */
  ghost predicate Alarmed(s: State) {
    && s.alarmSent && (ALRM in s.p.bits ==> ALRM !in s.p.mask)
    && (s.p.alive ==> ALRM in s.p.bits || Catching(s.p))
  }

  lemma PushRank(frames: seq<Frame>, f: Frame)
    ensures FramesRank(frames + [f]) == FrameRank(f) + FramesRank(frames)
  {
    assert (frames + [f])[..|frames|] == frames;
  }

  lemma DeliverRank(s: State, sig: Sig)
    requires s.p.bits <= {USR1, ALRM} && s.p.queue == [] && Enabled(s, Deliver(sig))
    ensures Rank(Apply(s, Deliver(sig)).p) < Rank(s.p)
  {
    PushRank(s.p.frames, Frame(sig, 0, s.p.mask));
  }

  lemma HandlerRank(s: State)
    requires Enabled(s, Handler)
    ensures Rank(HandlerStep(s).p) < Rank(s.p)
  {
    var rest, f := s.p.frames[..|s.p.frames| - 1], Top(s.p);
    assert s.p.frames == rest + [f];
    PushRank(rest, f.(stage := 1));
  }

  lemma DeliverAlarmed(s: State, sig: Sig)
    requires Inv(s) && Alarmed(s) && Enabled(s, Deliver(sig))
    ensures Alarmed(Apply(s, Deliver(sig)))
  {
    var r := Apply(s, Deliver(sig)).p;
    assert r.frames[|s.p.frames|] == Frame(sig, 0, s.p.mask);
    assert forall i | 0 <= i < |s.p.frames| :: r.frames[i] == s.p.frames[i];
  }

  lemma HandlerAlarmed(s: State)
    requires FramesOk(s.p) && Alarmed(s) && Enabled(s, Handler)
    ensures Alarmed(HandlerStep(s))
  {
    var r := HandlerStep(s).p;
    if Top(s.p).sig == USR1 {
      assert forall i | 0 <= i < |r.frames| :: r.frames[i].sig == s.p.frames[i].sig;
    }
  }

  /** Just after SIGALRM: no more than one SIGUSR1, pending or in its handler. */
  lemma AlarmRank(s: State)
    requires Inv(s) && Enabled(s, Alarm)
    ensures Rank(Apply(s, Alarm).p) <= 5 && Alarmed(Apply(s, Alarm))
  {
    var p := s.p;
    assert |p.frames| <= 1;
    if p.frames != [] {
      assert p.frames[0].sig == USR1;
      assert p.frames[..0] == [] && FramesRank(p.frames[..0]) == 0;
      assert InUsr1(p) && FramesRank(p.frames) <= 2;
    }
  }

  lemma StepRank(s: State, a: Action)
    requires Inv(s) && Alarmed(s) && Enabled(s, a) && Prompt(s, a)
    ensures Rank(Apply(s, a).p) < Rank(s.p) && Alarmed(Apply(s, a))
  {
    match a
    case Deliver(sig) =>
      DeliverRank(s, sig);
      DeliverAlarmed(s, sig);
    case Handler =>
      HandlerRank(s);
      HandlerAlarmed(s);
    case _ =>
  }

  lemma {:induction false} RunRank(s: State, acts: seq<Action>)
    requires Inv(s) && Alarmed(s) && CanRun(s, acts) && AllPrompt(s, acts)
    ensures var r := Run(s, acts);
      Inv(r) && Alarmed(r) && |acts| <= Rank(s.p) - Rank(r.p)
    decreases |acts|
  {
    if acts != [] {
      StepInv(s, acts[0]);
      StepRank(s, acts[0]);
      RunRank(Apply(s, acts[0]), acts[1..]);
    }
  }

  /** Once the process has set the alarm it can come at any moment, and it comes once. */
  lemma AlarmCanCome(acts: seq<Action>)
    requires CanRun(Init(), acts)
    ensures var s := Run(Init(), acts); Enabled(s, Alarm) <==> s.p.pc != CallAlarm && !s.alarmSent
  {
    RunInv(Init(), acts);
  }

  /** Wherever SIGALRM arrives, at most 5 further steps are possible, and no run can stop
      before the process has exited. */
  lemma ExitsAfterAlarm(before: seq<Action>, acts: seq<Action>)
    requires CanRun(Init(), before) && Enabled(Run(Init(), before), Alarm)
    requires CanRun(Apply(Run(Init(), before), Alarm), acts) && AllPrompt(Apply(Run(Init(), before), Alarm), acts)
    ensures |acts| <= 5
    ensures var r := Run(Apply(Run(Init(), before), Alarm), acts);
      (forall a :: !(Enabled(r, a) && Prompt(r, a))) ==> !r.p.alive
  {
    RunInv(Init(), before);
    var s := Run(Init(), before);
    var s1 := Apply(s, Alarm);
    StepInv(s, Alarm);
    AlarmRank(s);
    RunRank(s1, acts);
    var r := Run(s1, acts);
    if r.p.alive {
      var a := if Deliverable(r.p, ALRM) then Deliver(ALRM) else Handler;
      assert Enabled(r, a) && Prompt(r, a);
    }
  }

  /** The loop and its handlers as statements over one process. */
  class Experiment {
    const self: Process
    var alarmSent: bool
    var merged: nat

    function Model(): State
      reads this, self
    {
      State(self.Value(), alarmSent, merged)
    }

    constructor ()
      ensures Model() == Init() && fresh(self)
    {
      self := new Process(CallAlarm, {});
      alarmSent, merged := false, 0;
    }

    /** The next statement of send_sigs_self. */
    method SendSigsSelf()
      requires Enabled(Model(), Main)
      modifies this`merged, self
      ensures Model() == MainStep(old(Model()))
    {
      match self.pc
      case CallAlarm => self.pc := Send;
      case Send =>
        if USR1 in self.bits { merged := merged + 1; }
        self.Receive(USR1, 0);
        self.pc := Count;
      case _ =>
        self.nsigsSent := self.nsigsSent + 1;
        self.pc := Send;
    }

    method Step(a: Action)
      requires Enabled(Model(), a)
      modifies this, self
      ensures Model() == Apply(old(Model()), a)
    {
      match a
      case Main => SendSigsSelf();
      case Deliver(sig) => self.EnterHandler(sig, {});
      case Handler => if Top(self.Value()).sig == USR1 { self.NullHandler(); } else { self.alive := false; }
      case Alarm =>
        self.Receive(ALRM, 0);
        alarmSent := true;
    }
  }

  lemma {:induction false} RunSnoc(s: State, acts: seq<Action>, a: Action)
    requires CanRun(s, acts) && Enabled(Run(s, acts), a)
    ensures CanRun(s, acts + [a]) && Run(s, acts + [a]) == Apply(Run(s, acts), a)
    decreases |acts|
  {
    if acts == [] {
      assert acts + [a] == [a] && [a][1..] == [];
    } else {
      RunSnoc(Apply(s, acts[0]), acts[1..], a);
      assert (acts + [a])[1..] == acts[1..] + [a];
    }
  }

  /** The program under an arbitrary schedule. */
  method RunExperiment(schedule: seq<Action>) returns (final: State)
    ensures final == Play(Init(), schedule)
    ensures final.merged == 0
    ensures final.p.frames == [] && USR1 !in final.p.bits ==> final.p.sent <= final.p.recv <= final.p.sent + 1
  {
    var e := new Experiment();
    ghost var acts: seq<Action> := [];
    for i := 0 to |schedule|
      invariant fresh(e) && fresh(e.self)
      invariant CanRun(Init(), acts) && Run(Init(), acts) == e.Model() == Play(Init(), schedule[..i])
    {
      var a := schedule[i];
      assert schedule[..i + 1][..i] == schedule[..i];
      if Enabled(e.Model(), a) {
        RunSnoc(Init(), acts, a);
        e.Step(a);
        acts := acts + [a];
      }
    }
    assert schedule[..|schedule|] == schedule;
    final := e.Model();
    SentWithinReceived(acts);
  }
}
