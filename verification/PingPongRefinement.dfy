/** Before the alarm the queued ping-pong and the ordinary one simulate each other: they
    differ only in the statement that advances the value sent. */
module PingPongRefinement {
  import opened SignalKernel
  import opened PingPong
  import opened PingPongInvariant
  import opened PingPongResults

  function EraseSet(mask: set<Sig>): set<Sig> {
    if RTMIN in mask then {USR1} else {}
  }

  /** A queued process seen as an ordinary one: values forgotten, the queue as a bit, the
      counting handler's mask full, the value statement already done. */
  function EraseProc(p: Proc, who: Who): Proc {
    Proc(if p.pc == Bump then (if who == Parent then Send else Suspend) else p.pc,
         match p.wait case Running => Running case Waiting(m) => Waiting(EraseSet(m)) case Woken(m) => Woken(EraseSet(m)),
         p.alive,
         if p.frames != [] then ALLSIGS else EraseSet(p.mask),
         if p.queue != [] then {USR1} else {},
         [],
         if p.frames != [] then [Frame(USR1, p.frames[0].stage, EraseSet(p.frames[0].saved))] else [],
         p.sent, p.recv, 0, [])
  }

  function Erase(s: State): State {
    State(EraseProc(s.parent, Parent), EraseProc(s.child, Child), s.alarmSent)
  }

  function EraseAction(a: Action): Action {
    if a.Deliver? && a.sig == RTMIN then a.(sig := USR1) else a
  }

  /** The queued process is about to advance its value. */
  predicate Bumps(s: State, a: Action) {
    a.Main? && Get(s, a.who).wait.Running? && Get(s, a.who).pc == Bump
  }

  lemma MainForward(s: State, who: Who)
    requires Inv(true, s) && !s.alarmSent && Enabled(true, s, Main(who))
    ensures var r := Apply(true, s, Main(who));
      if Bumps(s, Main(who)) then Erase(r) == Erase(s)
      else Enabled(false, Erase(s), Main(who)) && Erase(r) == Apply(false, Erase(s), Main(who))
  {
  }

  lemma HandlerSelfForward(p: Proc, who: Who)
    requires ProcOk(true, p, who) && p.frames != [] && !InLast(p, who)
    ensures EraseProc(p, who).frames != [] && Top(EraseProc(p, who)).sig == USR1
    ensures EraseProc(HandlerSelf(true, p, who), who) == HandlerSelf(false, EraseProc(p, who), who)
  {
    assert |p.frames| == 1;
  }

  lemma HandlerForward(s: State, who: Who)
    requires Inv(true, s) && !s.alarmSent && Enabled(true, s, Handler(who))
    ensures Enabled(false, Erase(s), Handler(who))
      && Erase(Apply(true, s, Handler(who))) == Apply(false, Erase(s), Handler(who))
  {
    assert !InLast(Get(s, who), who);
    HandlerSelfForward(Get(s, who), who);
  }

  lemma DeliverForward(s: State, who: Who, sig: Sig)
    requires Inv(true, s) && !s.alarmSent && Enabled(true, s, Deliver(who, sig))
    ensures sig == RTMIN && Enabled(false, Erase(s), Deliver(who, USR1))
      && Erase(Apply(true, s, Deliver(who, sig))) == Apply(false, Erase(s), Deliver(who, USR1))
  {
  }

  lemma StepForward(s: State, a: Action)
    requires Inv(true, s) && !s.alarmSent && a != Alarm && Enabled(true, s, a)
    ensures var r := Apply(true, s, a);
      if Bumps(s, a) then Erase(r) == Erase(s)
      else Enabled(false, Erase(s), EraseAction(a)) && Erase(r) == Apply(false, Erase(s), EraseAction(a))
  {
    match a
    case Main(who) => MainForward(s, who);
    case Handler(who) => HandlerForward(s, who);
    case Deliver(who, sig) => DeliverForward(s, who, sig);
    case _ =>
  }

  /** Conversely a step of the ordinary form is the queued form's next step, or its next
      but one after a value statement. */
  lemma StepBackward(s: State, b: Action)
    requires Inv(true, s) && !s.alarmSent && b != Alarm && Enabled(false, Erase(s), b)
    ensures var a := if b.Deliver? then b.(sig := RTMIN) else b;
      Enabled(true, s, a) && EraseAction(a) == b
  {
  }

  lemma BumpOnce(s: State, who: Who)
    requires Inv(true, s) && Enabled(true, s, Main(who)) && Bumps(s, Main(who))
    ensures var r := Apply(true, s, Main(who));
      Enabled(true, r, Main(who)) && !Bumps(r, Main(who))
  {
  }

  // ---------- whole runs ----------

  /** The schedule of the ordinary form that a queued schedule amounts to. */
  ghost function EraseRun(s: State, acts: seq<Action>): seq<Action>
    requires CanRun(true, s, acts)
    decreases |acts|
  {
    if acts == [] then []
    else
      var first := if Bumps(s, acts[0]) then [] else [EraseAction(acts[0])];
      first + EraseRun(Apply(true, s, acts[0]), acts[1..])
  }

  lemma {:induction false} RunForward(s: State, acts: seq<Action>)
    requires Inv(true, s) && !s.alarmSent && CanRun(true, s, acts) && NoAlarm(acts)
    ensures CanRun(false, Erase(s), EraseRun(s, acts))
    ensures Run(false, Erase(s), EraseRun(s, acts)) == Erase(Run(true, s, acts))
    decreases |acts|
  {
    if acts != [] {
      var a := acts[0];
      StepInv(true, s, a);
      StepCounts(true, s, a);
      StepForward(s, a);
      var rest := EraseRun(Apply(true, s, a), acts[1..]);
      RunForward(Apply(true, s, a), acts[1..]);
      if Bumps(s, a) {
        assert EraseRun(s, acts) == rest;
      } else {
        assert EraseRun(s, acts) == [EraseAction(a)] + rest;
        assert EraseRun(s, acts)[1..] == rest;
      }
    }
  }

  lemma EraseRunCons(s: State, a: Action, rest: seq<Action>)
    requires Enabled(true, s, a) && CanRun(true, Apply(true, s, a), rest)
    ensures CanRun(true, s, [a] + rest)
    ensures EraseRun(s, [a] + rest)
      == (if Bumps(s, a) then [] else [EraseAction(a)]) + EraseRun(Apply(true, s, a), rest)
  {
    assert ([a] + rest)[1..] == rest;
  }

  lemma StepBackwardState(s: State, b: Action) returns (a: Action)
    requires Inv(true, s) && !s.alarmSent && b != Alarm && Enabled(false, Erase(s), b)
    ensures Enabled(true, s, a) && EraseAction(a) == b && a != Alarm && (Bumps(s, a) <==> Bumps(s, b))
    ensures var r := Apply(true, s, a);
      && Inv(true, r) && !r.alarmSent
      && if Bumps(s, a) then Erase(r) == Erase(s) && !Bumps(r, b) else Erase(r) == Apply(false, Erase(s), b)
  {
    StepBackward(s, b);
    a := if b.Deliver? then b.(sig := RTMIN) else b;
    StepInv(true, s, a);
    StepCounts(true, s, a);
    StepForward(s, a);
    if Bumps(s, a) { BumpOnce(s, a.who); }
  }

  lemma {:induction false} RunBackward(s: State, bs: seq<Action>) returns (acts: seq<Action>)
    requires Inv(true, s) && !s.alarmSent && CanRun(false, Erase(s), bs) && NoAlarm(bs)
    ensures CanRun(true, s, acts) && NoAlarm(acts) && EraseRun(s, acts) == bs
    decreases |bs|, if bs != [] && Bumps(s, bs[0]) then 1 else 0
  {
    if bs == [] {
      acts := [];
    } else {
      var a := StepBackwardState(s, bs[0]);
      var r := Apply(true, s, a);
      var rest := RunBackward(r, if Bumps(s, a) then bs else bs[1..]);
      EraseRunCons(s, a, rest);
      acts := [a] + rest;
    }
  }

  /** The two programs have the same pre-alarm histories, values apart: every schedule of
      the queued form is a schedule of the ordinary one once its value statements are
      dropped, ending in the same counters and the same positions, and every schedule of
      the ordinary form arises so. */
  lemma QueuedRefinesOrdinary(acts: seq<Action>)
    requires CanRun(true, Init(true), acts) && NoAlarm(acts)
    ensures var bs := EraseRun(Init(true), acts);
      CanRun(false, Init(false), bs) && Run(false, Init(false), bs) == Erase(Run(true, Init(true), acts))
  {
    InitInv(true);
    RunForward(Init(true), acts);
  }

  lemma OrdinaryRefinesQueued(bs: seq<Action>) returns (acts: seq<Action>)
    requires CanRun(false, Init(false), bs) && NoAlarm(bs)
    ensures CanRun(true, Init(true), acts) && NoAlarm(acts) && EraseRun(Init(true), acts) == bs
    ensures Run(false, Init(false), bs) == Erase(Run(true, Init(true), acts))
  {
    InitInv(true);
    acts := RunBackward(Init(true), bs);
    RunForward(Init(true), acts);
  }
}
