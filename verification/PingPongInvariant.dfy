/** What every step of both ping-pongs keeps, before and after the alarm. */
module PingPongInvariant {
  import opened SignalKernel
  import opened PingPong

  /** The signal that ends each process's experiment. */
  function Last(who: Who): Sig {
    if who == Parent then ALRM else USR2
  }

  ghost predicate InPing(queued: bool, p: Proc) {
    p.frames != [] && p.frames[0].sig == Ping(queued)
  }

  ghost predicate InLast(p: Proc, who: Who) {
    p.frames != [] && Top(p).sig == Last(who)
  }

  /** Signals sent, whether or not nsigs_sent has caught up. */
  function Kills(p: Proc): nat {
    p.sent + if p.wait.Running? && p.pc == Count then 1 else 0
  }

  /** Signals delivered, whether or not nsigs_recv has caught up. */
  ghost function Deliveries(queued: bool, p: Proc): nat {
    p.recv + if InPing(queued, p) && p.frames[0].stage == 0 then 1 else 0
  }

  function InBox(queued: bool, p: Proc): nat {
    if queued then |p.queue| else if USR1 in p.bits then 1 else 0
  }

  /** The process has the token: it is handling the ping or on its way to send the next. */
  ghost predicate Holds(queued: bool, p: Proc, who: Who) {
    || InPing(queued, p) || p.wait.Woken?
    || (p.wait.Running? && (p.pc == Send || p.pc == CallAlarm || (who == Parent && p.pc == Bump)))
  }

  function HandlerMask(queued: bool, sig: Sig): set<Sig> {
    if queued && sig == RTMIN then {RTMIN} else ALLSIGS
  }

  ghost predicate FramesOk(queued: bool, p: Proc, who: Who) {
    && |p.frames| <= 2
    && (forall i | 0 <= i < |p.frames| :: p.frames[i].sig == Ping(queued) || p.frames[i].sig == Last(who))
    && (|p.frames| == 2 ==> queued && InPing(queued, p) && p.frames[1].sig == Last(who))
    && (InPing(queued, p) ==> p.wait.Waiting? && p.frames[0].saved == {} && p.frames[0].stage <= 1)
    && p.mask == (if p.frames != [] then HandlerMask(queued, Top(p).sig)
                  else if p.wait.Running? then {Ping(queued)} else {})
  }

  ghost predicate PcOk(queued: bool, p: Proc, who: Who) {
    && (!p.wait.Running? ==> p.pc == Suspend && p.wait.prior == {Ping(queued)})
    && (who == Child ==> p.pc != CallAlarm)
    && (p.pc == Bump ==> queued && p.sent > 0)
    && (p.pc == CallAlarm ==> p.sent == 0)
    && (p.wait.Woken? || (InPing(queued, p) && p.frames[0].stage == 1) || (who == Parent && p.pc == Bump) ==>
          p.recv > 0)
  }

  /** The signals that can be pending. */
  ghost predicate BoxOk(queued: bool, p: Proc, who: Who) {
    && p.bits <= {Ping(queued), Last(who)} - {RTMIN}
    && (!queued ==> p.queue == [])
  }

  /** Values go out in order: 0, 1, 2, ... */
  ghost predicate ValuesOk(queued: bool, p: Proc, who: Who) {
    && p.val == (if !queued then 0
                 else if who == Parent then
                   if p.wait.Running? && (p.pc == CallAlarm || p.pc == Send) then Kills(p) else Kills(p) - 1
                 else if p.wait.Running? && (p.pc == Count || p.pc == Bump) then Kills(p) - 1 else Kills(p))
    && (queued ==> |p.got| == Deliveries(queued, p))
    && (forall i | 0 <= i < |p.got| :: p.got[i] == i)
    && (forall i | 0 <= i < |p.queue| :: p.queue[i] == |p.got| + i)
  }

  ghost predicate BalanceOk(queued: bool, p: Proc, who: Who) {
    if who == Parent then Kills(p) == Deliveries(queued, p) + if Holds(queued, p, who) then 0 else 1
    else Deliveries(queued, p) == Kills(p) + if Holds(queued, p, who) then 1 else 0
  }

  ghost predicate ProcOk(queued: bool, p: Proc, who: Who) {
    FramesOk(queued, p, who) && PcOk(queued, p, who) && BoxOk(queued, p, who)
    && ValuesOk(queued, p, who) && BalanceOk(queued, p, who)
  }

  /** Nothing sent is lost or duplicated on the way. */
  ghost predicate WireOk(queued: bool, s: State) {
    && Kills(s.parent) == Deliveries(queued, s.child) + InBox(queued, s.child)
    && (s.parent.alive ==> Kills(s.child) == Deliveries(queued, s.parent) + InBox(queued, s.parent))
    && (!s.parent.alive ==> Kills(s.child) >= Deliveries(queued, s.parent))
  }

  /** How far the end of the experiment has got. */
  ghost predicate EndOk(s: State) {
    && (ALRM in s.parent.bits || InLast(s.parent, Parent) || !s.parent.alive ==> s.alarmSent)
    && (s.alarmSent && s.parent.alive ==> ALRM in s.parent.bits || InLast(s.parent, Parent))
    && (s.alarmSent ==> s.parent.pc != CallAlarm)
    && (InLast(s.parent, Parent) ==> Top(s.parent).stage <= 1 && ALRM !in s.parent.bits)
    && (InLast(s.parent, Parent) && Top(s.parent).stage == 0 && s.parent.alive ==>
          s.child.alive && USR2 !in s.child.bits && !InLast(s.child, Child))
    && (USR2 in s.child.bits || InLast(s.child, Child) || !s.child.alive ==>
          !s.parent.alive || (InLast(s.parent, Parent) && Top(s.parent).stage == 1))
    && (!s.parent.alive || (InLast(s.parent, Parent) && Top(s.parent).stage == 1) ==>
          USR2 in s.child.bits || InLast(s.child, Child) || !s.child.alive)
    && (!s.parent.alive ==> InLast(s.parent, Parent))
    && (InLast(s.child, Child) ==> Top(s.child).stage == 0)
  }

  ghost predicate Inv(queued: bool, s: State) {
    ProcOk(queued, s.parent, Parent) && ProcOk(queued, s.child, Child) && WireOk(queued, s) && EndOk(s)
  }

  lemma InitInv(queued: bool)
    ensures Inv(queued, Init(queued))
  {
  }

  // ---------- one process at a time ----------

  /** p and q agree in everything the rest of the system can see of the ping. */
  ghost predicate SameTally(queued: bool, p: Proc, q: Proc) {
    Kills(q) == Kills(p) && Deliveries(queued, q) == Deliveries(queued, p) && InBox(queued, q) == InBox(queued, p)
  }

  /** What one statement of its loop does to a process, as far as the peer can tell. */
  ghost predicate MainSelfEffect(queued: bool, p: Proc, q: Proc, who: Who) {
    && ProcOk(queued, q, who)
    && q.frames == p.frames && q.bits == p.bits && q.alive == p.alive
    && Deliveries(queued, q) == Deliveries(queued, p) && InBox(queued, q) == InBox(queued, p)
    && Kills(q) == Kills(p) + (if Sends(p) then 1 else 0)
    && (who == Parent ==> q.pc != CallAlarm)
  }

  lemma LoopSelfOk(queued: bool, p: Proc, who: Who)
    requires ProcOk(queued, p, who) && MainReady(p) && p.wait.Running? && p.pc != Suspend
    ensures MainSelfEffect(queued, p, MainSelf(queued, p, who), who)
  {
  }

  lemma SuspendSelfOk(queued: bool, p: Proc, who: Who)
    requires ProcOk(queued, p, who) && MainReady(p) && p.wait.Running? && p.pc == Suspend
    ensures MainSelfEffect(queued, p, MainSelf(queued, p, who), who)
  {
  }

  lemma ResumeSelfOk(queued: bool, p: Proc, who: Who)
    requires ProcOk(queued, p, who) && MainReady(p) && p.wait.Woken?
    ensures MainSelfEffect(queued, p, MainSelf(queued, p, who), who)
  {
  }

  lemma MainSelfOk(queued: bool, p: Proc, who: Who)
    requires ProcOk(queued, p, who) && MainReady(p)
    ensures MainSelfEffect(queued, p, MainSelf(queued, p, who), who)
  {
    if p.wait.Woken? { ResumeSelfOk(queued, p, who); }
    else if p.pc == Suspend { SuspendSelfOk(queued, p, who); }
    else { LoopSelfOk(queued, p, who); }
  }

  lemma CountingSelfOk(queued: bool, p: Proc, who: Who)
    requires ProcOk(queued, p, who) && p.alive && p.frames != [] && Top(p).sig == Ping(queued)
    ensures var q := HandlerSelf(queued, p, who);
      && ProcOk(queued, q, who) && SameTally(queued, p, q) && q.bits == p.bits && q.pc == p.pc
      && q.alive && !InLast(q, who)
  {
    assert |p.frames| == 1;
  }

  lemma LastSelfOk(queued: bool, p: Proc, who: Who)
    requires ProcOk(queued, p, who) && p.alive && InLast(p, who) && Top(p).stage <= 1
    ensures var q := HandlerSelf(queued, p, who);
      && ProcOk(queued, q, who) && SameTally(queued, p, q) && q.bits == p.bits && q.pc == p.pc
      && InLast(q, who) && (if Terminates(p, who) then q.alive && Top(q).stage == 1 else !q.alive)
  {
  }

  lemma HandlerSelfOk(queued: bool, p: Proc, who: Who)
    requires ProcOk(queued, p, who) && p.alive && p.frames != []
    requires InLast(p, who) ==> Top(p).stage <= 1
    ensures var q := HandlerSelf(queued, p, who);
      && ProcOk(queued, q, who) && SameTally(queued, p, q) && q.bits == p.bits && q.pc == p.pc
      && (if InLast(p, who) then
            InLast(q, who) && (if Terminates(p, who) then q.alive && Top(q).stage == 1 else !q.alive)
          else q.alive && !InLast(q, who))
  {
    if InLast(p, who) { LastSelfOk(queued, p, who); } else { CountingSelfOk(queued, p, who); }
  }

  /** A ping that finds the box empty, or a value that continues the sequence. */
  lemma PostOk(queued: bool, p: Proc, who: Who, v: int)
    requires ProcOk(queued, p, who)
    requires p.alive ==> if queued then v == |p.got| + |p.queue| else InBox(queued, p) == 0
    ensures var q := Post(p, Ping(queued), v);
      && ProcOk(queued, q, who)
      && q.frames == p.frames && q.bits - {USR1} == p.bits - {USR1} && q.alive == p.alive && q.pc == p.pc
      && Kills(q) == Kills(p) && Deliveries(queued, q) == Deliveries(queued, p)
      && InBox(queued, q) == InBox(queued, p) + (if p.alive then 1 else 0)
  {
  }

  lemma CatchPingOk(queued: bool, p: Proc, who: Who)
    requires ProcOk(queued, p, who) && Deliverable(p, Ping(queued)) && !Holds(queued, p, who)
    ensures var q := Catch(p, Ping(queued), SaMask(queued, Ping(queued)));
      && ProcOk(queued, q, who) && !InLast(q, who) && !InLast(p, who)
      && q.bits - {USR1} == p.bits - {USR1} && q.alive && q.pc == p.pc
      && Kills(q) == Kills(p) && Deliveries(queued, q) == Deliveries(queued, p) + 1
      && InBox(queued, q) == InBox(queued, p) - 1
  {
  }

  lemma CatchLastOk(queued: bool, p: Proc, who: Who)
    requires ProcOk(queued, p, who) && Deliverable(p, Last(who))
    ensures var q := Catch(p, Last(who), SaMask(queued, Last(who)));
      && ProcOk(queued, q, who) && SameTally(queued, p, q)
      && InLast(q, who) && !InLast(p, who) && Top(q).stage == 0
      && q.bits == p.bits - {Last(who)} && q.alive && q.pc == p.pc
  {
  }

  // ---------- the two together ----------

  /** A process about to send finds its peer's box empty, and its value is the next in
      the peer's sequence. */
  lemma SendFindsRoom(queued: bool, s: State, who: Who)
    requires Inv(queued, s) && Enabled(queued, s, Main(who)) && Sends(Get(s, who)) && Get(s, Other(who)).alive
    ensures var p := Get(s, Other(who));
      InBox(queued, p) == 0 && (queued ==> Get(s, who).val == |p.got| + |p.queue|)
  {
  }

  lemma ParentSendInv(queued: bool, s: State)
    requires Inv(queued, s) && Enabled(queued, s, Main(Parent)) && Sends(s.parent)
    ensures Inv(queued, MainStep(queued, s, Parent))
  {
    MainSelfOk(queued, s.parent, Parent);
    if s.child.alive { SendFindsRoom(queued, s, Parent); }
    PostOk(queued, s.child, Child, s.parent.val);
  }

  lemma ChildSendInv(queued: bool, s: State)
    requires Inv(queued, s) && Enabled(queued, s, Main(Child)) && Sends(s.child)
    ensures Inv(queued, MainStep(queued, s, Child))
  {
    MainSelfOk(queued, s.child, Child);
    if s.parent.alive { SendFindsRoom(queued, s, Child); }
    PostOk(queued, s.parent, Parent, s.child.val);
  }

  lemma MainInv(queued: bool, s: State, who: Who)
    requires Inv(queued, s) && Enabled(queued, s, Main(who))
    ensures Inv(queued, MainStep(queued, s, who))
  {
    if !Sends(Get(s, who)) { MainSelfOk(queued, Get(s, who), who); }
    else if who == Parent { ParentSendInv(queued, s); }
    else { ChildSendInv(queued, s); }
  }

  lemma PostLastOk(queued: bool, p: Proc, who: Who)
    requires ProcOk(queued, p, who) && p.alive && !InLast(p, who)
    ensures var q := Post(p, Last(who), 0);
      && ProcOk(queued, q, who) && SameTally(queued, p, q)
      && q.frames == p.frames && q.alive && q.pc == p.pc && q.bits == p.bits + {Last(who)}
  {
  }

  /** A handler statement that touches only its own process. */
  lemma HandlerAloneInv(queued: bool, s: State, who: Who)
    requires Inv(queued, s) && Enabled(queued, s, Handler(who)) && !Terminates(Get(s, who), who)
    ensures Inv(queued, HandlerStep(queued, s, who))
  {
    HandlerSelfOk(queued, Get(s, who), who);
    if who == Parent {
      assert HandlerStep(queued, s, who).child == s.child;
    } else {
      assert HandlerStep(queued, s, who).parent == s.parent;
    }
  }

  lemma AlarmHandlerInv(queued: bool, s: State)
    requires Inv(queued, s) && Enabled(queued, s, Handler(Parent)) && Terminates(s.parent, Parent)
    ensures Inv(queued, HandlerStep(queued, s, Parent))
  {
    HandlerSelfOk(queued, s.parent, Parent);
    PostLastOk(queued, s.child, Child);
  }

  lemma HandlerInv(queued: bool, s: State, who: Who)
    requires Inv(queued, s) && Enabled(queued, s, Handler(who))
    ensures Inv(queued, HandlerStep(queued, s, who))
  {
    if Terminates(Get(s, who), who) { AlarmHandlerInv(queued, s); } else { HandlerAloneInv(queued, s, who); }
  }

  lemma DeliverInv(queued: bool, s: State, who: Who, sig: Sig)
    requires Inv(queued, s) && Enabled(queued, s, Deliver(who, sig))
    ensures Inv(queued, Apply(queued, s, Deliver(who, sig)))
  {
    var p := Get(s, who);
    assert sig == Ping(queued) || sig == Last(who);
    if sig == Ping(queued) {
      CatchPingOk(queued, p, who);
    } else {
      CatchLastOk(queued, p, who);
    }
  }

  lemma PostAlarmOk(queued: bool, p: Proc)
    requires ProcOk(queued, p, Parent)
    ensures var q := Post(p, ALRM, 0); ProcOk(queued, q, Parent) && SameTally(queued, p, q)
  {
  }

  lemma AlarmInv(queued: bool, s: State)
    requires Inv(queued, s) && Enabled(queued, s, Alarm)
    ensures Inv(queued, Apply(queued, s, Alarm))
  {
    PostAlarmOk(queued, s.parent);
  }

  lemma KillFailsInv(queued: bool, s: State)
    requires Inv(queued, s) && Enabled(queued, s, KillFails)
    ensures Inv(queued, Apply(queued, s, KillFails))
  {
  }

  lemma StepInv(queued: bool, s: State, a: Action)
    requires Inv(queued, s) && Enabled(queued, s, a)
    ensures Inv(queued, Apply(queued, s, a))
  {
    match a
    case Main(who) => MainInv(queued, s, who);
    case Deliver(who, sig) => DeliverInv(queued, s, who, sig);
    case Handler(who) => HandlerInv(queued, s, who);
    case Alarm => AlarmInv(queued, s);
    case KillFails => KillFailsInv(queued, s);
  }

  lemma {:induction false} RunInv(queued: bool, s: State, acts: seq<Action>)
    requires Inv(queued, s) && CanRun(queued, s, acts)
    ensures Inv(queued, Run(queued, s, acts))
    decreases |acts|
  {
    if acts != [] {
      StepInv(queued, s, acts[0]);
      RunInv(queued, Apply(queued, s, acts[0]), acts[1..]);
    }
  }
}
