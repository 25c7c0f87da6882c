/** Signals sent without replies: to a child that counts them (sigs_sent_noswtch.c) and to
    a child that blocks them (sending_sigs.c). The parent's loop is the same. */
module OneWay {
  import opened SignalKernel

  datatype Variant = Counting | Blocking

  datatype Who = Parent | Child

  /** merged: sends that found SIGUSR1 already pending. */
  datatype State = State(parent: Proc, child: Proc, alarmSent: bool, merged: nat)

  function Init(v: Variant): State {
    var mask := if v == Blocking then {USR1} else {};
    State(Start(CallAlarm, mask), Start(Suspend, mask), false, 0)
  }

  /** The mask the child waits with: nothing, or everything but SIGUSR2. */
  function SuspendMask(v: Variant): set<Sig> {
    if v == Blocking then ALLSIGS - {USR2} else {}
  }

  function SaMask(sig: Sig): set<Sig> {
    if sig == USR2 then ALLSIGS else {}
  }

  datatype Action =
    | Main(who: Who)
    | Deliver(who: Who, sig: Sig)
    | Handler(who: Who)
    | Alarm

  function Get(s: State, who: Who): Proc {
    if who == Parent then s.parent else s.child
  }

  function Put(s: State, who: Who, p: Proc): State {
    if who == Parent then s.(parent := p) else s.(child := p)
  }

  predicate Enabled(s: State, a: Action) {
    match a
    case Main(who) => MainReady(Get(s, who))
    case Deliver(who, sig) => Deliverable(Get(s, who), sig)
    case Handler(who) => Get(s, who).alive && Get(s, who).frames != []
    case Alarm => s.parent.alive && s.parent.pc != CallAlarm && !s.alarmSent
  }

  /** be_the_parent: alarm, then kill and nsigs++ for ever. */
  function ParentStep(s: State): State {
    var p := s.parent;
    match p.pc
    case CallAlarm => s.(parent := p.(pc := Send))
    case Send =>
      s.(parent := p.(pc := Count), child := Post(s.child, USR1, 0),
         merged := s.merged + if s.child.alive && USR1 in s.child.bits then 1 else 0)
    case _ => s.(parent := p.(sent := p.sent + 1, pc := Send))
  }

  /** be_a_child: sigsuspend for ever. */
  function ChildStep(v: Variant, s: State): State {
    var c := s.child;
    s.(child := if c.wait.Woken? then Resume(c, Suspend) else SigSuspend(c, SuspendMask(v)))
  }

  /** In the counting form SIGUSR1 runs null_handler; in the blocking form panic_handler,
      which kills the parent with SIGALRM and exits. */
  function HandlerStep(v: Variant, s: State, who: Who): State
    requires Get(s, who).frames != []
  {
    var p := Get(s, who);
    var f := Top(p);
    if f.sig == USR1 && v == Counting then
      Put(s, who, if f.stage == 0 then Advance(p).(recv := p.recv + 1) else Leave(p))
    else if f.sig == USR1 && f.stage == 0 then
      Put(if who == Child then s.(parent := Post(s.parent, ALRM, 0)) else s, who, Advance(p))
    else if f.sig == ALRM && who == Parent && f.stage == 0 then
      s.(parent := Advance(p), child := Post(s.child, USR2, 0))
    else
      Put(s, who, Exit(p))
  }

  function Apply(v: Variant, s: State, a: Action): State
    requires Enabled(s, a)
  {
    match a
    case Main(who) => if who == Parent then ParentStep(s) else ChildStep(v, s)
    case Deliver(who, sig) => Put(s, who, Catch(Get(s, who), sig, SaMask(sig)))
    case Handler(who) => HandlerStep(v, s, who)
    case Alarm => s.(parent := Post(s.parent, ALRM, 0), alarmSent := true)
  }

  ghost predicate CanRun(v: Variant, s: State, acts: seq<Action>)
    decreases |acts|
  {
    acts == [] || (Enabled(s, acts[0]) && CanRun(v, Apply(v, s, acts[0]), acts[1..]))
  }

  ghost function Run(v: Variant, s: State, acts: seq<Action>): State
    requires CanRun(v, s, acts)
    decreases |acts|
  {
    if acts == [] then s else Run(v, Apply(v, s, acts[0]), acts[1..])
  }

  /** A scheduler's choices one after another, those that are not possible when their turn
      comes passed over. */
  ghost function Play(v: Variant, s: State, choices: seq<Action>): (r: State)
    decreases |choices|
  {
    if choices == [] then s
    else
      var before := Play(v, s, choices[..|choices| - 1]);
      var a := choices[|choices| - 1];
      if Enabled(before, a) then Apply(v, before, a) else before
  }

  // ---------- the invariant ----------

  /** Signals sent, whether or not nsigs has caught up. */
  function Kills(p: Proc): nat {
    p.sent + if p.pc == Count then 1 else 0
  }

  ghost predicate InUsr1(p: Proc) {
    p.frames != [] && p.frames[0].sig == USR1
  }

  /** SIGUSR1 handlers entered whose increment has still to come. */
  ghost function Uncounted(p: Proc): nat {
    if InUsr1(p) && p.frames[0].stage == 0 then 1 else 0
  }

  function PendingUsr1(p: Proc): nat {
    if USR1 in p.bits then 1 else 0
  }

  ghost predicate Ending(p: Proc) {
    p.frames != [] && Top(p).sig == USR2
  }

  ghost predicate ParentOk(s: State) {
    var p := s.parent;
    && p.wait.Running? && p.queue == [] && p.bits <= {ALRM}
    && (p.pc == CallAlarm || p.pc == Send || p.pc == Count)
    && (p.pc == CallAlarm ==> p.sent == 0)
    && |p.frames| <= 1 && (p.frames != [] ==> p.frames[0].sig == ALRM)
    && (p.frames == [] ==> ALRM !in p.mask)
    && (!s.alarmSent ==> p.alive && p.bits == {} && p.frames == [])
    && (s.alarmSent ==> p.pc != CallAlarm && (p.bits == {ALRM} || p.frames != []))
    && (!p.alive ==> p.frames != [] && p.frames[0].stage == 1)
    && (p.frames != [] ==> p.bits == {} && p.frames[0].stage <= 1)
  }

  ghost predicate ChildOk(v: Variant, s: State) {
    var c := s.child;
    && c.queue == [] && c.bits <= {USR1, USR2} && c.pc == Suspend
    && |c.frames| <= 2
    && (forall i | 0 <= i < |c.frames| :: c.frames[i].sig == USR1 || c.frames[i].sig == USR2)
    && (|c.frames| == 2 ==> InUsr1(c) && c.frames[1].sig == USR2)
    && (InUsr1(c) ==> v == Counting && c.frames[0].stage <= 1 && c.frames[0].saved == {})
    && (Ending(c) ==> c.mask == ALLSIGS)
    && (c.frames == [] ==> c.mask == if c.wait.Running? then (if v == Blocking then {USR1} else {}) else SuspendMask(v))
    && (c.frames != [] && !Ending(c) ==> c.mask == {USR1})
    && (!c.wait.Running? ==> c.wait.prior == if v == Blocking then {USR1} else {})
    && (USR2 in c.bits || Ending(c) || !c.alive ==> s.parent.frames != [] && (s.parent.frames[0].stage == 1))
    && (s.parent.frames != [] && s.parent.frames[0].stage == 1 ==> USR2 in c.bits || Ending(c) || !c.alive)
    && (v == Blocking ==> c.recv == 0 && !c.wait.Woken?)
  }

  /** Every signal sent is counted, entered but not yet counted, pending, or merged. */
  ghost predicate Conserved(s: State) {
    Kills(s.parent) == s.child.recv + Uncounted(s.child) + PendingUsr1(s.child) + s.merged
  }

  ghost predicate Inv(v: Variant, s: State) {
    ParentOk(s) && ChildOk(v, s) && Conserved(s)
    && (v == Blocking ==> USR1 in s.parent.mask)
    && (s.parent.pc == Send && s.parent.frames == [] && s.parent.alive ==> s.child.alive)
    && (Kills(s.parent) > 0 ==> s.child.recv + Uncounted(s.child) + PendingUsr1(s.child) > 0)
  }

  lemma InitInv(v: Variant)
    ensures Inv(v, Init(v))
  {
  }

  lemma ParentMainInv(v: Variant, s: State)
    requires Inv(v, s) && Enabled(s, Main(Parent))
    ensures Inv(v, ParentStep(s))
  {
  }

  lemma ChildMainInv(v: Variant, s: State)
    requires Inv(v, s) && Enabled(s, Main(Child))
    ensures Inv(v, ChildStep(v, s))
  {
  }

  lemma MainInv(v: Variant, s: State, who: Who)
    requires Inv(v, s) && Enabled(s, Main(who))
    ensures Inv(v, Apply(v, s, Main(who)))
  {
    if who == Parent { ParentMainInv(v, s); } else { ChildMainInv(v, s); }
  }

  lemma ParentDeliverInv(v: Variant, s: State, sig: Sig)
    requires Inv(v, s) && Enabled(s, Deliver(Parent, sig))
    ensures Inv(v, Apply(v, s, Deliver(Parent, sig)))
  {
  }

  lemma ChildDeliverInv(v: Variant, s: State, sig: Sig)
    requires Inv(v, s) && Enabled(s, Deliver(Child, sig))
    ensures Inv(v, Apply(v, s, Deliver(Child, sig)))
  {
  }

  lemma DeliverInv(v: Variant, s: State, who: Who, sig: Sig)
    requires Inv(v, s) && Enabled(s, Deliver(who, sig))
    ensures Inv(v, Apply(v, s, Deliver(who, sig)))
  {
    if who == Parent { ParentDeliverInv(v, s, sig); } else { ChildDeliverInv(v, s, sig); }
  }

  lemma ParentHandlerInv(v: Variant, s: State)
    requires Inv(v, s) && Enabled(s, Handler(Parent))
    ensures Inv(v, HandlerStep(v, s, Parent))
  {
  }

  lemma NullHandlerInv(v: Variant, s: State)
    requires Inv(v, s) && Enabled(s, Handler(Child)) && !Ending(s.child)
    ensures Inv(v, HandlerStep(v, s, Child))
  {
    assert |s.child.frames| == 1;
  }

  lemma ChildTerminateInv(v: Variant, s: State)
    requires Inv(v, s) && Enabled(s, Handler(Child)) && Ending(s.child)
    ensures Inv(v, HandlerStep(v, s, Child))
  {
  }

  lemma StepInv(v: Variant, s: State, a: Action)
    requires Inv(v, s) && Enabled(s, a)
    ensures Inv(v, Apply(v, s, a))
  {
    match a
    case Main(who) => MainInv(v, s, who);
    case Deliver(who, sig) => DeliverInv(v, s, who, sig);
    case Handler(who) => 
      if who == Parent { ParentHandlerInv(v, s); }
      else if Ending(s.child) { ChildTerminateInv(v, s); }
      else { NullHandlerInv(v, s); }
    case Alarm =>
  }

  lemma {:induction false} RunInv(v: Variant, s: State, acts: seq<Action>)
    requires Inv(v, s) && CanRun(v, s, acts)
    ensures Inv(v, Run(v, s, acts))
    decreases |acts|
  {
    if acts != [] {
      StepInv(v, s, acts[0]);
      RunInv(v, Apply(v, s, acts[0]), acts[1..]);
    }
  }

  // ---------- what it means ----------

  ghost predicate Reachable(v: Variant, s: State) {
    exists acts :: CanRun(v, Init(v), acts) && Run(v, Init(v), acts) == s
  }

  lemma ReachableInv(v: Variant, s: State)
    requires Reachable(v, s)
    ensures Inv(v, s)
  {
    var acts :| CanRun(v, Init(v), acts) && Run(v, Init(v), acts) == s;
    InitInv(v);
    RunInv(v, Init(v), acts);
  }

  /** Conservation: in every state each send is a handler increment, a handler entered
      but not counted, the pending bit, or a merged send. So the child never counts more
      than were sent, and counts something once a send has been dealt with. */
  lemma SendsAreConserved(v: Variant, s: State)
    requires Reachable(v, s)
    ensures Kills(s.parent) == s.child.recv + Uncounted(s.child) + PendingUsr1(s.child) + s.merged
    ensures s.child.recv <= s.parent.sent + 1
    ensures v == Counting && Kills(s.parent) > 0 && Uncounted(s.child) == 0 && PendingUsr1(s.child) == 0 ==>
      1 <= s.child.recv
  {
    ReachableInv(v, s);
  }

  lemma BlockedFacts(s: State)
    requires Inv(Blocking, s)
    ensures !InUsr1(s.child) && !s.child.wait.Woken? && s.child.recv == 0
    ensures forall who :: USR1 in Get(s, who).mask
    ensures s.merged == if Kills(s.parent) == 0 then 0 else Kills(s.parent) - 1
    ensures forall who, i | 0 <= i < |Get(s, who).frames| :: Get(s, who).frames[i].sig != USR1
  {
  }

  /** SIGUSR1, blocked before fork and in sigsuspend, stays blocked in both processes:
      panic_handler never runs in either, the child sleeps with everything but SIGUSR2
      blocked, and every send after the first is merged into the one pending bit. */
  lemma BlockedSignalNeverHandled(s: State)
    requires Reachable(Blocking, s)
    ensures forall who :: USR1 in Get(s, who).mask
    ensures forall who, i | 0 <= i < |Get(s, who).frames| :: Get(s, who).frames[i].sig != USR1
    ensures !s.child.wait.Woken? && s.child.recv == 0
    ensures s.child.wait.Waiting? && s.child.frames == [] ==> forall sig :: sig !in s.child.mask <==> sig == USR2
    ensures s.merged == if Kills(s.parent) == 0 then 0 else Kills(s.parent) - 1
  {
    ReachableInv(Blocking, s);
    BlockedFacts(s);
  }

  /** Handlers nest at most two deep, and only child_terminate interrupts null_handler. */
  lemma HandlerDepth(v: Variant, s: State)
    requires Reachable(v, s)
    ensures |s.parent.frames| <= 1
    ensures |s.child.frames| <= if v == Counting then 2 else 1
    ensures |s.child.frames| == 2 ==> s.child.frames[0].sig == USR1 && s.child.frames[1].sig == USR2
  {
    ReachableInv(v, s);
  }

  // ---------- progress ----------

  ghost predicate NoAlarm(acts: seq<Action>) {
    Alarm !in acts
  }

  /** Statements the parent has executed, read off its position. */
  function ParentTaken(p: Proc): nat {
    if p.pc == CallAlarm then 0 else 1 + 2 * p.sent + if p.pc == Count then 1 else 0
  }

  lemma StepTaken(v: Variant, s: State, a: Action)
    requires Inv(v, s) && !s.alarmSent && a != Alarm && Enabled(s, a)
    ensures ParentTaken(Apply(v, s, a).parent) == ParentTaken(s.parent) + (if a == Main(Parent) then 1 else 0)
    ensures !Apply(v, s, a).alarmSent
  {
  }

  lemma {:induction false} RunTaken(v: Variant, s: State, acts: seq<Action>)
    requires Inv(v, s) && !s.alarmSent && CanRun(v, s, acts) && NoAlarm(acts)
    ensures var r := Run(v, s, acts);
      Inv(v, r) && !r.alarmSent && ParentTaken(r.parent) == ParentTaken(s.parent) + multiset(acts)[Main(Parent)]
    decreases |acts|
  {
    if acts != [] {
      StepInv(v, s, acts[0]);
      StepTaken(v, s, acts[0]);
      RunTaken(v, Apply(v, s, acts[0]), acts[1..]);
      assert acts == [acts[0]] + acts[1..];
    }
  }

  lemma ParentPlace(v: Variant, s: State)
    requires Inv(v, s) && !s.alarmSent
    ensures var n := ParentTaken(s.parent);
      Enabled(s, Main(Parent)) && s.parent.sent == (if n == 0 then 0 else (n - 1) / 2) && (n > 0 ==> s.parent.pc != CallAlarm)
  {
  }

  lemma TimedFromStart(v: Variant, s: State, acts: seq<Action>)
    requires Inv(v, s) && !s.alarmSent && s.parent.pc == CallAlarm && CanRun(v, s, acts) && NoAlarm(acts)
    ensures var r := Run(v, s, acts);
      var n := multiset(acts)[Main(Parent)];
      Enabled(r, Main(Parent)) && r.parent.sent == (if n == 0 then 0 else (n - 1) / 2) && (n > 0 ==> r.parent.pc != CallAlarm)
  {
    RunTaken(v, s, acts);
    ParentPlace(v, Run(v, s, acts));
  }

  /** The parent is never blocked before the alarm, and its count is known from the number
      of its own statements, whatever the child does: one to start, two for each signal. */
  lemma ParentIsTimed(v: Variant, acts: seq<Action>)
    requires CanRun(v, Init(v), acts) && NoAlarm(acts)
    ensures var s := Run(v, Init(v), acts);
      var n := multiset(acts)[Main(Parent)];
      Enabled(s, Main(Parent)) && s.parent.sent == (if n == 0 then 0 else (n - 1) / 2) && (n > 0 ==> s.parent.pc != CallAlarm)
  {
    InitInv(v);
    TimedFromStart(v, Init(v), acts);
  }

  /** sigsuspend, delivery, count, return from the handler, return from sigsuspend. */
  const CHILDLAP := [Main(Child)] + (HANDLEONE + [Main(Child)])

  /** A child about to sleep with a signal pending can go once round its loop, and is then
      exactly as before, its mask included, but for the signal and the count. */
  lemma ChildLap(s: State)
    requires Inv(Counting, s) && MainReady(s.child) && s.child.wait.Running? && USR1 in s.child.bits
    ensures CanRun(Counting, s, CHILDLAP)
    ensures Run(Counting, s, CHILDLAP)
      == s.(child := s.child.(bits := s.child.bits - {USR1}, recv := s.child.recv + 1))
  {
    var c := s.child;
    var c1 := c.(mask := {}, wait := Waiting({}));
    var s1 := s.(child := c1);
    assert Enabled(s, Main(Child)) && Apply(Counting, s, Main(Child)) == s1;
    var c2 := c1.(bits := c.bits - {USR1}, recv := c.recv + 1, wait := Woken({}));
    assert CanRun(Counting, s1, HANDLEONE) && Run(Counting, s1, HANDLEONE) == s.(child := c2) by {
      HandleRuns(s1);
    }
    SleepReturns(s.(child := c2));
    Surround(s, Main(Child), HANDLEONE, Main(Child), s1, s.(child := c2), s.(child := c2.(wait := Running)));
  }

  /** sigsuspend returns to be_a_child with the mask it had. */
  lemma SleepReturns(s: State)
    requires MainReady(s.child) && s.child.wait == Woken({}) && s.child.mask == {} && s.child.pc == Suspend
    ensures Enabled(s, Main(Child)) && Apply(Counting, s, Main(Child)) == s.(child := s.child.(wait := Running))
  {
  }

  lemma Surround(s: State, a: Action, mid: seq<Action>, b: Action, s1: State, s2: State, s3: State)
    requires Enabled(s, a) && s1 == Apply(Counting, s, a)
    requires CanRun(Counting, s1, mid) && s2 == Run(Counting, s1, mid)
    requires Enabled(s2, b) && s3 == Apply(Counting, s2, b)
    ensures CanRun(Counting, s, [a] + (mid + [b])) && Run(Counting, s, [a] + (mid + [b])) == s3
  {
    RunOne(Counting, s2, b);
    RunAppend(Counting, s1, mid, [b]);
    assert ([a] + (mid + [b]))[1..] == mid + [b];
  }

  // ---------- how many can be merged ----------

  /** n sends counted, m of them handled, nothing pending, the child not in a handler. */
  ghost predicate Settled(s: State, n: nat, m: nat) {
    && s.parent.pc == Send && s.parent.sent == n && MainReady(s.parent)
    && s.child.frames == [] && USR1 !in s.child.bits && s.child.recv == m
    && s.child.alive && USR1 !in s.child.mask
  }

  const SENDONE := [Main(Parent), Main(Parent)]
  const HANDLEONE := [Deliver(Child, USR1), Handler(Child), Handler(Child)]

  lemma {:induction false} RunAppend(v: Variant, s: State, a: seq<Action>, b: seq<Action>)
    requires CanRun(v, s, a) && CanRun(v, Run(v, s, a), b)
    ensures CanRun(v, s, a + b) && Run(v, s, a + b) == Run(v, Run(v, s, a), b)
    decreases |a|
  {
    if a == [] {
      assert a + b == b;
    } else {
      RunAppend(v, Apply(v, s, a[0]), a[1..], b);
      assert (a + b)[1..] == a[1..] + b;
    }
  }

  lemma RunOne(v: Variant, s: State, a: Action)
    requires Enabled(s, a)
    ensures CanRun(v, s, [a]) && Run(v, s, [a]) == Apply(v, s, a)
  {
    assert [a][1..] == [];
  }

  /** A run of the invariant, extended by one action. */
  lemma RunSnoc(v: Variant, acts: seq<Action>, a: Action)
    requires CanRun(v, Init(v), acts) && Enabled(Run(v, Init(v), acts), a)
    ensures CanRun(v, Init(v), acts + [a])
    ensures Run(v, Init(v), acts + [a]) == Apply(v, Run(v, Init(v), acts), a)
  {
    RunOne(v, Run(v, Init(v), acts), a);
    RunAppend(v, Init(v), acts, [a]);
  }

  /** One more send, merged if the last is still pending. */
  lemma SendRuns(v: Variant, s: State)
    requires MainReady(s.parent) && s.parent.pc == Send && s.parent.wait.Running?
    ensures CanRun(v, s, SENDONE)
    ensures var r := Run(v, s, SENDONE);
      && MainReady(r.parent) && r.parent.pc == Send && r.parent.wait.Running? && r.parent.sent == s.parent.sent + 1
      && r.child == Post(s.child, USR1, 0)
      && r.merged == s.merged + if s.child.alive && USR1 in s.child.bits then 1 else 0
  {
    var s1 := Apply(v, s, Main(Parent));
    RunOne(v, s, Main(Parent));
    RunOne(v, s1, Main(Parent));
    RunAppend(v, s, [Main(Parent)], [Main(Parent)]);
    assert SENDONE == [Main(Parent)] + [Main(Parent)];
  }

  lemma {:induction false} SendMany(v: Variant, s: State, n: nat) returns (acts: seq<Action>)
    requires MainReady(s.parent) && s.parent.pc == Send && s.parent.wait.Running? && s.child.alive
    ensures CanRun(v, s, acts)
    ensures var r := Run(v, s, acts);
      && MainReady(r.parent) && r.parent.pc == Send && r.parent.wait.Running? && r.parent.sent == s.parent.sent + n
      && r.child == (if n == 0 then s.child else Post(s.child, USR1, 0))
      && r.merged == s.merged + (if n == 0 then 0 else if USR1 in s.child.bits then n else n - 1)
    decreases n
  {
    if n == 0 {
      acts := [];
    } else {
      var before := SendMany(v, s, n - 1);
      SendRuns(v, Run(v, s, before));
      RunAppend(v, s, before, SENDONE);
      acts := before + SENDONE;
      assert Post(Post(s.child, USR1, 0), USR1, 0) == Post(s.child, USR1, 0);
    }
  }

  lemma RunThree(v: Variant, s: State, a: Action, b: Action, c: Action, s1: State, s2: State, s3: State)
    requires Enabled(s, a) && s1 == Apply(v, s, a)
    requires Enabled(s1, b) && s2 == Apply(v, s1, b)
    requires Enabled(s2, c) && s3 == Apply(v, s2, c)
    ensures CanRun(v, s, [a, b, c]) && Run(v, s, [a, b, c]) == s3
  {
    assert [a, b, c][1..] == [b, c] && [b, c][1..] == [c];
    RunOne(v, s2, c);
    assert CanRun(v, s1, [b, c]) && Run(v, s1, [b, c]) == s3;
  }

  lemma CatchesUsr1(s: State, c: Proc, m: set<Sig>)
    requires s.child == c && c.frames == [] && Pending(c, USR1) && m == c.mask + {} + {USR1}
    ensures Put(s, Child, Catch(c, USR1, SaMask(USR1)))
      == s.(child := c.(frames := [Frame(USR1, 0, c.mask)], mask := m, bits := c.bits - {USR1}))
  {
  }

  lemma CountsUsr1(s: State, c: Proc, saved: set<Sig>)
    requires s.child == c && c.frames == [Frame(USR1, 0, saved)]
    ensures HandlerStep(Counting, s, Child)
      == s.(child := c.(frames := [Frame(USR1, 1, saved)], recv := c.recv + 1))
  {
  }

  lemma ReturnsFromUsr1(s: State, c: Proc, saved: set<Sig>)
    requires s.child == c && c.frames == [Frame(USR1, 1, saved)]
    ensures HandlerStep(Counting, s, Child)
      == s.(child := c.(frames := [], mask := saved,
                        wait := if c.wait.Waiting? then Woken(c.wait.prior) else c.wait))
  {
  }

  lemma HandleRuns(s: State)
    requires Deliverable(s.child, USR1) && s.child.frames == []
    ensures CanRun(Counting, s, HANDLEONE)
    ensures Run(Counting, s, HANDLEONE)
      == s.(child := s.child.(bits := s.child.bits - {USR1}, recv := s.child.recv + 1,
                              wait := if s.child.wait.Waiting? then Woken(s.child.wait.prior) else s.child.wait))
  {
    var c := s.child;
    var m := c.mask + {} + {USR1};
    var c1 := c.(frames := [Frame(USR1, 0, c.mask)], mask := m, bits := c.bits - {USR1});
    var c2 := c1.(frames := [Frame(USR1, 1, c.mask)], recv := c.recv + 1);
    var c3 := c2.(frames := [], mask := c.mask, wait := if c.wait.Waiting? then Woken(c.wait.prior) else c.wait);
    CatchesUsr1(s, c, m);
    CountsUsr1(s.(child := c1), c1, c.mask);
    ReturnsFromUsr1(s.(child := c2), c2, c.mask);
    RunThree(Counting, s, Deliver(Child, USR1), Handler(Child), Handler(Child),
             s.(child := c1), s.(child := c2), s.(child := c3));
  }

  /** A burst of k >= 1 sends handled once. */
  lemma Burst(s: State, n: nat, m: nat, k: nat) returns (acts: seq<Action>)
    requires Settled(s, n, m) && s.parent.wait.Running? && k >= 1
    ensures CanRun(Counting, s, acts)
    ensures var r := Run(Counting, s, acts); Settled(r, n + k, m + 1) && r.parent.wait.Running?
  {
    var sends := SendMany(Counting, s, k);
    var s1 := Run(Counting, s, sends);
    HandleRuns(s1);
    RunAppend(Counting, s, sends, HANDLEONE);
    acts := sends + HANDLEONE;
  }

  lemma {:induction false} Bursts(n: nat, m: nat) returns (acts: seq<Action>)
    requires 1 <= m <= n
    ensures CanRun(Counting, Init(Counting), acts)
    ensures var r := Run(Counting, Init(Counting), acts); Settled(r, n, m) && r.parent.wait.Running?
    decreases m
  {
    var s0 := Init(Counting);
    if m == 1 {
      RunOne(Counting, s0, Main(Parent));
      var s1 := Run(Counting, s0, [Main(Parent)]);
      var rest := Burst(s1, 0, 0, n);
      RunAppend(Counting, s0, [Main(Parent)], rest);
      acts := [Main(Parent)] + rest;
    } else {
      var before := Bursts(n - 1, m - 1);
      var rest := Burst(Run(Counting, s0, before), n - 1, m - 1, 1);
      RunAppend(Counting, s0, before, rest);
      acts := before + rest;
    }
  }

  /** How badly the count can be off: after n sends have all been dealt with the child can
      have counted m exactly when m is between 1 and n. */
  lemma CountsPossible(n: nat, m: nat)
    requires n > 0
    ensures (exists s :: Reachable(Counting, s) && Settled(s, n, m)) <==> 1 <= m <= n
  {
    if 1 <= m <= n {
      var acts := Bursts(n, m);
      assert Reachable(Counting, Run(Counting, Init(Counting), acts));
    }
    forall s | Reachable(Counting, s) && Settled(s, n, m) ensures 1 <= m <= n {
      ReachableInv(Counting, s);
    }
  }
}
