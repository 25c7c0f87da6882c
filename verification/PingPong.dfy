/** The signal ping-pong (sigs_sent_swtch.c) and its queued form (sigs_sent_swtch.p4.c)
    as one step machine over the signal kernel. */
module PingPong {
  import opened SignalKernel

  datatype Who = Parent | Child

  /** alarmSent: the kernel has generated SIGALRM for the parent. */
  datatype State = State(parent: Proc, child: Proc, alarmSent: bool)

  /** The signal that goes back and forth; queued is the SIGRTMIN form. */
  function Ping(queued: bool): Sig {
    if queued then RTMIN else USR1
  }

  /** sa_mask: full everywhere but in the queued form's counting handler. */
  function SaMask(queued: bool, sig: Sig): set<Sig> {
    if queued && sig == RTMIN then {} else ALLSIGS
  }

  /** Just after fork: the ping signal is blocked in both processes. */
  function Init(queued: bool): State {
    State(Start(CallAlarm, {Ping(queued)}), Start(Suspend, {Ping(queued)}), false)
  }

  datatype Action =
    | Main(who: Who)                // a statement of be_the_parent or be_a_child
    | Deliver(who: Who, sig: Sig)
    | Handler(who: Who)             // a statement of the running handler, or its return
    | Alarm                         // the minute is over
    | KillFails                     // the child's kill finds no parent and the child exits

  function Get(s: State, who: Who): Proc {
    if who == Parent then s.parent else s.child
  }

  function Put(s: State, who: Who, p: Proc): State {
    if who == Parent then s.(parent := p) else s.(child := p)
  }

  function Other(who: Who): Who {
    if who == Parent then Child else Parent
  }

  predicate Enabled(queued: bool, s: State, a: Action) {
    match a
    case Main(who) => MainReady(Get(s, who))
    case Deliver(who, sig) => Deliverable(Get(s, who), sig)
    case Handler(who) => Get(s, who).alive && Get(s, who).frames != []
    case Alarm => s.parent.alive && s.parent.pc != CallAlarm && !s.alarmSent
    case KillFails => MainReady(s.child) && s.child.wait.Running? && s.child.pc == Send && !s.parent.alive
  }

  /** The next statement is the kill or sigqueue. */
  predicate Sends(p: Proc) {
    p.wait.Running? && p.pc == Send
  }

  /** What the next statement of its loop does to the process itself. */
  function MainSelf(queued: bool, p: Proc, who: Who): Proc {
    if p.wait.Woken? then
      Resume(p, if who == Parent && queued then Bump else Send)
    else match p.pc
      case CallAlarm => p.(pc := Send)
      case Send => p.(pc := Count)
      case Count => p.(sent := p.sent + 1, pc := if who == Child && queued then Bump else Suspend)
      case Bump => p.(val := p.val + 1, pc := if who == Parent then Send else Suspend)
      case Suspend => SigSuspend(p, {})
  }

  function MainStep(queued: bool, s: State, who: Who): State {
    var p := Get(s, who);
    var peer := Other(who);
    var s' := if Sends(p) then Put(s, peer, Post(Get(s, peer), Ping(queued), p.val)) else s;
    Put(s', who, MainSelf(queued, p, who))
  }

  /** null_handler counts and returns; alarm_handler kills the child and exits;
      child_terminate exits. */
  function HandlerSelf(queued: bool, p: Proc, who: Who): Proc
    requires p.frames != []
  {
    var f := Top(p);
    if f.sig == Ping(queued) then
      if f.stage == 0 then Advance(p).(recv := p.recv + 1) else Leave(p)
    else if Terminates(p, who) then Advance(p)
    else Exit(p)
  }

  /** alarm_handler is about to kill(chpid, SIGUSR2). */
  predicate Terminates(p: Proc, who: Who)
    requires p.frames != []
  {
    who == Parent && Top(p).sig == ALRM && Top(p).stage == 0
  }

  function HandlerStep(queued: bool, s: State, who: Who): State
    requires Get(s, who).frames != []
  {
    var p := Get(s, who);
    var s' := if Terminates(p, who) then Put(s, Child, Post(s.child, USR2, 0)) else s;
    Put(s', who, HandlerSelf(queued, p, who))
  }

  function Apply(queued: bool, s: State, a: Action): State
    requires Enabled(queued, s, a)
  {
    match a
    case Main(who) => MainStep(queued, s, who)
    case Deliver(who, sig) => Put(s, who, Catch(Get(s, who), sig, SaMask(queued, sig)))
    case Handler(who) => HandlerStep(queued, s, who)
    case Alarm => s.(parent := Post(s.parent, ALRM, 0), alarmSent := true)
    case KillFails => s.(child := Exit(s.child))
  }

  ghost predicate CanRun(queued: bool, s: State, acts: seq<Action>)
    decreases |acts|
  {
    acts == [] || (Enabled(queued, s, acts[0]) && CanRun(queued, Apply(queued, s, acts[0]), acts[1..]))
  }

  ghost function Run(queued: bool, s: State, acts: seq<Action>): State
    requires CanRun(queued, s, acts)
    decreases |acts|
  {
    if acts == [] then s else Run(queued, Apply(queued, s, acts[0]), acts[1..])
  }

  /** A scheduler's choices one after another, those that are not possible when their turn
      comes passed over. */
  ghost function Play(queued: bool, s: State, choices: seq<Action>): (r: State)
    decreases |choices|
  {
    if choices == [] then s
    else
      var before := Play(queued, s, choices[..|choices| - 1]);
      var a := choices[|choices| - 1];
      if Enabled(queued, before, a) then Apply(queued, before, a) else before
  }
}
