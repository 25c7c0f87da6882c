/** The part of signal delivery that the benchmarks rely on, one process at a time:
    sections 2.4.1 and 2.8.1 of the System Interfaces volume of IEEE Std 1003.1-2017,
    and its sigsuspend, sigqueue and kill pages. */
module SignalKernel {
  datatype Sig = USR1 | USR2 | ALRM | RTMIN

  const ALLSIGS: set<Sig> := {USR1, USR2, ALRM, RTMIN}

  /** stage: how many statements of the handler have run. */
  datatype Frame = Frame(sig: Sig, stage: nat, saved: set<Sig>)

  /** Inside sigsuspend, `prior` is the mask to restore; Woken once a handler has run. */
  datatype Wait = Running | Waiting(prior: set<Sig>) | Woken(prior: set<Sig>)

  /** The statement of be_a_child or be_the_parent that comes next. */
  datatype Pc = CallAlarm | Send | Count | Bump | Suspend

  /** bits: pending ordinary signals, one bit each. queue: the values of pending SIGRTMIN
      signals. got: the values delivered so far. */
  datatype Proc = Proc(
    pc: Pc, wait: Wait, alive: bool,
    mask: set<Sig>, bits: set<Sig>, queue: seq<int>, frames: seq<Frame>,
    sent: nat, recv: nat, val: int, got: seq<int>)

  function Start(pc: Pc, mask: set<Sig>): Proc {
    Proc(pc, Running, true, mask, {}, [], [], 0, 0, 0, [])
  }

  /** kill, or sigqueue with value v: an ordinary signal already pending is merged. */
  function Post(p: Proc, sig: Sig, v: int): Proc {
    if !p.alive then p
    else if sig == RTMIN then p.(queue := p.queue + [v])
    else p.(bits := p.bits + {sig})
  }

  predicate Pending(p: Proc, sig: Sig) {
    if sig == RTMIN then p.queue != [] else sig in p.bits
  }

  predicate Deliverable(p: Proc, sig: Sig) {
    p.alive && sig !in p.mask && Pending(p, sig)
  }

  /** A handler starts: its mask is the current one, its sa_mask and the signal. */
  function Catch(p: Proc, sig: Sig, saMask: set<Sig>): Proc
    requires Pending(p, sig)
  {
    var q := p.(frames := p.frames + [Frame(sig, 0, p.mask)], mask := p.mask + saMask + {sig});
    if sig == RTMIN then q.(queue := p.queue[1..], got := p.got + [p.queue[0]])
    else q.(bits := p.bits - {sig})
  }

  function Top(p: Proc): Frame
    requires p.frames != []
  {
    p.frames[|p.frames| - 1]
  }

  /** The running handler has executed one more statement. */
  function Advance(p: Proc): Proc
    requires p.frames != []
  {
    p.(frames := p.frames[..|p.frames| - 1] + [Top(p).(stage := Top(p).stage + 1)])
  }

  /** The running handler returns. */
  function Leave(p: Proc): Proc
    requires p.frames != []
  {
    p.(frames := p.frames[..|p.frames| - 1], mask := Top(p).saved,
       wait := if |p.frames| == 1 && p.wait.Waiting? then Woken(p.wait.prior) else p.wait)
  }

  /** sigsuspend: the mask is swapped and the wait begins in one step. */
  function SigSuspend(p: Proc, mask: set<Sig>): Proc {
    p.(mask := mask, wait := Waiting(p.mask))
  }

  /** sigsuspend returns and restores the mask. */
  function Resume(p: Proc, next: Pc): Proc
    requires p.wait.Woken?
  {
    p.(mask := p.wait.prior, wait := Running, pc := next)
  }

  function Exit(p: Proc): Proc {
    p.(alive := false)
  }

  /** The main code can take a statement. */
  predicate MainReady(p: Proc) {
    p.alive && p.frames == [] && !p.wait.Waiting?
  }
}
