/** A process of the signal benchmarks as an object updated in place, each method tied to
    the kernel function it performs. */
module SignalProcess {
  import opened SignalKernel

  /** One process: the C globals of its image and what the kernel keeps of its signals. */
  class Process {
    var pc: Pc
    var wait: Wait
    var alive: bool
    var mask: set<Sig>
    var bits: set<Sig>
    var queue: seq<int>
    var frames: seq<Frame>
    var nsigsSent: nat
    var nsigsRecv: nat
    var val: int
    var got: seq<int>

    function Value(): Proc
      reads this
    {
      Proc(pc, wait, alive, mask, bits, queue, frames, nsigsSent, nsigsRecv, val, got)
    }

    constructor (start: Pc, blockem: set<Sig>)
      ensures Value() == Start(start, blockem)
    {
      pc, wait, alive, mask := start, Running, true, blockem;
      bits, queue, frames, got := {}, [], [], [];
      nsigsSent, nsigsRecv, val := 0, 0, 0;
    }

    /** kill(this, sig) or sigqueue(this, sig, v), by any process. */
    method Receive(sig: Sig, v: int)
      modifies this
      ensures Value() == Post(old(Value()), sig, v)
    {
      if alive {
        if sig == RTMIN { queue := queue + [v]; } else { bits := bits + {sig}; }
      }
    }

    method EnterHandler(sig: Sig, saMask: set<Sig>)
      requires Deliverable(Value(), sig)
      modifies this
      ensures Value() == Catch(old(Value()), sig, saMask)
    {
      frames := frames + [Frame(sig, 0, mask)];
      mask := mask + saMask + {sig};
      if sig == RTMIN {
        got := got + [queue[0]];
        queue := queue[1..];
      } else {
        bits := bits - {sig};
      }
    }

    method LeaveHandler()
      requires frames != []
      modifies this
      ensures Value() == Leave(old(Value()))
    {
      var n := |frames| - 1;
      mask := frames[n].saved;
      frames := frames[..n];
      if n == 0 && wait.Waiting? { wait := Woken(wait.prior); }
    }

    method SigSuspend(sigset: set<Sig>)
      modifies this
      ensures Value() == SignalKernel.SigSuspend(old(Value()), sigset)
    {
      wait := Waiting(mask);
      mask := sigset;
    }

    /** null_handler, statement by statement. */
    method NullHandler()
      requires frames != []
      modifies this
      ensures var p := old(Value());
        Value() == if Top(p).stage == 0 then Advance(p).(recv := p.recv + 1) else Leave(p)
    {
      var n := |frames| - 1;
      var f := frames[n];
      if f.stage == 0 {
        nsigsRecv := nsigsRecv + 1;
        frames := frames[..n] + [f.(stage := 1)];
      } else {
        LeaveHandler();
      }
    }
  }
}
