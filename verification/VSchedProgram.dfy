/** vsched.c and atprio.3.c in their own form: static limits read on demand and a
    sched_param adjusted in place. */
module VSchedProgram {
  import opened VSched

  /** The operating system's scheduler. */
  class Os {
    const limits: Limits
    var procs: Table

    constructor (limits: Limits, procs: Table)
      ensures this.limits == limits && this.procs == procs
    {
      this.limits, this.procs := limits, procs;
    }

    method SchedSetscheduler(pid: int, policy: Policy, prio: int) returns (ret: int)
      modifies this
      ensures (procs, ret >= 0) == SetScheduler(limits, old(procs), pid, policy, prio)
    {
      if pid in procs && InRange(limits, policy, prio) {
        procs := procs[pid := Proc(policy, prio)];
        ret := 0;
      } else {
        ret := -1;
      }
    }
  }

  /** The file's static variables. */
  class VirtualScheduler {
    const os: Os
    var schedRrMin: int
    var schedRrMax: int
    var schedFifoMin: int
    var schedFifoMax: int
    var vschedInitialized: bool

    constructor (os: Os)
      ensures this.os == os && !vschedInitialized
    {
      this.os := os;
      schedRrMin, schedRrMax, schedFifoMin, schedFifoMax := 0, 0, 0, 0;
      vschedInitialized := false;
    }

    /** The flag is never set in the source, so the limits are read again at every call. */
    ghost predicate Valid()
      reads this
    {
      !vschedInitialized
    }

    method VschedInit()
      modifies this`schedRrMin, this`schedRrMax, this`schedFifoMin, this`schedFifoMax
      ensures schedRrMin == os.limits.rrMin && schedRrMax == os.limits.rrMax
      ensures schedFifoMin == os.limits.fifoMin && schedFifoMax == os.limits.fifoMax
    {
      schedRrMin := os.limits.rrMin;
      schedRrMax := os.limits.rrMax;
      schedFifoMin := os.limits.fifoMin;
      schedFifoMax := os.limits.fifoMax;
    }

    method Setscheduler(pid: int, vschedPolicy: Policy, vprio: int) returns (ret: int)
      requires Valid()
      modifies this, os
      ensures Valid()
      ensures (os.procs, ret >= 0) == VschedSetscheduler(os.limits, old(os.procs), pid, vschedPolicy, vprio)
    {
      if !vschedInitialized { VschedInit(); }
      var tmp := vprio;
      match vschedPolicy
      {
        case Fifo => tmp := tmp + schedFifoMin;
        case Rr => tmp := tmp + schedRrMin;
        case _ =>
      }
      ret := os.SchedSetscheduler(pid, vschedPolicy, tmp);
    }

    method Setprio(pid: int, vprio: int) returns (ret: int)
      requires Valid()
      modifies this, os
      ensures Valid()
      ensures (os.procs, ret >= 0) == VschedSetprio(os.limits, old(os.procs), pid, vprio)
    {
      var policy := GetScheduler(os.procs, pid);
      if !vschedInitialized { VschedInit(); }
      var tmp := vprio;
      match policy
      {
        case Fifo => tmp := tmp + schedFifoMin;
        case Rr => tmp := tmp + schedRrMin;
        case _ =>
      }
      ret := os.SchedSetscheduler(pid, policy, tmp);
    }

    method Getprio(pid: int) returns (ret: int)
      requires Valid()
      modifies this
      ensures Valid() && ret == VschedGetprio(os.limits, os.procs, pid)
    {
      if !vschedInitialized { VschedInit(); }
      if pid !in os.procs { return -1; }
      var tmp := os.procs[pid].prio;
      match os.procs[pid].policy
      {
        case Fifo => return tmp - schedFifoMin;
        case Rr => return tmp - schedRrMin;
        case _ => return -1;
      }
    }

    /** main of atprio.3, after its arguments have been read. */
    method Atprio(pid: int, adj: Adjustment) returns (ok: bool)
      requires Valid()
      modifies this, os
      ensures Valid()
      ensures (os.procs, ok) == AtPrio(os.limits, old(os.procs), pid, adj)
    {
      var policy := GetScheduler(os.procs, pid);
      if policy != Fifo && policy != Rr { return false; }
      var prio;
      match adj
      {
        case Absolute(n) => prio := n;
        case Delta(delta) =>
          prio := Getprio(pid);
          prio := prio + delta;
      }
      var ret := Setscheduler(pid, policy, prio);
      ok := ret >= 0;
    }
  }

  lemma {:induction false} RealRunSnoc(l: Limits, t: Table, calls: seq<Call>, call: Call)
    ensures var (t1, replies) := RealRun(l, t, calls);
      var (t2, reply) := Real(l, t1, call);
      RealRun(l, t, calls + [call]) == (t2, replies + [reply])
    decreases |calls|
  {
    if calls == [] {
      var (t2, reply) := Real(l, t, call);
      assert calls + [call] == [call] && [call][1..] == [] && [reply] + [] == [] + [reply];
      assert RealRun(l, t2, []) == (t2, []);
    } else {
      var (t1, first) := Real(l, t, calls[0]);
      RealRunSnoc(l, t1, calls[1..], call);
      var (t2, rest) := RealRun(l, t1, calls[1..]);
      var last := Real(l, t2, call).1;
      assert (calls + [call])[1..] == calls[1..] + [call];
      assert [first] + (rest + [last]) == ([first] + rest) + [last];
    }
  }

  /** Calls one after another: the answers are those of a scheduler based at 0. */
  method Serve(limits: Limits, procs: Table, calls: seq<Call>) returns (final: Table, replies: seq<Reply>)
    requires TableOk(limits, procs)
    ensures (final, replies) == RealRun(limits, procs, calls)
    ensures (Virtual(limits, final), replies) == IdealRun(VirtualLimits(limits), Virtual(limits, procs), calls)
  {
    var os := new Os(limits, procs);
    var vs := new VirtualScheduler(os);
    replies := [];
    for i := 0 to |calls|
      invariant fresh(os) && fresh(vs) && vs.os == os && vs.Valid() && os.limits == limits
      invariant (os.procs, replies) == RealRun(limits, procs, calls[..i])
    {
      ghost var before := os.procs;
      var reply := Rejected;
      match calls[i]
      {
        case Set(pid, policy, vprio) =>
          var ret := vs.Setscheduler(pid, policy, vprio);
          if ret >= 0 { reply := Done; }
        case SetPrio(pid, vprio) =>
          var ret := vs.Setprio(pid, vprio);
          if ret >= 0 { reply := Done; }
        case GetPrio(pid) =>
          var ret := vs.Getprio(pid);
          reply := Prio(ret);
        case Adjust(pid, adj) =>
          var ok := vs.Atprio(pid, adj);
          if ok { reply := Done; }
      }
      assert (os.procs, reply) == Real(limits, before, calls[i]);
      RealRunSnoc(limits, procs, calls[..i], calls[i]);
      assert calls[..i] + [calls[i]] == calls[..i + 1];
      replies := replies + [reply];
    }
    assert calls[..|calls|] == calls;
    final := os.procs;
    RunRefines(limits, procs, calls);
  }
}
