/** Virtual scheduling priorities based at 0 (vsched.c) and their adjustment (atprio.3.c),
    refined onto whatever priority limits the system has. Scheduling calls follow section
    2.8.4 of the System Interfaces volume of IEEE Std 1003.1-2017. */
module VSched {
  /** Unknown stands for every number that is not a policy of the system. */
  datatype Policy = Fifo | Rr | OtherPolicy | Unknown

  /** The constant values of sched_get_priority_min and sched_get_priority_max. */
  datatype Limits = Limits(fifoMin: int, fifoMax: int, rrMin: int, rrMax: int, otherMin: int, otherMax: int)

  ghost predicate Valid(l: Limits) {
    l.fifoMin <= l.fifoMax && l.rrMin <= l.rrMax && l.otherMin <= l.otherMax
  }

  datatype Proc = Proc(policy: Policy, prio: int)

  /** The processes by pid. */
  type Table = map<int, Proc>

  // ---------- the system's scheduler ----------

  predicate InRange(l: Limits, policy: Policy, prio: int) {
    match policy
    case Fifo => l.fifoMin <= prio <= l.fifoMax
    case Rr => l.rrMin <= prio <= l.rrMax
    case OtherPolicy => l.otherMin <= prio <= l.otherMax
    case Unknown => false
  }

  /** sched_setscheduler fails with -1 for a missing process, an unknown policy or a
      priority outside the policy's limits, and then changes nothing. */
  function SetScheduler(l: Limits, t: Table, pid: int, policy: Policy, prio: int): (Table, bool) {
    if pid in t && InRange(l, policy, prio) then (t[pid := Proc(policy, prio)], true) else (t, false)
  }

  /** sched_getscheduler; Unknown when there is no such process. */
  function GetScheduler(t: Table, pid: int): Policy {
    if pid in t then t[pid].policy else Unknown
  }

  /** What the kernel keeps true of its own table. */
  ghost predicate TableOk(l: Limits, t: Table) {
    forall pid | pid in t :: InRange(l, t[pid].policy, t[pid].prio)
  }

  // ---------- vsched.c ----------

  /** What is added to a virtual priority under a policy. */
  function Base(l: Limits, policy: Policy): int {
    match policy case Fifo => l.fifoMin case Rr => l.rrMin case _ => 0
  }

  function VschedSetscheduler(l: Limits, t: Table, pid: int, policy: Policy, vprio: int): (Table, bool) {
    SetScheduler(l, t, pid, policy, vprio + Base(l, policy))
  }

  function VschedSetprio(l: Limits, t: Table, pid: int, vprio: int): (Table, bool) {
    var policy := GetScheduler(t, pid);
    SetScheduler(l, t, pid, policy, vprio + Base(l, policy))
  }

  function VschedGetprio(l: Limits, t: Table, pid: int): int {
    if pid !in t then -1
    else match t[pid].policy
      case Fifo => t[pid].prio - l.fifoMin
      case Rr => t[pid].prio - l.rrMin
      case _ => -1
  }

  /** The command argument of atprio: a priority, or + or - and a difference. */
  datatype Adjustment = Absolute(n: int) | Delta(d: int)

  /** atprio.3: only processes under SCHED_FIFO or SCHED_RR are adjusted. */
  function AtPrio(l: Limits, t: Table, pid: int, adj: Adjustment): (Table, bool) {
    var policy := GetScheduler(t, pid);
    if policy != Fifo && policy != Rr then (t, false)
    else
      var vprio := match adj case Absolute(n) => n case Delta(d) => VschedGetprio(l, t, pid) + d;
      VschedSetscheduler(l, t, pid, policy, vprio)
  }

  // ---------- the virtual scheduler ----------

  /** Limits as the interface presents them: every real-time policy starts at 0. */
  function VirtualLimits(l: Limits): Limits {
    l.(fifoMin := 0, fifoMax := l.fifoMax - l.fifoMin, rrMin := 0, rrMax := l.rrMax - l.rrMin)
  }

  function Virtual(l: Limits, t: Table): Table {
    map pid | pid in t :: Proc(t[pid].policy, t[pid].prio - Base(l, t[pid].policy))
  }

  datatype Call =
    | Set(pid: int, policy: Policy, vprio: int)
    | SetPrio(pid: int, vprio: int)
    | GetPrio(pid: int)
    | Adjust(pid: int, adj: Adjustment)

  datatype Reply = Done | Rejected | Prio(vprio: int)

  function ReplyOf(r: (Table, bool)): (Table, Reply) {
    (r.0, if r.1 then Done else Rejected)
  }

  /** A call through vsched.c on a system with these limits. */
  function Real(l: Limits, t: Table, call: Call): (Table, Reply) {
    match call
    case Set(pid, policy, vprio) => ReplyOf(VschedSetscheduler(l, t, pid, policy, vprio))
    case SetPrio(pid, vprio) => ReplyOf(VschedSetprio(l, t, pid, vprio))
    case GetPrio(pid) => (t, Prio(VschedGetprio(l, t, pid)))
    case Adjust(pid, adj) => ReplyOf(AtPrio(l, t, pid, adj))
  }

  /** The same call on a scheduler whose real-time priorities really start at 0, with no
      translation at all: priorities stored as given, differences added as given. */
  function Ideal(v: Limits, t: Table, call: Call): (Table, Reply) {
    match call
    case Set(pid, policy, vprio) => ReplyOf(SetScheduler(v, t, pid, policy, vprio))
    case SetPrio(pid, vprio) => ReplyOf(SetScheduler(v, t, pid, GetScheduler(t, pid), vprio))
    case GetPrio(pid) =>
      (t, Prio(if pid in t && (t[pid].policy == Fifo || t[pid].policy == Rr) then t[pid].prio else -1))
    case Adjust(pid, adj) =>
      if pid in t && (t[pid].policy == Fifo || t[pid].policy == Rr) then
        ReplyOf(SetScheduler(v, t, pid, t[pid].policy, if adj.Absolute? then adj.n else t[pid].prio + adj.d))
      else (t, Rejected)
  }

  lemma SetRefines(l: Limits, t: Table, pid: int, policy: Policy, vprio: int)
    requires TableOk(l, t)
    ensures var (t', ok) := SetScheduler(l, t, pid, policy, vprio + Base(l, policy));
      && TableOk(l, t')
      && (Virtual(l, t'), ok) == SetScheduler(VirtualLimits(l), Virtual(l, t), pid, policy, vprio)
  {
    if pid in t && InRange(l, policy, vprio + Base(l, policy)) {
      assert Virtual(l, t[pid := Proc(policy, vprio + Base(l, policy))]) == Virtual(l, t)[pid := Proc(policy, vprio)];
    }
  }

  /** One call, real and ideal, from the same table. */
  ghost predicate Refined(l: Limits, t: Table, call: Call) {
    var (t', reply) := Real(l, t, call);
    TableOk(l, t') && (Virtual(l, t'), reply) == Ideal(VirtualLimits(l), Virtual(l, t), call)
  }

  lemma GetRefines(l: Limits, t: Table, pid: int)
    requires TableOk(l, t)
    ensures Refined(l, t, GetPrio(pid))
  {
  }

  lemma AdjustRefines(l: Limits, t: Table, pid: int, adj: Adjustment)
    requires TableOk(l, t)
    ensures Refined(l, t, Adjust(pid, adj))
  {
    SetRefines(l, t, pid, GetScheduler(t, pid),
               match adj case Absolute(n) => n case Delta(d) => VschedGetprio(l, t, pid) + d);
  }

  lemma CallRefines(l: Limits, t: Table, call: Call)
    requires TableOk(l, t)
    ensures Refined(l, t, call)
  {
    match call
    case Set(pid, policy, vprio) => SetRefines(l, t, pid, policy, vprio);
    case SetPrio(pid, vprio) => SetRefines(l, t, pid, GetScheduler(t, pid), vprio);
    case GetPrio(pid) => GetRefines(l, t, pid);
    case Adjust(pid, adj) => AdjustRefines(l, t, pid, adj);
  }

  ghost function RealRun(l: Limits, t: Table, calls: seq<Call>): (Table, seq<Reply>)
    decreases |calls|
  {
    if calls == [] then (t, [])
    else
      var (t1, reply) := Real(l, t, calls[0]);
      var (t2, replies) := RealRun(l, t1, calls[1..]);
      (t2, [reply] + replies)
  }

  ghost function IdealRun(v: Limits, t: Table, calls: seq<Call>): (Table, seq<Reply>)
    decreases |calls|
  {
    if calls == [] then (t, [])
    else
      var (t1, reply) := Ideal(v, t, calls[0]);
      var (t2, replies) := IdealRun(v, t1, calls[1..]);
      (t2, [reply] + replies)
  }

  /** Any sequence of calls, on any processes and policies, answers exactly as a scheduler
      with priorities 0 to max - min would, and leaves the processes as it would. */
  lemma {:induction false} RunRefines(l: Limits, t: Table, calls: seq<Call>)
    requires TableOk(l, t)
    ensures var (t', replies) := RealRun(l, t, calls);
      TableOk(l, t') && (Virtual(l, t'), replies) == IdealRun(VirtualLimits(l), Virtual(l, t), calls)
    decreases |calls|
  {
    if calls != [] {
      CallRefines(l, t, calls[0]);
      RunRefines(l, Real(l, t, calls[0]).0, calls[1..]);
    }
  }

  // ---------- what a caller can rely on ----------

  /** A rejected call changes nothing; an accepted one is seen by the next query, and
      touches no other process. Under SCHED_FIFO and SCHED_RR the range starts at 0; under
      another policy it is the system's own, and the query answers -1. */
  lemma SetThenGet(l: Limits, t: Table, pid: int, policy: Policy, vprio: int)
    requires TableOk(l, t)
    ensures var (t', ok) := VschedSetscheduler(l, t, pid, policy, vprio);
      && (ok <==> pid in t && match policy
                              case Fifo => 0 <= vprio <= l.fifoMax - l.fifoMin
                              case Rr => 0 <= vprio <= l.rrMax - l.rrMin
                              case OtherPolicy => l.otherMin <= vprio <= l.otherMax
                              case Unknown => false)
      && (!ok ==> t' == t)
      && (ok ==> GetScheduler(t', pid) == policy
                 && VschedGetprio(l, t', pid) == (if policy == OtherPolicy then -1 else vprio)
                 && (policy == OtherPolicy ==> t'[pid].prio == vprio))
      && forall other | other != pid ::
           VschedGetprio(l, t', other) == VschedGetprio(l, t, other) && GetScheduler(t', other) == GetScheduler(t, other)
  {
  }

  /** The error value cannot be mistaken for a priority. */
  lemma MinusOneIsError(l: Limits, t: Table, pid: int)
    requires TableOk(l, t)
    ensures VschedGetprio(l, t, pid) == -1 <==> GetScheduler(t, pid) != Fifo && GetScheduler(t, pid) != Rr
    ensures VschedGetprio(l, t, pid) >= -1
  {
  }

  function Sum(ds: seq<int>): int {
    if ds == [] then 0 else ds[0] + Sum(ds[1..])
  }

  /** Every partial sum of the differences stays within the policy's virtual range. */
  ghost predicate StaysInRange(top: int, v: int, ds: seq<int>)
    decreases |ds|
  {
    ds == [] || (0 <= v + ds[0] <= top && StaysInRange(top, v + ds[0], ds[1..]))
  }

  ghost function AdjustAll(l: Limits, t: Table, pid: int, ds: seq<int>): (Table, bool)
    decreases |ds|
  {
    if ds == [] then (t, true)
    else
      var (t1, ok) := AtPrio(l, t, pid, Delta(ds[0]));
      var (t2, rest) := AdjustAll(l, t1, pid, ds[1..]);
      (t2, ok && rest)
  }

  /** Differences are all accepted exactly when every partial sum stays in range, and then
      they add up. */
  lemma {:induction false} DeltasAddUp(l: Limits, t: Table, pid: int, ds: seq<int>)
    requires TableOk(l, t) && (GetScheduler(t, pid) == Fifo || GetScheduler(t, pid) == Rr)
    ensures var policy := GetScheduler(t, pid);
      var top := if policy == Fifo then l.fifoMax - l.fifoMin else l.rrMax - l.rrMin;
      var (t', ok) := AdjustAll(l, t, pid, ds);
      && (ok <==> StaysInRange(top, VschedGetprio(l, t, pid), ds))
      && (ok ==> GetScheduler(t', pid) == policy
                 && VschedGetprio(l, t', pid) == VschedGetprio(l, t, pid) + Sum(ds))
    decreases |ds|
  {
    if ds != [] {
      var v := VschedGetprio(l, t, pid);
      SetThenGet(l, t, pid, GetScheduler(t, pid), v + ds[0]);
      CallRefines(l, t, Adjust(pid, Delta(ds[0])));
      DeltasAddUp(l, AtPrio(l, t, pid, Delta(ds[0])).0, pid, ds[1..]);
    }
  }

  // ---------- order across policies ----------

  ghost predicate RealTime(p: Proc) {
    p.policy == Fifo || p.policy == Rr
  }

  /** Comparing two real-time processes by virtual priority is comparing them by the
      priority the system uses. */
  ghost predicate OrderAgrees(l: Limits, p: Proc, q: Proc) {
    p.prio < q.prio <==> p.prio - Base(l, p.policy) < q.prio - Base(l, q.policy)
  }

  /** The two orders agree on every pair of processes exactly when the two policies have
      the same least priority. */
  lemma OrdersAgreeIff(l: Limits)
    requires Valid(l)
    ensures (forall p, q | RealTime(p) && RealTime(q) && InRange(l, p.policy, p.prio) && InRange(l, q.policy, q.prio) ::
               OrderAgrees(l, p, q))
       <==> l.fifoMin == l.rrMin
  {
    var p, q := Proc(Fifo, l.fifoMin), Proc(Rr, l.rrMin);
    if l.fifoMin < l.rrMin {
      assert RealTime(p) && RealTime(q) && !OrderAgrees(l, p, q);
    } else if l.rrMin < l.fifoMin {
      assert RealTime(p) && RealTime(q) && !OrderAgrees(l, q, p);
    }
  }
}
