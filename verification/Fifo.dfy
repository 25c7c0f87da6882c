/** The pipe ping-pong (fifo.c): two processes echo nbytes bytes over two bounded pipes.
    A read returns what is immediately available, up to nbytes; a write of at most PIPE_BUF
    bytes enters the pipe at once, a longer one in pieces of any size. */
module Fifo {
  import opened Prelude

  datatype Config = Config(nbytes: nat, pipeBuf: nat, capacity: nat)

  ghost predicate Valid(c: Config) {
    1 <= c.pipeBuf <= c.capacity
  }

  datatype Who = Parent | Child

  /** Writing(pos): inside write with pos bytes already in the pipe. Failed: the short
      read has been reported and the process has exited. */
  datatype Pc = Writing(pos: nat) | CountWrite | Reading | CountRead | Failed

  datatype Proc = Proc(pc: Pc, buf: seq<byte>, nreads: nat, nwrites: nat)

  datatype State = State(parent: Proc, child: Proc, toChild: seq<byte>, toParent: seq<byte>)

  /** Just after fork both processes have the same buffer. */
  function Init(data: seq<byte>): State {
    State(Proc(Writing(0), data, 0, 0), Proc(Reading, data, 0, 0), [], [])
  }

  ghost predicate Shape(c: Config, s: State) {
    && |s.parent.buf| == c.nbytes && |s.child.buf| == c.nbytes
    && (s.parent.pc.Writing? ==> s.parent.pc.pos <= c.nbytes)
    && (s.child.pc.Writing? ==> s.child.pc.pos <= c.nbytes)
  }

  datatype Action = Write(who: Who, n: nat) | Read(who: Who) | Count(who: Who)

  function Get(s: State, who: Who): Proc {
    if who == Parent then s.parent else s.child
  }

  function Put(s: State, who: Who, p: Proc): State {
    if who == Parent then s.(parent := p) else s.(child := p)
  }

  /** The pipe a process writes, and the one it reads. */
  function Outgoing(s: State, who: Who): seq<byte> {
    if who == Parent then s.toChild else s.toParent
  }

  function Incoming(s: State, who: Who): seq<byte> {
    if who == Parent then s.toParent else s.toChild
  }

  predicate CanWrite(c: Config, pos: nat, room: int, n: nat) {
    if c.nbytes == 0 then n == 0
    else if c.nbytes <= c.pipeBuf then pos == 0 && n == c.nbytes && n <= room
    else 1 <= n <= room && pos + n <= c.nbytes
  }

  predicate Enabled(c: Config, s: State, a: Action) {
    var p := Get(s, a.who);
    match a
    case Write(who, n) => p.pc.Writing? && CanWrite(c, p.pc.pos, c.capacity - |Outgoing(s, who)|, n)
    case Read(who) => p.pc.Reading? && (c.nbytes > 0 ==> Incoming(s, who) != [])
    case Count(who) => p.pc.CountWrite? || p.pc.CountRead?
  }

  function WriteStep(c: Config, s: State, who: Who, n: nat): (r: State)
    requires Shape(c, s) && Enabled(c, s, Write(who, n)) && Get(s, who).pc.pos + n <= c.nbytes
    ensures Shape(c, r)
  {
    var p := Get(s, who);
    var pos := p.pc.pos;
    var pipe := Outgoing(s, who) + p.buf[pos..pos + n];
    var s' := if who == Parent then s.(toChild := pipe) else s.(toParent := pipe);
    Put(s', who, p.(pc := if pos + n == c.nbytes then CountWrite else Writing(pos + n)))
  }

  /** A short read makes the process report it and exit. */
  function ReadStep(c: Config, s: State, who: Who): (r: State)
    requires Shape(c, s) && Enabled(c, s, Read(who))
    ensures Shape(c, r)
  {
    var p := Get(s, who);
    var pipe := Incoming(s, who);
    var n := Min(c.nbytes, |pipe|);
    var s' := if who == Parent then s.(toParent := pipe[n..]) else s.(toChild := pipe[n..]);
    Put(s', who, p.(buf := pipe[..n] + p.buf[n..], pc := if n == c.nbytes then CountRead else Failed))
  }

  function CountStep(s: State, who: Who): State {
    var p := Get(s, who);
    Put(s, who, if p.pc.CountWrite? then p.(nwrites := p.nwrites + 1, pc := Reading)
                else p.(nreads := p.nreads + 1, pc := Writing(0)))
  }

  function Apply(c: Config, s: State, a: Action): (r: State)
    requires Shape(c, s) && Enabled(c, s, a)
    ensures Shape(c, r)
  {
    match a
    case Write(who, n) => WriteStep(c, s, who, n)
    case Read(who) => ReadStep(c, s, who)
    case Count(who) => CountStep(s, who)
  }

  ghost predicate CanRun(c: Config, s: State, acts: seq<Action>)
    requires Shape(c, s)
    decreases |acts|
  {
    acts == [] || (Enabled(c, s, acts[0]) && CanRun(c, Apply(c, s, acts[0]), acts[1..]))
  }

  ghost function Run(c: Config, s: State, acts: seq<Action>): (r: State)
    requires Shape(c, s) && CanRun(c, s, acts)
    ensures Shape(c, r)
    decreases |acts|
  {
    if acts == [] then s else Run(c, Apply(c, s, acts[0]), acts[1..])
  }

  /** A scheduler's choices one after another, those that are not possible when their turn
      comes passed over. */
  ghost function Play(c: Config, s: State, choices: seq<Action>): (r: State)
    requires Shape(c, s)
    ensures Shape(c, r)
    decreases |choices|
  {
    if choices == [] then s
    else
      var before := Play(c, s, choices[..|choices| - 1]);
      var a := choices[|choices| - 1];
      if Enabled(c, before, a) then Apply(c, before, a) else before
  }

  // ---------- messages of at most PIPE_BUF bytes ----------

  /** The process has the message: it has read it and not yet written it. */
  predicate Holds(p: Proc) {
    p.pc.Writing? || p.pc.CountRead?
  }

  function Writes(p: Proc): nat {
    p.nwrites + if p.pc.CountWrite? then 1 else 0
  }

  function Reads(p: Proc): nat {
    p.nreads + if p.pc.CountRead? then 1 else 0
  }

  /** The pipe holds the whole message or nothing. */
  ghost predicate PipeOk(pipe: seq<byte>, data: seq<byte>, full: bool) {
    pipe == if full then data else []
  }

  ghost predicate Inv(c: Config, data: seq<byte>, s: State) {
    && Shape(c, s) && |data| == c.nbytes
    && !s.parent.pc.Failed? && !s.child.pc.Failed?
    && (s.parent.pc.Writing? ==> s.parent.pc.pos == 0) && (s.child.pc.Writing? ==> s.child.pc.pos == 0)
    && s.parent.buf == data && (Holds(s.child) ==> s.child.buf == data)
    && Writes(s.parent) == Reads(s.parent) + (if Holds(s.parent) then 0 else 1)
    && Reads(s.child) == Writes(s.child) + (if Holds(s.child) then 1 else 0)
    && 0 <= Writes(s.parent) - Reads(s.child) <= 1 && 0 <= Writes(s.child) - Reads(s.parent) <= 1
    && PipeOk(s.toChild, data, Writes(s.parent) > Reads(s.child))
    && PipeOk(s.toParent, data, Writes(s.child) > Reads(s.parent))
  }

  lemma InitInv(c: Config, data: seq<byte>)
    requires |data| == c.nbytes
    ensures Inv(c, data, Init(data))
  {
  }

  lemma StepInv(c: Config, data: seq<byte>, s: State, a: Action)
    requires Valid(c) && 1 <= c.nbytes <= c.pipeBuf && Inv(c, data, s) && Enabled(c, s, a)
    ensures Inv(c, data, Apply(c, s, a))
  {
    if a.Write? {
      assert Get(s, a.who).buf[0..c.nbytes] == data;
    }
    if a.Read? {
      assert Incoming(s, a.who) == data;
      assert data[..c.nbytes] + Get(s, a.who).buf[c.nbytes..] == data && data[c.nbytes..] == [];
    }
  }

  lemma {:induction false} RunInv(c: Config, data: seq<byte>, s: State, acts: seq<Action>)
    requires Valid(c) && 1 <= c.nbytes <= c.pipeBuf && Inv(c, data, s) && CanRun(c, s, acts)
    ensures Inv(c, data, Run(c, s, acts))
    decreases |acts|
  {
    if acts != [] {
      StepInv(c, data, s, acts[0]);
      RunInv(c, data, Apply(c, s, acts[0]), acts[1..]);
    }
  }

  /** Bytes are conserved: the two pipes and the message a process holds are nbytes in
      all, every pipe is empty or one whole message, and the parent's buffer is the
      message it started with. */
  lemma OneMessage(c: Config, data: seq<byte>, acts: seq<Action>)
    requires Valid(c) && 1 <= c.nbytes <= c.pipeBuf && |data| == c.nbytes && CanRun(c, Init(data), acts)
    ensures var s := Run(c, Init(data), acts);
      && |s.toChild| + |s.toParent| + (if Holds(s.parent) then c.nbytes else 0)
           + (if Holds(s.child) then c.nbytes else 0) == c.nbytes
      && (s.toChild == [] || s.toChild == data) && (s.toParent == [] || s.toParent == data)
      && s.parent.buf == data && (Holds(s.child) ==> s.child.buf == data)
      && s.parent.nreads <= s.parent.nwrites <= s.parent.nreads + 1
      && s.child.nwrites <= s.child.nreads <= s.child.nwrites + 1
  {
    InitInv(c, data);
    RunInv(c, data, Init(data), acts);
    TotalBytes(c, data, Run(c, Init(data), acts));
  }

  lemma TotalBytes(c: Config, data: seq<byte>, s: State)
    requires Inv(c, data, s)
    ensures |s.toChild| + |s.toParent| + (if Holds(s.parent) then c.nbytes else 0)
              + (if Holds(s.child) then c.nbytes else 0) == c.nbytes
  {
    assert |s.toChild| == if Writes(s.parent) > Reads(s.child) then c.nbytes else 0;
    assert |s.toParent| == if Writes(s.child) > Reads(s.parent) then c.nbytes else 0;
  }

  /** Some process can always step. */
  lemma NoDeadlock(c: Config, data: seq<byte>, s: State) returns (a: Action)
    requires Valid(c) && 1 <= c.nbytes <= c.pipeBuf && Inv(c, data, s)
    ensures Enabled(c, s, a)
  {
    if !s.parent.pc.Reading? {
      a := if s.parent.pc.Writing? then Write(Parent, c.nbytes) else Count(Parent);
    } else if !s.child.pc.Reading? {
      a := if s.child.pc.Writing? then Write(Child, c.nbytes) else Count(Child);
    } else {
      a := Read(if s.toParent != [] then Parent else Child);
    }
  }

  // ---------- steady progress ----------

  function StepsTaken(p: Proc, who: Who): int {
    var at := match p.pc case Writing(_) => 0 case CountWrite => 1 case Reading => 2 case CountRead => 3 case Failed => 0;
    if who == Parent then
      4 * p.nreads + at
    else
      4 * p.nwrites + (at + 2) % 4
  }

  function Elapsed(s: State): int {
    StepsTaken(s.parent, Parent) + StepsTaken(s.child, Child)
  }

  lemma StepCounts(c: Config, data: seq<byte>, s: State, a: Action)
    requires Valid(c) && 1 <= c.nbytes <= c.pipeBuf && Inv(c, data, s) && Enabled(c, s, a)
    ensures Elapsed(Apply(c, s, a)) == Elapsed(s) + 1
  {
    StepInv(c, data, s, a);
  }

  lemma {:induction false} RunCounts(c: Config, data: seq<byte>, s: State, acts: seq<Action>)
    requires Valid(c) && 1 <= c.nbytes <= c.pipeBuf && Inv(c, data, s) && CanRun(c, s, acts)
    ensures Elapsed(Run(c, s, acts)) == Elapsed(s) + |acts|
    ensures Run(c, s, acts).parent.nreads >= s.parent.nreads
    decreases |acts|
  {
    if acts != [] {
      StepInv(c, data, s, acts[0]);
      StepCounts(c, data, s, acts[0]);
      RunCounts(c, data, Apply(c, s, acts[0]), acts[1..]);
    }
  }

  /** Under any schedule, 11 further steps include the completion of another round trip. */
  lemma SteadyProgress(c: Config, data: seq<byte>, acts: seq<Action>, more: seq<Action>)
    requires Valid(c) && 1 <= c.nbytes <= c.pipeBuf && |data| == c.nbytes
    requires CanRun(c, Init(data), acts) && CanRun(c, Run(c, Init(data), acts), more) && |more| >= 11
    ensures Run(c, Run(c, Init(data), acts), more).parent.nreads > Run(c, Init(data), acts).parent.nreads
  {
    InitInv(c, data);
    RunInv(c, data, Init(data), acts);
    var s := Run(c, Init(data), acts);
    RunInv(c, data, s, more);
    RunCounts(c, data, s, more);
    ElapsedBounds(c, data, s);
    ElapsedBounds(c, data, Run(c, s, more));
  }

  lemma ElapsedBounds(c: Config, data: seq<byte>, s: State)
    requires Inv(c, data, s)
    ensures 8 * s.parent.nreads - 1 <= Elapsed(s) <= 8 * s.parent.nreads + 9
  {
  }

  // ---------- messages of any size ----------

  /** Where the one message is, for a message of any size while nobody has failed: with the
      parent, all or in part; in the pipe to the child; with the child, all or in part; or
      in the pipe to the parent. */
  ghost predicate InTransit(data: seq<byte>, s: State) {
    match s.parent.pc
    case Writing(pos) => pos < |data| && s.toChild == data[..pos] && s.toParent == [] && !Holds(s.child)
    case CountRead => s.toChild == [] && s.toParent == [] && !Holds(s.child)
    case _ =>
      match s.child.pc
      case Writing(pos) => pos < |data| && s.toChild == [] && s.toParent == data[..pos]
      case CountRead => s.toChild == [] && s.toParent == []
      case _ => (s.toChild == data && s.toParent == []) || (s.toChild == [] && s.toParent == data)
  }

  /** Both buffers hold the message. After a short read the pipe that its process would
      write stays empty, so the other process reads no more. */
  ghost predicate Carries(c: Config, data: seq<byte>, s: State) {
    && Shape(c, s) && |data| == c.nbytes && s.parent.buf == data && s.child.buf == data
    && (if s.parent.pc.Failed? then s.toChild == [] && !s.child.pc.Failed? && !s.child.pc.CountRead?
        else if s.child.pc.Failed? then s.toParent == [] && !s.parent.pc.CountRead?
        else InTransit(data, s))
  }

  lemma WriteCarries(c: Config, data: seq<byte>, s: State, who: Who, n: nat)
    requires c.nbytes > 0 && Carries(c, data, s) && Enabled(c, s, Write(who, n))
    ensures Carries(c, data, WriteStep(c, s, who, n))
  {
    var pos := Get(s, who).pc.pos;
    assert data[..pos] + data[pos..pos + n] == data[..pos + n];
    assert pos + n == |data| ==> data[..pos + n] == data;
  }

  lemma ReadCarries(c: Config, data: seq<byte>, s: State, who: Who)
    requires c.nbytes > 0 && Carries(c, data, s) && Enabled(c, s, Read(who))
    ensures Carries(c, data, ReadStep(c, s, who))
  {
    var pipe := Incoming(s, who);
    var n := |pipe|;
    assert n <= |data| && pipe == data[..n];
    assert data[..n] + data[n..] == data && pipe[n..] == [] && pipe[..n] == pipe;
  }

  lemma StepCarries(c: Config, data: seq<byte>, s: State, a: Action)
    requires c.nbytes > 0 && Carries(c, data, s) && Enabled(c, s, a)
    ensures Carries(c, data, Apply(c, s, a))
  {
    match a
    case Write(who, n) => WriteCarries(c, data, s, who, n);
    case Read(who) => ReadCarries(c, data, s, who);
    case Count(who) =>
  }

  lemma {:induction false} RunCarries(c: Config, data: seq<byte>, s: State, acts: seq<Action>)
    requires c.nbytes > 0 && Carries(c, data, s) && CanRun(c, s, acts)
    ensures Carries(c, data, Run(c, s, acts))
    decreases |acts|
  {
    if acts != [] {
      StepCarries(c, data, s, acts[0]);
      RunCarries(c, data, Apply(c, s, acts[0]), acts[1..]);
    }
  }

  /** For a message of any size, whatever pieces it is written in, both buffers are the
      message in every reachable state, and until a process fails the pipe that a process
      is writing is exactly what it has written of the message. */
  lemma EchoIsFaithful(c: Config, data: seq<byte>, acts: seq<Action>)
    requires c.nbytes > 0 && |data| == c.nbytes && CanRun(c, Init(data), acts)
    ensures var s := Run(c, Init(data), acts);
      && s.parent.buf == data && s.child.buf == data
      && (!s.parent.pc.Failed? && !s.child.pc.Failed? ==> InTransit(data, s))
  {
    assert data[..0] == [];
    RunCarries(c, data, Init(data), acts);
  }

  /** No pipe ever holds more than its capacity. */
  lemma {:induction false} PipesAreBounded(c: Config, s: State, acts: seq<Action>)
    requires Shape(c, s) && CanRun(c, s, acts) && |s.toChild| <= c.capacity && |s.toParent| <= c.capacity
    ensures var r := Run(c, s, acts); |r.toChild| <= c.capacity && |r.toParent| <= c.capacity
    decreases |acts|
  {
    if acts != [] { PipesAreBounded(c, Apply(c, s, acts[0]), acts[1..]); }
  }

  /** Empty messages never block: each process can always step. */
  lemma EmptyNeverBlocks(c: Config, acts: seq<Action>, who: Who)
    requires c.nbytes == 0 && CanRun(c, Init([]), acts)
    ensures exists a: Action :: a.who == who && Enabled(c, Run(c, Init([]), acts), a)
  {
    EmptyMessages(c, Init([]), acts);
    var s := Run(c, Init([]), acts);
    var p := Get(s, who);
    var a := if p.pc.Writing? then Write(who, 0) else if p.pc.Reading? then Read(who) else Count(who);
    assert a.who == who && Enabled(c, s, a);
  }

  // ---------- exactly which sizes are safe ----------

  /** No run ever reaches the report of a short read. */
  ghost predicate NeverShort(c: Config, data: seq<byte>)
    requires |data| == c.nbytes
  {
    forall acts | CanRun(c, Init(data), acts) ::
      !Run(c, Init(data), acts).parent.pc.Failed? && !Run(c, Init(data), acts).child.pc.Failed?
  }

  lemma {:induction false} EmptyMessages(c: Config, s: State, acts: seq<Action>)
    requires c.nbytes == 0 && Shape(c, s) && !s.parent.pc.Failed? && !s.child.pc.Failed? && CanRun(c, s, acts)
    ensures !Run(c, s, acts).parent.pc.Failed? && !Run(c, s, acts).child.pc.Failed?
    decreases |acts|
  {
    if acts != [] {
      EmptyMessages(c, Apply(c, s, acts[0]), acts[1..]);
    }
  }

  /** A message that does not fit can come short at every length the pipe can hold: k
      bytes arrive, and the read of them fails. */
  lemma ShortReadRun(c: Config, data: seq<byte>, k: nat) returns (acts: seq<Action>)
    requires Valid(c) && |data| == c.nbytes > c.pipeBuf && 1 <= k < c.nbytes && k <= c.capacity
    ensures |acts| == 2 && acts[1] == Read(Child)
    ensures CanRun(c, Init(data), acts[..1]) && Run(c, Init(data), acts[..1]).toChild == data[..k]
    ensures CanRun(c, Init(data), acts) && Run(c, Init(data), acts).child.pc.Failed?
  {
    var s := Init(data);
    var s1 := Apply(c, s, Write(Parent, k));
    var s2 := Apply(c, s1, Read(Child));
    acts := [Write(Parent, k), Read(Child)];
    assert acts[1..] == [Read(Child)] && [Read(Child)][1..] == [];
    assert acts[..1] == [Write(Parent, k)] && acts[..1][1..] == [];
    assert CanRun(c, s1, [Read(Child)]) && Run(c, s1, [Read(Child)]) == s2;
  }

  function Total(sizes: seq<nat>): nat {
    if sizes == [] then 0 else sizes[0] + Total(sizes[1..])
  }

  /** The pieces of one write, one after another. */
  function InPieces(who: Who, sizes: seq<nat>): (acts: seq<Action>)
    ensures |acts| == |sizes|
  {
    if sizes == [] then [] else [Write(who, sizes[0])] + InPieces(who, sizes[1..])
  }

  lemma {:induction false} PiecesMakeMessage(c: Config, s: State, sizes: seq<nat>)
    requires Shape(c, s) && c.nbytes > c.pipeBuf && s.parent.pc.Writing? && sizes != []
    requires forall n | n in sizes :: n >= 1
    requires s.parent.pc.pos + Total(sizes) == c.nbytes && |s.toChild| + Total(sizes) <= c.capacity
    ensures CanRun(c, s, InPieces(Parent, sizes))
    ensures Run(c, s, InPieces(Parent, sizes))
      == s.(parent := s.parent.(pc := CountWrite), toChild := s.toChild + s.parent.buf[s.parent.pc.pos..])
    decreases |sizes|
  {
    var n, pos := sizes[0], s.parent.pc.pos;
    assert n in sizes;
    var r := Apply(c, s, Write(Parent, n));
    assert InPieces(Parent, sizes)[1..] == InPieces(Parent, sizes[1..]);
    assert s.parent.buf[pos..pos + n] + s.parent.buf[pos + n..] == s.parent.buf[pos..];
    if |sizes| == 1 {
      assert sizes[1..] == [] && s.parent.buf[pos..pos + n] == s.parent.buf[pos..];
    } else {
      assert forall m | m in sizes[1..] :: m in sizes;
      assert sizes[1] in sizes && Total(sizes[1..]) >= sizes[1];
      PiecesMakeMessage(c, r, sizes[1..]);
      assert (s.toChild + s.parent.buf[pos..pos + n]) + s.parent.buf[pos + n..] == s.toChild + s.parent.buf[pos..];
    }
  }

  /** A message longer than PIPE_BUF that still fits the pipe may be written in any pieces,
      and arrives whole when they are all there before the read. */
  lemma ArrivesWhole(c: Config, data: seq<byte>, sizes: seq<nat>)
    requires |data| == c.nbytes == Total(sizes) && c.pipeBuf < c.nbytes <= c.capacity
    requires forall n | n in sizes :: n >= 1
    ensures CanRun(c, Init(data), InPieces(Parent, sizes))
    ensures var s := Run(c, Init(data), InPieces(Parent, sizes));
      && s.parent.pc == CountWrite && s.toChild == data && Enabled(c, s, Read(Child))
      && Apply(c, s, Read(Child)).child == Proc(CountRead, data, 0, 0)
  {
    PiecesMakeMessage(c, Init(data), sizes);
    assert [] + data[0..] == data && data[..c.nbytes] + data[c.nbytes..] == data;
  }

  /** The mismatch exits are unreachable exactly when a message fits PIPE_BUF. */
  lemma NeverShortIff(c: Config, data: seq<byte>)
    requires Valid(c) && |data| == c.nbytes
    ensures NeverShort(c, data) <==> c.nbytes <= c.pipeBuf
  {
    if c.nbytes > c.pipeBuf {
      var acts := ShortReadRun(c, data, 1);
    } else {
      forall acts | CanRun(c, Init(data), acts)
        ensures !Run(c, Init(data), acts).parent.pc.Failed? && !Run(c, Init(data), acts).child.pc.Failed?
      {
        if c.nbytes == 0 {
          EmptyMessages(c, Init(data), acts);
        } else {
          InitInv(c, data);
          RunInv(c, data, Init(data), acts);
        }
      }
    }
  }
}
