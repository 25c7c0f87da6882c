/** The asynchronous double-buffered copy (aiopipe.c) as a step machine.

    The program is two control blocks, two completion handlers and a main loop in
    sigsuspend; the kernel moves the bytes of each submitted operation one at a time,
    queues one completion signal per operation and delivers the queues in any order.
    A schedule is a sequence of actions; every interleaving is a schedule. */
module AioPipe {
  import opened Prelude

  const BUFSIZE: nat := 4096
  const STRIDE: nat := 2 * BUFSIZE

  /** A control block, or the buffer it owns. */
  type Id = k: nat | k < 2

  /** ownBuffer: each block transfers through its own `buffer`; otherwise the handlers
      use buf1 for both blocks, as the file is written.
      rereadStdin: the write handler re-reads standard input; otherwise it re-reads
      standard output, as the file is written.
      stdoutReadable: whether standard output was opened for reading too. */
  datatype Variant = Variant(ownBuffer: bool, rereadStdin: bool, stdoutReadable: bool)

  datatype Fd = Stdin | Stdout
  datatype Sig = SigReadDone | SigWriteDone
  datatype Op = Read | Write

  /** What the kernel keeps of a submitted operation: its direction and the bytes moved. */
  datatype Flight = Flight(op: Op, done: nat)

  /** struct aiocb_plus, with the kernel's part (flight, result) at the end. */
  datatype Aiocb = Aiocb(
    fildes: Fd, buf: Id, nbytes: nat, offset: nat, signo: Sig,
    currOffset: nat, buffer: Id,
    flight: Option<Flight>, result: int)

  datatype Frame = Frame(sig: Sig, cb: Id, handled: bool, saved: set<Sig>)

  /** Woken: a handler has run inside sigsuspend, which has not yet returned. */
  datatype Pc = Setup(next: nat) | Test | Suspended | Woken | Exited

  /** A cell of the output file: None is a hole or beyond anything written. */
  type File = seq<Option<byte>>

  datatype State = State(
    input: seq<byte>, out: File, bufs: seq<seq<byte>>, cbs: seq<Aiocb>,
    readQ: seq<Id>, writeQ: seq<Id>, mask: set<Sig>, frames: seq<Frame>,
    pc: Pc, aioToGo: int,
    nreads: nat, nwrites: nat)   // completions handled so far, of either kind

  ghost predicate Shape(s: State) {
    |s.cbs| == 2 && |s.bufs| == 2 && |s.bufs[0]| == BUFSIZE && |s.bufs[1]| == BUFSIZE
  }

  const ALLSIGS: set<Sig> := {SigReadDone, SigWriteDone}

  function Zeroed(): (b: seq<byte>)
    ensures |b| == BUFSIZE && forall i | 0 <= i < |b| :: b[i] == 0
  {
    seq(BUFSIZE, _ => 0)
  }

  const BLANK := Aiocb(Stdin, 0, 0, 0, SigReadDone, 0, 0, None, 0)

  /** The state in which main reaches `aio_read(&a1.a)`: handlers installed, both
      completion signals blocked, aio_to_go = 2. */
  function Init(input: seq<byte>): (s: State)
    ensures Shape(s)
  {
    State(input, [], [Zeroed(), Zeroed()], [BLANK, BLANK], [], [], ALLSIGS, [], Setup(0), 2, 0, 0)
  }

  // ---------- the kernel ----------

  function Size(s: State, fd: Fd): nat {
    if fd == Stdin then |s.input| else |s.out|
  }

  function ByteAt(s: State, fd: Fd, p: nat): byte
    requires p < Size(s, fd)
  {
    if fd == Stdin then s.input[p]
    else if s.out[p].Some? then s.out[p].value else 0
  }

  predicate Readable(v: Variant, fd: Fd) {
    fd == Stdin || v.stdoutReadable
  }

  /** Whether the operation in flight on block k still has a byte to move: reads are
      short only at end of file, writes are complete. */
  predicate MoreToMove(v: Variant, s: State, k: Id)
    requires Shape(s) && s.cbs[k].flight.Some?
  {
    var c := s.cbs[k];
    var f := c.flight.value;
    && f.done < Min(c.nbytes, BUFSIZE)
    && (f.op == Read ==> Readable(v, c.fildes) && c.offset + f.done < Size(s, c.fildes))
  }

  /** The file after one byte is stored at offset p, with a hole before it if needed. */
  function StoreAt(out: File, p: nat, b: byte): (r: File)
    ensures |r| == if p < |out| then |out| else p + 1
    ensures forall i | 0 <= i < |r| :: r[i] == if i == p then Some(b) else if i < |out| then out[i] else None
  {
    if p < |out| then out[p := Some(b)]
    else out + seq(p - |out|, _ => None) + [Some(b)]
  }

  predicate Written(out: File, p: nat) {
    p < |out| && out[p].Some?
  }

  function Queue(s: State, sig: Sig): seq<Id> {
    if sig == SigReadDone then s.readQ else s.writeQ
  }

  function WithQueue(s: State, sig: Sig, q: seq<Id>): State {
    if sig == SigReadDone then s.(readQ := q) else s.(writeQ := q)
  }

  function WithCb(s: State, k: Id, c: Aiocb): State
    requires Shape(s)
  {
    s.(cbs := s.cbs[k := c])
  }

  // ---------- the program ----------

  /** aio_read or aio_write of a block whose other fields are already set. */
  function Submit(c: Aiocb, op: Op): Aiocb {
    c.(flight := Some(Flight(op, 0)))
  }

  function Target(v: Variant, c: Aiocb): Id {
    if v.ownBuffer then c.buffer else 0
  }

  /** main's set-up of block k and its first aio_read. */
  function FirstRead(k: Id): Aiocb {
    Submit(Aiocb(Stdin, k, BUFSIZE, k * BUFSIZE, SigReadDone, k * BUFSIZE, k, None, 0), Read)
  }

  /** aioread_done for block k. */
  function ReadHandler(v: Variant, s: State, k: Id): (r: State)
    requires Shape(s)
    ensures Shape(r)
  {
    var c := s.cbs[k];
    var s := s.(nreads := s.nreads + 1);
    if c.result > 0 then
      WithCb(s, k, Submit(c.(fildes := Stdout, buf := Target(v, c), nbytes := c.result,
                             offset := c.currOffset, signo := SigWriteDone), Write))
    else
      s.(aioToGo := s.aioToGo - 1)
  }

  /** aiowrite_done for block k. */
  function WriteHandler(v: Variant, s: State, k: Id): (r: State)
    requires Shape(s)
    ensures Shape(r)
  {
    var c := s.cbs[k];
    var next := c.currOffset + STRIDE;
    WithCb(s.(nwrites := s.nwrites + 1), k,
           Submit(c.(fildes := if v.rereadStdin then Stdin else Stdout, buf := Target(v, c),
                     nbytes := BUFSIZE, currOffset := next, offset := next, signo := SigReadDone), Read))
  }

  // ---------- schedules ----------

  datatype Action =
    | Mainline             // one step of main: a set-up, the loop test, the return of sigsuspend
    | Transfer(k: Id)      // the kernel moves one byte of block k's operation
    | Complete(k: Id)      // the kernel finishes it and queues its signal
    | Deliver(sig: Sig)    // the first queued signal of this number starts its handler
    | Handle               // the body of the running handler
    | Return               // the running handler returns

  predicate Enabled(v: Variant, s: State, a: Action)
    requires Shape(s)
  {
    match a
    case Mainline => s.frames == [] && !s.pc.Suspended? && !s.pc.Exited? && (s.pc.Setup? ==> s.pc.next < 2)
    case Transfer(k) => s.cbs[k].flight.Some? && MoreToMove(v, s, k)
    case Complete(k) => s.cbs[k].flight.Some? && !MoreToMove(v, s, k)
    case Deliver(sig) => !s.pc.Exited? && sig !in s.mask && Queue(s, sig) != []
    case Handle => s.frames != [] && !s.frames[|s.frames| - 1].handled
    case Return => s.frames != [] && s.frames[|s.frames| - 1].handled
  }

  function MainStep(s: State): (r: State)
    requires Shape(s) && (s.pc.Setup? ==> s.pc.next < 2)
    ensures Shape(r)
  {
    match s.pc
    case Setup(k) => WithCb(s, k, FirstRead(k)).(pc := if k == 0 then Setup(1) else Test)
    case Test => if s.aioToGo != 0 then s.(pc := Suspended, mask := {}) else s.(pc := Exited)
    case Woken => s.(pc := Test, mask := ALLSIGS)
    case _ => s
  }

  function TransferStep(v: Variant, s: State, k: Id): (r: State)
    requires Shape(s) && s.cbs[k].flight.Some? && MoreToMove(v, s, k)
    ensures Shape(r)
  {
    var c := s.cbs[k];
    var f := c.flight.value;
    var s' := WithCb(s, k, c.(flight := Some(f.(done := f.done + 1))));
    if f.op == Read then
      s'.(bufs := s.bufs[c.buf := s.bufs[c.buf][f.done := ByteAt(s, c.fildes, c.offset + f.done)]])
    else
      s'.(out := StoreAt(s.out, c.offset + f.done, s.bufs[c.buf][f.done]))
  }

  function CompleteStep(v: Variant, s: State, k: Id): (r: State)
    requires Shape(s) && s.cbs[k].flight.Some?
    ensures Shape(r)
  {
    var c := s.cbs[k];
    var n := if c.flight.value.op == Read && !Readable(v, c.fildes) then -1 else c.flight.value.done;
    WithQueue(WithCb(s, k, c.(flight := None, result := n)), c.signo, Queue(s, c.signo) + [k])
  }

  /** A handler runs with the current mask, its sa_mask and its own signal blocked: each
      handler's sa_mask holds the other completion signal. */
  function DeliverStep(s: State, sig: Sig): (r: State)
    requires Shape(s) && Queue(s, sig) != []
    ensures Shape(r)
  {
    var q := Queue(s, sig);
    var saMask := if sig == SigReadDone then {SigWriteDone} else {SigReadDone};
    WithQueue(s, sig, q[1..]).(frames := s.frames + [Frame(sig, q[0], false, s.mask)],
                               mask := s.mask + saMask + {sig})
  }

  function HandleStep(v: Variant, s: State): (r: State)
    requires Shape(s) && s.frames != []
    ensures Shape(r)
  {
    var f := s.frames[|s.frames| - 1];
    var s' := s.(frames := s.frames[|s.frames| - 1 := f.(handled := true)]);
    if f.sig == SigReadDone then ReadHandler(v, s', f.cb) else WriteHandler(v, s', f.cb)
  }

  function ReturnStep(s: State): (r: State)
    requires Shape(s) && s.frames != []
    ensures Shape(r)
  {
    var n := |s.frames| - 1;
    s.(mask := s.frames[n].saved, frames := s.frames[..n],
       pc := if n == 0 && s.pc.Suspended? then Woken else s.pc)
  }

  function Apply(v: Variant, s: State, a: Action): (r: State)
    requires Shape(s) && Enabled(v, s, a)
    ensures Shape(r)
  {
    match a
    case Mainline => MainStep(s)
    case Transfer(k) => TransferStep(v, s, k)
    case Complete(k) => CompleteStep(v, s, k)
    case Deliver(sig) => DeliverStep(s, sig)
    case Handle => HandleStep(v, s)
    case Return => ReturnStep(s)
  }

  ghost predicate CanRun(v: Variant, s: State, acts: seq<Action>)
    requires Shape(s)
    decreases |acts|
  {
    acts == [] || (Enabled(v, s, acts[0]) && CanRun(v, Apply(v, s, acts[0]), acts[1..]))
  }

  ghost function Run(v: Variant, s: State, acts: seq<Action>): (r: State)
    requires Shape(s) && CanRun(v, s, acts)
    ensures Shape(r)
    decreases |acts|
  {
    if acts == [] then s else Run(v, Apply(v, s, acts[0]), acts[1..])
  }

  /** The output file that is the input, with no hole. */
  ghost predicate IsCopy(s: State) {
    |s.out| == |s.input| && forall p | 0 <= p < |s.input| :: s.out[p] == Some(s.input[p])
  }

  /** Every complete run of this variant copies this input. */
  ghost predicate AlwaysCopies(v: Variant, input: seq<byte>) {
    forall acts | CanRun(v, Init(input), acts) && Run(v, Init(input), acts).pc.Exited? ::
      IsCopy(Run(v, Init(input), acts))
  }
}
