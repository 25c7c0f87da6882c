/** Schedules on which the kernel holds one block's read back while the other block goes on:
    how one block's bytes reach the other through a shared buffer. */
module AioPipeHolding {
  import opened Prelude
  import opened AioPipe
  import opened AioPipeInvariant
  import opened AioPipeProgress

  /** Block h's read is in flight and main has finished the set-up. */
  ghost predicate Held(v: Variant, s: State, h: Id) {
    Inv(v, s) && !s.pc.Setup? && TurnOf(s, h) == Flying(Read)
  }

  /** The offset of the block that holds byte q. */
  function Base(q: nat): nat {
    q - q % BUFSIZE
  }

  /** Byte q of the input is one that block k reads in some lap. */
  ghost predicate Reads(v: Variant, len: nat, k: Id, q: nat) {
    Owner(q) == k && q < len && (v.rereadStdin || q < STRIDE)
  }

  lemma BaseOf(q: nat, k: Id)
    requires Owner(q) == k
    ensures Base(q) % STRIDE == k * BUFSIZE
  {
    assert q == 4096 * (q / BUFSIZE) + q % BUFSIZE;
    assert q / BUFSIZE == 2 * (q / BUFSIZE / 2) + k;
    assert Base(q) == 8192 * (q / BUFSIZE / 2) + 4096 * k;
  }

  lemma NextLapBelow(curr: nat, base: nat)
    requires curr % STRIDE == base % STRIDE && curr < base
    ensures curr + STRIDE <= base
  {
    assert curr == 8192 * (curr / STRIDE) + curr % STRIDE;
    assert base == 8192 * (base / STRIDE) + base % STRIDE;
  }

  /** Anything but the held block's own progress. */
  predicate Spares(a: Action, h: Id) {
    a != Transfer(h) && a != Complete(h)
  }

  /** An action that can be taken without moving the held block. */
  ghost function DriveAction(v: Variant, s: State, k: Id): (a: Action)
    requires Held(v, s, 1 - k) && TurnOf(s, k) != Finished
    ensures Enabled(v, s, a) && Spares(a, 1 - k)
  {
    if s.frames != [] then (if s.frames[0].handled then Return else Handle)
    else if !s.pc.Suspended? then Mainline
    else if s.readQ != [] then Deliver(SigReadDone)
    else if s.writeQ != [] then Deliver(SigWriteDone)
    else if MoreToMove(v, s, k) then Transfer(k) else Complete(k)
  }

  // ---------- until a byte is read ----------

  /** Block k has not read byte q yet, and will read it into buf1. */
  ghost predicate Before(v: Variant, s: State, k: Id, q: nat)
    requires Shape(s)
  {
    var c := s.cbs[k];
    && Reads(v, |s.input|, k, q) && (k == 0 || STRIDE <= q)
    && c.currOffset <= Base(q)
    && (c.currOffset == Base(q) ==>
          TurnOf(s, k) == Flying(Read) && c.flight.Some? && c.flight.value.done <= q % BUFSIZE)
  }

  /** Block k is in the read that has moved byte q. */
  ghost predicate Past(s: State, k: Id, q: nat)
    requires Shape(s)
  {
    var c := s.cbs[k];
    TurnOf(s, k) == Flying(Read) && c.currOffset == Base(q) && c.flight.Some? && c.flight.value.done > q % BUFSIZE
  }

  /** One action, on which block k gets no further than byte q. */
  ghost predicate NearsRead(v: Variant, s: State, r: State, k: Id, q: nat)
    requires Shape(s) && Shape(r) && q < |s.input|
  {
    && TurnOf(r, 1 - k) == TurnOf(s, 1 - k) && r.cbs[1 - k] == s.cbs[1 - k] && r.input == s.input
    && (Before(v, r, k, q) || (Past(r, k, q) && r.bufs[0][q % BUFSIZE] == s.input[q]))
  }

  lemma NotFinished(v: Variant, s: State, k: Id, q: nat)
    requires Inv(v, s) && Reads(v, |s.input|, k, q) && s.cbs[k].currOffset <= Base(q)
    ensures TurnOf(s, k) != Finished && !AtEnd(v, |s.input|, s.cbs[k].currOffset)
  {
    BaseOf(q, k);
    assert BlockOk(v, |s.input|, k, TurnOf(s, k), s.cbs[k]);
  }

  lemma TransferNearsRead(v: Variant, s: State, k: Id, q: nat)
    requires !v.ownBuffer && Inv(v, s) && Before(v, s, k, q) && Enabled(v, s, Transfer(k))
    ensures NearsRead(v, s, TransferStep(v, s, k), k, q)
  {
    TransferTurn(v, s, k);
    assert BlockOk(v, |s.input|, k, TurnOf(s, k), s.cbs[k]);
    BaseOf(q, k);
    var c, r := s.cbs[k], TransferStep(v, s, k);
    if c.currOffset == Base(q) {
      assert c.buf == 0 && c.fildes == Stdin;
      assert r.bufs[0] == s.bufs[0][c.flight.value.done := s.input[c.offset + c.flight.value.done]];
    }
  }

  lemma CompleteNearsRead(v: Variant, s: State, k: Id, q: nat)
    requires Inv(v, s) && Before(v, s, k, q) && Enabled(v, s, Complete(k))
    ensures NearsRead(v, s, CompleteStep(v, s, k), k, q)
  {
    CompleteTurn(v, s, k);
    assert BlockOk(v, |s.input|, k, TurnOf(s, k), s.cbs[k]);
    BaseOf(q, k);
  }

  /** Block k's handler has run, the other block's read is in flight. */
  ghost predicate Handled(v: Variant, s: State, r: State, k: Id, op: Op)
    requires Shape(s) && Shape(r)
  {
    && TurnOf(s, k) == Ended(op) && TurnMoves(s, r, k, if op == Read then Flying(Write) else Flying(Read))
    && r.bufs == s.bufs
    && if op == Read then ReadEffect(v, s, r, k) && s.cbs[k].result > 0 else WriteEffect(v, s, r, k)
  }

  /** The handler that runs while a block's read is in flight is the other block's. */
  lemma HandlerIs(v: Variant, s: State, k: Id)
    requires Shape(s) && Control(s) && Enabled(v, s, Handle) && TurnOf(s, 1 - k) == Flying(Read)
    ensures s.frames[0].cb == k && TurnOf(s, k) == Ended(if s.frames[0].sig == SigReadDone then Read else Write)
  {
    var j := s.frames[0].cb;
    assert TurnOf(s, j) == Ended(if s.frames[0].sig == SigReadDone then Read else Write) by {
      if s.frames[0].sig == SigReadDone { HandleReadTurn(v, s); } else { HandleWriteTurn(v, s); }
    }
    assert j != 1 - k;
  }

  lemma HandlerRuns(v: Variant, s: State, k: Id)
    requires Shape(s) && Control(s) && Enabled(v, s, Handle) && TurnOf(s, 1 - k) == Flying(Read)
    requires BlockOk(v, |s.input|, k, TurnOf(s, k), s.cbs[k]) && !AtEnd(v, |s.input|, s.cbs[k].currOffset)
    ensures Handled(v, s, HandleStep(v, s), k, if s.frames[0].sig == SigReadDone then Read else Write)
  {
    HandlerIs(v, s, k);
    if s.frames[0].sig == SigReadDone {
      HandleReadTurn(v, s);
      HandleReadEffect(v, s);
    } else {
      HandleWriteTurn(v, s);
      HandleWriteEffect(v, s);
    }
  }

  lemma HandledNearsRead(v: Variant, s: State, r: State, k: Id, op: Op, q: nat)
    requires Shape(s) && Shape(r) && Handled(v, s, r, k, op) && Before(v, s, k, q)
    requires BlockOk(v, |s.input|, k, TurnOf(s, k), s.cbs[k])
    ensures NearsRead(v, s, r, k, q)
  {
    if op == Write {
      BaseOf(q, k);
      NextLapBelow(s.cbs[k].currOffset, Base(q));
    }
  }

  lemma HandleNearsRead(v: Variant, s: State, k: Id, q: nat)
    requires Held(v, s, 1 - k) && Before(v, s, k, q) && Enabled(v, s, Handle)
    ensures NearsRead(v, s, HandleStep(v, s), k, q)
  {
    NotFinished(v, s, k, q);
    HandlerRuns(v, s, k);
    HandledNearsRead(v, s, HandleStep(v, s), k, if s.frames[0].sig == SigReadDone then Read else Write, q);
  }

  /** Actions of main and the kernel that move neither block. */
  lemma IdleStep(v: Variant, s: State, a: Action)
    requires Shape(s) && Control(s) && Enabled(v, s, a) && !s.pc.Setup?
    requires a.Mainline? || a.Deliver? || a.Return?
    ensures var r := Apply(v, s, a);
      SameTurns(s, r) && r.cbs == s.cbs && r.bufs == s.bufs && r.out == s.out && r.input == s.input
  {
    match a
    case Mainline => MainTurn(s);
    case Deliver(sig) => DeliverTurn(v, s, sig);
    case _ => ReturnTurn(v, s);
  }

  lemma StepNearsRead(v: Variant, s: State, a: Action, k: Id, q: nat)
    requires !v.ownBuffer && Held(v, s, 1 - k) && Before(v, s, k, q) && Enabled(v, s, a) && Spares(a, 1 - k)
    ensures NearsRead(v, s, Apply(v, s, a), k, q)
  {
    match a
    case Transfer(j) => TransferNearsRead(v, s, k, q);
    case Complete(j) => CompleteNearsRead(v, s, k, q);
    case Handle => HandleNearsRead(v, s, k, q);
    case _ => IdleStep(v, s, a);
  }

  lemma HeldStays(v: Variant, s: State, a: Action, h: Id)
    requires Held(v, s, h) && Enabled(v, s, a) && TurnOf(Apply(v, s, a), h) == TurnOf(s, h)
    ensures Held(v, Apply(v, s, a), h)
  {
    StepInv(v, s, a);
  }

  /** A schedule on which block k goes on, whatever the lap, until buf1 holds byte q, while
      the other block waits. */
  lemma {:induction false} DriveToRead(v: Variant, s: State, k: Id, q: nat) returns (acts: seq<Action>)
    requires !v.ownBuffer && Held(v, s, 1 - k) && Before(v, s, k, q)
    ensures CanRun(v, s, acts)
    ensures var r := Run(v, s, acts);
      && Held(v, r, 1 - k) && r.cbs[1 - k] == s.cbs[1 - k] && r.input == s.input
      && Past(r, k, q) && r.bufs[0][q % BUFSIZE] == s.input[q]
    decreases Measure(s)
  {
    NotFinished(v, s, k, q);
    var a := DriveAction(v, s, k);
    var r := Apply(v, s, a);
    StepNearsRead(v, s, a, k, q);
    HeldStays(v, s, a, 1 - k);
    var rest := [];
    if Before(v, r, k, q) {
      StepDecreases(v, s, a);
      rest := DriveToRead(v, r, k, q);
    }
    RunCons(v, s, a, rest, r);
    acts := [a] + rest;
  }

  // ---------- until a byte is written ----------

  /** Block k is in the lap that writes byte p and will not store into buf1 there before. */
  ghost predicate Aims(v: Variant, s: State, k: Id, p: nat)
    requires Shape(s)
  {
    var c := s.cbs[k];
    && Reads(v, |s.input|, k, p) && c.currOffset == Base(p) && !Written(s.out, p)
    && (TurnOf(s, k) == Flying(Read) ==> c.buf == 1 || Past(s, k, p))
  }

  /** One action, on which block k writes no byte at p but the one in buf1. */
  ghost predicate NearsWrite(v: Variant, s: State, r: State, k: Id, p: nat)
    requires Shape(s) && Shape(r)
  {
    var i := p % BUFSIZE;
    && TurnOf(r, 1 - k) == TurnOf(s, 1 - k) && r.input == s.input && r.bufs[0][i] == s.bufs[0][i]
    && (Aims(v, r, k, p) || (Written(r.out, p) && r.out[p].value == s.bufs[0][i]))
  }

  lemma ReadByteNearsWrite(v: Variant, s: State, k: Id, p: nat)
    requires Inv(v, s) && Aims(v, s, k, p) && Enabled(v, s, Transfer(k)) && TurnOf(s, k) == Flying(Read)
    ensures NearsWrite(v, s, TransferStep(v, s, k), k, p)
  {
    TransferTurn(v, s, k);
    assert BlockOk(v, |s.input|, k, Flying(Read), s.cbs[k]);
  }

  lemma WriteByteNearsWrite(v: Variant, s: State, k: Id, p: nat)
    requires !v.ownBuffer && Inv(v, s) && Aims(v, s, k, p) && Enabled(v, s, Transfer(k))
    requires TurnOf(s, k) == Flying(Write)
    ensures NearsWrite(v, s, TransferStep(v, s, k), k, p)
  {
    TransferTurn(v, s, k);
    assert BlockOk(v, |s.input|, k, Flying(Write), s.cbs[k]);
  }

  lemma TransferNearsWrite(v: Variant, s: State, k: Id, p: nat)
    requires !v.ownBuffer && Inv(v, s) && Aims(v, s, k, p) && Enabled(v, s, Transfer(k))
    ensures NearsWrite(v, s, TransferStep(v, s, k), k, p)
  {
    if TurnOf(s, k) == Flying(Read) { ReadByteNearsWrite(v, s, k, p); } else { WriteByteNearsWrite(v, s, k, p); }
  }

  lemma CompleteNearsWrite(v: Variant, s: State, k: Id, p: nat)
    requires Inv(v, s) && Aims(v, s, k, p) && Enabled(v, s, Complete(k))
    ensures NearsWrite(v, s, CompleteStep(v, s, k), k, p)
  {
    CompleteTurn(v, s, k);
    assert BlockOk(v, |s.input|, k, TurnOf(s, k), s.cbs[k]);
  }

  /** A block whose write is over has written all of this lap. */
  lemma NotWritten(v: Variant, s: State, k: Id, p: nat)
    requires Inv(v, s) && Reads(v, |s.input|, k, p) && s.cbs[k].currOffset == Base(p) && !Written(s.out, p)
    ensures TurnOf(s, k) != Ended(Write)
  {
    assert MarkOf(s, k) <= p;
    assert BlockOk(v, |s.input|, k, TurnOf(s, k), s.cbs[k]);
  }

  lemma HandledNearsWrite(v: Variant, s: State, r: State, k: Id, op: Op, p: nat)
    requires Shape(s) && Shape(r) && Handled(v, s, r, k, op) && Aims(v, s, k, p) && op == Read
    ensures NearsWrite(v, s, r, k, p)
  {
  }

  lemma HandleNearsWrite(v: Variant, s: State, k: Id, p: nat)
    requires Held(v, s, 1 - k) && Aims(v, s, k, p) && Enabled(v, s, Handle)
    ensures NearsWrite(v, s, HandleStep(v, s), k, p)
  {
    NotFinished(v, s, k, p);
    NotWritten(v, s, k, p);
    HandlerRuns(v, s, k);
    HandledNearsWrite(v, s, HandleStep(v, s), k, Read, p);
  }

  lemma StepNearsWrite(v: Variant, s: State, a: Action, k: Id, p: nat)
    requires !v.ownBuffer && Held(v, s, 1 - k) && Aims(v, s, k, p) && Enabled(v, s, a) && Spares(a, 1 - k)
    ensures NearsWrite(v, s, Apply(v, s, a), k, p)
  {
    match a
    case Transfer(j) => TransferNearsWrite(v, s, k, p);
    case Complete(j) => CompleteNearsWrite(v, s, k, p);
    case Handle => HandleNearsWrite(v, s, k, p);
    case _ => IdleStep(v, s, a);
  }

  /** A schedule on which block k writes at p the byte that buf1 holds now, while the other
      block waits. */
  lemma {:induction false} DriveToWrite(v: Variant, s: State, k: Id, p: nat) returns (acts: seq<Action>)
    requires !v.ownBuffer && Held(v, s, 1 - k) && Aims(v, s, k, p)
    ensures CanRun(v, s, acts)
    ensures var r := Run(v, s, acts);
      Inv(v, r) && r.input == s.input && Written(r.out, p) && r.out[p].value == s.bufs[0][p % BUFSIZE]
    decreases Measure(s)
  {
    NotFinished(v, s, k, p);
    var a := DriveAction(v, s, k);
    var r := Apply(v, s, a);
    StepNearsWrite(v, s, a, k, p);
    HeldStays(v, s, a, 1 - k);
    var rest := [];
    if Aims(v, r, k, p) {
      StepDecreases(v, s, a);
      rest := DriveToWrite(v, r, k, p);
    }
    RunCons(v, s, a, rest, r);
    acts := [a] + rest;
  }
}
