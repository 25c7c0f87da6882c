/** What every step of the copy keeps, in every variant and under every schedule. */
module AioPipeInvariant {
  import opened Prelude
  import opened AioPipe

  // ---------- whose turn it is ----------

  function Running(frames: seq<Frame>, k: Id): nat {
    if frames == [] then 0
    else (if frames[0].cb == k && !frames[0].handled then 1 else 0) + Running(frames[1..], k)
  }

  /** How often block k is waiting to be started, in flight, queued, or in a handler that
      has not acted yet. */
  function Tokens(s: State, k: Id): nat
    requires Shape(s)
  {
    (if s.pc.Setup? && s.pc.next <= k then 1 else 0)
    + (if s.cbs[k].flight.Some? then 1 else 0)
    + multiset(s.readQ)[k] + multiset(s.writeQ)[k]
    + Running(s.frames, k)
  }

  ghost predicate InHandler(s: State, sig: Sig, k: Id) {
    s.frames != [] && s.frames[0].sig == sig && s.frames[0].cb == k && !s.frames[0].handled
  }

  /** Ended: the operation is over and its handler has still to act on it. */
  datatype Turn = Waiting | Flying(op: Op) | Ended(op: Op) | Finished

  ghost function TurnOf(s: State, k: Id): Turn
    requires Shape(s)
  {
    if s.pc.Setup? && s.pc.next <= k then Waiting
    else if s.cbs[k].flight.Some? then Flying(s.cbs[k].flight.value.op)
    else if k in s.readQ || InHandler(s, SigReadDone, k) then Ended(Read)
    else if k in s.writeQ || InHandler(s, SigWriteDone, k) then Ended(Write)
    else Finished
  }

  // ---------- the invariant ----------

  ghost predicate FramesOk(s: State) {
    && |s.frames| <= 1
    && (s.frames != [] ==> (s.pc.Suspended? || s.pc.Woken?) && s.frames[0].saved == {})
    && s.mask == (if s.frames == [] && (s.pc.Suspended? || s.pc.Woken?) then {} else ALLSIGS)
    && (s.pc.Setup? ==> s.pc.next < 2)
  }

  ghost predicate Control(s: State)
    requires Shape(s)
  {
    && FramesOk(s)
    && Tokens(s, 0) <= 1 && Tokens(s, 1) <= 1
    && s.aioToGo == Tokens(s, 0) + Tokens(s, 1)
    && (s.pc.Suspended? && s.frames == [] ==> s.aioToGo > 0)
    && (s.pc.Exited? ==> s.aioToGo == 0)
  }

  /** The bytes of the block at offset curr of an input of len bytes. */
  function BlockLen(len: nat, curr: nat): nat {
    if curr >= len then 0 else Min(BUFSIZE, len - curr)
  }

  /** A control block at this offset finds no further data. */
  ghost predicate AtEnd(v: Variant, len: nat, curr: nat) {
    len <= curr || (!v.rereadStdin && STRIDE <= curr)
  }

  ghost predicate OffsetOk(v: Variant, len: nat, k: Id, c: Aiocb) {
    && c.buffer == k
    && c.currOffset % STRIDE == k * BUFSIZE
    && (c.currOffset == k * BUFSIZE || c.currOffset - STRIDE < len)
    && (!v.rereadStdin ==> c.currOffset < 2 * STRIDE)
  }

  ghost predicate ReadingOk(v: Variant, len: nat, k: Id, c: Aiocb) {
    && c.signo == SigReadDone && c.nbytes == BUFSIZE && c.offset == c.currOffset
    && c.fildes == (if c.currOffset < STRIDE || v.rereadStdin then Stdin else Stdout)
    && c.buf == (if c.currOffset < STRIDE then k else Target(v, c))
    && c.flight.Some?
    && c.flight.value.done <= (if AtEnd(v, len, c.currOffset) then 0 else BlockLen(len, c.currOffset))
  }

  ghost predicate WritingOk(v: Variant, len: nat, c: Aiocb) {
    && c.signo == SigWriteDone && c.fildes == Stdout && c.offset == c.currOffset
    && c.buf == Target(v, c)
    && c.flight.Some? && c.flight.value.done <= c.nbytes
    && !AtEnd(v, len, c.currOffset) && c.nbytes == BlockLen(len, c.currOffset)
  }

  /** What the read that finds no data returns: end of file, or an error when it reads a
      standard output that cannot be read. */
  function EndResult(v: Variant, curr: nat): int {
    if curr < STRIDE || v.rereadStdin || v.stdoutReadable then 0 else -1
  }

  ghost predicate BlockOk(v: Variant, len: nat, k: Id, t: Turn, c: Aiocb) {
    t != Waiting ==>
      && OffsetOk(v, len, k, c)
      && match t
         case Flying(op) => if op == Read then ReadingOk(v, len, k, c) else WritingOk(v, len, c)
         case Ended(op) =>
           if op == Read then
             if AtEnd(v, len, c.currOffset) then c.result == EndResult(v, c.currOffset) else c.result == BlockLen(len, c.currOffset)
           else !AtEnd(v, len, c.currOffset) && c.nbytes == BlockLen(len, c.currOffset)
         case Finished => AtEnd(v, len, c.currOffset) && c.result == EndResult(v, c.currOffset)
         case Waiting => true
  }

  /** The block whose turns cover file offset p. */
  function Owner(p: nat): Id {
    (p / BUFSIZE) % 2
  }

  /** How far block k's own offsets have been written. */
  ghost function Mark(t: Turn, c: Aiocb): nat {
    match t
    case Waiting => 0
    case Flying(op) => c.currOffset + if op == Write && c.flight.Some? then c.flight.value.done else 0
    case Ended(op) => c.currOffset + if op == Write then c.nbytes else 0
    case Finished => c.currOffset
  }

  ghost function MarkOf(s: State, k: Id): nat
    requires Shape(s)
  {
    Mark(TurnOf(s, k), s.cbs[k])
  }

  /** Exactly the offsets below the marks are written: the written blocks tile both
      blocks' past, and nothing else. */
  ghost predicate Frontier(v: Variant, len: nat, out: File, mark0: nat, mark1: nat) {
    && |out| <= len
    && (!v.rereadStdin ==> |out| <= STRIDE)
    && forall p: nat :: Written(out, p) <==> p < len && p < if Owner(p) == 0 then mark0 else mark1
  }

  ghost function Laps(t: Turn, c: Aiocb): nat {
    if t == Waiting then 0 else c.currOffset / STRIDE
  }

  /** 1 when a block in this turn has handled the read of its current block. */
  ghost function Ahead(t: Turn): nat {
    if t == Flying(Write) || t == Ended(Write) || t == Finished then 1 else 0
  }

  ghost predicate Counts(s: State, t0: Turn, t1: Turn)
    requires Shape(s)
  {
    && s.nwrites == Laps(t0, s.cbs[0]) + Laps(t1, s.cbs[1])
    && s.nreads == s.nwrites + Ahead(t0) + Ahead(t1)
  }

  ghost predicate Data(v: Variant, s: State, t0: Turn, t1: Turn)
    requires Shape(s)
  {
    && BlockOk(v, |s.input|, 0, t0, s.cbs[0]) && BlockOk(v, |s.input|, 1, t1, s.cbs[1])
    && Frontier(v, |s.input|, s.out, Mark(t0, s.cbs[0]), Mark(t1, s.cbs[1]))
    && Counts(s, t0, t1)
  }

  ghost predicate Inv(v: Variant, s: State) {
    Shape(s) && Control(s) && Data(v, s, TurnOf(s, 0), TurnOf(s, 1))
  }

  lemma InitInv(v: Variant, input: seq<byte>)
    ensures Inv(v, Init(input))
  {
  }

  // ---------- how each step moves the turns ----------

  ghost predicate SameTurns(s: State, r: State)
    requires Shape(s) && Shape(r)
  {
    TurnOf(r, 0) == TurnOf(s, 0) && TurnOf(r, 1) == TurnOf(s, 1)
  }

  /** Block k's turn becomes t, the other block's stays. */
  ghost predicate TurnMoves(s: State, r: State, k: Id, t: Turn)
    requires Shape(s) && Shape(r)
  {
    TurnOf(r, k) == t && TurnOf(r, 1 - k) == TurnOf(s, 1 - k) && r.cbs[1 - k] == s.cbs[1 - k]
  }

  lemma MainTurn(s: State)
    requires Shape(s) && Control(s) && s.frames == [] && !s.pc.Exited?
    requires s.pc.Setup? ==> s.pc.next < 2 && TurnOf(s, s.pc.next) == Waiting
    ensures Control(MainStep(s))
    ensures s.pc.Setup? ==> TurnMoves(s, MainStep(s), s.pc.next, Flying(Read))
    ensures !s.pc.Setup? ==> SameTurns(s, MainStep(s))
  {
  }

  lemma TransferTurn(v: Variant, s: State, k: Id)
    requires Shape(s) && Control(s) && Enabled(v, s, Transfer(k))
    ensures Control(TransferStep(v, s, k)) && SameTurns(s, TransferStep(v, s, k))
  {
  }

  lemma CompleteTokens(v: Variant, s: State, k: Id, j: Id)
    requires Shape(s) && s.cbs[k].flight.Some?
    ensures Tokens(CompleteStep(v, s, k), j) == Tokens(s, j)
  {
  }

  lemma CompleteTurnOf(v: Variant, s: State, k: Id, j: Id)
    requires Shape(s) && Control(s) && Enabled(v, s, Complete(k))
    ensures TurnOf(CompleteStep(v, s, k), j)
      == if j == k then Ended(if s.cbs[k].signo == SigReadDone then Read else Write) else TurnOf(s, j)
  {
    assert Tokens(s, j) <= 1;
  }

  lemma CompleteTurn(v: Variant, s: State, k: Id)
    requires Shape(s) && Control(s) && Enabled(v, s, Complete(k))
    ensures Control(CompleteStep(v, s, k))
    ensures TurnMoves(s, CompleteStep(v, s, k), k, Ended(if s.cbs[k].signo == SigReadDone then Read else Write))
  {
    forall j: Id
      ensures Tokens(CompleteStep(v, s, k), j) == Tokens(s, j)
      ensures TurnOf(CompleteStep(v, s, k), j)
        == if j == k then Ended(if s.cbs[k].signo == SigReadDone then Read else Write) else TurnOf(s, j)
    {
      CompleteTokens(v, s, k, j);
      CompleteTurnOf(v, s, k, j);
    }
  }

  lemma DeliverTokens(v: Variant, s: State, sig: Sig, j: Id)
    requires Shape(s) && FramesOk(s) && Enabled(v, s, Deliver(sig))
    ensures Tokens(DeliverStep(s, sig), j) == Tokens(s, j)
  {
    var q := Queue(s, sig);
    var f := Frame(sig, q[0], false, s.mask);
    assert q == [q[0]] + q[1..];
    assert s.frames == [] && DeliverStep(s, sig).frames == [f] && [f][1..] == [];
  }

  lemma DeliverTurnOf(v: Variant, s: State, sig: Sig, j: Id)
    requires Shape(s) && FramesOk(s) && Enabled(v, s, Deliver(sig))
    ensures TurnOf(DeliverStep(s, sig), j) == TurnOf(s, j)
  {
    var q := Queue(s, sig);
    assert s.frames == [];
    assert j in q <==> j == q[0] || j in q[1..];
  }

  lemma DeliverTurn(v: Variant, s: State, sig: Sig)
    requires Shape(s) && Control(s) && Enabled(v, s, Deliver(sig))
    ensures Control(DeliverStep(s, sig)) && SameTurns(s, DeliverStep(s, sig))
  {
    forall j: Id ensures Tokens(DeliverStep(s, sig), j) == Tokens(s, j) 
                      && TurnOf(DeliverStep(s, sig), j) == TurnOf(s, j) {
      DeliverTokens(v, s, sig, j);
      DeliverTurnOf(v, s, sig, j);
    }
  }

  /** The running handler's block is nowhere else. */
  lemma HandlerAlone(v: Variant, s: State)
    requires Shape(s) && Control(s) && Enabled(v, s, Handle)
    ensures var k := s.frames[0].cb;
      && s.frames == [Frame(s.frames[0].sig, k, false, {})] && Tokens(s, k) == 1
      && !s.pc.Setup? && s.cbs[k].flight == None && k !in s.readQ && k !in s.writeQ
  {
    assert Tokens(s, s.frames[0].cb) <= 1;
  }

  lemma HandleTokens(v: Variant, s: State, j: Id)
    requires Shape(s) && |s.frames| == 1 && s.frames == [Frame(s.frames[0].sig, s.frames[0].cb, false, {})]
    requires s.cbs[s.frames[0].cb].flight == None
    ensures Tokens(HandleStep(v, s), j) == Tokens(s, j) -
      if j == s.frames[0].cb && s.frames[0].sig == SigReadDone && s.cbs[j].result <= 0 then 1 else 0
  {
    assert s.frames[1..] == [] && HandleStep(v, s).frames[1..] == [];
  }

  lemma HandleReadTurn(v: Variant, s: State)
    requires Shape(s) && Control(s) && Enabled(v, s, Handle) && s.frames[0].sig == SigReadDone
    ensures var k := s.frames[0].cb;
      && Control(HandleStep(v, s)) && TurnOf(s, k) == Ended(Read)
      && TurnMoves(s, HandleStep(v, s), k, if s.cbs[k].result > 0 then Flying(Write) else Finished)
  {
    HandlerAlone(v, s);
    HandleTokens(v, s, 0);
    HandleTokens(v, s, 1);
  }

  lemma HandleWriteTurn(v: Variant, s: State)
    requires Shape(s) && Control(s) && Enabled(v, s, Handle) && s.frames[0].sig == SigWriteDone
    ensures var k := s.frames[0].cb;
      && Control(HandleStep(v, s)) && TurnOf(s, k) == Ended(Write)
      && TurnMoves(s, HandleStep(v, s), k, Flying(Read))
  {
    HandlerAlone(v, s);
    HandleTokens(v, s, 0);
    HandleTokens(v, s, 1);
  }

  lemma ReturnTurn(v: Variant, s: State)
    requires Shape(s) && Control(s) && Enabled(v, s, Return)
    ensures Control(ReturnStep(s)) && SameTurns(s, ReturnStep(s))
  {
    assert s.frames[1..] == [] == s.frames[..0];
  }

  // ---------- how each step keeps the rest ----------

  lemma OwnerOf(curr: nat, k: Id, p: nat)
    requires curr % STRIDE == k * BUFSIZE && curr <= p < curr + STRIDE
    ensures Owner(p) == if p < curr + BUFSIZE then k else 1 - k
  {
    var q := curr / STRIDE;
    assert curr == 8192 * q + 4096 * k;
    if p < curr + BUFSIZE {
      assert p / BUFSIZE == 2 * q + k;
    } else {
      assert p / BUFSIZE == 2 * q + k + 1;
    }
  }

  /** The file of the block-k owner may lag behind its mark only past the end of input. */
  lemma MarkPassesGap(v: Variant, len: nat, k: Id, t: Turn, c: Aiocb, p: nat)
    requires BlockOk(v, len, k, t, c) && t == Ended(Write)
    requires Owner(p) == k && p < len
    ensures p < Mark(t, c) <==> p < c.currOffset + STRIDE
  {
    if c.currOffset <= p < c.currOffset + STRIDE {
      OwnerOf(c.currOffset, k, p);
    }
  }

  /** Block k has moved to turn t, the other block has not moved. */
  lemma Reassemble(v: Variant, s: State, r: State, k: Id, t: Turn)
    requires Inv(v, s) && Shape(r) && Control(r) && r.input == s.input
    requires TurnMoves(s, r, k, t)
    requires BlockOk(v, |s.input|, k, t, r.cbs[k])
    requires Frontier(v, |s.input|, r.out, MarkOf(r, 0), MarkOf(r, 1))
    requires r.nwrites - s.nwrites == Laps(t, r.cbs[k]) - Laps(TurnOf(s, k), s.cbs[k])
    requires r.nreads - s.nreads == r.nwrites - s.nwrites + Ahead(t) - Ahead(TurnOf(s, k))
    ensures Inv(v, r)
  {
    if k == 0 {
      assert TurnOf(r, 0) == t && TurnOf(r, 1) == TurnOf(s, 1) && r.cbs[1] == s.cbs[1];
    } else {
      assert TurnOf(r, 1) == t && TurnOf(r, 0) == TurnOf(s, 0) && r.cbs[0] == s.cbs[0];
    }
  }

  /** The same when the marked positions and the file are as before. */
  lemma SameFrontier(v: Variant, s: State, r: State, k: Id, t: Turn)
    requires Inv(v, s) && Shape(r) && r.out == s.out && TurnMoves(s, r, k, t)
    requires forall p: nat | Owner(p) == k && p < |s.input| ::
      p < MarkOf(s, k) <==> p < Mark(t, r.cbs[k])
    ensures Frontier(v, |s.input|, r.out, MarkOf(r, 0), MarkOf(r, 1))
  {
    forall p: nat
      ensures Written(r.out, p) <==> p < |s.input| && p < if Owner(p) == 0 then MarkOf(r, 0) else MarkOf(r, 1)
    {
      var o := Owner(p);
      assert Written(s.out, p) <==> p < |s.input| && p < MarkOf(s, o);
      if o != k { assert o == 1 - k && MarkOf(r, o) == MarkOf(s, o); }
    }
  }

  lemma FrontierStore(v: Variant, len: nat, out: File, m0: nat, m1: nat, k: Id, b: byte)
    requires Frontier(v, len, out, m0, m1)
    requires var at := if k == 0 then m0 else m1;
      Owner(at) == k && at < len && (!v.rereadStdin ==> at < STRIDE)
    ensures Frontier(v, len, StoreAt(out, if k == 0 then m0 else m1, b),
                     if k == 0 then m0 + 1 else m0, if k == 1 then m1 + 1 else m1)
  {
    var at := if k == 0 then m0 else m1;
    forall p: nat ensures Written(StoreAt(out, at, b), p) <==> Written(out, p) || p == at {}
  }

  lemma NextWrite(v: Variant, len: nat, k: Id, c: Aiocb)
    requires BlockOk(v, len, k, Flying(Write), c) && c.flight.value.done < c.nbytes
    ensures var at := Mark(Flying(Write), c);
      at == c.offset + c.flight.value.done < len && Owner(at) == k && (!v.rereadStdin ==> at < STRIDE)
  {
    OwnerOf(c.currOffset, k, c.currOffset + c.flight.value.done);
  }

  lemma TransferFrontier(v: Variant, s: State, k: Id, r: State)
    requires Inv(v, s) && TurnOf(s, k) == Flying(Write) && Shape(r)
    requires s.cbs[k].flight.value.done < s.cbs[k].nbytes
    requires TurnMoves(s, r, k, Flying(Write))
    requires var c := s.cbs[k]; var done := c.flight.value.done;
      && r.cbs[k] == c.(flight := Some(Flight(Write, done + 1)))
      && r.out == StoreAt(s.out, c.offset + done, s.bufs[c.buf][done])
    ensures Frontier(v, |s.input|, r.out, MarkOf(r, 0), MarkOf(r, 1))
  {
    var c := s.cbs[k];
    NextWrite(v, |s.input|, k, c);
    FrontierStore(v, |s.input|, s.out, MarkOf(s, 0), MarkOf(s, 1), k, s.bufs[c.buf][c.flight.value.done]);
  }

  lemma FirstBlock(v: Variant, len: nat, k: Id)
    ensures BlockOk(v, len, k, Flying(Read), FirstRead(k))
    ensures forall p: nat | Owner(p) == k :: k * BUFSIZE <= p
    ensures Laps(Flying(Read), FirstRead(k)) == 0
  {
  }

  lemma SetupInv(v: Variant, s: State)
    requires Inv(v, s) && Enabled(v, s, Mainline) && s.pc.Setup?
    ensures Inv(v, MainStep(s))
  {
    MainTurn(s);
    var k := s.pc.next;
    FirstBlock(v, |s.input|, k);
    SameFrontier(v, s, MainStep(s), k, Flying(Read));
    Reassemble(v, s, MainStep(s), k, Flying(Read));
  }

  lemma MainInv(v: Variant, s: State)
    requires Inv(v, s) && Enabled(v, s, Mainline)
    ensures Inv(v, MainStep(s))
  {
    if s.pc.Setup? { SetupInv(v, s); } else { MainTurn(s); }
  }

  lemma TransferInv(v: Variant, s: State, k: Id)
    requires Inv(v, s) && Enabled(v, s, Transfer(k))
    ensures Inv(v, TransferStep(v, s, k))
  {
    TransferTurn(v, s, k);
    var r := TransferStep(v, s, k);
    var t := TurnOf(s, k);
    assert BlockOk(v, |s.input|, k, t, s.cbs[k]);
    assert r.cbs[1 - k] == s.cbs[1 - k];
    if s.cbs[k].flight.value.op == Write {
      TransferFrontier(v, s, k, r);
    } else {
      SameFrontier(v, s, r, k, t);
    }
    Reassemble(v, s, r, k, t);
  }

  /** What the end of an operation does, apart from turns. */
  ghost predicate CompleteEffect(v: Variant, s: State, r: State, k: Id)
    requires Shape(s) && Shape(r) && s.cbs[k].flight.Some?
  {
    var c := s.cbs[k];
    && r.input == s.input && r.out == s.out && r.nreads == s.nreads && r.nwrites == s.nwrites
    && !MoreToMove(v, s, k)
    && r.cbs[k] == c.(flight := None,
                      result := if c.flight.value.op == Read && !Readable(v, c.fildes) then -1 else c.flight.value.done)
  }

  lemma CompleteEffectOk(v: Variant, s: State, k: Id)
    requires Shape(s) && Enabled(v, s, Complete(k))
    ensures CompleteEffect(v, s, CompleteStep(v, s, k), k)
  {
  }

  lemma CompletedBlock(v: Variant, s: State, r: State, k: Id, op: Op)
    requires Shape(s) && Shape(r) && s.cbs[k].flight.Some? && s.cbs[k].flight.value.op == op
    requires BlockOk(v, |s.input|, k, Flying(op), s.cbs[k]) && CompleteEffect(v, s, r, k)
    requires |s.out| <= |s.input| && (!v.rereadStdin ==> |s.out| <= STRIDE)
    ensures BlockOk(v, |s.input|, k, Ended(op), r.cbs[k])
    ensures Mark(Ended(op), r.cbs[k]) == Mark(Flying(op), s.cbs[k])
  {
  }

  lemma CompletedInv(v: Variant, s: State, r: State, k: Id, op: Op)
    requires Inv(v, s) && Shape(r) && Control(r) && TurnOf(s, k) == Flying(op) && s.cbs[k].flight.Some?
    requires s.cbs[k].flight.value.op == op && CompleteEffect(v, s, r, k) && TurnMoves(s, r, k, Ended(op))
    ensures Inv(v, r)
  {
    CompletedBlock(v, s, r, k, op);
    SameFrontier(v, s, r, k, Ended(op));
    Reassemble(v, s, r, k, Ended(op));
  }

  lemma CompleteInv(v: Variant, s: State, k: Id)
    requires Inv(v, s) && Enabled(v, s, Complete(k))
    ensures Inv(v, CompleteStep(v, s, k))
  {
    var op := s.cbs[k].flight.value.op;
    CompleteEffectOk(v, s, k);
    assert BlockOk(v, |s.input|, k, Flying(op), s.cbs[k]);
    assert Control(CompleteStep(v, s, k)) && TurnMoves(s, CompleteStep(v, s, k), k, Ended(op)) by {
      CompleteTurn(v, s, k);
    }
    CompletedInv(v, s, CompleteStep(v, s, k), k, op);
  }

  lemma DeliverInv(v: Variant, s: State, sig: Sig)
    requires Inv(v, s) && Enabled(v, s, Deliver(sig))
    ensures Inv(v, DeliverStep(s, sig))
  {
    DeliverTurn(v, s, sig);
  }

  /** What aioread_done does, apart from turns. */
  ghost predicate ReadEffect(v: Variant, s: State, r: State, k: Id)
    requires Shape(s) && Shape(r)
  {
    && r.input == s.input && r.out == s.out
    && r.nwrites == s.nwrites && r.nreads == s.nreads + 1
    && var c := s.cbs[k];
       if c.result > 0 then
         r.cbs[k] == Submit(c.(fildes := Stdout, buf := Target(v, c), nbytes := c.result,
                               offset := c.currOffset, signo := SigWriteDone), Write)
       else r.cbs[k] == c
  }

  lemma HandleReadEffect(v: Variant, s: State)
    requires Shape(s) && |s.frames| == 1 && s.frames[0].sig == SigReadDone
    ensures ReadEffect(v, s, HandleStep(v, s), s.frames[0].cb)
  {
  }

  lemma ReadHandled(v: Variant, s: State, r: State, k: Id)
    requires Inv(v, s) && Shape(r) && Control(r) && ReadEffect(v, s, r, k)
    requires TurnOf(s, k) == Ended(Read)
    requires TurnMoves(s, r, k, if s.cbs[k].result > 0 then Flying(Write) else Finished)
    ensures Inv(v, r)
  {
    assert BlockOk(v, |s.input|, k, Ended(Read), s.cbs[k]);
    SameFrontier(v, s, r, k, TurnOf(r, k));
    Reassemble(v, s, r, k, TurnOf(r, k));
  }

  lemma HandleReadInv(v: Variant, s: State)
    requires Inv(v, s) && Enabled(v, s, Handle) && s.frames[0].sig == SigReadDone
    ensures Inv(v, HandleStep(v, s))
  {
    HandleReadTurn(v, s);
    HandleReadEffect(v, s);
    ReadHandled(v, s, HandleStep(v, s), s.frames[0].cb);
  }

  lemma NextLap(v: Variant, len: nat, k: Id, c: Aiocb, d: Aiocb)
    requires BlockOk(v, len, k, Ended(Write), c)
    requires d == Submit(c.(fildes := if v.rereadStdin then Stdin else Stdout, buf := Target(v, c),
                            nbytes := BUFSIZE, currOffset := c.currOffset + STRIDE,
                            offset := c.currOffset + STRIDE, signo := SigReadDone), Read)
    ensures BlockOk(v, len, k, Flying(Read), d)
    ensures Laps(Flying(Read), d) == Laps(Ended(Write), c) + 1
  {
  }

  /** What aiowrite_done does, apart from turns. */
  ghost predicate WriteEffect(v: Variant, s: State, r: State, k: Id)
    requires Shape(s) && Shape(r)
  {
    && r.input == s.input && r.out == s.out
    && r.nwrites == s.nwrites + 1 && r.nreads == s.nreads
    && var c := s.cbs[k];
       r.cbs[k] == Submit(c.(fildes := if v.rereadStdin then Stdin else Stdout, buf := Target(v, c),
                             nbytes := BUFSIZE, currOffset := c.currOffset + STRIDE,
                             offset := c.currOffset + STRIDE, signo := SigReadDone), Read)
  }

  lemma HandleWriteEffect(v: Variant, s: State)
    requires Shape(s) && |s.frames| == 1 && s.frames[0].sig == SigWriteDone
    ensures WriteEffect(v, s, HandleStep(v, s), s.frames[0].cb)
  {
  }

  lemma WriteHandled(v: Variant, s: State, r: State, k: Id)
    requires Inv(v, s) && Shape(r) && TurnOf(s, k) == Ended(Write) && TurnMoves(s, r, k, Flying(Read))
    requires Control(r) && WriteEffect(v, s, r, k)
    ensures Inv(v, r)
  {
    assert BlockOk(v, |s.input|, k, Ended(Write), s.cbs[k]);
    NextLap(v, |s.input|, k, s.cbs[k], r.cbs[k]);
    forall p: nat | Owner(p) == k && p < |s.input|
      ensures p < MarkOf(s, k) <==> p < Mark(Flying(Read), r.cbs[k])
    {
      MarkPassesGap(v, |s.input|, k, Ended(Write), s.cbs[k], p);
    }
    SameFrontier(v, s, r, k, Flying(Read));
    Reassemble(v, s, r, k, Flying(Read));
  }

  lemma HandleWriteInv(v: Variant, s: State)
    requires Inv(v, s) && Enabled(v, s, Handle) && s.frames[0].sig == SigWriteDone
    ensures Inv(v, HandleStep(v, s))
  {
    HandleWriteTurn(v, s);
    HandleWriteEffect(v, s);
    WriteHandled(v, s, HandleStep(v, s), s.frames[0].cb);
  }

  lemma HandleInv(v: Variant, s: State)
    requires Inv(v, s) && Enabled(v, s, Handle)
    ensures Inv(v, HandleStep(v, s))
  {
    if s.frames[0].sig == SigReadDone { HandleReadInv(v, s); } else { HandleWriteInv(v, s); }
  }

  lemma ReturnInv(v: Variant, s: State)
    requires Inv(v, s) && Enabled(v, s, Return)
    ensures Inv(v, ReturnStep(s))
  {
    ReturnTurn(v, s);
  }

  lemma StepInv(v: Variant, s: State, a: Action)
    requires Inv(v, s) && Enabled(v, s, a)
    ensures Inv(v, Apply(v, s, a))
  {
    match a
    case Mainline => MainInv(v, s);
    case Transfer(k) => TransferInv(v, s, k);
    case Complete(k) => CompleteInv(v, s, k);
    case Deliver(sig) => DeliverInv(v, s, sig);
    case Handle => HandleInv(v, s);
    case Return => ReturnInv(v, s);
  }

  lemma {:induction false} RunInv(v: Variant, s: State, acts: seq<Action>)
    requires Inv(v, s) && CanRun(v, s, acts)
    ensures Inv(v, Run(v, s, acts)) && Run(v, s, acts).input == s.input
    decreases |acts|
  {
    if acts != [] {
      StepInv(v, s, acts[0]);
      RunInv(v, Apply(v, s, acts[0]), acts[1..]);
    }
  }
}
