/** Every run of the copy ends, none gets stuck, and a complete run handles an exact
    number of completions. These hold in every variant. */
module AioPipeProgress {
  import opened Prelude
  import opened AioPipe
  import opened AioPipeInvariant

  // ---------- a measure that every action decreases ----------

  /** Blocks still ahead of a control block at offset curr. */
  function LapsLeft(len: nat, curr: nat): nat
    decreases if curr < len then len - curr else 0
  {
    if curr >= len then 0 else 1 + LapsLeft(len, curr + STRIDE)
  }

  /** More than the actions of one lap: its bytes twice, and the signals around them. */
  const LAP: nat := 2 * BUFSIZE + 40

  function Remaining(done: nat): nat {
    if done <= BUFSIZE then BUFSIZE - done else 0
  }

  ghost function BlockRank(len: nat, k: Id, t: Turn, c: Aiocb): nat {
    match t
    case Waiting => LapsLeft(len, k * BUFSIZE) * LAP + BUFSIZE + 8
    case Flying(op) =>
      var left := if c.flight.Some? then Remaining(c.flight.value.done) else 0;
      if op == Read then LapsLeft(len, c.currOffset) * LAP + left + 7
      else LapsLeft(len, c.currOffset + STRIDE) * LAP + left + BUFSIZE + 15
    case Ended(op) =>
      if op == Read then LapsLeft(len, c.currOffset) * LAP
      else LapsLeft(len, c.currOffset + STRIDE) * LAP + BUFSIZE + 8
    case Finished => 0
  }

  function ControlRank(s: State): nat {
    6 * (|s.readQ| + |s.writeQ|)
    + (if s.frames == [] then 0 else if s.frames[0].handled then 4 else 5)
    + (match s.pc case Setup(k) => if k == 0 then 3 else 2 case Test => 1 case Woken => 2 case _ => 0)
  }

  ghost function Measure(s: State): nat
    requires Shape(s)
  {
    ControlRank(s) + BlockRank(|s.input|, 0, TurnOf(s, 0), s.cbs[0])
                   + BlockRank(|s.input|, 1, TurnOf(s, 1), s.cbs[1])
  }

  /** The ranks add up after block k alone has moved. */
  lemma RankMoves(s: State, r: State, k: Id, t: Turn)
    requires Shape(s) && Shape(r) && r.input == s.input && TurnMoves(s, r, k, t)
    ensures Measure(r) - Measure(s) == ControlRank(r) - ControlRank(s)
      + BlockRank(|s.input|, k, t, r.cbs[k]) - BlockRank(|s.input|, k, TurnOf(s, k), s.cbs[k])
  {
  }

  lemma RankStays(s: State, r: State)
    requires Shape(s) && Shape(r) && r.input == s.input && SameTurns(s, r) && r.cbs == s.cbs
    ensures Measure(r) - Measure(s) == ControlRank(r) - ControlRank(s)
  {
  }

  lemma MainDecreases(v: Variant, s: State)
    requires Inv(v, s) && Enabled(v, s, Mainline)
    ensures Measure(MainStep(s)) < Measure(s)
  {
    MainTurn(s);
    if s.pc.Setup? { RankMoves(s, MainStep(s), s.pc.next, Flying(Read)); }
    else { RankStays(s, MainStep(s)); }
  }

  lemma TransferRank(len: nat, k: Id, c: Aiocb, d: Aiocb)
    requires c.flight.Some? && c.flight.value.done < BUFSIZE
    requires d == c.(flight := Some(c.flight.value.(done := c.flight.value.done + 1)))
    ensures BlockRank(len, k, Flying(c.flight.value.op), d) < BlockRank(len, k, Flying(c.flight.value.op), c)
  {
  }

  lemma TransferDecreases(v: Variant, s: State, k: Id)
    requires Inv(v, s) && Enabled(v, s, Transfer(k))
    ensures Measure(TransferStep(v, s, k)) < Measure(s)
  {
    TransferTurn(v, s, k);
    RankMoves(s, TransferStep(v, s, k), k, TurnOf(s, k));
    TransferRank(|s.input|, k, s.cbs[k], TransferStep(v, s, k).cbs[k]);
  }

  lemma CompleteRank(len: nat, k: Id, op: Op, c: Aiocb, d: Aiocb)
    requires d.currOffset == c.currOffset
    ensures BlockRank(len, k, Ended(op), d) + 7 <= BlockRank(len, k, Flying(op), c)
  {
  }

  lemma CompleteControl(v: Variant, s: State, k: Id)
    requires Shape(s) && s.cbs[k].flight.Some?
    ensures ControlRank(CompleteStep(v, s, k)) == ControlRank(s) + 6
  {
  }

  lemma CompleteDecreases(v: Variant, s: State, k: Id)
    requires Inv(v, s) && Enabled(v, s, Complete(k))
    ensures Measure(CompleteStep(v, s, k)) < Measure(s)
  {
    var r := CompleteStep(v, s, k);
    var op := s.cbs[k].flight.value.op;
    assert BlockOk(v, |s.input|, k, Flying(op), s.cbs[k]);
    assert Measure(r) - Measure(s) == 6
      + BlockRank(|s.input|, k, Ended(op), r.cbs[k]) - BlockRank(|s.input|, k, Flying(op), s.cbs[k]) by {
      assert TurnMoves(s, r, k, Ended(op)) by { CompleteTurn(v, s, k); }
      CompleteControl(v, s, k);
      RankMoves(s, r, k, Ended(op));
    }
    CompleteRank(|s.input|, k, op, s.cbs[k], r.cbs[k]);
  }

  lemma DeliverDecreases(v: Variant, s: State, sig: Sig)
    requires Inv(v, s) && Enabled(v, s, Deliver(sig))
    ensures Measure(DeliverStep(s, sig)) < Measure(s)
  {
    DeliverTurn(v, s, sig);
    RankStays(s, DeliverStep(s, sig));
  }

  lemma ReadHandledRank(v: Variant, s: State, r: State, k: Id)
    requires Shape(s) && Shape(r) && ReadEffect(v, s, r, k)
    requires BlockOk(v, |s.input|, k, Ended(Read), s.cbs[k])
    ensures BlockRank(|s.input|, k, if s.cbs[k].result > 0 then Flying(Write) else Finished, r.cbs[k])
         <= BlockRank(|s.input|, k, Ended(Read), s.cbs[k])
  {
  }

  lemma HandleReadDecreases(v: Variant, s: State)
    requires Inv(v, s) && Enabled(v, s, Handle) && s.frames[0].sig == SigReadDone
    ensures Measure(HandleStep(v, s)) < Measure(s)
  {
    HandleReadTurn(v, s);
    HandleReadEffect(v, s);
    var k, r := s.frames[0].cb, HandleStep(v, s);
    RankMoves(s, r, k, TurnOf(r, k));
    assert BlockOk(v, |s.input|, k, Ended(Read), s.cbs[k]);
    ReadHandledRank(v, s, r, k);
  }

  lemma HandleWriteDecreases(v: Variant, s: State)
    requires Inv(v, s) && Enabled(v, s, Handle) && s.frames[0].sig == SigWriteDone
    ensures Measure(HandleStep(v, s)) < Measure(s)
  {
    HandleWriteTurn(v, s);
    HandleWriteEffect(v, s);
    RankMoves(s, HandleStep(v, s), s.frames[0].cb, Flying(Read));
  }

  lemma ReturnDecreases(v: Variant, s: State)
    requires Inv(v, s) && Enabled(v, s, Return)
    ensures Measure(ReturnStep(s)) < Measure(s)
  {
    ReturnTurn(v, s);
    RankStays(s, ReturnStep(s));
  }

  lemma StepDecreases(v: Variant, s: State, a: Action)
    requires Inv(v, s) && Enabled(v, s, a)
    ensures Measure(Apply(v, s, a)) < Measure(s)
  {
    match a
    case Mainline => MainDecreases(v, s);
    case Transfer(k) => TransferDecreases(v, s, k);
    case Complete(k) => CompleteDecreases(v, s, k);
    case Deliver(sig) => DeliverDecreases(v, s, sig);
    case Handle => if s.frames[0].sig == SigReadDone { HandleReadDecreases(v, s); } else { HandleWriteDecreases(v, s); }
    case Return => ReturnDecreases(v, s);
  }

  lemma {:induction false} RunDecreases(v: Variant, s: State, acts: seq<Action>)
    requires Inv(v, s) && CanRun(v, s, acts)
    ensures |acts| <= Measure(s) - Measure(Run(v, s, acts))
    decreases |acts|
  {
    if acts != [] {
      StepInv(v, s, acts[0]);
      StepDecreases(v, s, acts[0]);
      RunDecreases(v, Apply(v, s, acts[0]), acts[1..]);
    }
  }

  /** The number of BUFSIZE blocks that cover len bytes. */
  function Blocks(len: nat): nat {
    (len + BUFSIZE - 1) / BUFSIZE
  }

  lemma {:induction false} LapsLeftIs(len: nat, curr: nat)
    ensures LapsLeft(len, curr) == if curr >= len then 0 else (len - curr + STRIDE - 1) / STRIDE
    decreases if curr < len then len - curr else 0
  {
    if curr < len { LapsLeftIs(len, curr + STRIDE); }
  }

  lemma BlocksAre(len: nat)
    ensures LapsLeft(len, 0) + LapsLeft(len, BUFSIZE) == Blocks(len)
  {
    LapsLeftIs(len, 0);
    LapsLeftIs(len, BUFSIZE);
  }

  lemma InitMeasure(input: seq<byte>)
    ensures Measure(Init(input)) == Blocks(|input|) * LAP + 2 * BUFSIZE + 19
  {
    BlocksAre(|input|);
  }

  lemma RunIsBounded(v: Variant, s: State, acts: seq<Action>)
    requires Inv(v, s) && CanRun(v, s, acts)
    ensures |acts| <= Measure(s)
  {
    RunDecreases(v, s, acts);
  }

  /** Every schedule of the copy is finite, with a bound linear in the input. */
  lemma RunsAreBounded(v: Variant, input: seq<byte>, acts: seq<Action>)
    requires CanRun(v, Init(input), acts)
    ensures |acts| <= Blocks(|input|) * LAP + 2 * BUFSIZE + 19
  {
    InitInv(v, input);
    RunIsBounded(v, Init(input), acts);
    InitMeasure(input);
  }

  // ---------- no lost wake-up ----------

  /** An action that can always be taken before main exits. */
  function SomeAction(v: Variant, s: State): (a: Action)
    requires Inv(v, s) && !s.pc.Exited?
    ensures Enabled(v, s, a)
  {
    if s.frames != [] then (if s.frames[0].handled then Return else Handle)
    else if !s.pc.Suspended? then Mainline
    else if s.readQ != [] then Deliver(SigReadDone)
    else if s.writeQ != [] then Deliver(SigWriteDone)
    else
      var k: Id := if s.cbs[0].flight.Some? then 0 else 1;
      assert s.cbs[k].flight.Some?;
      if MoreToMove(v, s, k) then Transfer(k) else Complete(k)
  }

  lemma RunCons(v: Variant, s: State, a: Action, rest: seq<Action>, r: State)
    requires Shape(s) && Enabled(v, s, a) && r == Apply(v, s, a) && CanRun(v, r, rest)
    ensures CanRun(v, s, [a] + rest) && Run(v, s, [a] + rest) == Run(v, r, rest)
  {
    assert ([a] + rest)[1..] == rest;
  }

  lemma AppendTail(a: seq<Action>, b: seq<Action>)
    ensures if a == [] then a + b == b else (a + b)[0] == a[0] && (a + b)[1..] == a[1..] + b
  {
  }

  lemma {:induction false} CanRunAppend(v: Variant, s: State, a: seq<Action>, b: seq<Action>)
    requires Shape(s) && CanRun(v, s, a) && CanRun(v, Run(v, s, a), b)
    ensures CanRun(v, s, a + b) && Run(v, s, a + b) == Run(v, Run(v, s, a), b)
    decreases |a|
  {
    AppendTail(a, b);
    if a != [] {
      CanRunAppend(v, Apply(v, s, a[0]), a[1..], b);
    }
  }

  /** From every state of the invariant main can still exit. */
  lemma {:induction false} ExitReachable(v: Variant, s: State) returns (acts: seq<Action>)
    requires Inv(v, s)
    ensures CanRun(v, s, acts) && Run(v, s, acts).pc.Exited?
    decreases Measure(s)
  {
    if s.pc.Exited? {
      acts := [];
    } else {
      var a := SomeAction(v, s);
      StepInv(v, s, a);
      StepDecreases(v, s, a);
      var rest := ExitReachable(v, Apply(v, s, a));
      RunCons(v, s, a, rest, Apply(v, s, a));
      acts := [a] + rest;
    }
  }

  // ---------- completions in order ----------

  /** The block whose operation an action completes with this signal. */
  ghost function CompletedBy(s: State, a: Action, sig: Sig): seq<Id>
    requires Shape(s)
  {
    if a.Complete? && s.cbs[a.k].signo == sig then [a.k] else []
  }

  /** The block whose handler an action starts with this signal. */
  ghost function DeliveredBy(v: Variant, s: State, a: Action, sig: Sig): seq<Id>
    requires Shape(s) && Enabled(v, s, a)
  {
    if a == Deliver(sig) then [DeliverStep(s, sig).frames[|s.frames|].cb] else []
  }

  ghost function Completed(v: Variant, s: State, acts: seq<Action>, sig: Sig): seq<Id>
    requires Shape(s) && CanRun(v, s, acts)
    decreases |acts|
  {
    if acts == [] then []
    else CompletedBy(s, acts[0], sig) + Completed(v, Apply(v, s, acts[0]), acts[1..], sig)
  }

  ghost function Delivered(v: Variant, s: State, acts: seq<Action>, sig: Sig): seq<Id>
    requires Shape(s) && CanRun(v, s, acts)
    decreases |acts|
  {
    if acts == [] then []
    else DeliveredBy(v, s, acts[0], sig) + Delivered(v, Apply(v, s, acts[0]), acts[1..], sig)
  }

  lemma DeliverInOrder(v: Variant, s: State, first: Sig, sig: Sig)
    requires Shape(s) && Enabled(v, s, Deliver(first))
    ensures Queue(s, sig) == DeliveredBy(v, s, Deliver(first), sig) + Queue(DeliverStep(s, first), sig)
  {
    if first == sig { assert Queue(s, sig) == [Queue(s, sig)[0]] + Queue(s, sig)[1..]; }
  }

  lemma OthersKeepQueues(v: Variant, s: State, a: Action, sig: Sig)
    requires Shape(s) && Enabled(v, s, a) && !a.Complete? && !a.Deliver?
    ensures Queue(Apply(v, s, a), sig) == Queue(s, sig)
  {
  }

  lemma StepInOrder(v: Variant, s: State, a: Action, sig: Sig)
    requires Shape(s) && Enabled(v, s, a)
    ensures Queue(s, sig) + CompletedBy(s, a, sig) == DeliveredBy(v, s, a, sig) + Queue(Apply(v, s, a), sig)
  {
    match a
    case Deliver(first) => DeliverInOrder(v, s, first, sig);
    case Complete(k) =>
    case _ => OthersKeepQueues(v, s, a, sig);
  }

  lemma Chain<T>(q: seq<T>, c: seq<T>, d: seq<T>, r: seq<T>, cs: seq<T>, ds: seq<T>, e: seq<T>)
    requires q + c == d + r && r + cs == ds + e
    ensures q + (c + cs) == (d + ds) + e
  {
    assert q + (c + cs) == (q + c) + cs == d + (r + cs) == (d + ds) + e;
  }

  /** Completion signals of one number are queued: every completion starts one handler, in
      the order of completion, except for those still pending. None is lost or merged. */
  lemma {:induction false} CompletionsInOrder(v: Variant, s: State, acts: seq<Action>, sig: Sig)
    requires Shape(s) && CanRun(v, s, acts)
    ensures Queue(s, sig) + Completed(v, s, acts, sig) == Delivered(v, s, acts, sig) + Queue(Run(v, s, acts), sig)
    decreases |acts|
  {
    if acts != [] {
      var r, rest := Apply(v, s, acts[0]), acts[1..];
      CompletionsInOrder(v, r, rest, sig);
      assert Queue(s, sig) + CompletedBy(s, acts[0], sig) == DeliveredBy(v, s, acts[0], sig) + Queue(r, sig) by {
        StepInOrder(v, s, acts[0], sig);
      }
      Chain(Queue(s, sig), CompletedBy(s, acts[0], sig), DeliveredBy(v, s, acts[0], sig), Queue(r, sig),
            Completed(v, r, rest, sig), Delivered(v, r, rest, sig), Queue(Run(v, r, rest), sig));
    }
  }

  // ---------- what a complete run has done ----------

  /** The global flag counts the blocks that still have a turn, each of which has it in
      exactly one place; main sleeps only while some turn can wake it and leaves only
      when none is left; the two handlers never overlap. */
  lemma FlagCountsTurns(v: Variant, input: seq<byte>, acts: seq<Action>)
    requires CanRun(v, Init(input), acts)
    ensures var s := Run(v, Init(input), acts);
      && s.aioToGo == Tokens(s, 0) + Tokens(s, 1)
      && (forall k: Id :: Tokens(s, k) <= 1)
      && |s.frames| <= 1
      && (s.pc.Suspended? && s.frames == [] ==> s.aioToGo > 0)
      && (s.pc.Exited? ==> forall k: Id :: Tokens(s, k) == 0)
      && (!s.pc.Exited? ==> exists a :: Enabled(v, s, a))
  {
    InitInv(v, input);
    RunInv(v, Init(input), acts);
    var s := Run(v, Init(input), acts);
    if !s.pc.Exited? {
      assert Enabled(v, s, SomeAction(v, s));
    }
  }

  /** A byte about to be written has not been written before. */
  lemma StoresFreshByte(v: Variant, s: State, k: Id)
    requires Inv(v, s) && Enabled(v, s, Transfer(k)) && s.cbs[k].flight.value.op == Write
    ensures !Written(s.out, s.cbs[k].offset + s.cbs[k].flight.value.done)
  {
    NextWrite(v, |s.input|, k, s.cbs[k]);
  }

  /** The offsets that a schedule stores into, in order. */
  ghost function Stores(v: Variant, s: State, acts: seq<Action>): seq<nat>
    requires Shape(s) && CanRun(v, s, acts)
    decreases |acts|
  {
    if acts == [] then []
    else StoreOf(s, acts[0]) + Stores(v, Apply(v, s, acts[0]), acts[1..])
  }

  /** The offset that one action stores into, if it stores. */
  ghost function StoreOf(s: State, a: Action): seq<nat>
    requires Shape(s) && (a.Transfer? ==> s.cbs[a.k].flight.Some?)
  {
    if a.Transfer? && s.cbs[a.k].flight.value.op == Write
    then [s.cbs[a.k].offset + s.cbs[a.k].flight.value.done] else []
  }

  lemma StoreStep(v: Variant, s: State, a: Action, p: nat)
    requires Inv(v, s) && Enabled(v, s, a)
    ensures multiset(StoreOf(s, a))[p] + (if Written(s.out, p) then 1 else 0)
         == if Written(Apply(v, s, a).out, p) then 1 else 0
  {
    if a.Transfer? && s.cbs[a.k].flight.value.op == Write {
      StoresFreshByte(v, s, a.k);
    }
  }

  /** Over any run each byte of output is stored once if it was unwritten before and is
      written after, and not at all otherwise. */
  lemma {:induction false} StoredOnce(v: Variant, s: State, acts: seq<Action>, p: nat)
    requires Inv(v, s) && CanRun(v, s, acts)
    ensures multiset(Stores(v, s, acts))[p] + (if Written(s.out, p) then 1 else 0)
         == if Written(Run(v, s, acts).out, p) then 1 else 0
    decreases |acts|
  {
    if acts != [] {
      StepInv(v, s, acts[0]);
      StoreStep(v, s, acts[0], p);
      StoredOnce(v, Apply(v, s, acts[0]), acts[1..], p);
    }
  }

  /** No byte, and so no block, is written twice on any schedule; and when each block
      re-reads the input, a complete run writes each byte exactly once. */
  lemma NeverWrittenTwice(v: Variant, input: seq<byte>, acts: seq<Action>, p: nat)
    requires CanRun(v, Init(input), acts)
    ensures multiset(Stores(v, Init(input), acts))[p] <= 1
    ensures v.rereadStdin && Run(v, Init(input), acts).pc.Exited? ==>
      multiset(Stores(v, Init(input), acts))[p] == if p < |input| then 1 else 0
  {
    InitInv(v, input);
    StoredOnce(v, Init(input), acts, p);
    if v.rereadStdin && Run(v, Init(input), acts).pc.Exited? {
      CompletionCounts(v, input, acts);
    }
  }

  lemma FinishedAtExit(v: Variant, s: State, k: Id)
    requires Inv(v, s) && s.pc.Exited?
    ensures TurnOf(s, k) == Finished && BlockOk(v, |s.input|, k, Finished, s.cbs[k])
  {
    assert Tokens(s, k) == 0;
    assert k !in s.readQ && k !in s.writeQ;
  }

  /** At exit each block's last read was the one that found no data: it returned 0, or -1
      if it was of a standard output that cannot be read. */
  lemma LastReads(v: Variant, input: seq<byte>, acts: seq<Action>, k: Id)
    requires CanRun(v, Init(input), acts) && Run(v, Init(input), acts).pc.Exited?
    ensures var c := Run(v, Init(input), acts).cbs[k];
      AtEnd(v, |input|, c.currOffset) && c.result == EndResult(v, c.currOffset)
  {
    InitInv(v, input);
    RunInv(v, Init(input), acts);
    FinishedAtExit(v, Run(v, Init(input), acts), k);
  }

  lemma LapsAddUp(len: nat, c0: nat, c1: nat)
    requires c0 % STRIDE == 0 && c1 % STRIDE == BUFSIZE && len <= c0 && len <= c1
    requires c0 == 0 || c0 - STRIDE < len
    requires c1 == BUFSIZE || c1 - STRIDE < len
    ensures c0 / STRIDE + c1 / STRIDE == Blocks(len)
  {
    var q0, q1 := c0 / STRIDE, c1 / STRIDE;
    assert c0 == 8192 * q0 && c1 == 8192 * q1 + 4096;
    assert q0 == q1 || q0 == q1 + 1;
  }

  lemma AllWritten(v: Variant, len: nat, out: File, m0: nat, m1: nat)
    requires Frontier(v, len, out, m0, m1) && len <= m0 && len <= m1
    ensures |out| == len && forall p | 0 <= p < len :: out[p].Some?
  {
    if len > 0 { assert Written(out, len - 1); }
    forall p | 0 <= p < len ensures p < |out| && out[p].Some? {
      assert Written(out, p);
    }
  }

  /** When each block re-reads standard output instead, a complete run writes at most two
      blocks and handles two reads more than that. */
  lemma StdoutRereadCounts(v: Variant, input: seq<byte>, acts: seq<Action>)
    requires !v.rereadStdin && CanRun(v, Init(input), acts)
    requires Run(v, Init(input), acts).pc.Exited?
    ensures var s := Run(v, Init(input), acts);
      && s.nwrites == Min(Blocks(|input|), 2) && s.nreads == s.nwrites + 2
      && |s.out| == Min(|input|, STRIDE) && forall p | 0 <= p < |s.out| :: s.out[p].Some?
  {
    InitInv(v, input);
    RunInv(v, Init(input), acts);
    var s := Run(v, Init(input), acts);
    FinishedAtExit(v, s, 0);
    FinishedAtExit(v, s, 1);
    LapsCapped(|input|, s.cbs[0].currOffset, s.cbs[1].currOffset);
    StdoutRereadOut(v, |input|, s.out, s.cbs[0].currOffset, s.cbs[1].currOffset);
  }

  lemma LapsCapped(len: nat, c0: nat, c1: nat)
    requires c0 % STRIDE == 0 && c1 % STRIDE == BUFSIZE && c0 < 2 * STRIDE && c1 < 2 * STRIDE
    requires (len <= c0 || STRIDE <= c0) && (c0 == 0 || c0 - STRIDE < len)
    requires (len <= c1 || STRIDE <= c1) && (c1 == BUFSIZE || c1 - STRIDE < len)
    ensures c0 / STRIDE + c1 / STRIDE == Min(Blocks(len), 2)
  {
    assert c0 == 0 || c0 == STRIDE;
    assert c1 == BUFSIZE || c1 == BUFSIZE + STRIDE;
  }

  lemma StdoutRereadOut(v: Variant, len: nat, out: File, m0: nat, m1: nat)
    requires !v.rereadStdin && Frontier(v, len, out, m0, m1)
    requires len <= m0 || STRIDE <= m0
    requires len <= m1 || STRIDE <= m1
    ensures |out| == Min(len, STRIDE) && forall p | 0 <= p < |out| :: out[p].Some?
  {
    if len > 0 { assert Written(out, Min(len, STRIDE) - 1); }
    forall p | 0 <= p < |out| ensures out[p].Some? {
      assert Written(out, p);
    }
  }

  /** When each block re-reads the input, a complete run handles one write per block of
      input and two reads more than that, and leaves no byte of the output unwritten. */
  lemma CompletionCounts(v: Variant, input: seq<byte>, acts: seq<Action>)
    requires v.rereadStdin && CanRun(v, Init(input), acts)
    requires Run(v, Init(input), acts).pc.Exited?
    ensures var s := Run(v, Init(input), acts);
      && s.nwrites == Blocks(|input|) && s.nreads == Blocks(|input|) + 2
      && |s.out| == |input| && forall p | 0 <= p < |input| :: s.out[p].Some?
  {
    InitInv(v, input);
    RunInv(v, Init(input), acts);
    var s := Run(v, Init(input), acts);
    FinishedAtExit(v, s, 0);
    FinishedAtExit(v, s, 1);
    var c0, c1 := s.cbs[0].currOffset, s.cbs[1].currOffset;
    LapsAddUp(|input|, c0, c1);
    AllWritten(v, |input|, s.out, c0, c1);
  }
}
