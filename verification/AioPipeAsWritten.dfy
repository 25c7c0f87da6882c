/** The copy as the file is written: both handlers use buf1 whichever block they serve,
    and the write handler re-reads standard output. Exactly which inputs it copies, with
    both defects and with each alone. */
module AioPipeAsWritten {
  import opened Prelude
  import opened AioPipe
  import opened AioPipeInvariant
  import opened AioPipeProgress
  import opened AioPipeCorrect
  import opened AioPipeHolding

  // ---------- re-reading standard output stops after two blocks ----------

  lemma CoveredAtExit(v: Variant, s: State)
    requires Inv(v, s) && s.pc.Exited? && |s.input| <= STRIDE
    ensures |s.out| == |s.input| && forall p | 0 <= p < |s.input| :: s.out[p].Some?
  {
    FinishedAtExit(v, s, 0);
    FinishedAtExit(v, s, 1);
    AllWritten(v, |s.input|, s.out, s.cbs[0].currOffset, s.cbs[1].currOffset);
  }

  lemma TruncatesLongInput(v: Variant, input: seq<byte>) returns (acts: seq<Action>)
    requires !v.rereadStdin && |input| > STRIDE
    ensures CanRun(v, Init(input), acts)
    ensures var s := Run(v, Init(input), acts); s.pc.Exited? && !IsCopy(s)
  {
    InitInv(v, input);
    acts := ExitReachable(v, Init(input));
    RunInv(v, Init(input), acts);
  }

  /** With the buffers repaired but standard output re-read, the copy is right exactly for
      inputs of at most two blocks. */
  lemma StdoutRereadCopiesIff(v: Variant, input: seq<byte>)
    requires v.ownBuffer && !v.rereadStdin
    ensures AlwaysCopies(v, input) <==> |input| <= STRIDE
  {
    if |input| > STRIDE {
      var acts := TruncatesLongInput(v, input);
    } else {
      forall acts | CanRun(v, Init(input), acts) && Run(v, Init(input), acts).pc.Exited?
        ensures IsCopy(Run(v, Init(input), acts))
      {
        InitInv(v, input);
        RunGood(v, Init(input), acts);
        var s := Run(v, Init(input), acts);
        CoveredAtExit(v, s);
        forall p | 0 <= p < |input| ensures s.out[p] == Some(input[p]) {
          assert Written(s.out, p);
        }
      }
    }
  }

  // ---------- one buffer for both blocks: when it is harmless, at any length ----------

  ghost predicate BothZero(input: seq<byte>, j: nat)
    requires BUFSIZE + j < |input|
  {
    input[j] == 0 && input[BUFSIZE + j] == 0
  }

  /** Every byte past the first block is zero, and so is the byte one block before it. */
  ghost predicate OverlapIsZero(input: seq<byte>) {
    forall j | 0 <= j < |input| - BUFSIZE :: BothZero(input, j)
  }

  ghost predicate AllZero(input: seq<byte>) {
    forall p | 0 <= p < |input| :: input[p] == 0
  }

  /** From two blocks on that is the whole input. */
  lemma LongOverlap(input: seq<byte>)
    requires |input| >= STRIDE
    ensures OverlapIsZero(input) <==> AllZero(input)
  {
    if OverlapIsZero(input) {
      forall p | 0 <= p < |input| ensures input[p] == 0 {
        assert BothZero(input, if p < |input| - BUFSIZE then p else p - BUFSIZE);
      }
    }
  }

  /** buf1 holds its initial zeros or the first block's bytes. */
  ghost predicate ZeroOrInput(s: State)
    requires Shape(s)
  {
    forall i | 0 <= i < BUFSIZE :: s.bufs[0][i] == 0 || (i < |s.input| && s.bufs[0][i] == s.input[i])
  }

  ghost predicate Harmless(v: Variant, s: State) {
    && Inv(v, s) && Faithful(s.input, s.out)
    && ZeroOrInput(s) && Buffered(s, 0)
    && OverlapIsZero(s.input)
  }

  ghost predicate StillHarmless(r: State)
    requires Shape(r)
  {
    Faithful(r.input, r.out) && ZeroOrInput(r) && Buffered(r, 0)
  }

  lemma InputStays(v: Variant, s: State, a: Action)
    requires Shape(s) && Enabled(v, s, a)
    ensures Apply(v, s, a).input == s.input
  {
  }

  /** A read that still moves bytes is a block's first. */
  lemma MovingReadIsFirst(v: Variant, s: State, k: Id)
    requires Shape(s) && TurnOf(s, k) == Flying(Read) && BlockOk(v, |s.input|, k, Flying(Read), s.cbs[k])
    requires MoreToMove(v, s, k) && |s.out| <= |s.input| <= STRIDE
    ensures var c := s.cbs[k];
      c.currOffset == c.offset == k * BUFSIZE && c.buf == k && c.fildes == Stdin
  {
  }

  lemma ReadHarmless(v: Variant, s: State, k: Id)
    requires Shape(s) && Control(s) && StillHarmless(s)
    requires TurnOf(s, k) == Flying(Read) && MoreToMove(v, s, k)
    requires var c := s.cbs[k];
      c.currOffset == c.offset == k * BUFSIZE && c.buf == k && c.fildes == Stdin
    ensures StillHarmless(TransferStep(v, s, k))
  {
    TransferTurn(v, s, k);
    var r := TransferStep(v, s, k);
    var done := s.cbs[k].flight.value.done;
    if k == 0 {
      assert r.bufs[0] == s.bufs[0][done := s.input[done]];
      assert Filled(TurnOf(r, 0), r.cbs[0]) == done + 1;
    } else {
      assert r.bufs[0] == s.bufs[0] && r.cbs[0] == s.cbs[0] && TurnOf(r, 0) == TurnOf(s, 0);
    }
  }

  lemma WriteIsFirst(v: Variant, len: nat, k: Id, c: Aiocb)
    requires !v.ownBuffer && len <= STRIDE && BlockOk(v, len, k, Flying(Write), c)
    requires c.flight.value.done < c.nbytes
    ensures c.currOffset == c.offset == k * BUFSIZE && c.buf == 0
    ensures c.flight.value.done < c.nbytes <= BUFSIZE && c.offset + c.nbytes <= len
  {
  }

  lemma OverlapByte(input: seq<byte>, b: byte, j: nat)
    requires OverlapIsZero(input) && BUFSIZE + j < |input| && (b == 0 || b == input[j])
    ensures b == input[BUFSIZE + j]
  {
    assert BothZero(input, j);
  }

  /** The byte about to be written comes from buf1 and is right all the same. */
  lemma WrittenByteIsRight(v: Variant, s: State, k: Id)
    requires Shape(s) && TurnOf(s, k) == Flying(Write) && ZeroOrInput(s) && Buffered(s, 0)
    requires OverlapIsZero(s.input)
    requires var c := s.cbs[k];
      && c.currOffset == c.offset == k * BUFSIZE && c.buf == 0
      && c.flight.value.done < c.nbytes <= BUFSIZE && c.offset + c.nbytes <= |s.input|
    ensures var c := s.cbs[k];
      s.bufs[0][c.flight.value.done] == s.input[c.offset + c.flight.value.done]
  {
    var done := s.cbs[k].flight.value.done;
    if k == 0 {
      assert Filled(TurnOf(s, 0), s.cbs[0]) == s.cbs[0].nbytes;
    } else {
      OverlapByte(s.input, s.bufs[0][done], done);
    }
  }

  lemma WriteHarmless(v: Variant, s: State, k: Id)
    requires Shape(s) && Control(s) && TurnOf(s, k) == Flying(Write) && MoreToMove(v, s, k)
    requires StillHarmless(s)
    requires var c := s.cbs[k]; var at := c.offset + c.flight.value.done;
      c.buf == 0 && at < |s.input| && s.bufs[0][c.flight.value.done] == s.input[at]
    ensures StillHarmless(TransferStep(v, s, k))
  {
    TransferTurn(v, s, k);
    var c, r := s.cbs[k], TransferStep(v, s, k);
    var done := c.flight.value.done;
    StoreFaithful(s.input, s.out, c.offset + done, s.bufs[0][done]);
    assert r.bufs == s.bufs && r.input == s.input && TurnOf(r, 0) == TurnOf(s, 0);
    assert Filled(TurnOf(r, 0), r.cbs[0]) == Filled(TurnOf(s, 0), s.cbs[0]);
    assert Buffered(r, 0) && ZeroOrInput(r);
  }

  /** While everything read and written is zero, nothing else gets into buf1. */
  lemma ZeroReadHarmless(v: Variant, s: State, k: Id)
    requires !v.ownBuffer && Harmless(v, s) && Enabled(v, s, Transfer(k)) && AllZero(s.input)
    requires s.cbs[k].flight.value.op == Read
    ensures StillHarmless(TransferStep(v, s, k))
  {
    var c, r := s.cbs[k], TransferStep(v, s, k);
    var done := c.flight.value.done;
    ReadIsFromInput(v, s, k);
    assert r.bufs[0] == if c.buf == 0 then s.bufs[0][done := 0] else s.bufs[0];
    assert Buffered(r, 0) by {
      TransferTurn(v, s, k);
      if k == 0 {
        assert Filled(TurnOf(r, 0), r.cbs[0]) == done + 1;
      } else {
        assert TurnOf(r, 0) == TurnOf(s, 0) && r.cbs[0] == s.cbs[0];
      }
    }
  }

  lemma ReadIsFromInput(v: Variant, s: State, k: Id)
    requires Inv(v, s) && Enabled(v, s, Transfer(k)) && s.cbs[k].flight.value.op == Read
    ensures s.cbs[k].fildes == Stdin && s.cbs[k].offset == s.cbs[k].currOffset
  {
    assert BlockOk(v, |s.input|, k, Flying(Read), s.cbs[k]);
  }

  lemma ZeroWriteHarmless(v: Variant, s: State, k: Id)
    requires !v.ownBuffer && Harmless(v, s) && Enabled(v, s, Transfer(k)) && AllZero(s.input)
    requires s.cbs[k].flight.value.op == Write
    ensures StillHarmless(TransferStep(v, s, k))
  {
    NextWrite(v, |s.input|, k, s.cbs[k]);
    WriteHarmless(v, s, k);
  }

  lemma ShortTransferHarmless(v: Variant, s: State, k: Id)
    requires !v.ownBuffer && Harmless(v, s) && Enabled(v, s, Transfer(k)) && |s.input| <= STRIDE
    ensures StillHarmless(TransferStep(v, s, k))
  {
    assert BlockOk(v, |s.input|, k, TurnOf(s, k), s.cbs[k]);
    if TurnOf(s, k) == Flying(Write) {
      WriteIsFirst(v, |s.input|, k, s.cbs[k]);
      WrittenByteIsRight(v, s, k);
      WriteHarmless(v, s, k);
    } else {
      MovingReadIsFirst(v, s, k);
      ReadHarmless(v, s, k);
    }
  }

  lemma TransferHarmless(v: Variant, s: State, k: Id)
    requires !v.ownBuffer && Harmless(v, s) && Enabled(v, s, Transfer(k))
    ensures StillHarmless(TransferStep(v, s, k))
  {
    if |s.input| <= STRIDE {
      ShortTransferHarmless(v, s, k);
    } else {
      LongOverlap(s.input);
      if s.cbs[k].flight.value.op == Read { ZeroReadHarmless(v, s, k); } else { ZeroWriteHarmless(v, s, k); }
    }
  }

  lemma CompleteHarmless(v: Variant, s: State, k: Id)
    requires !v.ownBuffer && Harmless(v, s) && Enabled(v, s, Complete(k))
    ensures StillHarmless(CompleteStep(v, s, k))
  {
    CompleteTurn(v, s, k);
    var r := CompleteStep(v, s, k);
    var op := s.cbs[k].flight.value.op;
    assert BlockOk(v, |s.input|, k, Flying(op), s.cbs[k]);
    if k == 0 { assert TurnOf(r, 0) == Ended(op); }
    else { assert TurnOf(r, 0) == TurnOf(s, 0) && r.cbs[0] == s.cbs[0]; }
  }

  lemma HandleHarmless(v: Variant, s: State)
    requires !v.ownBuffer && Harmless(v, s) && Enabled(v, s, Handle)
    ensures StillHarmless(HandleStep(v, s))
  {
    var k, r := s.frames[0].cb, HandleStep(v, s);
    if s.frames[0].sig == SigReadDone {
      HandleReadTurn(v, s);
      HandleReadEffect(v, s);
    } else {
      HandleWriteTurn(v, s);
      HandleWriteEffect(v, s);
    }
    assert r.bufs == s.bufs;
    if k == 1 { assert TurnOf(r, 0) == TurnOf(s, 0) && r.cbs[0] == s.cbs[0]; }
  }

  lemma StepHarmless(v: Variant, s: State, a: Action)
    requires !v.ownBuffer && Harmless(v, s) && Enabled(v, s, a)
    ensures Harmless(v, Apply(v, s, a))
  {
    StepInv(v, s, a);
    assert StillHarmless(Apply(v, s, a)) by {
      match a
      case Mainline => MainTurn(s);
      case Transfer(k) => TransferHarmless(v, s, k);
      case Complete(k) => CompleteHarmless(v, s, k);
      case Deliver(sig) => DeliverTurn(v, s, sig);
      case Handle => HandleHarmless(v, s);
      case Return => ReturnTurn(v, s);
    }
    InputStays(v, s, a);
  }

  lemma {:induction false} RunHarmless(v: Variant, s: State, acts: seq<Action>)
    requires !v.ownBuffer && Harmless(v, s) && CanRun(v, s, acts)
    ensures Harmless(v, Run(v, s, acts)) && Run(v, s, acts).input == s.input
    decreases |acts|
  {
    if acts != [] {
      StepHarmless(v, s, acts[0]);
      RunHarmless(v, Apply(v, s, acts[0]), acts[1..]);
    }
  }

  // ---------- one buffer for both blocks: how it fails ----------

  lemma WrittenStays(v: Variant, s: State, a: Action, p: nat)
    requires Inv(v, s) && Enabled(v, s, a) && Written(s.out, p)
    ensures var r := Apply(v, s, a); Written(r.out, p) && r.out[p] == s.out[p]
  {
    if a.Transfer? && s.cbs[a.k].flight.value.op == Write {
      StoresFreshByte(v, s, a.k);
    }
  }

  lemma {:induction false} WrittenStaysInRun(v: Variant, s: State, acts: seq<Action>, p: nat)
    requires Inv(v, s) && CanRun(v, s, acts) && Written(s.out, p)
    ensures var r := Run(v, s, acts); Written(r.out, p) && r.out[p] == s.out[p]
    decreases |acts|
  {
    if acts != [] {
      StepInv(v, s, acts[0]);
      WrittenStays(v, s, acts[0], p);
      WrittenStaysInRun(v, Apply(v, s, acts[0]), acts[1..], p);
    }
  }

  const SETUP := [Mainline, Mainline]

  lemma AfterSetup(v: Variant, input: seq<byte>)
    ensures CanRun(v, Init(input), SETUP)
    ensures var s := Run(v, Init(input), SETUP);
      && Held(v, s, 0) && Held(v, s, 1) && s.out == [] && s.input == input
      && s.bufs[0] == Zeroed() && s.cbs == [FirstRead(0), FirstRead(1)]
  {
    InitInv(v, input);
    var s := Init(input);
    var s1 := MainStep(s);
    assert Enabled(v, s, Mainline) && Enabled(v, s1, Mainline);
    assert SETUP[1..] == [Mainline] && [Mainline][1..] == [];
    assert CanRun(v, s1, [Mainline]);
    StepInv(v, s, Mainline);
    StepInv(v, s1, Mainline);
  }

  /** The first block is held and the second block's next write at p takes a wrong byte. */
  ghost predicate AboutToErr(v: Variant, s: State, p: nat) {
    Held(v, s, 0) && Aims(v, s, 1, p) && s.bufs[0][p % BUFSIZE] != s.input[p]
  }

  lemma Errs(v: Variant, s: State, p: nat) returns (acts: seq<Action>)
    requires !v.ownBuffer && AboutToErr(v, s, p)
    ensures CanRun(v, s, acts)
    ensures var r := Run(v, s, acts); r.pc.Exited? && !IsCopy(r)
  {
    var first := DriveToWrite(v, s, 1, p);
    var s1 := Run(v, s, first);
    var rest := ExitReachable(v, s1);
    WrittenStaysInRun(v, s1, rest, p);
    RunInv(v, s1, rest);
    CanRunAppend(v, s, first, rest);
    acts := first + rest;
  }

  /** The state after main's set-up, which the next three schedules start from. */
  ghost predicate Started(v: Variant, s: State) {
    && Held(v, s, 0) && Held(v, s, 1) && s.out == []
    && s.bufs[0] == Zeroed() && s.cbs == [FirstRead(0), FirstRead(1)]
  }

  lemma SecondAims(v: Variant, s: State, i: nat)
    requires Held(v, s, 1) && s.cbs[1] == FirstRead(1) && i < BUFSIZE && BUFSIZE + i < |s.input|
    ensures Aims(v, s, 1, BUFSIZE + i) && (BUFSIZE + i) % BUFSIZE == i
  {
    assert (BUFSIZE + i) % BUFSIZE == i && Owner(BUFSIZE + i) == 1;
    assert MarkOf(s, 1) == BUFSIZE;
  }

  /** The second block writes its first lap from what buf1 holds now. */
  lemma ErrsInFirstLap(v: Variant, s: State, i: nat) returns (acts: seq<Action>)
    requires !v.ownBuffer && Held(v, s, 0) && Held(v, s, 1) && s.cbs[1] == FirstRead(1)
    requires i < BUFSIZE && BUFSIZE + i < |s.input| && s.bufs[0][i] != s.input[BUFSIZE + i]
    ensures CanRun(v, s, acts)
    ensures var r := Run(v, s, acts); r.pc.Exited? && !IsCopy(r)
  {
    SecondAims(v, s, i);
    acts := Errs(v, s, BUFSIZE + i);
  }

  /** It does so before anything is read into buf1. */
  lemma ErrsWithZero(v: Variant, s: State, i: nat) returns (acts: seq<Action>)
    requires !v.ownBuffer && Started(v, s)
    requires i < BUFSIZE && BUFSIZE + i < |s.input| && s.input[BUFSIZE + i] != 0
    ensures CanRun(v, s, acts)
    ensures var r := Run(v, s, acts); r.pc.Exited? && !IsCopy(r)
  {
    acts := ErrsInFirstLap(v, s, i);
  }

  /** The first block brings byte q into buf1, in whatever lap, and then the second block
      writes its first lap. */
  lemma ErrsWithFirst(v: Variant, s: State, q: nat) returns (acts: seq<Action>)
    requires !v.ownBuffer && Started(v, s) && Reads(v, |s.input|, 0, q) && s.input[q] != 0
    requires BUFSIZE + q % BUFSIZE < |s.input| && s.input[BUFSIZE + q % BUFSIZE] == 0
    ensures CanRun(v, s, acts)
    ensures var r := Run(v, s, acts); r.pc.Exited? && !IsCopy(r)
  {
    BaseOf(q, 0);
    var first := DriveToRead(v, s, 0, q);
    RunInv(v, s, first);
    var rest := ErrsInFirstLap(v, Run(v, s, first), q % BUFSIZE);
    CanRunAppend(v, s, first, rest);
    acts := first + rest;
  }

  /** The second block reads byte q into buf1 in a later lap, and before it writes it the
      first block's first read puts a zero over it. */
  lemma ErrsWithSecond(v: Variant, s: State, q: nat) returns (acts: seq<Action>)
    requires !v.ownBuffer && Started(v, s) && Reads(v, |s.input|, 1, q) && STRIDE <= q
    requires s.input[q] != 0 && s.input[q % BUFSIZE] == 0
    ensures CanRun(v, s, acts)
    ensures var r := Run(v, s, acts); r.pc.Exited? && !IsCopy(r)
  {
    BaseOf(q, 1);
    var first := DriveToRead(v, s, 1, q);
    RunInv(v, s, first);
    var rest := ErrsOverwritten(v, Run(v, s, first), q);
    CanRunAppend(v, s, first, rest);
    acts := first + rest;
  }

  /** The first block's first read, up to byte i. */
  lemma DriveToFirst(v: Variant, s: State, i: nat) returns (acts: seq<Action>)
    requires !v.ownBuffer && Held(v, s, 0) && Held(v, s, 1) && s.cbs[0] == FirstRead(0)
    requires i < BUFSIZE && i < |s.input|
    ensures CanRun(v, s, acts)
    ensures var r := Run(v, s, acts);
      && Held(v, r, 0) && Held(v, r, 1) && r.cbs[1] == s.cbs[1] && r.input == s.input && r.bufs[0][i] == s.input[i]
  {
    assert Owner(i) == 0 && Base(i) == 0 && i % BUFSIZE == i;
    acts := DriveToRead(v, s, 0, i);
  }

  lemma ErrsOverwritten(v: Variant, s: State, q: nat) returns (acts: seq<Action>)
    requires !v.ownBuffer && Held(v, s, 0) && s.cbs[0] == FirstRead(0)
    requires Past(s, 1, q) && Reads(v, |s.input|, 1, q) && s.input[q] != 0 && s.input[q % BUFSIZE] == 0
    ensures CanRun(v, s, acts)
    ensures var r := Run(v, s, acts); r.pc.Exited? && !IsCopy(r)
  {
    var first := DriveToFirst(v, s, q % BUFSIZE);
    var r := Run(v, s, first);
    assert AboutToErr(v, r, q) by { StillAims(v, s, r, q); }
    var rest := Errs(v, r, q);
    CanRunAppend(v, s, first, rest);
    acts := first + rest;
  }

  lemma StillAims(v: Variant, s: State, r: State, q: nat)
    requires Inv(v, s) && Past(s, 1, q) && Reads(v, |s.input|, 1, q)
    requires Held(v, r, 1) && r.cbs[1] == s.cbs[1] && r.input == s.input
    ensures Aims(v, r, 1, q)
  {
    assert MarkOf(r, 1) == Base(q);
  }

  /** Any byte that spoils the condition is written wrongly, or makes another byte be
      written wrongly, on some complete run. */
  lemma CopiesWrongly(v: Variant, input: seq<byte>, j: nat) returns (acts: seq<Action>)
    requires !v.ownBuffer && (v.rereadStdin || |input| <= STRIDE)
    requires BUFSIZE + j < |input| && !BothZero(input, j)
    ensures CanRun(v, Init(input), acts)
    ensures var s := Run(v, Init(input), acts); s.pc.Exited? && !IsCopy(s)
  {
    AfterSetup(v, input);
    var s := Run(v, Init(input), SETUP);
    var q := if input[j] != 0 then j else BUFSIZE + j;
    var i := q % BUFSIZE;
    var rest;
    if input[BUFSIZE + i] != 0 {
      rest := ErrsWithZero(v, s, i);
    } else if Owner(q) == 0 {
      rest := ErrsWithFirst(v, s, q);
    } else if input[i] != 0 {
      rest := ErrsWithFirst(v, s, i);
    } else {
      rest := ErrsWithSecond(v, s, q);
    }
    CanRunAppend(v, Init(input), SETUP, rest);
    acts := SETUP + rest;
  }

  // ---------- exactly which inputs are copied ----------

  lemma HarmlessIsCopy(v: Variant, input: seq<byte>, acts: seq<Action>)
    requires !v.ownBuffer && OverlapIsZero(input) && (v.rereadStdin || |input| <= STRIDE)
    requires CanRun(v, Init(input), acts) && Run(v, Init(input), acts).pc.Exited?
    ensures IsCopy(Run(v, Init(input), acts))
  {
    InitInv(v, input);
    RunHarmless(v, Init(input), acts);
    var s := Run(v, Init(input), acts);
    if v.rereadStdin { CompletionCounts(v, input, acts); } else { CoveredAtExit(v, s); }
    forall p | 0 <= p < |input| ensures s.out[p] == Some(input[p]) {
      assert Written(s.out, p);
    }
  }

  /** One buffer for both blocks, whichever file is re-read: an input is copied on every
      schedule exactly when the re-read reaches all of it, and every byte past the first
      block is zero, as is the byte one block before it. */
  lemma SharedBufferCopiesIff(v: Variant, input: seq<byte>)
    requires !v.ownBuffer
    ensures AlwaysCopies(v, input) <==> (v.rereadStdin || |input| <= STRIDE) && OverlapIsZero(input)
  {
    if !v.rereadStdin && |input| > STRIDE {
      var acts := TruncatesLongInput(v, input);
    } else if !OverlapIsZero(input) {
      var j :| 0 <= j < |input| - BUFSIZE && !BothZero(input, j);
      var acts := CopiesWrongly(v, input, j);
    } else {
      forall acts | CanRun(v, Init(input), acts) && Run(v, Init(input), acts).pc.Exited?
        ensures IsCopy(Run(v, Init(input), acts))
      {
        HarmlessIsCopy(v, input, acts);
      }
    }
  }

  /** The file as written: at most two blocks, with the overlapping bytes zero. */
  lemma AsWrittenCopiesIff(v: Variant, input: seq<byte>)
    requires !v.ownBuffer && !v.rereadStdin
    ensures AlwaysCopies(v, input) <==> |input| <= STRIDE && OverlapIsZero(input)
  {
    SharedBufferCopiesIff(v, input);
  }

  /** With standard input re-read, an input of two blocks or more must be all zeros. */
  lemma SharedBufferAlone(v: Variant, input: seq<byte>)
    requires !v.ownBuffer && v.rereadStdin && |input| >= STRIDE
    ensures AlwaysCopies(v, input) <==> AllZero(input)
  {
    SharedBufferCopiesIff(v, input);
    LongOverlap(input);
  }

  /** For instance, a file of 4097 ones is not copied. */
  lemma AsWrittenLosesOnes(v: Variant)
    requires !v.ownBuffer
    ensures !AlwaysCopies(v, seq(BUFSIZE + 1, _ => 1))
  {
    var input: seq<byte> := seq(BUFSIZE + 1, _ => 1);
    assert !BothZero(input, 0);
    SharedBufferCopiesIff(v, input);
  }
}
