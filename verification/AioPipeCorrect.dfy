/** With its own buffer for each block, every byte of output is the input's byte at that
    offset; with standard input re-read as well, every complete run is a copy. */
module AioPipeCorrect {
  import opened Prelude
  import opened AioPipe
  import opened AioPipeInvariant
  import opened AioPipeProgress

  /** Every byte written so far is the input byte at its offset. */
  ghost predicate Faithful(input: seq<byte>, out: File) {
    forall p: nat | Written(out, p) :: p < |input| && out[p].value == input[p]
  }

  /** The first n bytes of a buffer are the input's bytes from curr on. */
  ghost predicate Holds(input: seq<byte>, buf: seq<byte>, curr: nat, n: int) {
    forall i | 0 <= i < n :: i < |buf| && curr + i < |input| && buf[i] == input[curr + i]
  }

  /** How much of a block's buffer is input in a given turn. */
  ghost function Filled(t: Turn, c: Aiocb): int {
    match t
    case Flying(op) => if op == Write then c.nbytes else if c.flight.Some? then c.flight.value.done else 0
    case Ended(op) => if op == Write then 0 else c.result
    case _ => 0
  }

  ghost predicate Buffered(s: State, k: Id)
    requires Shape(s)
  {
    Holds(s.input, s.bufs[k], s.cbs[k].currOffset, Filled(TurnOf(s, k), s.cbs[k]))
  }

  ghost predicate Good(v: Variant, s: State) {
    Inv(v, s) && Faithful(s.input, s.out) && Buffered(s, 0) && Buffered(s, 1)
  }

  lemma TransferReadGood(v: Variant, s: State, k: Id)
    requires v.ownBuffer && Good(v, s) && Enabled(v, s, Transfer(k))
    requires s.cbs[k].flight.value.op == Read
    ensures var r := TransferStep(v, s, k);
      Faithful(r.input, r.out) && Buffered(r, 0) && Buffered(r, 1)
  {
    TransferTurn(v, s, k);
    var c, r := s.cbs[k], TransferStep(v, s, k);
    assert BlockOk(v, |s.input|, k, Flying(Read), c);
    assert c.buf == k && c.fildes == Stdin;
    assert r.bufs[1 - k] == s.bufs[1 - k] && r.cbs[1 - k] == s.cbs[1 - k];
    assert Buffered(s, k) && Buffered(s, 1 - k);
    assert Buffered(r, k) && Buffered(r, 1 - k);
  }

  lemma StoreFaithful(input: seq<byte>, out: File, p: nat, b: byte)
    requires Faithful(input, out) && p < |input| && b == input[p]
    ensures Faithful(input, StoreAt(out, p, b))
  {
    forall q: nat | Written(StoreAt(out, p, b), q)
      ensures q < |input| && StoreAt(out, p, b)[q].value == input[q]
    {
      assert q == p || Written(out, q);
    }
  }

  lemma TransferWriteGood(v: Variant, s: State, k: Id)
    requires v.ownBuffer && Good(v, s) && Enabled(v, s, Transfer(k))
    requires s.cbs[k].flight.value.op == Write
    ensures var r := TransferStep(v, s, k);
      Faithful(r.input, r.out) && Buffered(r, 0) && Buffered(r, 1)
  {
    TransferTurn(v, s, k);
    var c, r := s.cbs[k], TransferStep(v, s, k);
    assert BlockOk(v, |s.input|, k, Flying(Write), c);
    assert Buffered(s, k) && Buffered(s, 1 - k);
    var done := c.flight.value.done;
    StoreFaithful(s.input, s.out, c.offset + done, s.bufs[c.buf][done]);
    assert Buffered(r, k) && Buffered(r, 1 - k);
  }

  lemma CompleteGood(v: Variant, s: State, k: Id)
    requires v.ownBuffer && Good(v, s) && Enabled(v, s, Complete(k))
    ensures var r := CompleteStep(v, s, k);
      Faithful(r.input, r.out) && Buffered(r, 0) && Buffered(r, 1)
  {
    CompleteTurn(v, s, k);
    var op := s.cbs[k].flight.value.op;
    var r := CompleteStep(v, s, k);
    assert BlockOk(v, |s.input|, k, Flying(op), s.cbs[k]);
    assert TurnOf(r, k) == Ended(op);
    assert Buffered(s, k) && Buffered(s, 1 - k);
    assert Buffered(r, k) && Buffered(r, 1 - k);
  }

  lemma HandleGood(v: Variant, s: State)
    requires v.ownBuffer && Good(v, s) && Enabled(v, s, Handle)
    ensures var r := HandleStep(v, s);
      Faithful(r.input, r.out) && Buffered(r, 0) && Buffered(r, 1)
  {
    var k := s.frames[0].cb;
    var r := HandleStep(v, s);
    if s.frames[0].sig == SigReadDone {
      HandleReadTurn(v, s);
      HandleReadEffect(v, s);
    } else {
      HandleWriteTurn(v, s);
      HandleWriteEffect(v, s);
    }
    assert Buffered(s, k) && Buffered(s, 1 - k);
    assert Buffered(r, k) && Buffered(r, 1 - k);
  }

  lemma StepGood(v: Variant, s: State, a: Action)
    requires v.ownBuffer && Good(v, s) && Enabled(v, s, a)
    ensures Good(v, Apply(v, s, a))
  {
    StepInv(v, s, a);
    match a
    case Mainline => MainTurn(s);
    case Transfer(k) =>
      if s.cbs[k].flight.value.op == Read { TransferReadGood(v, s, k); } else { TransferWriteGood(v, s, k); }
    case Complete(k) => CompleteGood(v, s, k);
    case Deliver(sig) => DeliverTurn(v, s, sig);
    case Handle => HandleGood(v, s);
    case Return => ReturnTurn(v, s);
  }

  lemma {:induction false} RunGood(v: Variant, s: State, acts: seq<Action>)
    requires v.ownBuffer && Good(v, s) && CanRun(v, s, acts)
    ensures Good(v, Run(v, s, acts)) && Run(v, s, acts).input == s.input
    decreases |acts|
  {
    if acts != [] {
      StepGood(v, s, acts[0]);
      RunGood(v, Apply(v, s, acts[0]), acts[1..]);
    }
  }

  /** At every moment of every run, whatever the order of completions, each byte already
      in the output is the input byte at that offset, and the offsets written are exactly
      those below the two blocks' marks: no block is claimed twice or skipped. */
  lemma OutputIsAlwaysFaithful(v: Variant, input: seq<byte>, acts: seq<Action>)
    requires v.ownBuffer && CanRun(v, Init(input), acts)
    ensures var s := Run(v, Init(input), acts);
      && Faithful(input, s.out)
      && Frontier(v, |input|, s.out, MarkOf(s, 0), MarkOf(s, 1))
      && forall k: Id | TurnOf(s, k) != Waiting :: s.cbs[k].currOffset % STRIDE == k * BUFSIZE
  {
    InitInv(v, input);
    RunGood(v, Init(input), acts);
  }

  /** The copy as intended: every input, every schedule. */
  lemma RepairedAlwaysCopies(v: Variant, input: seq<byte>)
    requires v.ownBuffer && v.rereadStdin
    ensures AlwaysCopies(v, input)
  {
    forall acts | CanRun(v, Init(input), acts) && Run(v, Init(input), acts).pc.Exited?
      ensures IsCopy(Run(v, Init(input), acts))
    {
      var s := Run(v, Init(input), acts);
      CompletionCounts(v, input, acts);
      OutputIsAlwaysFaithful(v, input, acts);
      forall p | 0 <= p < |input| ensures s.out[p] == Some(input[p]) {
        assert Written(s.out, p);
      }
      InitInv(v, input);
      RunInv(v, Init(input), acts);
    }
  }
}
