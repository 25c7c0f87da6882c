/** aiopipe.c in its own form: control blocks and buffers updated in place by two
    handlers and a main loop, each method tied to the step it performs. */
module AioPipeProgram {
  import opened Prelude
  import opened AioPipe
  import opened AioPipeInvariant
  import opened AioPipeProgress
  import opened AioPipeCorrect

  /** struct aiocb_plus. */
  class AiocbPlus {
    var fildes: Fd
    var buf: Id
    var nbytes: nat
    var offset: nat
    var signo: Sig
    var currOffset: nat
    var buffer: Id
    var flight: Option<Flight>
    var result: int

    constructor ()
      ensures Value() == BLANK
    {
      fildes, buf, nbytes, offset, signo := Stdin, 0, 0, 0, SigReadDone;
      currOffset, buffer, flight, result := 0, 0, None, 0;
    }

    function Value(): Aiocb
      reads this
    {
      Aiocb(fildes, buf, nbytes, offset, signo, currOffset, buffer, flight, result)
    }

    method AioRead()
      modifies this
      ensures Value() == Submit(old(Value()), Read)
    {
      flight := Some(Flight(Read, 0));
    }

    method AioWrite()
      modifies this
      ensures Value() == Submit(old(Value()), Write)
    {
      flight := Some(Flight(Write, 0));
    }

    /** The assignments of main before its first aio_read of block k. */
    method FirstFields(k: Id)
      modifies this
      ensures Value() == FirstRead(k).(flight := old(flight))
    {
      fildes, buf, buffer := Stdin, k, k;
      nbytes := BUFSIZE;
      currOffset := k * BUFSIZE;
      offset := currOffset;
      signo := SigReadDone;
      result := 0;
    }

    /** Those of aioread_done before its aio_write. */
    method WriteFields(v: Variant, nbytesRead: nat)
      modifies this
      ensures Value() == old(Value()).(fildes := Stdout, buf := Target(v, old(Value())), nbytes := nbytesRead,
                                       offset := old(currOffset), signo := SigWriteDone)
    {
      fildes := Stdout;
      buf := if v.ownBuffer then buffer else 0;
      nbytes := nbytesRead;
      offset := currOffset;
      signo := SigWriteDone;
    }

    /** Those of aiowrite_done before its aio_read. */
    method ReadFields(v: Variant)
      modifies this
      ensures Value() == old(Value()).(fildes := if v.rereadStdin then Stdin else Stdout,
                                       buf := Target(v, old(Value())), nbytes := BUFSIZE,
                                       currOffset := old(currOffset) + STRIDE,
                                       offset := old(currOffset) + STRIDE, signo := SigReadDone)
    {
      fildes := if v.rereadStdin then Stdin else Stdout;
      buf := if v.ownBuffer then buffer else 0;
      nbytes := BUFSIZE;
      currOffset := currOffset + 2 * BUFSIZE;
      offset := currOffset;
      signo := SigReadDone;
    }
  }

  class Process {
    const v: Variant
    const input: seq<byte>
    const a1: AiocbPlus
    const a2: AiocbPlus
    const buf1: array<byte>
    const buf2: array<byte>
    var aioToGo: int
    // The kernel's record of this process.
    var out: File
    var readQ: seq<Id>
    var writeQ: seq<Id>
    var mask: set<Sig>
    var frames: seq<Frame>
    var pc: Pc
    // Completions handled.
    var nreads: nat
    var nwrites: nat

    ghost predicate Valid() {
      a1 != a2 && buf1 != buf2 && buf1.Length == BUFSIZE && buf2.Length == BUFSIZE
    }

    function Model(): (s: State)
      reads this, a1, a2, buf1, buf2
      requires Valid()
      ensures Shape(s)
    {
      State(input, out, [buf1[..], buf2[..]], [a1.Value(), a2.Value()],
            readQ, writeQ, mask, frames, pc, aioToGo, nreads, nwrites)
    }

    function Cb(k: Id): AiocbPlus {
      if k == 0 then a1 else a2
    }

    function Buf(k: Id): array<byte> {
      if k == 0 then buf1 else buf2
    }

    constructor (v: Variant, input: seq<byte>)
      ensures Valid() && Model() == Init(input) && this.v == v
      ensures fresh(a1) && fresh(a2) && fresh(buf1) && fresh(buf2)
    {
      this.v, this.input := v, input;
      a1 := new AiocbPlus();
      a2 := new AiocbPlus();
      buf1 := new byte[BUFSIZE](_ => 0);
      buf2 := new byte[BUFSIZE](_ => 0);
      aioToGo := 2;
      out, readQ, writeQ, mask, frames, pc := [], [], [], ALLSIGS, [], Setup(0);
      nreads, nwrites := 0, 0;
      new;
      assert buf1[..] == Zeroed() == buf2[..];
    }

    /** Only block k has been touched since the method began. */
    twostate lemma OthersKept(k: Id)
      requires Valid() && unchanged(buf1, buf2, Cb(1 - k))
      ensures buf1[..] == old(buf1[..]) && buf2[..] == old(buf2[..])
      ensures [a1.Value(), a2.Value()] == old([a1.Value(), a2.Value()])[k := Cb(k).Value()]
    {
    }

    /** aioread_done: turn around and write what was read, or count this block done. */
    method AioreadDone(k: Id)
      requires Valid()
      modifies this`nreads, this`aioToGo, Cb(k)
      ensures Model() == ReadHandler(v, old(Model()), k)
    {
      var ap := Cb(k);
      nreads := nreads + 1;
      var nbytesRead := ap.result;
      if nbytesRead > 0 {
        ap.WriteFields(v, nbytesRead);
        ap.AioWrite();
      } else {
        aioToGo := aioToGo - 1;
      }
      OthersKept(k);
    }

    /** aiowrite_done: read on, skipping the block the peer is reading. */
    method AiowriteDone(k: Id)
      requires Valid()
      modifies this`nwrites, Cb(k)
      ensures Model() == WriteHandler(v, old(Model()), k)
    {
      var ap := Cb(k);
      nwrites := nwrites + 1;
      ap.ReadFields(v);
      ap.AioRead();
      OthersKept(k);
    }

    /** main's set-up of one control block. */
    method SetUp(k: Id)
      requires Valid() && pc == Setup(k)
      modifies this`pc, Cb(k)
      ensures Model() == MainStep(old(Model()))
    {
      var ap := Cb(k);
      ap.FirstFields(k);
      ap.AioRead();
      OthersKept(k);
      pc := if k == 0 then Setup(1) else Test;
    }

    /** One statement of main. */
    method Mainline()
      requires Valid() && Enabled(v, Model(), AioPipe.Mainline)
      modifies this, a1, a2
      ensures Model() == MainStep(old(Model()))
    {
      match pc
      case Setup(k) => SetUp(k);
      case Test =>
        if aioToGo != 0 { pc, mask := Suspended, {}; } else { pc := Exited; }
      case Woken => pc, mask := Test, ALLSIGS;
      case _ =>
    }

    method Transfer(k: Id)
      requires Valid() && Enabled(v, Model(), AioPipe.Transfer(k))
      modifies this`out, Cb(k)`flight, buf1, buf2
      ensures Model() == TransferStep(v, old(Model()), k)
    {
      var ap := Cb(k);
      var f := ap.flight.value;
      var from := ap.offset + f.done;
      var b := Buf(ap.buf);
      if f.op == Read {
        b[f.done] := ByteAt(Model(), ap.fildes, from);
      } else {
        out := StoreAt(out, from, b[f.done]);
      }
      ap.flight := Some(f.(done := f.done + 1));
    }

    method Complete(k: Id)
      requires Valid() && Enabled(v, Model(), AioPipe.Complete(k))
      modifies this`readQ, this`writeQ, Cb(k)
      ensures Model() == CompleteStep(v, old(Model()), k)
    {
      var ap := Cb(k);
      var f := ap.flight.value;
      ap.result := if f.op == Read && !Readable(v, ap.fildes) then -1 else f.done;
      ap.flight := None;
      if ap.signo == SigReadDone { readQ := readQ + [k]; } else { writeQ := writeQ + [k]; }
    }

    method Deliver(sig: Sig)
      requires Valid() && Enabled(v, Model(), AioPipe.Deliver(sig))
      modifies this`readQ, this`writeQ, this`frames, this`mask
      ensures Model() == DeliverStep(old(Model()), sig)
    {
      var q := if sig == SigReadDone then readQ else writeQ;
      frames := frames + [Frame(sig, q[0], false, mask)];
      if sig == SigReadDone {
        readQ := q[1..];
        mask := mask + {SigWriteDone} + {sig};
      } else {
        writeQ := q[1..];
        mask := mask + {SigReadDone} + {sig};
      }
    }

    method Handle()
      requires Valid() && Enabled(v, Model(), AioPipe.Handle)
      modifies this, a1, a2
      ensures Model() == HandleStep(v, old(Model()))
    {
      var n := |frames| - 1;
      var f := frames[n];
      frames := frames[n := f.(handled := true)];
      if f.sig == SigReadDone { AioreadDone(f.cb); } else { AiowriteDone(f.cb); }
    }

    method Return()
      requires Valid() && Enabled(v, Model(), AioPipe.Return)
      modifies this`mask, this`frames, this`pc
      ensures Model() == ReturnStep(old(Model()))
    {
      var n := |frames| - 1;
      mask := frames[n].saved;
      frames := frames[..n];
      if n == 0 && pc.Suspended? { pc := Woken; }
    }

    method Step(a: Action)
      requires Valid() && Enabled(v, Model(), a)
      modifies this, a1, a2, buf1, buf2
      ensures Model() == Apply(v, old(Model()), a)
    {
      match a
      case Mainline => Mainline();
      case Transfer(k) => Transfer(k);
      case Complete(k) => Complete(k);
      case Deliver(sig) => Deliver(sig);
      case Handle => Handle();
      case Return => Return();
    }
  }

  /** The whole program under any scheduler (which may look at everything and is asked
      again at every step): it terminates, and as intended it copies its input. */
  method CopyFile(v: Variant, input: seq<byte>, scheduler: (nat, State) -> Action) returns (final: State)
    ensures final.pc.Exited? && final.input == input
    ensures v.ownBuffer ==> Faithful(input, final.out)
    ensures v.ownBuffer && v.rereadStdin ==> IsCopy(final)
  {
    var p := new Process(v, input);
    ghost var acts: seq<Action> := [];
    InitInv(v, input);
    var n := 0;
    while p.pc != Exited
      invariant p.Valid() && p.v == v && fresh(p) && fresh(p.a1) && fresh(p.a2) && fresh(p.buf1) && fresh(p.buf2)
      invariant CanRun(v, Init(input), acts) && p.Model() == Run(v, Init(input), acts)
      invariant Inv(v, p.Model())
      decreases Measure(p.Model())
    {
      var s := p.Model();
      var a := scheduler(n, s);
      if !Enabled(v, s, a) {
        a := SomeAction(v, s);
      }
      p.Step(a);
      n := n + 1;
      StepInv(v, s, a);
      StepDecreases(v, s, a);
      RunOne(v, s, a);
      CanRunAppend(v, Init(input), acts, [a]);
      acts := acts + [a];
    }
    final := p.Model();
    RunInv(v, Init(input), acts);
    if v.ownBuffer {
      OutputIsAlwaysFaithful(v, input, acts);
      if v.rereadStdin { RepairedAlwaysCopies(v, input); }
    }
  }

  lemma RunOne(v: Variant, s: State, a: Action)
    requires Shape(s) && Enabled(v, s, a)
    ensures CanRun(v, s, [a]) && Run(v, s, [a]) == Apply(v, s, a)
  {
    assert [a][1..] == [];
  }
}
