/** fifo.c in its own form: each process fills its buffer in place. */
module FifoProgram {
  import opened Prelude
  import opened Fifo

  class Process {
    const buf: array<byte>
    var pc: Pc
    var nreads: nat
    var nwrites: nat

    function Value(): Proc
      reads this, buf
    {
      Proc(pc, buf[..], nreads, nwrites)
    }

    constructor (start: Pc, data: seq<byte>)
      ensures Value() == Proc(start, data, 0, 0) && fresh(buf)
    {
      buf := new byte[|data|](i requires 0 <= i < |data| => data[i]);
      pc, nreads, nwrites := start, 0, 0;
      new;
      assert buf[..] == data;
    }
  }

  class Pipes {
    const c: Config
    const parent: Process
    const child: Process
    var pe1: seq<byte>  // child to parent
    var pe2: seq<byte>  // parent to child

    ghost predicate Separate() {
      parent != child && parent.buf != child.buf
    }

    function Model(): State
      reads this, parent, child, parent.buf, child.buf
    {
      State(parent.Value(), child.Value(), pe2, pe1)
    }

    constructor (c: Config, data: seq<byte>)
      ensures Separate() && this.c == c && Model() == Init(data)
      ensures fresh(parent) && fresh(child) && fresh(parent.buf) && fresh(child.buf)
    {
      this.c := c;
      parent := new Process(Writing(0), data);
      child := new Process(Reading, data);
      pe1, pe2 := [], [];
    }

    function Proc(who: Who): Process {
      if who == Parent then parent else child
    }

    /** write(write_this, buf, nbytes), or the part of it that n more bytes make. */
    method Write(who: Who, n: nat)
      requires Separate() && Shape(c, Model()) && Enabled(c, Model(), Action.Write(who, n))
      modifies this`pe1, this`pe2, Proc(who)`pc
      ensures Model() == WriteStep(c, old(Model()), who, n)
    {
      var p := Proc(who);
      var pos := p.pc.pos;
      var bytes := p.buf[pos..pos + n];
      if who == Parent { pe2 := pe2 + bytes; } else { pe1 := pe1 + bytes; }
      p.pc := if pos + n == c.nbytes then CountWrite else Writing(pos + n);
    }

    /** read(read_this, buf, nbytes) and the test of its result. */
    method Read(who: Who)
      requires Separate() && Shape(c, Model()) && Enabled(c, Model(), Action.Read(who))
      modifies this`pe1, this`pe2, Proc(who)`pc, Proc(who).buf
      ensures Model() == ReadStep(c, old(Model()), who)
    {
      var p := Proc(who);
      var pipe := if who == Parent then pe1 else pe2;
      var ret := Min(c.nbytes, |pipe|);
      forall i | 0 <= i < ret {
        p.buf[i] := pipe[i];
      }
      if who == Parent { pe1 := pipe[ret..]; } else { pe2 := pipe[ret..]; }
      p.pc := if ret == c.nbytes then CountRead else Failed;
      assert p.buf[..] == pipe[..ret] + old(p.buf[..])[ret..];
    }

    /** nreads++ or nwrites++. */
    method Count(who: Who)
      requires Separate() && Enabled(c, Model(), Action.Count(who))
      modifies Proc(who)
      ensures Model() == CountStep(old(Model()), who)
    {
      var p := Proc(who);
      if p.pc.CountWrite? {
        p.nwrites := p.nwrites + 1;
        p.pc := Reading;
      } else {
        p.nreads := p.nreads + 1;
        p.pc := Writing(0);
      }
    }

    method Step(a: Action)
      requires Separate() && Shape(c, Model()) && Enabled(c, Model(), a)
      modifies this, parent, child, parent.buf, child.buf
      ensures Model() == Apply(c, old(Model()), a)
    {
      match a
      case Write(who, n) => Write(who, n);
      case Read(who) => Read(who);
      case Count(who) => Count(who);
    }
  }

  /** The benchmark under an arbitrary schedule: both processes still have the message, and
      if it fits PIPE_BUF neither has seen a short read. */
  method RunExperiment(c: Config, data: seq<byte>, schedule: seq<Action>) returns (final: State)
    requires |data| == c.nbytes && 1 <= c.pipeBuf <= c.capacity
    ensures final == Play(c, Init(data), schedule)
    ensures c.nbytes > 0 ==> Carries(c, data, final)
    ensures 1 <= c.nbytes <= c.pipeBuf ==>
      && !final.parent.pc.Failed? && !final.child.pc.Failed?
      && final.parent.nreads <= final.child.nwrites + 1 <= final.parent.nreads + 2
  {
    var e := new Pipes(c, data);
    InitInv(c, data);
    for i := 0 to |schedule|
      invariant e.Separate() && e.c == c && Shape(c, e.Model())
      invariant fresh(e) && fresh(e.parent) && fresh(e.child) && fresh(e.parent.buf) && fresh(e.child.buf)
      invariant e.Model() == Play(c, Init(data), schedule[..i])
      invariant c.nbytes > 0 ==> Carries(c, data, e.Model())
      invariant 1 <= c.nbytes <= c.pipeBuf ==> Inv(c, data, e.Model())
    {
      var a := schedule[i];
      assert schedule[..i + 1][..i] == schedule[..i];
      if Enabled(c, e.Model(), a) {
        if c.nbytes > 0 { StepCarries(c, data, e.Model(), a); }
        if 1 <= c.nbytes <= c.pipeBuf { StepInv(c, data, e.Model(), a); }
        e.Step(a);
      }
    }
    assert schedule[..|schedule|] == schedule;
    final := e.Model();
  }
}
