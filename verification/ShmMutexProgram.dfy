/** The lock / fill / unlock loop in its own form, over a page updated in place. */
module ShmMutexProgram {
  import opened Prelude
  import opened ShmMutex

  class Shared {
    const c: Config
    const page: array<byte>
    var sem: nat
    var owner: Option<nat>
    var pcs: seq<Pc>
    var iterations: seq<nat>

    ghost predicate Valid()
      reads this
    {
      ShmMutex.Valid(c) && page.Length == c.pageSize && |pcs| == |c.mark| == |iterations|
    }

    function Model(): State
      reads this, page
    {
      State(page[..], sem, owner, pcs, iterations)
    }

    constructor (c: Config)
      requires ShmMutex.Valid(c)
      ensures Valid() && this.c == c && Model() == Init(c) && fresh(page)
    {
      this.c := c;
      page := new byte[c.pageSize](_ => 0);
      sem, owner := 1, None;
      pcs := seq(|c.mark|, _ => Acquiring);
      iterations := seq(|c.mark|, _ => 0);
      new;
      if c.lock == Embedded { StoreSem(1); }
      assert page[..] == Init(c).page;
    }

    /** The semaphore's value, read from and written to its bytes of the page. */
    method StoreSem(v: nat)
      requires Valid()
      modifies page
      ensures page[..] == WithSem(c, old(page[..]), v)
    {
      var b := Encode(v, c.semSize);
      forall i | 0 <= i < c.semSize {
        page[i] := b[i];
      }
      assert page[..] == b + old(page[..])[c.semSize..];
    }

    /** sem_wait or fcntl(F_SETLKW), at a moment when it can return. */
    method AcquireLock(p: nat, ghost m: Mutex)
      requires Valid() && p < |pcs| && pcs[p].Acquiring? && Enabled(c, Model(), p)
      requires Refines(c, Model(), m)
      modifies this`sem, this`owner, this`pcs, page
      ensures Valid() && Model() == Apply(c, old(Model()), p)
      ensures Refines(c, Model(), m.(holder := Some(p))) && pcs == old(pcs)[p := Fill(0)]
    {
      StepRefines(c, Model(), m, p);
      match c.lock
      {
        case Embedded => StoreSem(SemOf(c, page[..]) - 1);
        case Named => sem := sem - 1;
        case Record => owner := Some(p);
      }
      pcs := pcs[p := Fill(0)];
    }

    /** sem_post or fcntl with F_UNLCK. */
    method ReleaseLock(p: nat, ghost m: Mutex)
      requires Valid() && p < |pcs| && pcs[p].Releasing?
      requires Refines(c, Model(), m)
      modifies this`sem, this`owner, this`pcs, page
      ensures Valid() && Model() == Apply(c, old(Model()), p)
      ensures Refines(c, Model(), Mutex(None, Some(p))) && pcs == old(pcs)[p := Counting]
    {
      StepRefines(c, Model(), m, p);
      match c.lock
      {
        case Embedded => StoreSem(SemOf(c, page[..]) + 1);
        case Named => sem := sem + 1;
        case Record => if owner == Some(p) { owner := None; }
      }
      pcs := pcs[p := Counting];
    }

    /** addr[i] = mark. */
    method FillByte(p: nat)
      requires Valid() && Fits(c) && p < |pcs| && pcs[p].Fill? && pcs[p].i < c.nbytes
      modifies this`pcs, page
      ensures Valid() && Model() == Apply(c, old(Model()), p) && pcs == old(pcs)[p := Fill(old(pcs[p].i) + 1)]
      ensures page[..] == old(page[..])[Offset(c) + old(pcs[p].i) := c.mark[p]]
    {
      var i := pcs[p].i;
      page[Offset(c) + i] := c.mark[p];
      pcs := pcs[p := Fill(i + 1)];
    }

    /** for (i = 0; i < nbytes; i++) addr[i] = mark: the statements of one process that
        has the lock, one after another. */
    method FillRegion(p: nat, ghost m: Mutex) returns (ghost acts: seq<nat>)
      requires Valid() && p < |pcs| && pcs[p] == Fill(0) && Fits(c)
      requires Refines(c, Model(), m)
      modifies this`pcs, page
      ensures Valid() && CanRun(c, old(Model()), acts) && Model() == Run(c, old(Model()), acts)
      ensures Refines(c, Model(), m)
      ensures pcs == old(pcs)[p := Releasing] && iterations == old(iterations)
      ensures Marked(c, page[..], c.nbytes, p)
      ensures forall j | 0 <= j < c.pageSize && !(Offset(c) <= j < Offset(c) + c.nbytes) :: page[j] == old(page[j])
    {
      var i := 0;
      acts := [];
      assert Critical(c, pcs[p]);
      while i < c.nbytes
        invariant Valid() && 0 <= i && (i <= c.nbytes || i == 0) && pcs == old(pcs)[p := Fill(i)]
        invariant CanRun(c, old(Model()), acts) && Model() == Run(c, old(Model()), acts)
        invariant Refines(c, Model(), m)
        invariant forall j | 0 <= j < c.pageSize && !(Offset(c) <= j < Offset(c) + c.nbytes) :: page[j] == old(page[j])
      {
        RunSnoc(c, old(Model()), acts, p);
        StepRefines(c, Model(), m, p);
        FillByte(p);
        i := i + 1;
        acts := acts + [p];
      }
      RunSnoc(c, old(Model()), acts, p);
      StepRefines(c, Model(), m, p);
      pcs := pcs[p := Releasing];
      acts := acts + [p];
    }

    /** iterations++. */
    method CountIteration(p: nat, ghost m: Mutex)
      requires Valid() && p < |pcs| && pcs[p].Counting? && Refines(c, Model(), m)
      modifies this`iterations, this`pcs
      ensures Valid() && Model() == Apply(c, old(Model()), p) && Refines(c, Model(), m)
    {
      StepRefines(c, Model(), m, p);
      iterations := iterations[p := iterations[p] + 1];
      pcs := pcs[p := Acquiring];
    }

    /** Lock, fill and unlock, by a process that finds the lock free. */
    method CriticalSection(p: nat, ghost m: Mutex)
      requires Valid() && Fits(c) && Refines(c, Model(), m) && m.holder == None
      requires p < |pcs| && pcs[p].Acquiring?
      modifies this`sem, this`owner, this`pcs, page
      ensures Valid() && Refines(c, Model(), Mutex(None, Some(p))) && pcs == old(pcs)[p := Counting]
    {
      FreeLock(c, Model(), m, p);
      AcquireLock(p, m);
      ghost var acts := FillRegion(p, m.(holder := Some(p)));
      ReleaseLock(p, m.(holder := Some(p)));
    }

    /** One turn of `while (1)`. */
    method Iterate(p: nat, ghost m: Mutex)
      requires Valid() && Fits(c) && Refines(c, Model(), m) && m.holder == None
      requires p < |pcs| && pcs[p].Acquiring?
      modifies this`sem, this`owner, this`pcs, this`iterations, page
      ensures Valid() && Refines(c, Model(), Mutex(None, Some(p)))
      ensures iterations == old(iterations)[p := old(iterations)[p] + 1] && pcs == old(pcs)
    {
      CriticalSection(p, m);
      CountIteration(p, Mutex(None, Some(p)));
    }
  }

  lemma FreeLock(c: Config, s: State, m: Mutex, p: nat)
    requires ShmMutex.Valid(c) && Refines(c, s, m) && m.holder == None && p < |s.pcs| && s.pcs[p].Acquiring?
    ensures Enabled(c, s, p)
  {
  }

  lemma RunSnoc(c: Config, s: State, acts: seq<nat>, p: nat)
    requires ShmMutex.Valid(c) && Shape(c, s) && CanRun(c, s, acts) && Enabled(c, Run(c, s, acts), p)
    ensures CanRun(c, s, acts + [p]) && Run(c, s, acts + [p]) == Apply(c, Run(c, s, acts), p)
  {
    assert [p][1..] == [];
    RunAppend(c, s, acts, [p]);
  }

  /** The program as it stands, one process and an uncontested lock: after every iteration
      the region holds its byte and the lock is free again. */
  method RunAlone(c: Config, rounds: nat) returns (final: State)
    requires ShmMutex.Valid(c) && |c.mark| == 1 && Fits(c)
    ensures Shape(c, final) && final.iterations == [rounds] && final.pcs == [Acquiring]
    ensures LockValue(c, final) == 1
    ensures rounds > 0 ==> Marked(c, final.page, c.nbytes, 0)
  {
    var s := new Shared(c);
    ghost var m := Mutex(None, None);
    InitRefines(c);
    for n := 0 to rounds
      invariant s.Valid() && s.c == c && fresh(s) && fresh(s.page)
      invariant Refines(c, s.Model(), m) && m == Mutex(None, if n == 0 then None else Some(0))
      invariant s.pcs == [Acquiring] && s.iterations == [n]
    {
      s.Iterate(0, m);
      m := Mutex(None, Some(0));
    }
    final := s.Model();
    OneHolder(c, final, m);
  }
}
