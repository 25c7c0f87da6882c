/** The lock / fill / unlock loop over shared memory, with its three locks: a semaphore in
    the shared page (shmmutex_semembed.c), a named semaphore (shmmutex_sem.c) and a record
    lock (shmmutex_flock.c). Any number of processes may share the loop. */
module ShmMutex {
  import opened Prelude

  datatype Lock = Embedded | Named | Record

  /** semSize: sizeof(sem_t). mark: the byte each process stores; every process of the
      source stores 'A'. nbytes comes from atoi and may be anything. */
  datatype Config = Config(lock: Lock, nbytes: int, pageSize: nat, semSize: nat, mark: seq<byte>)

  ghost predicate Valid(c: Config) {
    1 <= c.semSize <= c.pageSize
  }

  /** Where the data begins: after the semaphore when that is in the page. */
  function Offset(c: Config): nat {
    if c.lock == Embedded then c.semSize else 0
  }

  /** The region fits the page. */
  predicate Fits(c: Config) {
    Offset(c) + c.nbytes <= c.pageSize
  }

  /** Fill(i): about to test i < nbytes. Faulted: killed by a store beyond the page. */
  datatype Pc = Acquiring | Fill(i: nat) | Releasing | Counting | Faulted

  /** sem: a named semaphore's value. owner: the process with the record lock. */
  datatype State = State(page: seq<byte>, sem: nat, owner: Option<nat>, pcs: seq<Pc>, iterations: seq<nat>)

  ghost predicate Shape(c: Config, s: State) {
    |s.page| == c.pageSize && |s.pcs| == |c.mark| == |s.iterations|
  }

  // ---------- the semaphore in the page ----------

  /** sem_t as a little-endian number. */
  function Decode(b: seq<byte>): nat {
    if b == [] then 0 else b[0] as nat + 256 * Decode(b[1..])
  }

  function Encode(v: nat, n: nat): (b: seq<byte>)
    ensures |b| == n
    decreases n
  {
    if n == 0 then [] else [(v % 256) as byte] + Encode(v / 256, n - 1)
  }

  /** How many values n bytes can hold. */
  function Values(n: nat): nat {
    if n == 0 then 1 else 256 * Values(n - 1)
  }

  /** Every value that fits the semaphore's bytes is read back. */
  lemma {:induction false} DecodeEncode(v: nat, n: nat)
    requires v < Values(n)
    ensures Decode(Encode(v, n)) == v
    decreases n
  {
    if n > 0 {
      assert Encode(v, n)[1..] == Encode(v / 256, n - 1);
      DecodeEncode(v / 256, n - 1);
    }
  }

  lemma {:induction false} ByteFits(n: nat)
    requires n > 0
    ensures 256 <= Values(n)
    decreases n
  {
    if n > 1 { ByteFits(n - 1); }
  }

  function SemOf(c: Config, page: seq<byte>): nat
    requires c.semSize <= |page|
  {
    Decode(page[..c.semSize])
  }

  function WithSem(c: Config, page: seq<byte>, v: nat): (r: seq<byte>)
    requires c.semSize <= |page|
    ensures |r| == |page|
  {
    Encode(v, c.semSize) + page[c.semSize..]
  }

  // ---------- the loop ----------

  function Init(c: Config): (s: State)
    requires Valid(c)
    ensures Shape(c, s)
  {
    var zeros: seq<byte> := seq(c.pageSize, _ => 0);
    State(if c.lock == Embedded then WithSem(c, zeros, 1) else zeros, 1, None,
          seq(|c.mark|, _ => Acquiring), seq(|c.mark|, _ => 0))
  }

  /** sem_wait, or fcntl(F_SETLKW) with a write lock, can return. */
  predicate CanAcquire(c: Config, s: State, p: nat)
    requires Valid(c) && Shape(c, s)
  {
    match c.lock
    case Embedded => SemOf(c, s.page) > 0
    case Named => s.sem > 0
    case Record => s.owner == None || s.owner == Some(p)
  }

  /** Process p's next statement. */
  predicate Enabled(c: Config, s: State, p: nat)
    requires Valid(c) && Shape(c, s)
  {
    p < |s.pcs| && !s.pcs[p].Faulted? && (s.pcs[p].Acquiring? ==> CanAcquire(c, s, p))
  }

  function Acquire(c: Config, s: State, p: nat): (r: State)
    requires Valid(c) && Shape(c, s) && CanAcquire(c, s, p)
    ensures |r.page| == |s.page|
  {
    match c.lock
    case Embedded => s.(page := WithSem(c, s.page, SemOf(c, s.page) - 1))
    case Named => s.(sem := s.sem - 1)
    case Record => s.(owner := Some(p))
  }

  function Release(c: Config, s: State, p: nat): (r: State)
    requires Valid(c) && Shape(c, s)
    ensures |r.page| == |s.page|
  {
    match c.lock
    case Embedded => s.(page := WithSem(c, s.page, SemOf(c, s.page) + 1))
    case Named => s.(sem := s.sem + 1)
    case Record => if s.owner == Some(p) then s.(owner := None) else s
  }

  /** A store beyond the page kills process p: the kernel drops its record lock, and nobody
      posts a semaphore for it. */
  function Die(c: Config, s: State, p: nat): State
    requires p < |s.pcs|
  {
    s.(pcs := s.pcs[p := Faulted],
       owner := if c.lock == Record && s.owner == Some(p) then None else s.owner)
  }

  function Apply(c: Config, s: State, p: nat): (r: State)
    requires Valid(c) && Shape(c, s) && Enabled(c, s, p)
    ensures Shape(c, r)
  {
    match s.pcs[p]
    case Acquiring => Acquire(c, s, p).(pcs := s.pcs[p := Fill(0)])
    case Fill(i) =>
      if i >= c.nbytes then s.(pcs := s.pcs[p := Releasing])
      else if Offset(c) + i < c.pageSize then
        s.(page := s.page[Offset(c) + i := c.mark[p]], pcs := s.pcs[p := Fill(i + 1)])
      else Die(c, s, p)
    case Releasing => Release(c, s, p).(pcs := s.pcs[p := Counting])
    case Counting => s.(iterations := s.iterations[p := s.iterations[p] + 1], pcs := s.pcs[p := Acquiring])
    case Faulted => s
  }

  /** A schedule names the process that takes each statement. */
  ghost predicate CanRun(c: Config, s: State, acts: seq<nat>)
    requires Valid(c) && Shape(c, s)
    decreases |acts|
  {
    acts == [] || (Enabled(c, s, acts[0]) && CanRun(c, Apply(c, s, acts[0]), acts[1..]))
  }

  ghost function Run(c: Config, s: State, acts: seq<nat>): (r: State)
    requires Valid(c) && Shape(c, s) && CanRun(c, s, acts)
    ensures Shape(c, r)
    decreases |acts|
  {
    if acts == [] then s else Run(c, Apply(c, s, acts[0]), acts[1..])
  }

  // ---------- the abstract mutex ----------

  /** last: the process that released most recently. */
  datatype Mutex = Mutex(holder: Option<nat>, last: Option<nat>)

  /** Dropped: the holder died and the lock was taken from it. */
  datatype Event = Acquired(p: nat) | Released(p: nat) | Dropped(p: nat) | Other

  predicate Legal(m: Mutex, e: Event) {
    match e
    case Acquired(p) => m.holder == None
    case Released(p) => m.holder == Some(p)
    case Dropped(p) => m.holder == Some(p)
    case Other => true
  }

  function Next(m: Mutex, e: Event): Mutex {
    match e
    case Acquired(p) => m.(holder := Some(p))
    case Released(p) => Mutex(None, Some(p))
    case Dropped(p) => Mutex(None, None)
    case Other => m
  }

  /** What process p's next statement is to the mutex. */
  function EventOf(c: Config, s: State, p: nat): Event
    requires p < |s.pcs|
  {
    match s.pcs[p]
    case Acquiring => Acquired(p)
    case Releasing => Released(p)
    case Fill(i) => if c.lock == Record && i < c.nbytes && c.pageSize <= i then Dropped(p) else Other
    case _ => Other
  }

  /** A process that dies inside keeps a semaphore for ever, but not a record lock. */
  predicate Critical(c: Config, pc: Pc) {
    pc.Fill? || pc.Releasing? || (pc.Faulted? && c.lock != Record)
  }

  /** The concrete lock says what the abstract one says. */
  ghost predicate LockIs(c: Config, s: State, holder: Option<nat>)
    requires Valid(c) && Shape(c, s)
  {
    match c.lock
    case Embedded => SemOf(c, s.page) == if holder == None then 1 else 0
    case Named => s.sem == if holder == None then 1 else 0
    case Record => s.owner == holder
  }

  /** The first n bytes of the region are process p's. */
  ghost predicate Marked(c: Config, page: seq<byte>, n: int, p: nat)
    requires p < |c.mark|
  {
    && (n > 0 ==> Offset(c) + n <= |page|)
    && forall j | Offset(c) <= j < Offset(c) + n :: page[j] == c.mark[p]
  }

  ghost predicate Refines(c: Config, s: State, m: Mutex)
    requires Valid(c)
  {
    && Shape(c, s)
    && (forall p | 0 <= p < |s.pcs| :: Critical(c, s.pcs[p]) <==> m.holder == Some(p))
    && (forall p | 0 <= p < |s.pcs| :: s.pcs[p].Faulted? ==> !Fits(c))
    && (m.holder.Some? ==> m.holder.value < |s.pcs|)
    && LockIs(c, s, m.holder)
    && (m.last.Some? ==> m.last.value < |s.pcs|)
    && (m.holder == None && m.last.Some? ==> Marked(c, s.page, c.nbytes, m.last.value))
    && (m.holder.Some? ==>
          var p := m.holder.value;
          match s.pcs[p]
          case Fill(i) => Marked(c, s.page, i, p)
          case Releasing => Marked(c, s.page, c.nbytes, p)
          case _ => !Fits(c))
  }

  lemma WithSemIs(c: Config, page: seq<byte>, v: nat)
    requires Valid(c) && c.semSize <= |page| && v < 256
    ensures SemOf(c, WithSem(c, page, v)) == v
    ensures forall j | c.semSize <= j < |page| :: WithSem(c, page, v)[j] == page[j]
  {
    assert WithSem(c, page, v)[..c.semSize] == Encode(v, c.semSize);
    ByteFits(c.semSize);
    DecodeEncode(v, c.semSize);
  }

  lemma InitRefines(c: Config)
    requires Valid(c)
    ensures Refines(c, Init(c), Mutex(None, None))
  {
    WithSemIs(c, seq(c.pageSize, _ => 0), 1);
  }

  lemma AcquireRefines(c: Config, s: State, m: Mutex, p: nat)
    requires Valid(c) && Refines(c, s, m) && Enabled(c, s, p) && s.pcs[p].Acquiring?
    ensures Legal(m, EventOf(c, s, p)) && Refines(c, Apply(c, s, p), Next(m, EventOf(c, s, p)))
  {
    assert !Critical(c, s.pcs[p]);
    assert m.holder == None;
    if c.lock == Embedded {
      WithSemIs(c, s.page, 0);
      assert Apply(c, s, p).page == WithSem(c, s.page, 0);
    }
  }

  lemma ReleaseRefines(c: Config, s: State, m: Mutex, p: nat)
    requires Valid(c) && Refines(c, s, m) && Enabled(c, s, p) && s.pcs[p].Releasing?
    ensures Legal(m, EventOf(c, s, p)) && Refines(c, Apply(c, s, p), Next(m, EventOf(c, s, p)))
  {
    assert Critical(c, s.pcs[p]);
    assert m.holder == Some(p);
    if c.lock == Embedded {
      WithSemIs(c, s.page, 1);
      assert Apply(c, s, p).page == WithSem(c, s.page, 1);
    }
  }

  lemma FillRefines(c: Config, s: State, m: Mutex, p: nat)
    requires Valid(c) && Refines(c, s, m) && Enabled(c, s, p) && s.pcs[p].Fill?
    ensures Legal(m, EventOf(c, s, p)) && Refines(c, Apply(c, s, p), Next(m, EventOf(c, s, p)))
  {
    assert Critical(c, s.pcs[p]);
    assert m.holder == Some(p);
    if c.lock == Embedded {
      assert Apply(c, s, p).page[..c.semSize] == s.page[..c.semSize];
    }
  }

  /** Every statement of every process, under each of the three locks, is a legal step of
      the abstract mutex or leaves it alone. */
  lemma StepRefines(c: Config, s: State, m: Mutex, p: nat)
    requires Valid(c) && Refines(c, s, m) && Enabled(c, s, p)
    ensures Legal(m, EventOf(c, s, p)) && Refines(c, Apply(c, s, p), Next(m, EventOf(c, s, p)))
  {
    match s.pcs[p]
    case Acquiring => AcquireRefines(c, s, m, p);
    case Fill(i) => FillRefines(c, s, m, p);
    case Releasing => ReleaseRefines(c, s, m, p);
    case _ =>
  }

  ghost function MutexAfter(c: Config, s: State, acts: seq<nat>, m: Mutex): Mutex
    requires Valid(c) && Shape(c, s) && CanRun(c, s, acts)
    decreases |acts|
  {
    if acts == [] then m
    else MutexAfter(c, Apply(c, s, acts[0]), acts[1..], Next(m, EventOf(c, s, acts[0])))
  }

  /** All the events of a run are legal, in order, from a free mutex. */
  ghost predicate AllLegal(c: Config, s: State, acts: seq<nat>, m: Mutex)
    requires Valid(c) && Shape(c, s) && CanRun(c, s, acts)
    decreases |acts|
  {
    acts == [] || (Legal(m, EventOf(c, s, acts[0]))
                   && AllLegal(c, Apply(c, s, acts[0]), acts[1..], Next(m, EventOf(c, s, acts[0]))))
  }

  lemma {:induction false} RunRefines(c: Config, s: State, acts: seq<nat>, m: Mutex)
    requires Valid(c) && Refines(c, s, m) && CanRun(c, s, acts)
    ensures AllLegal(c, s, acts, m) && Refines(c, Run(c, s, acts), MutexAfter(c, s, acts, m))
    decreases |acts|
  {
    if acts != [] {
      StepRefines(c, s, m, acts[0]);
      RunRefines(c, Apply(c, s, acts[0]), acts[1..], Next(m, EventOf(c, s, acts[0])));
    }
  }

  // ---------- what it gives ----------

  ghost function Holders(c: Config, s: State): set<nat> {
    set p | 0 <= p < |s.pcs| && Critical(c, s.pcs[p])
  }

  /** The value a waiter sees: a semaphore's value, or 1 for an unowned record lock. */
  function LockValue(c: Config, s: State): nat
    requires Valid(c) && Shape(c, s)
  {
    match c.lock
    case Embedded => SemOf(c, s.page)
    case Named => s.sem
    case Record => if s.owner == None then 1 else 0
  }

  /** In every reachable state of every run: lock value plus holders is one; the events so
      far are a legal history of one abstract mutex; and whenever the lock is free after
      some critical section the whole region holds one process's byte. */
  lemma MutualExclusion(c: Config, acts: seq<nat>)
    requires Valid(c) && CanRun(c, Init(c), acts)
    ensures AllLegal(c, Init(c), acts, Mutex(None, None))
    ensures var s := Run(c, Init(c), acts);
      var m := MutexAfter(c, Init(c), acts, Mutex(None, None));
      && LockValue(c, s) + |Holders(c, s)| == 1
      && (forall p, q | p in Holders(c, s) && q in Holders(c, s) :: p == q)
      && (LockValue(c, s) == 1 && m.last.Some? ==>
            m.last.value < |c.mark| && Marked(c, s.page, c.nbytes, m.last.value))
  {
    InitRefines(c);
    RunRefines(c, Init(c), acts, Mutex(None, None));
    OneHolder(c, Run(c, Init(c), acts), MutexAfter(c, Init(c), acts, Mutex(None, None)));
  }

  lemma OneHolder(c: Config, s: State, m: Mutex)
    requires Valid(c) && Refines(c, s, m)
    ensures Holders(c, s) == (if m.holder == None then {} else {m.holder.value})
    ensures LockValue(c, s) == 1 <==> m.holder == None
    ensures LockValue(c, s) <= 1
  {
    if m.holder.Some? {
      assert Critical(c, s.pcs[m.holder.value]);
    }
  }

  /** A store into the region never touches a semaphore that lives in the page. */
  lemma FillKeepsSemaphore(c: Config, s: State, p: nat)
    requires Valid(c) && c.lock == Embedded && Shape(c, s) && Enabled(c, s, p) && s.pcs[p].Fill?
    ensures Apply(c, s, p).page[..c.semSize] == s.page[..c.semSize]
  {
  }

  /** Bytes of the page past the region are never touched, by any run. */
  lemma {:induction false} TailUntouched(c: Config, s: State, acts: seq<nat>, j: nat)
    requires Valid(c) && Shape(c, s) && CanRun(c, s, acts)
    requires Offset(c) <= j < c.pageSize && Offset(c) + c.nbytes <= j
    ensures Run(c, s, acts).page[j] == s.page[j]
    decreases |acts|
  {
    if acts != [] { TailUntouched(c, Apply(c, s, acts[0]), acts[1..], j); }
  }

  /** While the region fits, some process can always step. */
  lemma NoDeadlock(c: Config, s: State, m: Mutex) returns (p: nat)
    requires Valid(c) && Refines(c, s, m) && Fits(c) && |s.pcs| > 0
    ensures Enabled(c, s, p)
  {
    p := if m.holder.Some? then m.holder.value else 0;
  }

  // ---------- how far each process has got ----------

  /** Bytes a process fills in one turn. */
  function Stores(c: Config): nat {
    if c.nbytes > 0 then c.nbytes else 0
  }

  /** Statements in one turn of the loop: lock, one test for each store and a last one,
      unlock, count. */
  function Turn(c: Config): nat {
    Stores(c) + 4
  }

  function Place(c: Config, pc: Pc): nat {
    match pc
    case Acquiring => 0
    case Fill(i) => 1 + i
    case Releasing => Stores(c) + 2
    case Counting => Stores(c) + 3
    case Faulted => 0
  }

  /** Process p has executed n statements. */
  ghost predicate HasTaken(c: Config, s: State, p: nat, n: nat)
    requires Shape(c, s) && p < |s.pcs|
  {
    && !s.pcs[p].Faulted? && (s.pcs[p].Fill? ==> s.pcs[p].i <= Stores(c))
    && s.iterations[p] == n / Turn(c) && Place(c, s.pcs[p]) == n % Turn(c)
  }

  lemma NextInTurn(n: nat, turn: nat)
    requires turn > 0
    ensures if n % turn + 1 == turn then (n + 1) / turn == n / turn + 1 && (n + 1) % turn == 0
            else (n + 1) / turn == n / turn && (n + 1) % turn == n % turn + 1
  {
    var q, r := n / turn, n % turn;
    assert n == q * turn + r;
    if r + 1 == turn {
      assert n + 1 == (q + 1) * turn + 0;
      Divides(n + 1, turn, q + 1, 0);
    } else {
      Divides(n + 1, turn, q, r + 1);
    }
  }

  lemma Divides(n: nat, turn: nat, q: nat, r: nat)
    requires r < turn && n == q * turn + r
    ensures n / turn == q && n % turn == r
  {
    var a, b := n / turn, n % turn;
    assert n == a * turn + b;
    assert (a - q) * turn == a * turn - q * turn == -((q - a) * turn);
    if a > q { AtLeastOnce(a - q, turn); }
    if a < q { AtLeastOnce(q - a, turn); }
  }

  lemma AtLeastOnce(k: int, turn: nat)
    requires k >= 1
    ensures k * turn >= turn
  {
    assert k * turn == (k - 1) * turn + turn;
  }

  lemma StepTaken(c: Config, s: State, p: nat, q: nat, n: nat)
    requires Valid(c) && Fits(c) && Shape(c, s) && Enabled(c, s, p) && q < |s.pcs| && HasTaken(c, s, q, n)
    ensures HasTaken(c, Apply(c, s, p), q, if p == q then n + 1 else n)
  {
    if p == q { NextInTurn(n, Turn(c)); }
  }

  lemma {:induction false} RunTaken(c: Config, s: State, acts: seq<nat>, q: nat, n: nat)
    requires Valid(c) && Fits(c) && Shape(c, s) && CanRun(c, s, acts) && q < |s.pcs| && HasTaken(c, s, q, n)
    ensures q < |Run(c, s, acts).pcs| && HasTaken(c, Run(c, s, acts), q, n + multiset(acts)[q])
    decreases |acts|
  {
    if acts != [] {
      StepTaken(c, s, acts[0], q, n);
      assert acts == [acts[0]] + acts[1..];
      RunTaken(c, Apply(c, s, acts[0]), acts[1..], q, if acts[0] == q then n + 1 else n);
    }
  }

  /** While the region fits, a process is where its own statements have brought it, however
      the others are interleaved: its position is their number modulo a turn, and its count
      is the number of whole turns. */
  lemma IterationsAreTurns(c: Config, acts: seq<nat>, p: nat)
    requires Valid(c) && Fits(c) && CanRun(c, Init(c), acts) && p < |c.mark|
    ensures var s := Run(c, Init(c), acts);
      && s.iterations[p] == multiset(acts)[p] / Turn(c)
      && Place(c, s.pcs[p]) == multiset(acts)[p] % Turn(c) && !s.pcs[p].Faulted?
  {
    Divides(0, Turn(c), 0, 0);
    RunTaken(c, Init(c), acts, p, 0);
  }

  // ---------- the three locks are interchangeable ----------

  function RegionByte(c: Config, page: seq<byte>, j: nat): byte
    requires Offset(c) + j < |page|
  {
    page[Offset(c) + j]
  }

  /** Same positions, same counts, same data. */
  ghost predicate SameView(c1: Config, s1: State, c2: Config, s2: State)
    requires Shape(c1, s1) && Shape(c2, s2) && c1.nbytes == c2.nbytes && Fits(c1) && Fits(c2)
  {
    && s1.pcs == s2.pcs && s1.iterations == s2.iterations
    && forall j | 0 <= j < c1.nbytes :: RegionByte(c1, s1.page, j) == RegionByte(c2, s2.page, j)
  }

  ghost predicate Comparable(c1: Config, c2: Config) {
    Valid(c1) && Valid(c2) && c1.nbytes == c2.nbytes && c1.mark == c2.mark && Fits(c1) && Fits(c2)
  }

  lemma SameEnabled(c1: Config, s1: State, m: Mutex, c2: Config, s2: State, p: nat)
    requires Comparable(c1, c2) && Refines(c1, s1, m) && Refines(c2, s2, m) && s1.pcs == s2.pcs
    ensures Enabled(c1, s1, p) <==> Enabled(c2, s2, p)
  {
    if p < |s1.pcs| { assert Critical(c1, s1.pcs[p]) <==> m.holder == Some(p); }
  }

  lemma LockKeepsRegion(c: Config, s: State, p: nat, j: nat)
    requires Valid(c) && Shape(c, s) && Enabled(c, s, p) && !s.pcs[p].Fill? && Offset(c) + j < c.pageSize
    ensures RegionByte(c, Apply(c, s, p).page, j) == RegionByte(c, s.page, j)
  {
  }

  lemma SameStep(c1: Config, s1: State, c2: Config, s2: State, p: nat)
    requires Comparable(c1, c2) && Shape(c1, s1) && Shape(c2, s2) && SameView(c1, s1, c2, s2)
    requires Enabled(c1, s1, p) && Enabled(c2, s2, p)
    ensures SameView(c1, Apply(c1, s1, p), c2, Apply(c2, s2, p))
  {
    var r1, r2 := Apply(c1, s1, p), Apply(c2, s2, p);
    forall j | 0 <= j < c1.nbytes ensures RegionByte(c1, r1.page, j) == RegionByte(c2, r2.page, j) {
      assert RegionByte(c1, s1.page, j) == RegionByte(c2, s2.page, j);
      if !s1.pcs[p].Fill? {
        LockKeepsRegion(c1, s1, p, j);
        LockKeepsRegion(c2, s2, p, j);
      }
    }
  }

  lemma {:induction false} SameRuns(c1: Config, s1: State, m: Mutex, c2: Config, s2: State, acts: seq<nat>)
    requires Comparable(c1, c2) && Refines(c1, s1, m) && Refines(c2, s2, m) && SameView(c1, s1, c2, s2)
    ensures CanRun(c1, s1, acts) <==> CanRun(c2, s2, acts)
    ensures CanRun(c1, s1, acts) ==>
      && SameView(c1, Run(c1, s1, acts), c2, Run(c2, s2, acts))
      && MutexAfter(c1, s1, acts, m) == MutexAfter(c2, s2, acts, m)
    decreases |acts|
  {
    if acts != [] {
      var p := acts[0];
      SameEnabled(c1, s1, m, c2, s2, p);
      if Enabled(c1, s1, p) {
        StepRefines(c1, s1, m, p);
        StepRefines(c2, s2, m, p);
        SameStep(c1, s1, c2, s2, p);
        SameRuns(c1, Apply(c1, s1, p), Next(m, EventOf(c1, s1, p)), c2, Apply(c2, s2, p), acts[1..]);
      }
    }
  }

  /** Whichever lock is used, the same schedules are possible and lead every process to the
      same statement and count, the region to the same bytes, and the mutex to the same
      holder and history. */
  lemma LocksInterchangeable(c: Config, lock: Lock, acts: seq<nat>)
    requires Comparable(c, c.(lock := lock))
    ensures var d := c.(lock := lock);
      && (CanRun(c, Init(c), acts) <==> CanRun(d, Init(d), acts))
      && (CanRun(c, Init(c), acts) ==>
            && SameView(c, Run(c, Init(c), acts), d, Run(d, Init(d), acts))
            && MutexAfter(c, Init(c), acts, Mutex(None, None)) == MutexAfter(d, Init(d), acts, Mutex(None, None)))
  {
    var d := c.(lock := lock);
    InitRefines(c);
    InitRefines(d);
    SameRuns(c, Init(c), Mutex(None, None), d, Init(d), acts);
  }

  // ---------- exactly which regions are safe ----------

  ghost predicate NeverFaults(c: Config)
    requires Valid(c)
  {
    forall acts | CanRun(c, Init(c), acts) :: Faulted !in Run(c, Init(c), acts).pcs
  }

  lemma {:induction false} RunAppend(c: Config, s: State, a: seq<nat>, b: seq<nat>)
    requires Valid(c) && Shape(c, s) && CanRun(c, s, a) && CanRun(c, Run(c, s, a), b)
    ensures CanRun(c, s, a + b) && Run(c, s, a + b) == Run(c, Run(c, s, a), b)
    decreases |a|
  {
    if a == [] {
      assert a + b == b;
    } else {
      RunAppend(c, Apply(c, s, a[0]), a[1..], b);
      assert (a + b)[1..] == a[1..] + b;
    }
  }

  /** A process that fills past the page faults. */
  lemma {:induction false} FillOverrun(c: Config, s: State, i: nat) returns (acts: seq<nat>)
    requires Valid(c) && Shape(c, s) && !Fits(c) && |s.pcs| > 0 && s.pcs[0] == Fill(i) && Offset(c) + i <= c.pageSize
    ensures CanRun(c, s, acts) && Faulted in Run(c, s, acts).pcs
    decreases c.pageSize - Offset(c) - i
  {
    var r := Apply(c, s, 0);
    if Offset(c) + i == c.pageSize {
      acts := [0];
      assert acts[1..] == [] && r.pcs[0] == Faulted;
    } else {
      var rest := FillOverrun(c, r, i + 1);
      acts := [0] + rest;
      assert acts[1..] == rest;
    }
  }

  /** No store ever leaves the page exactly when the region, placed after the semaphore if
      that is in the page, fits it. */
  lemma NeverFaultsIff(c: Config)
    requires Valid(c) && |c.mark| > 0
    ensures NeverFaults(c) <==> Fits(c)
  {
    InitRefines(c);
    if Fits(c) {
      forall acts | CanRun(c, Init(c), acts) ensures Faulted !in Run(c, Init(c), acts).pcs {
        RunRefines(c, Init(c), acts, Mutex(None, None));
        NotFaulted(c, Run(c, Init(c), acts), MutexAfter(c, Init(c), acts, Mutex(None, None)));
      }
    } else {
      assert Enabled(c, Init(c), 0);
      var s := Apply(c, Init(c), 0);
      var rest := FillOverrun(c, s, 0);
      var acts := [0] + rest;
      assert acts[1..] == rest;
      assert CanRun(c, Init(c), acts);
    }
  }

  lemma NotFaulted(c: Config, s: State, m: Mutex)
    requires Valid(c) && Refines(c, s, m) && Fits(c)
    ensures Faulted !in s.pcs
  {
    forall p | 0 <= p < |s.pcs| ensures s.pcs[p] != Faulted {
      assert Critical(c, s.pcs[p]) <==> m.holder == Some(p);
    }
  }
}
