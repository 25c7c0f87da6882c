/** The jitter recorder (jitter.p4.c): timestamps in a circular buffer, unexpected gaps in
    a list, both kept by the timer's signal handler. */
module Jitter {
  const TIMEBUF_MAX: nat := 200
  const JITTERBUF_MAX: nat := 100
  const SECOND: int := 1000000000

  datatype Timespec = Timespec(sec: int, nsec: int)

  const ZERO := Timespec(0, 0)

  /** cur is the source's `this`: the slot of the next timestamp. */
  datatype State = State(
    nsig: nat, ta: seq<Timespec>, cur: nat, prev: int, jbuf: seq<Timespec>, next: nat, exited: bool)

  ghost predicate Shape(s: State) {
    |s.ta| == TIMEBUF_MAX && |s.jbuf| == JITTERBUF_MAX && s.cur < TIMEBUF_MAX && s.prev < TIMEBUF_MAX
    && s.next <= JITTERBUF_MAX && (!s.exited ==> s.next < JITTERBUF_MAX)
  }

  function Init(): (s: State)
    ensures Shape(s)
  {
    State(0, seq(TIMEBUF_MAX, _ => ZERO), 0, -1, seq(JITTERBUF_MAX, _ => ZERO), 0, false)
  }

  /** The test of timer_expiration: not one period after the last timestamp, unless the
      seconds just clicked over. */
  predicate Flagged(period: Timespec, last: Timespec, now: Timespec) {
    && (now.sec != last.sec + period.sec || now.nsec != last.nsec + period.nsec)
    && !(now.sec == last.sec + 1 && now.nsec == 0)
  }

  function Gap(last: Timespec, now: Timespec): Timespec {
    Timespec(now.sec - last.sec, now.nsec - last.nsec)
  }

  // ---------- what the test and the amount mean ----------

  /** A time in nanoseconds. */
  function At(t: Timespec): int {
    t.sec * SECOND + t.nsec
  }

  predicate Normal(t: Timespec) {
    0 <= t.nsec < SECOND
  }

  /** The first nanosecond of the next second. */
  predicate ClicksOver(last: Timespec, now: Timespec) {
    At(now) == (last.sec + 1) * SECOND
  }

  /** The elapsed time is exactly one period, and adding it carried no second. */
  predicate OnTime(period: Timespec, last: Timespec, now: Timespec) {
    At(now) - At(last) == At(period) && last.nsec + period.nsec < SECOND
  }

  lemma SameTime(t: Timespec, u: Timespec)
    requires Normal(t) && Normal(u) && At(t) == At(u)
    ensures t == u
  {
  }

  /** Of normalised times the test passes exactly those on time and those that have just
      clicked over. */
  lemma FlaggedIff(period: Timespec, last: Timespec, now: Timespec)
    requires Normal(period) && Normal(last) && Normal(now)
    ensures Flagged(period, last, now) <==> !OnTime(period, last, now) && !ClicksOver(last, now)
  {
    if ClicksOver(last, now) { SameTime(now, Timespec(last.sec + 1, 0)); }
    if OnTime(period, last, now) { SameTime(now, Timespec(last.sec + period.sec, last.nsec + period.nsec)); }
  }

  /** With a period below one second: on time within the second, or just clicked over. */
  lemma QuietIff(d: nat, last: Timespec, now: Timespec)
    requires 0 < d < SECOND && Normal(last) && Normal(now)
    ensures !Flagged(Timespec(0, d), last, now) <==>
      (now.sec == last.sec && At(now) == At(last) + d) || (now.sec == last.sec + 1 && now.nsec == 0)
  {
    FlaggedIff(Timespec(0, d), last, now);
    if now.sec == last.sec + 1 && now.nsec == 0 { assert At(now) == (last.sec + 1) * SECOND; }
    if ClicksOver(last, now) { SameTime(now, Timespec(last.sec + 1, 0)); }
  }

  /** The amount recorded is the time elapsed, field by field. */
  lemma GapIsElapsed(last: Timespec, now: Timespec)
    ensures var g := Gap(last, now);
      At(g) == At(now) - At(last) && Timespec(last.sec + g.sec, last.nsec + g.nsec) == now
  {
  }

  function Advance(s: State): (r: State)
    requires Shape(s)
    ensures Shape(r)
  {
    s.(prev := s.cur, cur := if s.cur + 1 == TIMEBUF_MAX then 0 else s.cur + 1)
  }

  /** timer_expiration at time now. repaired: prev and cur advance on every signal; as the
      file is written they advance only once prev is set, which never happens. */
  function Expire(repaired: bool, period: Timespec, s: State, now: Timespec): (r: State)
    requires Shape(s) && !s.exited
    ensures Shape(r)
  {
    var s1 := s.(nsig := s.nsig + 1, ta := s.ta[s.cur := now]);
    if s1.prev >= 0 then
      if Flagged(period, s1.ta[s1.prev], s1.ta[s1.cur]) then
        var s2 := s1.(jbuf := s1.jbuf[s1.next := Gap(s1.ta[s1.prev], s1.ta[s1.cur])], next := s1.next + 1);
        if s2.next == JITTERBUF_MAX then s2.(exited := true) else Advance(s2)
      else Advance(s1)
    else if repaired then Advance(s1)
    else s1
  }

  /** The handler run on each timestamp of a history; nothing runs after the list fills. */
  function Record(repaired: bool, period: Timespec, h: seq<Timespec>): (s: State)
    ensures Shape(s)
  {
    if h == [] then Init()
    else
      var s := Record(repaired, period, h[..|h| - 1]);
      if s.exited then s else Expire(repaired, period, s, h[|h| - 1])
  }

  // ---------- what should be recorded ----------

  /** The gaps the test flags between consecutive timestamps of a history. */
  function Gaps(period: Timespec, h: seq<Timespec>): seq<Timespec> {
    if |h| <= 1 then []
    else
      var last, now := h[|h| - 2], h[|h| - 1];
      Gaps(period, h[..|h| - 1]) + if Flagged(period, last, now) then [Gap(last, now)] else []
  }

  /** The state that a history should leave. */
  ghost predicate Faithful(period: Timespec, s: State, h: seq<Timespec>) {
    && Shape(s) && s.nsig == |h| && !s.exited
    && s.next == |Gaps(period, h)| && s.jbuf[..s.next] == Gaps(period, h)
    && s.cur == |h| % TIMEBUF_MAX
    && s.prev == (if h == [] then -1 else (|h| - 1) % TIMEBUF_MAX)
    && Ring(s.ta, h)
  }

  /** The last 200 timestamps, each in its slot. */
  ghost predicate Ring(ta: seq<Timespec>, h: seq<Timespec>)
    requires |ta| == TIMEBUF_MAX
  {
    forall i | 0 <= i < |h| && |h| - TIMEBUF_MAX <= i :: ta[i % TIMEBUF_MAX] == h[i]
  }

  lemma SlotsDiffer(i: nat, n: nat)
    requires i < n && n - TIMEBUF_MAX < i
    ensures i % TIMEBUF_MAX != n % TIMEBUF_MAX
  {
  }

  lemma NextSlot(n: nat)
    ensures (n % TIMEBUF_MAX + 1) % TIMEBUF_MAX == (n + 1) % TIMEBUF_MAX
  {
  }

  lemma RingSnoc(ta: seq<Timespec>, h: seq<Timespec>, now: Timespec)
    requires |ta| == TIMEBUF_MAX && Ring(ta, h)
    ensures Ring(ta[|h| % TIMEBUF_MAX := now], h + [now])
  {
    var r, slot := ta[|h| % TIMEBUF_MAX := now], |h| % TIMEBUF_MAX;
    forall i | 0 <= i < |h| + 1 && |h| + 1 - TIMEBUF_MAX <= i
      ensures r[i % TIMEBUF_MAX] == (h + [now])[i]
    {
      if i < |h| {
        SlotsDiffer(i, |h|);
        assert ta[i % TIMEBUF_MAX] == h[i];
      }
    }
  }

  lemma LastSlot(ta: seq<Timespec>, h: seq<Timespec>)
    requires |ta| == TIMEBUF_MAX && Ring(ta, h) && h != []
    ensures ta[(|h| - 1) % TIMEBUF_MAX] == h[|h| - 1] && (|h| - 1) % TIMEBUF_MAX != |h| % TIMEBUF_MAX
  {
    SlotsDiffer(|h| - 1, |h|);
  }

  lemma GapsSnoc(period: Timespec, h: seq<Timespec>, now: Timespec)
    ensures Gaps(period, h + [now])
      == if h != [] && Flagged(period, h[|h| - 1], now) then Gaps(period, h) + [Gap(h[|h| - 1], now)]
         else Gaps(period, h)
  {
    assert (h + [now])[..|h|] == h;
  }

  /** One signal that does not fill the list, field by field. */
  lemma ExpireFields(period: Timespec, s: State, now: Timespec, flagged: bool)
    requires Shape(s) && !s.exited && (flagged ==> s.next + 1 < JITTERBUF_MAX)
    requires s.prev != s.cur
    requires flagged <==> s.prev >= 0 && Flagged(period, s.ta[s.prev], now)
    ensures var r := Expire(true, period, s, now);
      && r.ta == s.ta[s.cur := now] && r.nsig == s.nsig + 1 && !r.exited
      && r.prev == s.cur && r.cur == (s.cur + 1) % TIMEBUF_MAX
      && r.next == s.next + (if flagged then 1 else 0)
      && r.jbuf[..r.next] == s.jbuf[..s.next] + (if flagged then [Gap(s.ta[s.prev], now)] else [])
  {
  }

  lemma ExpireFaithful(period: Timespec, s: State, h: seq<Timespec>, now: Timespec)
    requires Faithful(period, s, h) && |Gaps(period, h + [now])| < JITTERBUF_MAX
    ensures Faithful(period, Expire(true, period, s, now), h + [now])
  {
    GapsSnoc(period, h, now);
    RingSnoc(s.ta, h, now);
    NextSlot(|h|);
    if h != [] { LastSlot(s.ta, h); }
    ExpireFields(period, s, now, h != [] && Flagged(period, h[|h| - 1], now));
  }

  lemma {:induction false} GapsGrow(period: Timespec, h: seq<Timespec>, n: nat)
    requires n <= |h|
    ensures |Gaps(period, h[..n])| <= |Gaps(period, h)|
    decreases |h|
  {
    if n < |h| {
      assert h[..|h| - 1][..n] == h[..n];
      GapsGrow(period, h[..|h| - 1], n);
    } else {
      assert h[..n] == h;
    }
  }

  /** Until the gap list fills, the two buffers are a pure function of the history: the
      circular buffer holds the last min(n, 200) timestamps in their slots, and the list
      holds exactly the flagged gaps, in order. */
  lemma {:induction false} RecordIsFaithful(period: Timespec, h: seq<Timespec>)
    requires |Gaps(period, h)| < JITTERBUF_MAX
    ensures Faithful(period, Record(true, period, h), h)
    decreases |h|
  {
    if h != [] {
      var before := h[..|h| - 1];
      GapsGrow(period, h, |h| - 1);
      RecordIsFaithful(period, before);
      assert before + [h[|h| - 1]] == h;
      ExpireFaithful(period, Record(true, period, before), before, h[|h| - 1]);
    }
  }

  /** The signal that fills the list ends the program with all the gaps recorded. */
  lemma FillsAndExits(period: Timespec, h: seq<Timespec>)
    requires h != [] && |Gaps(period, h)| == JITTERBUF_MAX
    requires |Gaps(period, h[..|h| - 1])| < JITTERBUF_MAX
    ensures var s := Record(true, period, h);
      s.exited && s.next == JITTERBUF_MAX && s.jbuf == Gaps(period, h) && s.nsig == |h|
  {
    var before := h[..|h| - 1];
    RecordIsFaithful(period, before);
    var n := |before|;
    SlotsDiffer(n - 1, n);
  }

  /** What the program reports at the end. */
  function Reported(s: State): seq<Timespec>
    requires Shape(s)
  {
    s.jbuf[..s.next]
  }

  lemma {:induction false} StaysFull(period: Timespec, h: seq<Timespec>)
    requires |Gaps(period, h)| >= JITTERBUF_MAX
    ensures var s := Record(true, period, h);
      s.exited && Reported(s) == Gaps(period, h)[..JITTERBUF_MAX]
    decreases |h|
  {
    var before := h[..|h| - 1];
    if |Gaps(period, before)| >= JITTERBUF_MAX {
      StaysFull(period, before);
    } else {
      FillsAndExits(period, h);
      var s := Record(true, period, h);
      assert s.jbuf[..s.next] == s.jbuf == Gaps(period, h) == Gaps(period, h)[..JITTERBUF_MAX];
    }
  }

  /** Whatever the history, the list is its flagged gaps, up to the first hundred. */
  lemma ReportIsGaps(period: Timespec, h: seq<Timespec>)
    ensures Reported(Record(true, period, h))
      == if |Gaps(period, h)| < JITTERBUF_MAX then Gaps(period, h) else Gaps(period, h)[..JITTERBUF_MAX]
  {
    if |Gaps(period, h)| < JITTERBUF_MAX { RecordIsFaithful(period, h); } else { StaysFull(period, h); }
  }

  /** One entry of the list for each pair of consecutive timestamps that is neither on
      time nor a click-over, in order, and each entry is the time that pair took. */
  ghost predicate Explains(period: Timespec, h: seq<Timespec>, at: seq<nat>, gaps: seq<Timespec>) {
    && |at| == |gaps|
    && (forall k | 0 <= k < |at| :: at[k] + 1 < |h| && Jitters(period, h, at[k]))
    && (forall k | 0 <= k < |at| :: TookGap(h, at[k], gaps[k]))
    && (forall k, l | 0 <= k < l < |at| :: at[k] < at[l])
    && (forall i: nat | i + 1 < |h| && Jitters(period, h, i) :: i in at)
  }

  ghost predicate Jitters(period: Timespec, h: seq<Timespec>, i: nat)
    requires i + 1 < |h|
  {
    !OnTime(period, h[i], h[i + 1]) && !ClicksOver(h[i], h[i + 1])
  }

  ghost predicate TookGap(h: seq<Timespec>, i: nat, g: Timespec)
    requires i + 1 < |h|
  {
    At(g) == At(h[i + 1]) - At(h[i]) && Timespec(h[i].sec + g.sec, h[i].nsec + g.nsec) == h[i + 1]
  }

  lemma ExplainsSnoc(period: Timespec, h: seq<Timespec>, now: Timespec, at: seq<nat>, gaps: seq<Timespec>)
    requires h != [] && Explains(period, h, at, gaps)
    ensures var n := |h| - 1;
      if Jitters(period, h + [now], n) then Explains(period, h + [now], at + [n], gaps + [Gap(h[n], now)])
      else Explains(period, h + [now], at, gaps)
  {
    var n, h' := |h| - 1, h + [now];
    ExplainsPrefix(period, h, now, at, gaps);
    if Jitters(period, h', n) {
      var at', gaps' := at + [n], gaps + [Gap(h[n], now)];
      GapIsElapsed(h[n], now);
      forall k | 0 <= k < |at'| ensures at'[k] + 1 < |h'| && Jitters(period, h', at'[k]) && TookGap(h', at'[k], gaps'[k]) {
        if k < |at| { assert at'[k] == at[k] && gaps'[k] == gaps[k]; }
      }
      forall i: nat | i + 1 < |h'| && Jitters(period, h', i) ensures i in at' {
        if i < n { assert i in at; } else { assert at'[|at|] == n; }
      }
    }
  }

  /** A further timestamp changes nothing about the pairs before it. */
  lemma ExplainsPrefix(period: Timespec, h: seq<Timespec>, now: Timespec, at: seq<nat>, gaps: seq<Timespec>)
    requires h != [] && Explains(period, h, at, gaps)
    ensures var h' := h + [now];
      && (forall k | 0 <= k < |at| :: at[k] + 1 < |h| && Jitters(period, h', at[k]) && TookGap(h', at[k], gaps[k]))
      && (forall i: nat | i + 1 < |h| && Jitters(period, h', i) :: i in at)
  {
    var h' := h + [now];
    forall i: nat | i + 1 < |h| ensures Jitters(period, h', i) <==> Jitters(period, h, i) {}
    forall k | 0 <= k < |at| ensures TookGap(h', at[k], gaps[k]) {
      assert TookGap(h, at[k], gaps[k]);
    }
  }

  /** What the list means for any history of normalised times: no timing fault is missed,
      invented, repeated or reordered. */
  lemma {:induction false} GapsExplained(period: Timespec, h: seq<Timespec>) returns (at: seq<nat>)
    requires Normal(period) && forall t | t in h :: Normal(t)
    ensures Explains(period, h, at, Gaps(period, h))
    decreases |h|
  {
    if |h| <= 1 {
      at := [];
    } else {
      var before, last, now := h[..|h| - 1], h[|h| - 2], h[|h| - 1];
      assert h == before + [now];
      assert forall t | t in before :: t in h;
      at := GapsExplained(period, before);
      ExplainsSnoc(period, before, now, at, Gaps(period, before));
      FlaggedIff(period, last, now);
      if Flagged(period, last, now) { at := at + [|h| - 2]; } else { assert Gaps(period, h) == Gaps(period, before); }
    }
  }

  /** The report, as the reader of the output may take it: all the faults of the history
      when there are fewer than a hundred, and then the first hundred. */
  lemma ReportExplained(period: Timespec, h: seq<Timespec>) returns (at: seq<nat>)
    requires Normal(period) && forall t | t in h :: Normal(t)
    ensures Explains(period, h, at, Gaps(period, h))
    ensures var r := Reported(Record(true, period, h));
      && |r| == (if |at| < JITTERBUF_MAX then |at| else JITTERBUF_MAX)
      && forall k | 0 <= k < |r| :: TookGap(h, at[k], r[k])
  {
    at := GapsExplained(period, h);
    ReportIsGaps(period, h);
  }

  // ---------- the recorder as the file is written ----------

  /** As the file is written no slot but the first is ever used, and no gap is recorded. */
  lemma {:induction false} AsWrittenState(period: Timespec, h: seq<Timespec>)
    ensures Record(false, period, h)
      == Init().(nsig := |h|, ta := if h == [] then Init().ta else Init().ta[0 := h[|h| - 1]])
    decreases |h|
  {
    if h != [] { AsWrittenState(period, h[..|h| - 1]); }
  }

  /** As written the handler's state is what it should be only before the first signal;
      and the report is the repaired program's, and the list of flagged gaps, exactly when
      no gap of the whole history is flagged. */
  lemma AsWrittenRecordsNothing(period: Timespec, h: seq<Timespec>)
    ensures Faithful(period, Record(false, period, h), h) <==> h == []
    ensures Reported(Record(false, period, h)) == []
    ensures Reported(Record(false, period, h)) == Reported(Record(true, period, h)) <==> Gaps(period, h) == []
  {
    AsWrittenState(period, h);
    ReportIsGaps(period, h);
  }

  /** Each of the last 200 timestamps is zero, except that the very last may be anything
      when it falls in the first slot. */
  ghost predicate LastAlone(h: seq<Timespec>) {
    forall i | 0 <= i < |h| && |h| - TIMEBUF_MAX <= i ::
      h[i] == ZERO || (i == |h| - 1 && i % TIMEBUF_MAX == 0)
  }

  lemma OneInFirstSlot(i: nat, n: nat)
    requires i < n && n - TIMEBUF_MAX <= i && i % TIMEBUF_MAX == 0 && (n - 1) % TIMEBUF_MAX == 0
    ensures i == n - 1
  {
  }

  /** A ring with only the newest timestamp, in the first slot. */
  ghost predicate OnlyNewest(ta: seq<Timespec>, h: seq<Timespec>) {
    && |ta| == TIMEBUF_MAX && (h != [] ==> ta[0] == h[|h| - 1])
    && forall j | 1 <= j < TIMEBUF_MAX :: ta[j] == ZERO
  }

  lemma RingIsAlone(ta: seq<Timespec>, h: seq<Timespec>, i: nat)
    requires OnlyNewest(ta, h) && Ring(ta, h) && i < |h| && |h| - TIMEBUF_MAX <= i
    ensures h[i] == ZERO || (i == |h| - 1 && i % TIMEBUF_MAX == 0)
  {
    assert ta[i % TIMEBUF_MAX] == h[i];
    assert ta[(|h| - 1) % TIMEBUF_MAX] == h[|h| - 1];
  }

  lemma AloneIsRing(ta: seq<Timespec>, h: seq<Timespec>, i: nat)
    requires OnlyNewest(ta, h) && LastAlone(h) && i < |h| && |h| - TIMEBUF_MAX <= i
    ensures ta[i % TIMEBUF_MAX] == h[i]
  {
    if i % TIMEBUF_MAX == 0 && (|h| - 1) % TIMEBUF_MAX == 0 { OneInFirstSlot(i, |h|); }
  }

  /** As written the ring holds the last 200 timestamps exactly when the first slot is
      enough for them and zeros are right for the others. */
  lemma AsWrittenRingIff(period: Timespec, h: seq<Timespec>)
    ensures Ring(Record(false, period, h).ta, h) <==> LastAlone(h)
  {
    AsWrittenState(period, h);
    var ta := Record(false, period, h).ta;
    forall i: nat | i < |h| && |h| - TIMEBUF_MAX <= i
      ensures Ring(ta, h) ==> h[i] == ZERO || (i == |h| - 1 && i % TIMEBUF_MAX == 0)
      ensures LastAlone(h) ==> ta[i % TIMEBUF_MAX] == h[i]
    {
      if Ring(ta, h) { RingIsAlone(ta, h, i); }
      if LastAlone(h) { AloneIsRing(ta, h, i); }
    }
  }

  /** So with a clock that is never zero it holds them only up to the first signal. */
  lemma AsWrittenRingOfOne(period: Timespec, h: seq<Timespec>)
    requires ZERO !in h
    ensures Ring(Record(false, period, h).ta, h) <==> |h| <= 1
  {
    AsWrittenRingIff(period, h);
    if |h| >= 2 { assert h[|h| - 2] != ZERO; }
  }

  // ---------- a perfect clock ----------

  /** start plus i periods of d nanoseconds, with nanoseconds below one second. */
  function Tick(start: Timespec, d: nat, i: nat): Timespec {
    if i == 0 then start
    else
      var t := Tick(start, d, i - 1);
      if t.nsec + d < SECOND then t.(nsec := t.nsec + d) else Timespec(t.sec + 1, t.nsec + d - SECOND)
  }

  function Ticks(start: Timespec, d: nat, n: nat): (h: seq<Timespec>)
    ensures |h| == n
  {
    seq(n, i requires i >= 0 => Tick(start, d, i))
  }

  /** The clock is exact: every tick lies i * d nanoseconds after the start. */
  lemma {:induction false} TickIsExact(start: Timespec, d: nat, i: nat)
    requires 0 <= start.nsec < SECOND && d < SECOND
    ensures var t := Tick(start, d, i);
      && 0 <= t.nsec < SECOND
      && t.sec * SECOND + t.nsec == start.sec * SECOND + start.nsec + i * d
    decreases i
  {
    if i > 0 {
      TickIsExact(start, d, i - 1);
      assert (i - 1) * d + d == i * d;
    }
  }

  /** One tick is flagged exactly when it crosses a second without landing on it. */
  lemma TickFlagged(start: Timespec, d: nat, i: nat)
    requires 0 <= start.nsec < SECOND && 0 < d < SECOND
    ensures Flagged(Timespec(0, d), Tick(start, d, i), Tick(start, d, i + 1)) <==> Tick(start, d, i).nsec + d > SECOND
  {
    TickIsExact(start, d, i);
  }

  ghost predicate NeverFlagged(start: Timespec, d: nat) {
    forall n: nat :: Gaps(Timespec(0, d), Ticks(start, d, n)) == []
  }

  /** The ticks fall on a grid that divides one second. */
  predicate OnGrid(start: Timespec, d: nat)
    requires d > 0
  {
    SECOND % d == 0 && start.nsec % d == 0
  }

  lemma MulAtLeast(t: int, d: nat)
    requires t >= 1
    ensures t * d >= d
  {
    assert t * d == (t - 1) * d + d;
  }

  lemma SmallMultiple(t: int, d: nat, r: int)
    requires t * d == r && -(d as int) < r < d
    ensures r == 0
  {
    assert (-t) * d == -(t * d);
    if t >= 1 { MulAtLeast(t, d); }
    if t <= -1 { MulAtLeast(-t, d); }
  }

  lemma MultipleIsZero(a: int, d: nat)
    requires d > 0
    ensures (a * d) % d == 0
  {
    var x := a * d;
    var q := x / d;
    assert x == q * d + x % d;
    assert (a - q) * d == a * d - q * d;
    SmallMultiple(a - q, d, x % d);
  }

  lemma MulMonotone(a: int, b: int, d: nat)
    requires a <= b
    ensures a * d <= b * d
  {
    assert b * d == a * d + (b - a) * d;
  }

  lemma NextMultiple(a: int, b: int, d: nat)
    requires a * d < b * d
    ensures (a + 1) * d <= b * d
  {
    if a + 1 <= b {
      MulMonotone(a + 1, b, d);
    } else {
      MulMonotone(b, a, d);
      assert false;
    }
  }

  lemma GridStep(x: int, d: nat)
    requires 0 < d && SECOND % d == 0 && 0 <= x < SECOND && x % d == 0
    ensures x + d <= SECOND && (x + d) % d == 0
  {
    var a, b := x / d, SECOND / d;
    assert x == a * d && SECOND == b * d;
    NextMultiple(a, b, d);
    assert x + d == (a + 1) * d;
    MultipleIsZero(a + 1, d);
  }

  lemma GridNext(t: Timespec, d: nat)
    requires 0 < d && SECOND % d == 0 && 0 <= t.nsec < SECOND && t.nsec % d == 0
    ensures var n := if t.nsec + d < SECOND then t.nsec + d else t.nsec + d - SECOND;
      0 <= n < SECOND && n % d == 0
  {
    GridStep(t.nsec, d);
    if t.nsec + d >= SECOND {
      MultipleIsZero(0, d);
    }
  }

  lemma {:induction false} GridTick(start: Timespec, d: nat, i: nat)
    requires 0 <= start.nsec < SECOND && 0 < d < SECOND && SECOND % d == 0 && start.nsec % d == 0
    ensures var t := Tick(start, d, i); 0 <= t.nsec < SECOND && t.nsec % d == 0
    decreases i
  {
    if i > 0 {
      GridTick(start, d, i - 1);
      GridNext(Tick(start, d, i - 1), d);
    }
  }

  lemma {:induction false} GridIsQuiet(start: Timespec, d: nat, n: nat)
    requires 0 <= start.nsec < SECOND && 0 < d < SECOND && OnGrid(start, d)
    ensures Gaps(Timespec(0, d), Ticks(start, d, n)) == []
    decreases n
  {
    if n > 1 {
      var h := Ticks(start, d, n);
      assert h[..n - 1] == Ticks(start, d, n - 1);
      GridIsQuiet(start, d, n - 1);
      GridTick(start, d, n - 2);
      GridStep(Tick(start, d, n - 2).nsec, d);
      TickFlagged(start, d, n - 2);
    }
  }

  lemma QuietTick(start: Timespec, d: nat, i: nat)
    requires 0 <= start.nsec < SECOND && 0 < d < SECOND && NeverFlagged(start, d)
    ensures 0 <= Tick(start, d, i).nsec && Tick(start, d, i).nsec + d <= SECOND
  {
    TickIsExact(start, d, i);
    TickFlagged(start, d, i);
    var h := Ticks(start, d, i + 2);
    assert Gaps(Timespec(0, d), h) == [];
    assert h[i] == Tick(start, d, i) && h[i + 1] == Tick(start, d, i + 1);
  }

  /** A clock that is never flagged reaches each second exactly. */
  lemma {:induction false} ReachesSecond(start: Timespec, d: nat, i: nat) returns (j: nat)
    requires 0 <= start.nsec < SECOND && 0 < d < SECOND && NeverFlagged(start, d)
    ensures j > i && Tick(start, d, j).nsec == 0 && Tick(start, d, i).nsec + (j - i) * d == SECOND
    decreases SECOND - Tick(start, d, i).nsec
  {
    QuietTick(start, d, i);
    var t := Tick(start, d, i);
    if t.nsec + d == SECOND {
      j := i + 1;
    } else {
      j := ReachesSecond(start, d, i + 1);
      assert (j - (i + 1)) * d + d == (j - i) * d;
    }
  }

  /** A perfectly periodic clock is never flagged exactly when its ticks fall on a grid
      that divides one second. */
  lemma NeverFlaggedIff(start: Timespec, d: nat)
    requires 0 <= start.nsec < SECOND && 0 < d < SECOND
    ensures NeverFlagged(start, d) <==> OnGrid(start, d)
  {
    if NeverFlagged(start, d) {
      var j := ReachesSecond(start, d, 0);
      var k := ReachesSecond(start, d, j);
      assert SECOND == (k - j) * d;
      MultipleIsZero(k - j, d);
      assert start.nsec == (k - j) * d - j * d == (k - j - j) * d;
      MultipleIsZero(k - j - j, d);
    }
    if OnGrid(start, d) {
      forall n: nat ensures Gaps(Timespec(0, d), Ticks(start, d, n)) == [] {
        GridIsQuiet(start, d, n);
      }
    }
  }

  /** The period main computes for a clock of hz ticks a second. */
  function DefaultNsecs(hz: nat): int
    requires hz > 0
  {
    var nsecs := SECOND / hz;
    nsecs - nsecs % hz
  }

  /** The largest multiple of hz that is not above the exact period. */
  lemma DefaultNsecsIs(hz: nat)
    requires hz > 0
    ensures var d := DefaultNsecs(hz); d % hz == 0 && SECOND / hz - hz < d <= SECOND / hz
  {
    var q := SECOND / hz;
    assert q == q / hz * hz + q % hz;
    MultipleIsZero(q / hz, hz);
  }

  /** A period is quiet from some start exactly when it divides a second. */
  lemma QuietFromSomeStartIff(d: nat)
    requires 0 < d < SECOND
    ensures (exists t: Timespec :: 0 <= t.nsec < SECOND && NeverFlagged(t, d)) <==> SECOND % d == 0
  {
    forall t: Timespec | 0 <= t.nsec < SECOND ensures NeverFlagged(t, d) <==> OnGrid(t, d) {
      NeverFlaggedIff(t, d);
    }
    if SECOND % d == 0 {
      MultipleIsZero(0, d);
      assert OnGrid(ZERO, d) && NeverFlagged(ZERO, d);
    }
  }

  /** For every clock rate whose default period is a proper fraction of a second: a clock
      of that period is quiet from some start exactly when the rounded period divides a
      second, and then from exactly the starts on its grid. */
  lemma DefaultPeriods(hz: nat, start: Timespec)
    requires hz > 0 && 0 <= start.nsec < SECOND
    ensures var d := DefaultNsecs(hz);
      0 < d < SECOND ==>
        && (NeverFlagged(start, d) <==> OnGrid(start, d))
        && ((exists t: Timespec :: 0 <= t.nsec < SECOND && NeverFlagged(t, d)) <==> SECOND % d == 0)
  {
    var d := DefaultNsecs(hz);
    if 0 < d < SECOND {
      NeverFlaggedIff(start, d);
      QuietFromSomeStartIff(d);
    }
  }

  /** At 100 Hz a clock started on the grid is never flagged; at 60 Hz the rounded period
      does not divide a second and every start is flagged in the end. */
  lemma CommonRates(start: Timespec)
    requires 0 <= start.nsec < SECOND
    ensures NeverFlagged(start, DefaultNsecs(100)) <==> start.nsec % 10000000 == 0
    ensures !NeverFlagged(start, DefaultNsecs(60))
  {
    NeverFlaggedIff(start, DefaultNsecs(100));
    NeverFlaggedIff(start, DefaultNsecs(60));
  }
}
