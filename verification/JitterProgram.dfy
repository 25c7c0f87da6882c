/** jitter.p4.c in its own form: the signal handler updates two fixed buffers in place. */
module JitterProgram {
  import opened Jitter

  class Recorder {
    const repaired: bool
    const secs: int
    const nsecs: int
    const ta: array<Timespec>
    const jbuf: array<Timespec>
    var cur: nat
    var prev: int
    var next: nat
    var nsig: nat
    var exited: bool

    ghost predicate Valid()
      reads this
    {
      ta.Length == TIMEBUF_MAX && jbuf.Length == JITTERBUF_MAX && ta != jbuf
      && cur < TIMEBUF_MAX && prev < TIMEBUF_MAX
      && next <= JITTERBUF_MAX && (!exited ==> next < JITTERBUF_MAX)
    }

    ghost function Model(): State
      reads this, ta, jbuf
    {
      State(nsig, ta[..], cur, prev, jbuf[..], next, exited)
    }

    constructor (repaired: bool, secs: int, nsecs: int)
      ensures Valid() && Model() == Init() && fresh(ta) && fresh(jbuf)
      ensures this.repaired == repaired && this.secs == secs && this.nsecs == nsecs
    {
      this.repaired, this.secs, this.nsecs := repaired, secs, nsecs;
      ta := new Timespec[TIMEBUF_MAX](_ => ZERO);
      jbuf := new Timespec[JITTERBUF_MAX](_ => ZERO);
      next, nsig, prev, cur, exited := 0, 0, -1, 0, false;
      new;
      assert ta[..] == Init().ta && jbuf[..] == Init().jbuf;
    }

    /** prev = this; this++, wrapping. */
    method AdvanceSlots()
      requires Valid()
      modifies this`prev, this`cur
      ensures Valid() && Model() == Advance(old(Model()))
    {
      prev := cur;
      cur := cur + 1;
      if cur == TIMEBUF_MAX { cur := 0; }
    }

    /** The amount of jitter goes into the next entry of jbuf. */
    method NoteGap()
      requires Valid() && !exited && prev >= 0
      modifies this`next, jbuf
      ensures jbuf[..] == old(jbuf[..])[old(next) := Gap(ta[prev], ta[cur])] && next == old(next) + 1
    {
      jbuf[next] := Timespec(ta[cur].sec - ta[prev].sec, ta[cur].nsec - ta[prev].nsec);
      next := next + 1;
    }

    /** timer_expiration, with the time clock_gettime returned. */
    method TimerExpiration(now: Timespec)
      requires Valid() && !exited
      modifies this, ta, jbuf
      ensures Valid() && Model() == Expire(repaired, Timespec(secs, nsecs), old(Model()), now)
    {
      nsig := nsig + 1;
      ta[cur] := now;
      assert ta[..] == old(ta[..])[cur := now] && jbuf[..] == old(jbuf[..]);
      if prev >= 0 {
        if ta[cur].sec != ta[prev].sec + secs || ta[cur].nsec != ta[prev].nsec + nsecs {
          if !(ta[cur].sec == ta[prev].sec + 1 && ta[cur].nsec == 0) {
            NoteGap();
            if next == JITTERBUF_MAX {
              exited := true;
              return;
            }
          }
        }
        AdvanceSlots();
      } else if repaired {
        AdvanceSlots();
      }
    }
  }

  /** The handler on a whole history of timestamps: as intended it reports exactly the
      flagged gaps, the first hundred of them, and as written it reports none. */
  method Measure(repaired: bool, period: Timespec, h: seq<Timespec>) returns (report: seq<Timespec>, signals: nat)
    ensures repaired && |Gaps(period, h)| < JITTERBUF_MAX ==> report == Gaps(period, h) && signals == |h|
    ensures repaired && |Gaps(period, h)| >= JITTERBUF_MAX ==> report == Gaps(period, h)[..JITTERBUF_MAX]
    ensures !repaired ==> report == [] && signals == |h|
  {
    var r := new Recorder(repaired, period.sec, period.nsec);
    for i := 0 to |h|
      invariant fresh(r) && fresh(r.ta) && fresh(r.jbuf) && r.Valid()
      invariant r.repaired == repaired && Timespec(r.secs, r.nsecs) == period
      invariant r.Model() == Record(repaired, period, h[..i])
    {
      assert h[..i + 1][..i] == h[..i];
      if !r.exited {
        r.TimerExpiration(h[i]);
      }
    }
    assert h[..|h|] == h;
    if repaired {
      ReportIsGaps(period, h);
      if |Gaps(period, h)| < JITTERBUF_MAX { RecordIsFaithful(period, h); }
    } else {
      AsWrittenState(period, h);
    }
    report := r.jbuf[..r.next];
    signals := r.nsig;
  }
}
