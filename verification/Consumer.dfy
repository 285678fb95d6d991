/** The consumer's retransmission machine: five indexes over sequence numbers, one send event. */
module Consumer {
  import opened Names

  /** The largest nat doubles as "no sequence number" and as "no limit". */
  const NONE: nat := 0xFFFF_FFFF

  /** uint32 increment. */
  function Next(n: nat): nat { (n + 1) % 0x1_0000_0000 }

  type Time = int

  /** What the two delay traces report when Data arrives. */
  datatype Report = Report(lastDelay: Option<Time>, fullDelay: Option<(Time, nat)>)

  datatype Transmission = Transmission(seqNo: nat, time: Time)

  /** `sends`, `acked` and `clock` record what has happened; no branch depends on them. */
  datatype State = State(
    active: bool, firstTime: bool, sendEvent: Option<nat>, pendingSends: set<nat>, nextEvent: nat,
    seqStart: nat, seqNo: nat, seqMax: nat, retxSeqs: set<nat>, seqTimeouts: map<nat, Time>,
    seqFullDelay: map<nat, Time>, seqLastDelay: map<nat, Time>, seqRetxCounts: map<nat, nat>,
    sends: seq<Transmission>, acked: set<nat>, clock: Time)

  predicate SendIsRunning(s: State) {
    s.sendEvent.Some? && s.sendEvent.value in s.pendingSends
  }

  function ScheduleNext(s: State): State {
    if s.firstTime || !SendIsRunning(s) then
      s.(firstTime := false, sendEvent := Some(s.nextEvent),
         pendingSends := s.pendingSends + {s.nextEvent}, nextEvent := s.nextEvent + 1)
    else s
  }

  /** An insertion into an index whose sequence numbers are unique: the first stamp stays. */
  function InsertNew(m: map<nat, Time>, n: nat, t: Time): map<nat, Time> {
    if n in m then m else m[n := t]
  }

  function WillSend(s: State, n: nat, now: Time): State {
    s.(seqTimeouts := InsertNew(s.seqTimeouts, n, now),
       seqFullDelay := InsertNew(s.seqFullDelay, n, now),
       seqLastDelay := s.seqLastDelay[n := now],
       seqRetxCounts := s.seqRetxCounts[n := Next(if n in s.seqRetxCounts then s.seqRetxCounts[n] else 0)],
       sends := s.sends + [Transmission(n, now)], clock := now)
  }

  function Without<V>(m: map<nat, V>, xs: set<nat>): map<nat, V> { m - xs }

  predicate IsLeast(n: nat, xs: set<nat>) {
    n in xs && forall m :: m in xs ==> n <= m
  }

  lemma {:induction false} LeastExists(xs: set<nat>) returns (n: nat)
    requires xs != {}
    ensures IsLeast(n, xs)
    decreases xs
  {
    var x :| x in xs;
    n := x;
    if xs != {x} {
      var m := LeastExists(xs - {x});
      n := if x < m then x else m;
      assert forall k :: k in xs ==> k in xs - {x} || k == x;
    }
  }

  ghost function Least(xs: set<nat>): (n: nat)
    requires xs != {}
    ensures IsLeast(n, xs)
  {
    assert exists n :: IsLeast(n, xs) by { var n := LeastExists(xs); }
    var n :| n in xs && forall m :: m in xs ==> n <= m;
    n
  }

  /** SendPacket, run by the scheduled event id: a retransmission if one waits, else a fresh
      number while the limit allows. */
  ghost function Send(s: State, id: nat, now: Time): State {
    var s0 := s.(pendingSends := s.pendingSends - {id}, clock := now);
    if !s.active then s0
    else
      var s1 := if s0.retxSeqs == {} then s0 else s0.(retxSeqs := s0.retxSeqs - {Least(s0.retxSeqs)});
      var n := if s0.retxSeqs == {} then NONE else Least(s0.retxSeqs);
      if n != NONE then ScheduleNext(WillSend(s1, n, now))
      else if s1.seqMax != NONE && s1.seqNo >= s1.seqMax then s1
      else ScheduleNext(WillSend(s1.(seqNo := Next(s1.seqNo)), s1.seqNo, now))
  }

  function ReportFor(s: State, n: nat, now: Time): Report {
    Report(
      if n in s.seqLastDelay then Some(now - s.seqLastDelay[n]) else None,
      if n in s.seqFullDelay then
        Some((now - s.seqFullDelay[n], if n in s.seqRetxCounts then s.seqRetxCounts[n] else 0))
      else None)
  }

  function Receive(s: State, n: nat, now: Time): State {
    if !s.active then s.(clock := now)
    else
      s.(seqRetxCounts := Without(s.seqRetxCounts, {n}), seqFullDelay := Without(s.seqFullDelay, {n}),
         seqLastDelay := Without(s.seqLastDelay, {n}), seqTimeouts := Without(s.seqTimeouts, {n}),
         retxSeqs := s.retxSeqs - {n},
         acked := if s.seqStart <= n < s.seqNo then s.acked + {n} else s.acked, clock := now)
  }

  function Expired(s: State, now: Time, rto: Time): set<nat> {
    set n | n in s.seqTimeouts && s.seqTimeouts[n] + rto <= now
  }

  /** CheckRetxTimeout: exactly the expired numbers move to the retransmission set. */
  function CheckTimeouts(s: State, now: Time, rto: Time): State {
    var expired := Expired(s, now, rto);
    var s1 := s.(seqTimeouts := Without(s.seqTimeouts, expired), retxSeqs := s.retxSeqs + expired, clock := now);
    if expired == {} then s1 else ScheduleNext(s1)
  }

  predicate IsEarliest(n: nat, m: map<nat, Time>) {
    n in m && forall k :: k in m ==> m[n] <= m[k]
  }

  /** The loop of CheckRetxTimeout after it has moved these numbers. */
  function Moved(s: State, moved: set<nat>): State {
    var s1 := s.(seqTimeouts := Without(s.seqTimeouts, moved), retxSeqs := s.retxSeqs + moved);
    if moved == {} then s1 else ScheduleNext(s1)
  }

  lemma NothingMoved(s: State)
    ensures Moved(s, {}) == s
  {
    assert s.retxSeqs + {} == s.retxSeqs && Without(s.seqTimeouts, {}) == s.seqTimeouts;
  }

  lemma OneMoreMoved(s: State, moved: set<nat>, n: nat)
    ensures var s1 := Moved(s, moved);
      Moved(s, moved + {n}) ==
      ScheduleNext(s1.(seqTimeouts := Without(s1.seqTimeouts, {n}), retxSeqs := s1.retxSeqs + {n}))
  {
    assert s.retxSeqs + moved + {n} == s.retxSeqs + (moved + {n});
    assert Without(Without(s.seqTimeouts, moved), {n}) == Without(s.seqTimeouts, moved + {n});
  }

  /** The early exit is sound: with the earliest stamp not expired, none is. */
  lemma AllMoved(s: State, moved: set<nat>, now: Time, rto: Time)
    requires moved <= Expired(s, now, rto)
    requires var left := Without(s.seqTimeouts, moved);
      left == map[] || exists n :: IsEarliest(n, left) && left[n] + rto > now
    ensures moved == Expired(s, now, rto)
  {
    var left := Without(s.seqTimeouts, moved);
    assert forall k :: k in left ==> left[k] == s.seqTimeouts[k] && left[k] + rto > now;
    assert forall k :: k in s.seqTimeouts && k !in moved ==> k in left;
  }

  function Start(s: State): State { ScheduleNext(s.(active := true)) }

  function Stop(s: State): State {
    s.(active := false, pendingSends := if s.sendEvent.Some? then s.pendingSends - {s.sendEvent.value} else s.pendingSends)
  }

  // ---- The application object ----

  class ConsumerApp {
    var active: bool
    var firstTime: bool
    var sendEvent: Option<nat>
    var pendingSends: set<nat>
    var nextEvent: nat
    const seqStart: nat
    var seqNo: nat
    var seqMax: nat
    var retxSeqs: set<nat>
    var seqTimeouts: map<nat, Time>
    var seqFullDelay: map<nat, Time>
    var seqLastDelay: map<nat, Time>
    var seqRetxCounts: map<nat, nat>
    ghost var sends: seq<Transmission>
    ghost var acked: set<nat>
    ghost var clock: Time

    ghost function Model(): State
      reads this
    {
      State(active, firstTime, sendEvent, pendingSends, nextEvent, seqStart, seqNo, seqMax, retxSeqs, seqTimeouts,
            seqFullDelay, seqLastDelay, seqRetxCounts, sends, acked, clock)
    }

    constructor (seqStart: nat, seqMax: nat)
      ensures Model() == State(false, true, None, {}, 0, seqStart, seqStart, seqMax, {}, map[], map[], map[], map[], [], {}, 0)
    {
      active, firstTime, sendEvent, pendingSends, nextEvent := false, true, None, {}, 0;
      this.seqStart, seqNo, this.seqMax, retxSeqs, seqTimeouts := seqStart, seqStart, seqMax, {}, map[];
      seqFullDelay, seqLastDelay, seqRetxCounts := map[], map[], map[];
      sends, acked, clock := [], {}, 0;
    }

    method ScheduleNextPacket()
      modifies this
      ensures Model() == ScheduleNext(old(Model()))
    {
      if firstTime {
        sendEvent, pendingSends, nextEvent := Some(nextEvent), pendingSends + {nextEvent}, nextEvent + 1;
        firstTime := false;
      } else if !(sendEvent.Some? && sendEvent.value in pendingSends) {
        sendEvent, pendingSends, nextEvent := Some(nextEvent), pendingSends + {nextEvent}, nextEvent + 1;
      }
    }

    method WillSendOutInterest(n: nat, now: Time)
      modifies this
      ensures Model() == WillSend(old(Model()), n, now)
    {
      hide InsertNew, Next;
      seqTimeouts := InsertNew(seqTimeouts, n, now);
      seqFullDelay := InsertNew(seqFullDelay, n, now);
      seqLastDelay := seqLastDelay[n := now];  // erased, then inserted
      var count := if n in seqRetxCounts then seqRetxCounts[n] else 0;
      seqRetxCounts := seqRetxCounts[n := Next(count)];
      sends, clock := sends + [Transmission(n, now)], now;
    }

    method SendPacket(id: nat, now: Time)
      modifies this
      ensures Model() == Send(old(Model()), id, now)
    {
      pendingSends, clock := pendingSends - {id}, now;
      if !active { return; }
      var n := NONE;
      if retxSeqs != {} {
        var _ := LeastExists(retxSeqs);
        n :| n in retxSeqs && forall m :: m in retxSeqs ==> n <= m;
        assert n == Least(retxSeqs);
        retxSeqs := retxSeqs - {n};
      }
      if n == NONE {
        if seqMax != NONE {
          if seqNo >= seqMax { return; }
        }
        n, seqNo := seqNo, Next(seqNo);
      }
      WillSendOutInterest(n, now);
      ScheduleNextPacket();
    }

    /** The two trace calls of OnData. */
    method ReportDelays(n: nat, now: Time) returns (report: Report)
      ensures report == ReportFor(Model(), n, now)
    {
      report := Report(None, None);
      if n in seqLastDelay { report := report.(lastDelay := Some(now - seqLastDelay[n])); }
      if n in seqFullDelay {
        var count := if n in seqRetxCounts then seqRetxCounts[n] else 0;
        report := report.(fullDelay := Some((now - seqFullDelay[n], count)));
      }
    }

    method Forget(n: nat)
      modifies this
      ensures Model() == old(Model()).(
        seqRetxCounts := Without(old(seqRetxCounts), {n}), seqFullDelay := Without(old(seqFullDelay), {n}),
        seqLastDelay := Without(old(seqLastDelay), {n}), seqTimeouts := Without(old(seqTimeouts), {n}),
        retxSeqs := old(retxSeqs) - {n})
    {
      hide Without;
      seqRetxCounts, seqFullDelay := Without(seqRetxCounts, {n}), Without(seqFullDelay, {n});
      seqLastDelay, seqTimeouts := Without(seqLastDelay, {n}), Without(seqTimeouts, {n});
      retxSeqs := retxSeqs - {n};
    }

    method OnData(n: nat, now: Time) returns (report: Report)
      modifies this
      ensures Model() == Receive(old(Model()), n, now)
      ensures report == if old(active) then ReportFor(old(Model()), n, now) else Report(None, None)
    {
      hide ReportFor, Without;
      report := Report(None, None);
      if active {
        report := ReportDelays(n, now);
        Forget(n);
        if seqStart <= n < seqNo { acked := acked + {n}; }
      }
      clock := now;
    }

    method OnTimeout(n: nat)
      modifies this
      ensures Model() == ScheduleNext(old(Model()).(retxSeqs := old(retxSeqs) + {n}))
    {
      retxSeqs := retxSeqs + {n};
      ScheduleNextPacket();
    }

    /** The timestamp index hands out a least stamp; ties come in any order. */
    method Earliest() returns (n: nat)
      requires seqTimeouts != map[]
      ensures IsEarliest(n, seqTimeouts)
    {
      var _ := EarliestExists(seqTimeouts);
      n :| n in seqTimeouts && forall k :: k in seqTimeouts ==> seqTimeouts[n] <= seqTimeouts[k];
    }

    method CheckRetxTimeout(now: Time, rto: Time)
      modifies this
      ensures Model() == CheckTimeouts(old(Model()), now, rto)
    {
      clock := now;
      ghost var s := Model();
      ghost var moved: set<nat> := {};
      NothingMoved(s);
      while seqTimeouts != map[]
        invariant moved <= Expired(s, now, rto) && Model() == Moved(s, moved)
        decreases seqTimeouts.Keys
      {
        var n := Earliest();
        if seqTimeouts[n] + rto <= now {
          OneMoreMoved(s, moved, n);
          seqTimeouts := Without(seqTimeouts, {n});
          OnTimeout(n);
          moved := moved + {n};
        } else {
          break;
        }
      }
      assert seqTimeouts == Without(s.seqTimeouts, moved);
      AllMoved(s, moved, now, rto);
    }

    method StartApplication()
      modifies this
      ensures Model() == Start(old(Model()))
    {
      active := true;
      ScheduleNextPacket();
    }

    method StopApplication()
      modifies this
      ensures Model() == Stop(old(Model()))
    {
      if sendEvent.Some? { pendingSends := pendingSends - {sendEvent.value}; }
      active := false;
    }
  }

  lemma {:induction false} EarliestExists(m: map<nat, Time>) returns (n: nat)
    requires m != map[]
    ensures IsEarliest(n, m)
    decreases |m|
  {
    var x :| x in m;
    n := x;
    var rest := m - {x};
    assert forall k :: k in m ==> k == x || k in rest;
    if rest != map[] {
      var j := EarliestExists(rest);
      n := if m[x] < m[j] then x else j;
    }
  }
}
