/** All runs of the consumer: the five indexes stay consistent, an acknowledged number is never
    sent again, and none is lost. */
module ConsumerRuns {
  import opened Names
  import opened Consumer

  datatype Event =
    | Starts
    | SendFires(id: nat, now: Time)
    | DataArrives(seqNo: nat, now: Time)
    | TimerFires(now: Time, rto: Time)
    | Stops(now: Time)

  /** Time does not run backwards, only scheduled sends fire, and a fresh number is left: with no
      limit set, the sentinel value itself must not be reached. */
  ghost predicate CanHappen(s: State, ev: Event) {
    match ev
    case Starts => !s.active
    case SendFires(id, now) => id in s.pendingSends && s.clock <= now && FreshLeft(s)
    case DataArrives(n, now) => s.clock <= now
    case TimerFires(now, _) => s.clock <= now
    case Stops(now) => s.clock <= now
  }

  predicate FreshLeft(s: State) {
    s.active && s.retxSeqs == {} && s.seqMax == NONE ==> s.seqNo < NONE
  }

  ghost function Step(s: State, ev: Event): State {
    match ev
    case Starts => Start(s)
    case SendFires(id, now) => Send(s, id, now)
    case DataArrives(n, now) => Receive(s, n, now)
    case TimerFires(now, rto) => CheckTimeouts(s, now, rto)
    case Stops(now) => Stop(s).(clock := now)
  }

  ghost predicate Possible(s: State, evs: seq<Event>)
    decreases |evs|
  {
    evs == [] || (CanHappen(s, evs[0]) && Possible(Step(s, evs[0]), evs[1..]))
  }

  ghost function Run(s: State, evs: seq<Event>): State
    decreases |evs|
  {
    if evs == [] then s else Run(Step(s, evs[0]), evs[1..])
  }

  // ---- The invariant ----

  predicate Issued(s: State, n: nat) { s.seqStart <= n < s.seqNo }

  predicate Outstanding(s: State, n: nat) { Issued(s, n) && n !in s.acked }

  /** The outstanding numbers are those awaiting a timeout and, disjointly, those queued for
      retransmission; they are the keys of the three bookkeeping maps. */
  ghost predicate Books(s: State) {
    && (s.seqStart <= s.seqNo <= NONE && forall n :: n in s.acked ==> Issued(s, n))
    && (forall n :: Outstanding(s, n) <==> n in s.seqTimeouts || n in s.retxSeqs)
    && (forall n :: !(n in s.seqTimeouts && n in s.retxSeqs))
    && (forall n :: Outstanding(s, n) <==> n in s.seqFullDelay)
    && (forall n :: Outstanding(s, n) <==> n in s.seqLastDelay)
    && (forall n :: Outstanding(s, n) <==> n in s.seqRetxCounts)
  }

  /** At most one send event is scheduled, and while the application is active a waiting
      retransmission implies one is. */
  ghost predicate OneSend(s: State) {
    && (forall id :: id in s.pendingSends ==> s.sendEvent == Some(id))
    && (s.firstTime ==> !s.active && s.sendEvent == None)
    && (s.active && s.retxSeqs != {} ==> s.pendingSends != {})
    && (forall n :: n in s.seqTimeouts ==> !s.firstTime)
  }

  function Count(sends: seq<Transmission>, n: nat): nat {
    if sends == [] then 0
    else Count(sends[..|sends| - 1], n) + (if sends[|sends| - 1].seqNo == n then 1 else 0)
  }

  ghost predicate FirstAt(sends: seq<Transmission>, n: nat, t: Time) {
    exists i :: 0 <= i < |sends| && sends[i] == Transmission(n, t) && forall j :: 0 <= j < i ==> sends[j].seqNo != n
  }

  ghost predicate LastAt(sends: seq<Transmission>, n: nat, t: Time) {
    exists i :: 0 <= i < |sends| && sends[i] == Transmission(n, t) && forall j :: i < j < |sends| ==> sends[j].seqNo != n
  }

  ghost predicate InOrder(s: State) {
    && (forall i :: 0 <= i < |s.sends| ==> s.sends[i].time <= s.clock && Issued(s, s.sends[i].seqNo))
    && (forall i, j :: 0 <= i < j < |s.sends| ==> s.sends[i].time <= s.sends[j].time)
  }

  ghost predicate FirstStamps(sends: seq<Transmission>, full: map<nat, Time>) {
    forall n :: n in full ==> FirstAt(sends, n, full[n])
  }

  ghost predicate LastStamps(sends: seq<Transmission>, last: map<nat, Time>) {
    forall n :: n in last ==> LastAt(sends, n, last[n])
  }

  ghost predicate Counted(sends: seq<Transmission>, counts: map<nat, nat>) {
    forall n :: n in counts ==> counts[n] == Count(sends, n) % 0x1_0000_0000
  }

  /** Each outstanding number carries the times of its first and latest transmission and the
      number of its transmissions; a running timeout runs from the latest one. */
  ghost predicate Stamps(s: State) {
    && InOrder(s) && FirstStamps(s.sends, s.seqFullDelay) && LastStamps(s.sends, s.seqLastDelay)
    && Counted(s.sends, s.seqRetxCounts)
    && forall n :: n in s.seqTimeouts && n in s.seqLastDelay ==> s.seqTimeouts[n] == s.seqLastDelay[n]
  }

  /** A limit below the sentinel is respected: from the start on, nothing at or above it is issued. */
  predicate Limited(s: State) {
    s.seqMax <= NONE && (s.seqMax != NONE ==> s.seqNo <= s.seqMax || s.seqNo == s.seqStart)
  }

  ghost predicate Inv(s: State) {
    Books(s) && OneSend(s) && Stamps(s)
  }

  lemma ScheduleKeepsInv(s: State)
    requires Books(s) && Stamps(s) && (s.firstTime ==> s.sendEvent == None)
    requires forall id :: id in s.pendingSends ==> s.sendEvent == Some(id)
    ensures Inv(ScheduleNext(s)) && ScheduleNext(s).pendingSends != {}
    ensures ScheduleNext(s) == s.(firstTime := false, sendEvent := ScheduleNext(s).sendEvent,
      pendingSends := ScheduleNext(s).pendingSends, nextEvent := ScheduleNext(s).nextEvent)
  {
    hide FirstAt, LastAt, Count;
    var r := ScheduleNext(s);
    assert r.sendEvent.Some? && r.sendEvent.value in r.pendingSends;
  }

  lemma {:induction false} CountOfAbsent(sends: seq<Transmission>, n: nat)
    requires forall i :: 0 <= i < |sends| ==> sends[i].seqNo != n
    ensures Count(sends, n) == 0
  {
    if sends != [] { CountOfAbsent(sends[..|sends| - 1], n); }
  }

  predicate NeverSent(sends: seq<Transmission>, n: nat) {
    forall i :: 0 <= i < |sends| ==> sends[i].seqNo != n
  }

  lemma FirstStampsGrow(sends: seq<Transmission>, full: map<nat, Time>, n: nat, now: Time)
    requires FirstStamps(sends, full) && (n !in full ==> NeverSent(sends, n))
    ensures FirstStamps(sends + [Transmission(n, now)], InsertNew(full, n, now))
  {
    var sends', full' := sends + [Transmission(n, now)], InsertNew(full, n, now);
    forall m | m in full' ensures FirstAt(sends', m, full'[m]) {
      if m in full {
        var i :| 0 <= i < |sends| && sends[i] == Transmission(m, full[m]) && forall j :: 0 <= j < i ==> sends[j].seqNo != m;
        assert sends'[i] == sends[i];
      } else {
        assert sends'[|sends|] == Transmission(n, now);
      }
    }
  }

  lemma LastStampsGrow(sends: seq<Transmission>, last: map<nat, Time>, n: nat, now: Time)
    requires LastStamps(sends, last)
    ensures LastStamps(sends + [Transmission(n, now)], last[n := now])
  {
    var sends', last' := sends + [Transmission(n, now)], last[n := now];
    forall m | m in last' ensures LastAt(sends', m, last'[m]) {
      if m != n {
        var i :| 0 <= i < |sends| && sends[i] == Transmission(m, last[m]) && forall j :: i < j < |sends| ==> sends[j].seqNo != m;
        assert sends'[i] == sends[i];
      } else {
        assert sends'[|sends|] == Transmission(n, now);
      }
    }
  }

  lemma CountsGrow(sends: seq<Transmission>, counts: map<nat, nat>, n: nat, now: Time)
    requires Counted(sends, counts) && (n !in counts ==> NeverSent(sends, n))
    ensures Counted(sends + [Transmission(n, now)], counts[n := Next(if n in counts then counts[n] else 0)])
  {
    var sends' := sends + [Transmission(n, now)];
    assert sends'[..|sends|] == sends;
    if n !in counts { CountOfAbsent(sends, n); }
  }

  /** Sending n, either for the first time or after its timeout moved it out. */
  lemma WillSendKeepsStamps(s: State, n: nat, now: Time)
    requires Stamps(s) && s.clock <= now && Issued(s, n) && n !in s.seqTimeouts
    requires n !in s.seqFullDelay ==> NeverSent(s.sends, n)
    requires n !in s.seqRetxCounts ==> NeverSent(s.sends, n)
    ensures Stamps(WillSend(s, n, now))
  {
    hide FirstAt, LastAt, Count;
    FirstStampsGrow(s.sends, s.seqFullDelay, n, now);
    LastStampsGrow(s.sends, s.seqLastDelay, n, now);
    CountsGrow(s.sends, s.seqRetxCounts, n, now);
  }

  lemma WillSendKeepsBooks(s: State, n: nat, now: Time)
    requires Books(s) && n in s.retxSeqs
    ensures Books(WillSend(s.(retxSeqs := s.retxSeqs - {n}), n, now))
  {
  }

  lemma FreshKeepsBooks(s: State, now: Time)
    requires Books(s) && s.seqNo < NONE
    ensures Books(WillSend(s.(seqNo := s.seqNo + 1), s.seqNo, now))
  {
  }

  /** Sending the retransmission n, or the fresh number, from a state with the event taken off. */
  lemma RetransmitKeepsInv(s: State, n: nat, now: Time)
    requires Books(s) && Stamps(s) && s.clock <= now && n in s.retxSeqs && !s.firstTime
    requires forall id :: id in s.pendingSends ==> s.sendEvent == Some(id)
    ensures Inv(ScheduleNext(WillSend(s.(retxSeqs := s.retxSeqs - {n}), n, now)))
  {
    hide FirstAt, LastAt, Count;
    var s1 := s.(retxSeqs := s.retxSeqs - {n});
    assert Outstanding(s, n);
    WillSendKeepsBooks(s, n, now);
    WillSendKeepsStamps(s1, n, now);
    ScheduleKeepsInv(WillSend(s1, n, now));
  }

  lemma FreshKeepsInv(s: State, now: Time)
    requires Books(s) && Stamps(s) && s.clock <= now && s.seqNo < NONE && !s.firstTime
    requires forall id :: id in s.pendingSends ==> s.sendEvent == Some(id)
    ensures Inv(ScheduleNext(WillSend(s.(seqNo := s.seqNo + 1), s.seqNo, now)))
  {
    hide FirstAt, LastAt, Count;
    var s1 := s.(seqNo := s.seqNo + 1);
    FreshKeepsBooks(s, now);
    WillSendKeepsStamps(s1, s.seqNo, now);
    ScheduleKeepsInv(WillSend(s1, s.seqNo, now));
  }

  /** The branches of SendPacket, told apart by what the queue and the limit say. */
  lemma SendCases(s: State, id: nat, now: Time)
    requires Books(s) && Limited(s) && FreshLeft(s) && s.active
    ensures var s0 := s.(pendingSends := s.pendingSends - {id}, clock := now);
      var r := Send(s, id, now);
      if s.retxSeqs != {} then
        Least(s.retxSeqs) < NONE &&
        r == ScheduleNext(WillSend(s0.(retxSeqs := s.retxSeqs - {Least(s.retxSeqs)}), Least(s.retxSeqs), now))
      else if s.seqMax != NONE && s.seqNo >= s.seqMax then r == s0
      else s.seqNo < NONE && r == ScheduleNext(WillSend(s0.(seqNo := s.seqNo + 1), s.seqNo, now))
    ensures Limited(Send(s, id, now))
  {
    if s.retxSeqs != {} { assert Outstanding(s, Least(s.retxSeqs)); }
  }

  lemma SendKeepsInv(s: State, id: nat, now: Time)
    requires Inv(s) && CanHappen(s, SendFires(id, now)) && Limited(s)
    ensures Inv(Send(s, id, now)) && Limited(Send(s, id, now))
  {
    hide FirstAt, LastAt, Count, WillSend, ScheduleNext;
    var s0 := s.(pendingSends := s.pendingSends - {id}, clock := now);
    assert Books(s0) && Stamps(s0);
    if s.active {
      SendCases(s, id, now);
      if s.retxSeqs != {} {
        RetransmitKeepsInv(s0, Least(s.retxSeqs), now);
      } else if !(s.seqMax != NONE && s.seqNo >= s.seqMax) {
        FreshKeepsInv(s0, now);
      }
    }
  }

  lemma ReceiveKeepsInv(s: State, n: nat, now: Time)
    requires Inv(s) && s.clock <= now
    ensures Inv(Receive(s, n, now))
  {
    hide FirstAt, LastAt, Count;
  }

  lemma CheckKeepsInv(s: State, now: Time, rto: Time)
    requires Inv(s) && s.clock <= now
    ensures Inv(CheckTimeouts(s, now, rto))
  {
    hide FirstAt, LastAt, Count;
    var expired := Expired(s, now, rto);
    var s1 := s.(seqTimeouts := Without(s.seqTimeouts, expired), retxSeqs := s.retxSeqs + expired, clock := now);
    assert Books(s1) && Stamps(s1);
    if expired != {} { ScheduleKeepsInv(s1); }
  }

  lemma StepKeepsInv(s: State, ev: Event)
    requires Inv(s) && Limited(s) && CanHappen(s, ev)
    ensures Inv(Step(s, ev)) && Limited(Step(s, ev))
  {
    hide FirstAt, LastAt, Count;
    match ev
    case Starts => ScheduleKeepsInv(s.(active := true));
    case SendFires(id, now) => SendKeepsInv(s, id, now);
    case DataArrives(n, now) => ReceiveKeepsInv(s, n, now);
    case TimerFires(now, rto) => CheckKeepsInv(s, now, rto);
    case Stops(now) =>
  }

  // ---- Main results over all runs ----

  ghost predicate Initial(s: State) {
    && !s.active && s.firstTime && s.sendEvent == None && s.pendingSends == {} && s.seqNo == s.seqStart <= NONE && s.seqMax <= NONE
    && s.retxSeqs == {} && s.seqTimeouts == map[] && s.seqFullDelay == map[] && s.seqLastDelay == map[]
    && s.seqRetxCounts == map[] && s.sends == [] && s.acked == {}
  }

  lemma {:induction false} RunKeepsInv(s: State, evs: seq<Event>)
    requires Inv(s) && Limited(s) && Possible(s, evs)
    ensures Inv(Run(s, evs)) && Limited(Run(s, evs))
    decreases |evs|
  {
    hide Inv, Limited, CanHappen, Step;
    if evs != [] {
      StepKeepsInv(s, evs[0]);
      RunKeepsInv(Step(s, evs[0]), evs[1..]);
    }
  }

  /** From power-on, in every reachable state the books are consistent, at most one send is
      scheduled, and the stamps tell first, latest and number of transmissions. */
  lemma EveryRunKeepsInv(s: State, evs: seq<Event>)
    requires Initial(s) && Possible(s, evs)
    ensures Inv(Run(s, evs))
  {
    RunKeepsInv(s, evs);
  }

  lemma SendSends(s: State, id: nat, now: Time)
    requires Books(s) && Limited(s) && FreshLeft(s)
    ensures var r := Send(s, id, now);
      && r.acked == s.acked
      && (r.sends == s.sends || exists n :: n !in s.acked && r.sends == s.sends + [Transmission(n, now)])
  {
    if s.active {
      SendCases(s, id, now);
      if s.retxSeqs != {} { assert Outstanding(s, Least(s.retxSeqs)); }
    }
  }

  /** What one step transmits: at most one number, and that one is outstanding or fresh. */
  lemma StepSends(s: State, ev: Event)
    requires Inv(s) && Limited(s) && CanHappen(s, ev)
    ensures var r := Step(s, ev);
      && s.acked <= r.acked && |s.sends| <= |r.sends| && r.sends[..|s.sends|] == s.sends
      && forall i :: |s.sends| <= i < |r.sends| ==> r.sends[i].seqNo !in s.acked
  {
    hide FirstAt, LastAt, Count, Send, WillSend;
    match ev
    case SendFires(id, now) => SendSends(s, id, now);
    case Starts =>
    case DataArrives(n, now) =>
    case TimerFires(now, rto) =>
    case Stops(now) =>
  }

  /** An acknowledged number is never sent again. */
  lemma {:induction false} AckedStaysSilent(s: State, evs: seq<Event>, n: nat)
    requires Inv(s) && Limited(s) && Possible(s, evs) && n in s.acked
    ensures var r := Run(s, evs);
      && n in r.acked && |s.sends| <= |r.sends| && r.sends[..|s.sends|] == s.sends
      && forall i :: |s.sends| <= i < |r.sends| ==> r.sends[i].seqNo != n
    decreases |evs|
  {
    hide Inv, Limited, CanHappen, Step;
    if evs != [] {
      StepKeepsInv(s, evs[0]);
      StepSends(s, evs[0]);
      var s1 := Step(s, evs[0]);
      AckedStaysSilent(s1, evs[1..], n);
      var r := Run(s, evs);
      assert r.sends[..|s.sends|] == r.sends[..|s1.sends|][..|s.sends|];
      assert forall i :: |s.sends| <= i < |s1.sends| ==> r.sends[i] == r.sends[..|s1.sends|][i];
    }
  }

  /** The delay since the first transmission is never smaller than the one since the latest, and
      both are reported exactly for outstanding numbers. */
  lemma DelaysAreOrdered(s: State, n: nat, now: Time)
    requires Inv(s) && s.active && s.clock <= now
    ensures var report := ReportFor(s, n, now);
      && (report.fullDelay.Some? <==> Outstanding(s, n)) && (report.lastDelay.Some? <==> Outstanding(s, n))
      && (Outstanding(s, n) ==> report.fullDelay.value.0 >= report.lastDelay.value >= 0)
      && (Outstanding(s, n) ==> report.fullDelay.value.1 == Count(s.sends, n) % 0x1_0000_0000)
  {
    hide Count;
    if Outstanding(s, n) {
      assert FirstAt(s.sends, n, s.seqFullDelay[n]) && LastAt(s.sends, n, s.seqLastDelay[n]);
    }
  }

  /** A number whose timeout has run out moves to the retransmission set, and then a send is
      scheduled: nothing outstanding is lost. */
  lemma TimeoutsAreServed(s: State, n: nat, now: Time, rto: Time)
    requires Inv(s) && s.clock <= now && Outstanding(s, n)
    ensures var r := CheckTimeouts(s, now, rto);
      && Outstanding(r, n)
      && (n in r.retxSeqs <==> n in s.retxSeqs || s.seqLastDelay[n] + rto <= now)
      && (s.active && n in r.retxSeqs ==> r.pendingSends != {})
  {
    hide FirstAt, LastAt, Count;
    CheckKeepsInv(s, now, rto);
  }

  /** The sentinel: sending keeps the books exactly when the fresh number, if one is needed and
      no limit is set, is not the sentinel value itself. */
  lemma SentinelExactly(s: State, id: nat, now: Time)
    requires Inv(s) && Limited(s) && id in s.pendingSends && s.clock <= now
    ensures Books(Send(s, id, now)) <==> FreshLeft(s)
  {
    if FreshLeft(s) {
      SendKeepsInv(s, id, now);
    } else {
      var r := Send(s, id, now);
      assert s.seqNo == NONE && r.seqNo == 0;
      assert NONE in r.seqFullDelay && !Outstanding(r, NONE);
    }
  }
}
