/** What each operation of the consumer does and reports, in terms of the fields and of the
    transmissions alone. */
module ConsumerEffects {
  import opened Names
  import opened Consumer
  import opened ConsumerRuns

  /** The reported delays are the time since the latest and since the first transmission, and the
      reported count is the number of transmissions; nothing is reported for other numbers. */
  lemma ReportTellsTransmissions(s: State, n: nat, now: Time)
    requires Inv(s)
    ensures var report := ReportFor(s, n, now);
      && (!Outstanding(s, n) ==> report == Report(None, None))
      && (Outstanding(s, n) ==>
            && report.lastDelay.Some? && report.fullDelay.Some?
            && LastAt(s.sends, n, now - report.lastDelay.value)
            && FirstAt(s.sends, n, now - report.fullDelay.value.0)
            && report.fullDelay.value.1 == Count(s.sends, n) % 0x1_0000_0000)
  {
    hide Count, FirstAt, LastAt;
  }

  /** Data removes its number from all five indexes and leaves all other numbers alone; a stopped
      application ignores it. */
  lemma ReceiveInFields(s: State, n: nat, now: Time)
    ensures var r := Receive(s, n, now);
      && r.sends == s.sends && r.seqNo == s.seqNo && r.pendingSends == s.pendingSends && r.active == s.active
      && (!s.active ==> r == s.(clock := now))
      && (s.active ==>
            && n !in r.seqTimeouts && n !in r.retxSeqs && n !in r.seqFullDelay && n !in r.seqLastDelay && n !in r.seqRetxCounts
            && (forall m :: m != n ==> (m in r.retxSeqs <==> m in s.retxSeqs)))
    ensures forall m :: m != n ==> SameFor(s, Receive(s, n, now), m)
  {
  }

  /** The four maps agree on m. */
  ghost predicate SameFor(s: State, r: State, m: nat) {
    && (m in r.seqTimeouts <==> m in s.seqTimeouts) && (m in s.seqTimeouts ==> r.seqTimeouts[m] == s.seqTimeouts[m])
    && (m in r.seqFullDelay <==> m in s.seqFullDelay) && (m in s.seqFullDelay ==> r.seqFullDelay[m] == s.seqFullDelay[m])
    && (m in r.seqLastDelay <==> m in s.seqLastDelay) && (m in s.seqLastDelay ==> r.seqLastDelay[m] == s.seqLastDelay[m])
    && (m in r.seqRetxCounts <==> m in s.seqRetxCounts) && (m in s.seqRetxCounts ==> r.seqRetxCounts[m] == s.seqRetxCounts[m])
  }

  /** Which number a send transmits: the least one queued for retransmission, else the next fresh one
      below the limit, else none; after a transmission another send is scheduled. */
  lemma SendInFields(s: State, id: nat, now: Time)
    requires Inv(s) && Limited(s) && FreshLeft(s)
    ensures var r := Send(s, id, now);
      && (!s.active ==> r.sends == s.sends && r.seqNo == s.seqNo && r.retxSeqs == s.retxSeqs)
      && (s.active && s.retxSeqs != {} ==>
            r.seqNo == s.seqNo && exists n :: IsNext(s, n) && r.sends == s.sends + [Transmission(n, now)] && r.retxSeqs == s.retxSeqs - {n})
      && (s.active && s.retxSeqs == {} && (s.seqMax == 0xFFFF_FFFF || s.seqNo < s.seqMax) ==>
            r.seqNo == s.seqNo + 1 && r.sends == s.sends + [Transmission(s.seqNo, now)] && r.retxSeqs == {})
      && (s.active && s.retxSeqs == {} && s.seqMax != 0xFFFF_FFFF && s.seqNo >= s.seqMax ==>
            r.sends == s.sends && r.seqNo == s.seqNo && r.retxSeqs == {})
      && (r.sends != s.sends ==> exists next :: next in r.pendingSends)
  {
    hide Count, FirstAt, LastAt, Stamps;
    if s.active {
      SendCases(s, id, now);
      var s0 := s.(pendingSends := s.pendingSends - {id}, clock := now);
      if s.retxSeqs != {} {
        var n := Least(s.retxSeqs);
        assert IsNext(s, n);
        var s1 := WillSend(s0.(retxSeqs := s.retxSeqs - {n}), n, now);
        ScheduleInFields(s1);
      } else if !(s.seqMax != NONE && s.seqNo >= s.seqMax) {
        ScheduleInFields(WillSend(s0.(seqNo := s.seqNo + 1), s.seqNo, now));
      }
    }
  }

  ghost predicate IsNext(s: State, n: nat) {
    n in s.retxSeqs && forall m :: m in s.retxSeqs ==> n <= m
  }

  /** Scheduling leaves exactly one send to come, if none was, and touches nothing else. */
  lemma ScheduleInFields(s: State)
    ensures var r := ScheduleNext(s);
      && r == s.(firstTime := false, sendEvent := r.sendEvent, pendingSends := r.pendingSends, nextEvent := r.nextEvent)
      && r.sendEvent.Some? && r.sendEvent.value in r.pendingSends
      && (forall id :: id in s.pendingSends ==> id in r.pendingSends)
      && (!s.firstTime && s.sendEvent.Some? && s.sendEvent.value in s.pendingSends ==> r == s)
  {
  }

  /** Starting makes the application active with a send to come. */
  lemma StartInFields(s: State)
    ensures var r := Start(s); r.active && (exists id :: id in r.pendingSends) && r.sends == s.sends && r.seqNo == s.seqNo
  {
    ScheduleInFields(s.(active := true));
    assert Start(s).sendEvent.value in Start(s).pendingSends;
  }

  /** Stopping leaves no send to come. */
  lemma StopInFields(s: State)
    requires Inv(s)
    ensures var r := Stop(s); !r.active && r.pendingSends == {} && r == s.(active := false, pendingSends := {})
  {
    hide Count, FirstAt, LastAt, Stamps, Books;
  }

  /** A timer check moves exactly the numbers whose stamp plus rto has come from the timeouts to the
      retransmissions, and transmits nothing itself. */
  lemma CheckInFields(s: State, now: Time, rto: Time)
    ensures var r := CheckTimeouts(s, now, rto);
      && (forall n :: n in r.seqTimeouts <==> n in s.seqTimeouts && s.seqTimeouts[n] + rto > now)
      && (forall n :: n in r.seqTimeouts ==> r.seqTimeouts[n] == s.seqTimeouts[n])
      && (forall n :: n in r.retxSeqs <==> n in s.retxSeqs || (n in s.seqTimeouts && s.seqTimeouts[n] + rto <= now))
      && r.sends == s.sends && r.seqNo == s.seqNo && r.seqFullDelay == s.seqFullDelay
      && r.seqLastDelay == s.seqLastDelay && r.seqRetxCounts == s.seqRetxCounts
  {
    var expired := Expired(s, now, rto);
    ScheduleInFields(s.(seqTimeouts := Without(s.seqTimeouts, expired), retxSeqs := s.retxSeqs + expired, clock := now));
  }

  ghost predicate NoStarts(evs: seq<Event>) {
    forall i :: 0 <= i < |evs| ==> !evs[i].Starts?
  }

  lemma StoppedStep(s: State, ev: Event)
    requires !s.active && !ev.Starts?
    ensures var r := Step(s, ev); !r.active && r.sends == s.sends && r.seqNo == s.seqNo
  {
  }

  /** After a stop, until the next start, nothing is transmitted, whatever timers still fire. */
  lemma {:induction false} StoppedIsSilent(s: State, evs: seq<Event>)
    requires !s.active && NoStarts(evs)
    ensures var r := Run(s, evs); !r.active && r.sends == s.sends && r.seqNo == s.seqNo
    decreases |evs|
  {
    hide Step;
    if evs != [] {
      StoppedStep(s, evs[0]);
      StoppedIsSilent(Step(s, evs[0]), evs[1..]);
    }
  }
}
