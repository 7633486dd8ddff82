/** Whole-run theorems about the coordinator protocol. */
module CoordinatorTheorems {
  import opened Options
  import opened CoordinatorModel
  import opened CoordinatorProofs

  lemma {:induction false} PlaySplit(w: World, before: seq<Event>, after: seq<Event>)
    ensures Play(w, before + after) == Play(Play(w, before), after)
  {
    if after == [] {
      assert before + after == before;
    } else {
      var front := after[..|after| - 1];
      PlaySplit(w, before, front);
      assert (before + after)[..|before + after| - 1] == before + front;
    }
  }

  // ---------------------------------------------------------------- tool gate

  lemma {:induction false} SignalsStay(w: World, events: seq<Event>)
    ensures w.conv.aborted <= Play(w, events).conv.aborted
    ensures w.seen.gated <= Play(w, events).seen.gated
  {
    if events != [] {
      SignalsStay(w, events[..|events| - 1]);
    }
  }

  /**
   Once a run's gate has answered true nothing that happens later aborts the run, and once a
   run is aborted its gate never answers true, whatever is interleaved.
   */
  lemma {:induction false} GateAndAbortExclude(before: seq<Event>, after: seq<Event>, run: RunId)
    ensures run in Play(START, before).seen.gated ==> run !in Play(START, before + after).conv.aborted
    ensures run in Play(START, before).conv.aborted ==> run !in Play(START, before + after).seen.gated
  {
    PlaySplit(START, before, after);
    SignalsStay(Play(START, before), after);
    SafeAlways(before + after);
  }

  // ---------------------------------------------------------------- what a fragment cancels

  /** Event number k marked the burst: the current run's gate answered true, and no run started or was finalized since. */
  ghost predicate MarkedSince(events: seq<Event>, k: nat) {
    && k < |events|
    && Marks(Play(START, events[..k]), events[k])
    && forall j :: k < j < |events| ==> !Unmarks(events, j)
  }

  ghost predicate Marks(w: World, e: Event) {
    && e.GateAsked? && Possible(w, e) && e.run !in w.conv.aborted
    && w.conv.burst.Some? && w.conv.burst.value.currentAbort == Some(e.run)
  }

  ghost predicate Unmarks(events: seq<Event>, j: nat)
    requires j < |events|
  {
    var c := Play(START, events[..j]).conv;
    Called(c, events[j]).Some? || Finalized(c, events[j]).Some?
  }

  lemma {:induction false} MarkStep(w: World, e: Event)
    requires Safe(w) && Possible(w, e)
    ensures Marked(Step(w, e).conv)
       <==> Marks(w, e) || (Marked(w.conv) && Called(w.conv, e).None? && Finalized(w.conv, e).None?)
  {
    if e.TimingsResolved? && w.conv.starting != [] {
      AppendAllFresh(e.maxRestarts, w.conv.starting);
    }
  }

  lemma {:induction false} MarkedSincePush(events: seq<Event>, e: Event, k: nat)
    requires k < |events|
    ensures MarkedSince(events + [e], k) <==> MarkedSince(events, k) && !Unmarks(events + [e], |events|)
  {
    var all := events + [e];
    assert all[..k] == events[..k] && all[k] == events[k];
    forall j: nat | k < j < |events|
      ensures Unmarks(all, j) <==> Unmarks(events, j)
    {
      assert all[..j] == events[..j] && all[j] == events[j];
    }
    hide Unmarks, Marks;
  }

  /** A burst is marked exactly by a gate of its current run that answered true, until a run starts or is finalized. */
  lemma {:induction false} MarkedExactly(events: seq<Event>)
    ensures Marked(Play(START, events).conv) <==> exists k: nat :: MarkedSince(events, k)
  {
    if events != [] {
      var n := |events| - 1;
      var front, e := events[..n], events[n];
      var w := Play(START, front);
      MarkedExactly(front);
      SafeAlways(front);
      if Possible(w, e) {
        MarkStep(w, e);
      }
      assert front + [e] == events;
      forall k: nat | k < n
        ensures MarkedSince(events, k) <==> MarkedSince(front, k) && !Unmarks(events, n)
      {
        MarkedSincePush(front, e, k);
      }
      assert MarkedSince(events, n) <==> Marks(w, e);
      assert Unmarks(events, n) <==> Called(w.conv, e).Some? || Finalized(w.conv, e).Some?;
      hide Marks, Called, Finalized, Safe, Marked, Step, Unmarks;
    }
  }

  /**
   What a fragment that reaches a burst aborts: at most the newest run, and that one, while it is
   live, exactly if restarts are left and no tool shields it. In its handler or its send a run is
   shielded by its own gate having answered true; in the queue by the mark of the run before. A
   fragment that leaves a live run alone arms no timer: it waits for that run to finish.
   */
  lemma {:induction false} FragmentCancels(events: seq<Event>, m: Message)
    requires var c := Play(START, events).conv; c.starting == [] && c.burst.Some?
    ensures var (w, w') := (Play(START, events), Step(Play(START, events), Arrive(m)));
            var b := w.conv.burst.value;
            && (forall r :: r in w'.conv.aborted && r !in w.conv.aborted ==> NewestLive(w.conv) && r == w.conv.nextRun - 1)
            && (NewestLive(w.conv) ==>
                  var newest := w.conv.nextRun - 1;
                  (newest in w'.conv.aborted <==>
                     w.seen.aborts < b.maxRestarts
                     && if newest in b.chain then !Marked(w.conv) else newest !in w.seen.gated))
            && (w'.conv.burst.value.timerArmed <==>
                  b.timerArmed || !NewestLive(w.conv) || w.conv.nextRun - 1 in w'.conv.aborted)
  {
    SafeAlways(events);
    SteeredAlways(events);
  }

  /**
   How a handler call ends. An aborted run is restored, whatever it returned: nothing is sent or
   finalized, and its fragments are in front again. A live one sends its text, or is finalized
   with its own batch, unless its error looks like an abort.
   */
  lemma {:induction false} HandlerEnds(events: seq<Event>, e: Event)
    requires InPhase(Play(START, events).conv, Handling) && (e.HandlerReturns? || e.HandlerThrows?)
    ensures var (w, w') := (Play(START, events), Step(Play(START, events), e));
            var b := w.conv.burst.value;
            var run := b.running.value;
            if run.id in w.conv.aborted || e == HandlerThrows(true) then
              && w'.conv.burst.Some? && w'.conv.burst.value.running.None?
              && w'.conv.burst.value.waiting == Batch(run.batch.fragments + b.waiting.fragments, run.batch.attachments + b.waiting.attachments)
              && w'.seen.finalized == w.seen.finalized
            else if e == HandlerReturns(true) then
              && w'.conv.burst == Some(b.(running := Some(Run(run.id, run.batch, Sending))))
              && w'.seen.finalized == w.seen.finalized
            else
              && w'.seen.finalized == w.seen.finalized + [run.batch]
              && (w'.conv.burst.None? <==> b.waiting.fragments == [])
              && (w'.conv.burst.Some? ==> w'.conv.burst.value.running.None? && w'.conv.burst.value.waiting == b.waiting)
  {
  }

  /** Handlers are called in the order the timers created their runs. */
  lemma {:induction false} RunsStartInTurn(events: seq<Event>, e: Event)
    requires Called(Play(START, events).conv, e).Some?
    ensures forall r :: r in Play(START, events).seen.started ==> r < Called(Play(START, events).conv, e).value.id
  {
    SafeAlways(events);
    SteeredAlways(events);
    InTurnKept(Play(START, events), e);
  }

  // ---------------------------------------------------------------- restarts

  /** At most one handler call is in flight, and the restart cap bounds what happens between finalizations. */
  lemma {:induction false} RestartsBounded(events: seq<Event>)
    ensures var w := Play(START, events);
            && |w.seen.active| <= 1
            && (w.conv.burst.Some? ==>
                  && w.seen.aborts <= w.conv.burst.value.maxRestarts
                  && w.seen.calls <= w.conv.burst.value.maxRestarts + 1 + w.seen.spurious)
            && (w.conv.burst.None? ==> w.seen.aborts == 0 && w.seen.calls <= w.seen.spurious)
  {
    SafeAlways(events);
  }

  /** One live link waits to start, after so many aborts and spurious aborts since the last finalization. */
  ghost predicate Primed(w: World, maxRestarts: nat, aborts: nat, spurious: nat) {
    && w.conv.starting == [] && w.conv.burst.Some? && w.conv.nextRun > 0
    && (forall r :: r in w.conv.aborted ==> r < w.conv.nextRun - 1)
    && PrimedBurst(w.conv.burst.value, w.conv.nextRun - 1, maxRestarts, aborts)
    && w.seen.aborts == aborts && w.seen.spurious == spurious && w.seen.calls == aborts + spurious
  }

  ghost predicate PrimedBurst(b: Burst, run: RunId, maxRestarts: nat, restarts: nat) {
    b == Burst(maxRestarts, b.waiting, false, Some(run), restarts, false, [run], None) && b.waiting.fragments != []
  }

  /** The run in its handler, after the link of a primed burst started. */
  ghost predicate Entered(w: World, maxRestarts: nat, aborts: nat, spurious: nat) {
    && w.conv.starting == [] && w.conv.burst.Some? && w.conv.nextRun > 0
    && (forall r :: r in w.conv.aborted ==> r < w.conv.nextRun - 1)
    && EnteredBurst(w.conv.burst.value, w.conv.nextRun - 1, maxRestarts, aborts)
    && w.seen.aborts == aborts && w.seen.spurious == spurious && w.seen.calls == aborts + spurious + 1
  }

  ghost predicate EnteredBurst(b: Burst, run: RunId, maxRestarts: nat, restarts: nat) {
    && b.running.Some? && b.running.value.batch.fragments != []
    && b == Burst(maxRestarts, EMPTY_BATCH, false, Some(run), restarts, false, [], Some(Run(run, b.running.value.batch, Handling)))
  }

  function FirstEvents(m: Message, maxRestarts: nat): seq<Event> {
    [Arrive(m), TimingsResolved(maxRestarts), TimerFires]
  }

  lemma {:induction false} FirstPrimed(m: Message, maxRestarts: nat)
    ensures Primed(Play(START, FirstEvents(m, maxRestarts)), maxRestarts, 0, 0)
  {
    PlaySteps3(START, Arrive(m), TimingsResolved(maxRestarts), TimerFires);
    var w2 := Step(Step(START, Arrive(m)), TimingsResolved(maxRestarts));
    assert w2 == World(Conversation(Some(FreshBurst(maxRestarts, m)), [], {}, 0), START.seen.(received := [m]));
  }

  lemma {:induction false} LinkEnters(w: World, maxRestarts: nat, aborts: nat, spurious: nat)
    requires Primed(w, maxRestarts, aborts, spurious)
    ensures Entered(Step(w, LinkStarts), maxRestarts, aborts, spurious)
  {
    assert [w.conv.nextRun - 1][1..] == [];
  }

  /** A fragment aborts the run, which unwinds, and the timer queues the next. */
  lemma {:induction false} Restarted(w: World, m: Message, maxRestarts: nat, aborts: nat, spurious: nat)
    requires Entered(w, maxRestarts, aborts, spurious) && aborts < maxRestarts
    ensures Primed(Step(Step(Step(w, Arrive(m)), HandlerThrows(true)), TimerFires), maxRestarts, aborts + 1, spurious)
  {
    var w1 := Step(w, Arrive(m));
    var b := w1.conv.burst.value;
    assert b.currentAbort == None && b.restartCount == aborts + 1 && b.timerArmed && b.chain == [];
    assert w1.seen.aborts == aborts + 1 && w1.seen.calls == w.seen.calls && w1.seen.spurious == spurious;
  }

  /** The handler rejects with an abort of its own, and the next fragment arms the timer again. */
  lemma {:induction false} Respawned(w: World, m: Message, maxRestarts: nat, aborts: nat, spurious: nat)
    requires Entered(w, maxRestarts, aborts, spurious)
    ensures Primed(Step(Step(Step(w, HandlerThrows(true)), Arrive(m)), TimerFires), maxRestarts, aborts, spurious + 1)
  {
    var w1 := Step(w, HandlerThrows(true));
    var b := w1.conv.burst.value;
    assert b.currentAbort == None && b.running == None && b.waiting.fragments != [] && b.chain == [];
    assert w1.seen.aborts == aborts && w1.seen.calls == w.seen.calls && w1.seen.spurious == spurious + 1;
  }

  lemma {:induction false} Prime(m: Message, maxRestarts: nat, aborts: nat, spurious: nat) returns (events: seq<Event>)
    requires aborts <= maxRestarts
    ensures Primed(Play(START, events), maxRestarts, aborts, spurious)
    decreases aborts + spurious
  {
    hide Primed, Entered, Step;
    if aborts == 0 && spurious == 0 {
      events := FirstEvents(m, maxRestarts);
      FirstPrimed(m, maxRestarts);
    } else {
      var before := Prime(m, maxRestarts, if spurious > 0 then aborts else aborts - 1, if spurious > 0 then spurious - 1 else 0);
      var w := Play(START, before);
      var more: seq<Event>;
      if spurious > 0 {
        LinkEnters(w, maxRestarts, aborts, spurious - 1);
        Respawned(Step(w, LinkStarts), m, maxRestarts, aborts, spurious - 1);
        more := [HandlerThrows(true), Arrive(m), TimerFires];
      } else {
        LinkEnters(w, maxRestarts, aborts - 1, 0);
        Restarted(Step(w, LinkStarts), m, maxRestarts, aborts - 1, 0);
        more := [Arrive(m), HandlerThrows(true), TimerFires];
      }
      PlayStep(START, before, LinkStarts);
      PlaySplit(START, before + [LinkStarts], more);
      PlaySteps3(Step(w, LinkStarts), more[0], more[1], more[2]);
      events := before + [LinkStarts] + more;
    }
  }

  /** The bound is reached for every cap and every number of spurious aborts, each of which adds a call. */
  lemma {:induction false} RestartBoundReached(m: Message, maxRestarts: nat, spurious: nat) returns (events: seq<Event>)
    ensures var w := Play(START, events);
            && w.conv.burst.Some? && w.conv.burst.value.maxRestarts == maxRestarts
            && w.seen.aborts == maxRestarts && w.seen.spurious == spurious
            && w.seen.calls == maxRestarts + 1 + spurious
  {
    var before := Prime(m, maxRestarts, maxRestarts, spurious);
    events := before + [LinkStarts];
    PlayStep(START, before, LinkStarts);
    LinkEnters(Play(START, before), maxRestarts, maxRestarts, spurious);
    hide Primed, Step;
  }

  lemma {:induction false} PlayStep(w: World, events: seq<Event>, e: Event)
    ensures Play(w, events + [e]) == Step(Play(w, events), e)
  {
    assert (events + [e])[..|events + [e]| - 1] == events;
  }

  lemma {:induction false} PlaySteps3(w: World, a: Event, b: Event, c: Event)
    ensures Play(w, [a, b, c]) == Step(Step(Step(w, a), b), c)
  {
    hide Step;
    PlayStep(w, [], a);
    PlayStep(w, [a], b);
    PlayStep(w, [a, b], c);
    assert [] + [a] == [a] && [a] + [b] == [a, b] && [a, b] + [c] == [a, b, c];
  }

  // ---------------------------------------------------------------- conservation

  /** Where each received message is: in a finalized run, with the running link, or waiting. */
  datatype Ledger = Ledger(done: seq<seq<Message>>, fly: seq<Message>, wait: seq<Message>)

  function Concat(groups: seq<seq<Message>>): seq<Message> {
    if groups == [] then [] else Concat(groups[..|groups| - 1]) + groups[|groups| - 1]
  }

  function Laid(l: Ledger, starting: seq<Message>): seq<Message> {
    Concat(l.done) + l.fly + l.wait + starting
  }

  /**
   The messages received, in order, are those of the finalized runs, then the running run's,
   then the buffered ones, then those waiting for the timings; and each run carries exactly
   the texts and the attachments of its own messages.
   */
  ghost predicate Balanced(w: World, l: Ledger) {
    && w.seen.received == Laid(l, w.conv.starting)
    && |w.seen.finalized| == |l.done|
    && (forall i :: 0 <= i < |l.done| ==> w.seen.finalized[i] == BatchOf(l.done[i]))
    && match w.conv.burst
       case None => l.fly == [] && l.wait == []
       case Some(b) =>
         && b.waiting == BatchOf(l.wait)
         && (if b.running.Some? then b.running.value.batch == BatchOf(l.fly) else l.fly == [])
  }

  lemma {:induction false} BatchOfConcat(a: seq<Message>, b: seq<Message>)
    ensures BatchOf(a + b) == BatchOf(a).Then(BatchOf(b))
  {
    if b == [] {
      assert a + b == a;
    } else {
      var front := b[..|b| - 1];
      BatchOfConcat(a, front);
      assert (a + b)[..|a + b| - 1] == a + front;
    }
  }

  lemma {:induction false} BatchOfOne(m: Message)
    ensures BatchOf([m]) == Batch([m.text], m.attachments)
  {
    assert [m][..0] == [];
  }

  lemma {:induction false} ConcatPush(groups: seq<seq<Message>>, group: seq<Message>)
    ensures Concat(groups + [group]) == Concat(groups) + group
  {
    assert (groups + [group])[..|groups + [group]| - 1] == groups;
  }

  /** A message that arrives goes to the end, whether it waits in the buffer or for the timings. */
  lemma {:induction false} LaidArrived(l: Ledger, starting: seq<Message>, m: Message)
    ensures Laid(l, starting + [m]) == Laid(l, starting) + [m]
    ensures starting == [] ==> Laid(l.(wait := l.wait + [m]), starting) == Laid(l, starting) + [m]
  {
    var before := Concat(l.done) + l.fly;
    assert before + l.wait + (starting + [m]) == before + l.wait + starting + [m];
    assert before + (l.wait + [m]) + [] == before + l.wait + [] + [m];
  }

  /** Moving messages along the ledger keeps their order. */
  lemma {:induction false} LaidMoved(l: Ledger, starting: seq<Message>)
    ensures Laid(l.(wait := l.fly + l.wait, fly := []), starting) == Laid(l, starting)
    ensures l.fly == [] ==> Laid(l.(fly := l.wait, wait := []), starting) == Laid(l, starting)
    ensures l.wait == [] ==> Laid(l.(wait := starting), []) == Laid(l, starting)
    ensures Laid(l.(done := l.done + [l.fly], fly := []), starting) == Laid(l, starting)
  {
    var done := Concat(l.done);
    ConcatPush(l.done, l.fly);
    assert done + [] + (l.fly + l.wait) == done + l.fly + l.wait;
    assert done + [] + l.wait == done + l.wait + [];
    assert done + l.fly + [] + starting == done + l.fly + starting + [];
    assert done + l.fly + [] == done + l.fly;
  }

  ghost predicate Restores(c: Conversation, e: Event) {
    InPhase(c, Handling) && (e.HandlerReturns? || e.HandlerThrows?) && Finalized(c, e).None? && Next(c, e).burst.Some?
    && Next(c, e).burst.value.running.None?
  }

  ghost function NextLedger(w: World, e: Event, l: Ledger): Ledger {
    var c := w.conv;
    if Finalized(c, e).Some? then l.(done := l.done + [l.fly], fly := [])
    else if Called(c, e).Some? then l.(fly := l.wait, wait := [])
    else if Restores(c, e) then l.(wait := l.fly + l.wait, fly := [])
    else if e.Arrive? && c.starting == [] && c.burst.Some? then l.(wait := l.wait + [e.message])
    else if e.TimingsResolved? && c.starting != [] then l.(wait := c.starting)
    else l
  }

  /** Only a run that is out of its handler is finalized: a queued link never finds an empty buffer. */
  lemma {:induction false} FinalizedIsRunning(w: World, e: Event)
    requires Safe(w) && Finalized(w.conv, e).Some?
    ensures !e.Arrive? && !e.LinkStarts? && Possible(w, e)
    ensures w.conv.burst.Some? && w.conv.burst.value.running.Some?
    ensures Finalized(w.conv, e).value == w.conv.burst.value.running.value.batch
    ensures Next(w.conv, e) == Finalize(w.conv, w.conv.burst.value, w.conv.burst.value.running.value.id)
  {
  }

  lemma {:induction false} BalanceFinalized(w: World, e: Event, l: Ledger)
    requires Safe(w) && Balanced(w, l) && Finalized(w.conv, e).Some?
    ensures Balanced(Step(w, e), NextLedger(w, e, l))
  {
    FinalizedIsRunning(w, e);
    BatchOfSize(l.wait);
    LaidMoved(l, w.conv.starting);
    hide Safe, Laid, BatchOf;
    assert Step(w, e).seen.received == w.seen.received;
    assert Step(w, e).seen.finalized == w.seen.finalized + [BatchOf(l.fly)];
  }

  lemma {:induction false} BalanceRestored(w: World, e: Event, l: Ledger)
    requires Safe(w) && Balanced(w, l) && Restores(w.conv, e)
    ensures Balanced(Step(w, e), NextLedger(w, e, l))
  {
    hide Safe, Laid, BatchOf;
    BatchOfConcat(l.fly, l.wait);
    LaidMoved(l, w.conv.starting);
  }

  lemma {:induction false} BalanceArrived(w: World, e: Event, l: Ledger)
    requires Safe(w) && Balanced(w, l) && e.Arrive?
    ensures Balanced(Step(w, e), NextLedger(w, e, l))
  {
    hide Safe, Laid, BatchOf;
    BatchOfConcat(l.wait, [e.message]);
    BatchOfOne(e.message);
    LaidArrived(l, w.conv.starting, e.message);
  }

  lemma {:induction false} BalanceInstalled(w: World, e: Event, l: Ledger)
    requires Safe(w) && Balanced(w, l) && e.TimingsResolved?
    ensures Balanced(Step(w, e), NextLedger(w, e, l))
  {
    if w.conv.starting != [] {
      AppendAllFresh(e.maxRestarts, w.conv.starting);
      LaidMoved(l, w.conv.starting);
      assert w.conv.burst.None?;
      hide Safe, Laid, BatchOf, AppendAll;
    }
  }

  lemma {:induction false} BalanceLinked(w: World, e: Event, l: Ledger)
    requires Safe(w) && Balanced(w, l) && e.LinkStarts? && Finalized(w.conv, e).None?
    ensures Balanced(Step(w, e), NextLedger(w, e, l))
  {
    LaidMoved(l, w.conv.starting);
    assert BatchOf([]) == EMPTY_BATCH;
    hide Safe, Laid, BatchOf;
  }

  lemma {:induction false} BalanceKept(w: World, e: Event, l: Ledger)
    requires Safe(w) && Balanced(w, l) && Possible(w, e)
    ensures Balanced(Step(w, e), NextLedger(w, e, l))
  {
    if Finalized(w.conv, e).Some? {
      BalanceFinalized(w, e, l);
    } else if Restores(w.conv, e) {
      BalanceRestored(w, e, l);
    } else {
      match e
      case Arrive(_) => BalanceArrived(w, e, l);
      case TimingsResolved(_) => BalanceInstalled(w, e, l);
      case LinkStarts => BalanceLinked(w, e, l);
      case _ =>
    }
  }

  lemma {:induction false} LedgerExists(events: seq<Event>) returns (l: Ledger)
    ensures Balanced(Play(START, events), l)
  {
    if events == [] {
      l := Ledger([], [], []);
    } else {
      var w, e := Play(START, events[..|events| - 1]), events[|events| - 1];
      l := LedgerExists(events[..|events| - 1]);
      SafeAlways(events[..|events| - 1]);
      if Possible(w, e) {
        BalanceKept(w, e, l);
        l := NextLedger(w, e, l);
      }
    }
  }

  /** Nothing is lost, duplicated or reordered, in any interleaving. */
  lemma {:induction false} FragmentsConserved(events: seq<Event>)
    ensures exists l :: Balanced(Play(START, events), l)
  {
    var l := LedgerExists(events);
  }

  /** No burst and no start pending. */
  ghost predicate Settled(c: Conversation) {
    c.burst.None? && c.starting == []
  }

  /** Then every message received was in a finalized run, whatever became of its reply, and no handler is running. */
  lemma {:induction false} SettledFinalizedAll(events: seq<Event>)
    requires Settled(Play(START, events).conv)
    ensures var w := Play(START, events);
            exists groups :: && Concat(groups) == w.seen.received && |groups| == |w.seen.finalized|
                             && forall i :: 0 <= i < |groups| ==> w.seen.finalized[i] == BatchOf(groups[i])
    ensures Play(START, events).seen.active == {}
  {
    var l := LedgerExists(events);
    SafeAlways(events);
    assert Concat(l.done) == Play(START, events).seen.received;
  }

  /** A burst is removed only by a run that finalizes, with nothing buffered and no handler call left. */
  lemma {:induction false} BurstEndsOnlyWhenDone(events: seq<Event>, e: Event)
    requires var (w, w') := (Play(START, events), Step(Play(START, events), e));
             w.conv.burst.Some? && w'.conv.burst.None?
    ensures var (w, w') := (Play(START, events), Step(Play(START, events), e));
            && w.conv.burst.value.waiting.fragments == []
            && w.conv.burst.value.running.Some?
            && w'.seen.finalized == w.seen.finalized + [w.conv.burst.value.running.value.batch]
            && w'.seen.active == {} && Settled(w'.conv)
  {
    SafeAlways(events);
    SafeKept(Play(START, events), e);
  }

  // ---------------------------------------------------------------- stranding

  ghost predicate LiveQueued(c: Conversation) {
    c.burst.Some? && exists r :: r in c.burst.value.chain && r !in c.aborted
  }

  /** A burst exists, but no timer is armed and no run that is queued or running is still live. */
  ghost predicate Stranded(c: Conversation) {
    c.burst.Some? && !c.burst.value.timerArmed && !LiveQueued(c) && RunningAborted(c) == Running(c)
  }

  /** The handler fails as if aborted on a live signal, and nothing else is scheduled. */
  ghost predicate Strands(c: Conversation, e: Event) {
    Spurious(c, e) && !c.burst.value.timerArmed && !LiveQueued(c)
  }

  ghost predicate Unstuck(c: Conversation) {
    Running(c) == 1 ==> !Stranded(c)
  }

  lemma {:induction false} StrandedStep(w: World, e: Event)
    requires Safe(w) && Unstuck(w.conv) && Possible(w, e)
    ensures Unstuck(Step(w, e).conv)
    ensures Stranded(Step(w, e).conv) <==> if Stranded(w.conv) then !e.Arrive? else Strands(w.conv, e)
  {
    var c, c' := w.conv, Next(w.conv, e);
    match e
    case TimingsResolved(maxRestarts) =>
      if c.starting != [] {
        AppendAllFresh(maxRestarts, c.starting);
      }
    case TimerFires =>
      if c.burst.Some? && c.burst.value.timerArmed {
        assert c.nextRun in c'.burst.value.chain && c.nextRun !in c.aborted;
      }
    case LinkStarts =>
      if CanStart(c) {
        var chain := c.burst.value.chain;
        assert forall r :: r in chain <==> r == chain[0] || r in chain[1..];
      }
    case _ =>
  }

  ghost predicate NoArrival(events: seq<Event>) {
    forall i :: 0 <= i < |events| ==> !events[i].Arrive?
  }

  lemma {:induction false} NoArrivalPush(events: seq<Event>, e: Event)
    ensures NoArrival(events + [e]) <==> NoArrival(events) && !e.Arrive?
  {
    if NoArrival(events + [e]) {
      assert (events + [e])[|events|] == e;
      assert forall i {:trigger events[i]} :: 0 <= i < |events| ==> (events + [e])[i] == events[i];
    }
  }

  /** Event number k strands the burst, and no fragment arrived since. */
  ghost predicate StrandedSince(events: seq<Event>, k: nat) {
    k < |events| && Strands(Play(START, events[..k]).conv, events[k]) && NoArrival(events[k + 1..])
  }

  lemma {:induction false} UnstuckAlways(events: seq<Event>)
    ensures Unstuck(Play(START, events).conv)
  {
    if events != [] {
      var front := events[..|events| - 1];
      UnstuckAlways(front);
      SafeAlways(front);
      if Possible(Play(START, front), events[|events| - 1]) {
        StrandedStep(Play(START, front), events[|events| - 1]);
      }
    }
  }

  lemma {:induction false} StrandedSincePush(events: seq<Event>, e: Event, k: nat)
    requires k < |events|
    ensures StrandedSince(events + [e], k) <==> StrandedSince(events, k) && !e.Arrive?
  {
    var all := events + [e];
    assert all[..k] == events[..k] && all[k] == events[k];
    assert all[k + 1..] == events[k + 1..] + [e];
    NoArrivalPush(events[k + 1..], e);
    hide NoArrival;
  }

  /**
   A burst is stranded exactly when the handler once failed with what looks like an abort on a
   signal nobody aborted, with no timer armed and no live run queued, and no fragment came since.
   */
  lemma {:induction false} StrandedExactly(events: seq<Event>)
    ensures Stranded(Play(START, events).conv) <==> exists k: nat :: StrandedSince(events, k)
  {
    if events != [] {
      var n := |events| - 1;
      var front, e := events[..n], events[n];
      var w := Play(START, front);
      StrandedExactly(front);
      SafeAlways(front);
      UnstuckAlways(front);
      if Possible(w, e) {
        StrandedStep(w, e);
      }
      assert front + [e] == events;
      forall k: nat | k < n
        ensures StrandedSince(events, k) <==> StrandedSince(front, k) && !e.Arrive?
      {
        StrandedSincePush(front, e, k);
      }
      assert StrandedSince(events, n) <==> Strands(w.conv, e);
      hide Strands, Safe, Stranded, Unstuck, Step;
    }
  }

  /** It does happen, after one fragment, for every restart cap. */
  lemma {:induction false} StrandedExample(m: Message, maxRestarts: nat)
    ensures Stranded(Play(START, FirstEvents(m, maxRestarts) + [LinkStarts, HandlerThrows(true)]).conv)
  {
    var first := FirstEvents(m, maxRestarts);
    var w := Play(START, first);
    FirstPrimed(m, maxRestarts);
    LinkEnters(w, maxRestarts, 0, 0);
    PlayStep(START, first, LinkStarts);
    PlayStep(START, first + [LinkStarts], HandlerThrows(true));
    assert first + [LinkStarts] + [HandlerThrows(true)] == first + [LinkStarts, HandlerThrows(true)];
    var w1 := Step(w, LinkStarts);
    hide Primed;
    assert Next(w1.conv, HandlerThrows(true)).burst.value.chain == [];
  }

  // ---------------------------------------------------------------- every burst can finish

  /** What happens next when no fragment arrives and the handler behaves. */
  function QuietEvent(c: Conversation): Event {
    if c.starting != [] then TimingsResolved(0)
    else if InPhase(c, Handling) then HandlerReturns(true)
    else if InPhase(c, Sending) then SendEnds
    else if CanStart(c) then LinkStarts
    else TimerFires
  }

  function Outstanding(c: Conversation): nat {
    |c.starting| +
    if c.burst.None? then 0
    else |c.burst.value.waiting.fragments|
         + if c.burst.value.running.Some? then |c.burst.value.running.value.batch.fragments| else 0
  }

  function Delay(c: Conversation): nat {
    (if c.starting != [] then 4 else 0) +
    if c.burst.None? then 0
    else (if c.burst.value.timerArmed then 3 else 0) + 2 * |c.burst.value.chain| + (if InPhase(c, Handling) then 1 else 0)
  }

  lemma {:induction false} QuietProgress(w: World)
    requires Safe(w) && Unstuck(w.conv) && !Stranded(w.conv) && !Settled(w.conv)
    ensures var w' := Step(w, QuietEvent(w.conv));
            && Safe(w') && Unstuck(w'.conv) && !Stranded(w'.conv)
            && w'.seen.received == w.seen.received
            && (Outstanding(w'.conv) < Outstanding(w.conv)
                || (Outstanding(w'.conv) == Outstanding(w.conv) && Delay(w'.conv) < Delay(w.conv)))
  {
    var e := QuietEvent(w.conv);
    SafeKept(w, e);
    StrandedStep(w, e);
    if w.conv.starting != [] {
      AppendAllFresh(0, w.conv.starting);
      BatchOfSize(w.conv.starting);
    }
  }

  lemma {:induction false} Drain(w: World) returns (events: seq<Event>)
    requires Safe(w) && Unstuck(w.conv) && !Stranded(w.conv)
    ensures NoArrival(events) && Settled(Play(w, events).conv)
    decreases Outstanding(w.conv), Delay(w.conv)
  {
    hide Safe, Unstuck, Stranded, Step;
    if Settled(w.conv) {
      events := [];
    } else {
      QuietProgress(w);
      var e := QuietEvent(w.conv);
      var rest := Drain(Step(w, e));
      events := [e] + rest;
      PlaySplit(w, [e], rest);
      PlayStep(w, [], e);
      assert [] + [e] == [e];
    }
  }

  lemma {:induction false} StrandedStays(w: World, events: seq<Event>)
    requires Safe(w) && Unstuck(w.conv) && Stranded(w.conv) && NoArrival(events)
    ensures Safe(Play(w, events)) && Unstuck(Play(w, events).conv) && Stranded(Play(w, events).conv)
  {
    if events != [] {
      var front := events[..|events| - 1];
      StrandedStays(w, front);
      SafeKept(Play(w, front), events[|events| - 1]);
      if Possible(Play(w, front), events[|events| - 1]) {
        StrandedStep(Play(w, front), events[|events| - 1]);
      }
    }
  }

  /** Events without a new fragment can finish the conversation exactly when it is not stranded. */
  lemma {:induction false} FinishesUnlessStranded(history: seq<Event>)
    ensures !Stranded(Play(START, history).conv)
       <==> exists events :: NoArrival(events) && Settled(Play(Play(START, history), events).conv)
  {
    var w := Play(START, history);
    SafeAlways(history);
    UnstuckAlways(history);
    if !Stranded(w.conv) {
      var events := Drain(w);
    } else {
      forall events | NoArrival(events)
        ensures !Settled(Play(w, events).conv)
      {
        StrandedStays(w, events);
      }
    }
  }
}
