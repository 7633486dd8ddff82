/** What every step of the coordinator protocol keeps, and what holds over whole runs of it. */
module CoordinatorProofs {
  import opened Options
  import opened CoordinatorModel

  // ---------------------------------------------------------------- structure

  ghost predicate Distinct(s: seq<RunId>) {
    forall i, j :: 0 <= i < j < |s| ==> s[i] != s[j]
  }

  ghost predicate BurstOk(c: Conversation, b: Burst) {
    && Distinct(b.chain)
    && (forall r :: r in b.chain ==> r < c.nextRun)
    && (b.running.Some? ==> b.running.value.id < c.nextRun && b.running.value.id !in b.chain
                            && b.running.value.batch.fragments != [])
    && (b.running.None? ==> b.waiting.fragments != [])
    && (b.currentAbort.Some? ==>
          && b.currentAbort.value !in c.aborted
          && (b.currentAbort.value in b.chain || (b.running.Some? && b.running.value.id == b.currentAbort.value)))
    && b.restartCount <= b.maxRestarts
  }

  /** The shape of a conversation in which the handlers of `started` have been called. */
  ghost predicate Shape(c: Conversation, started: set<RunId>) {
    && (c.starting != [] ==> c.burst.None?)
    && (forall r :: r in c.aborted ==> r < c.nextRun)
    && (forall r :: r in started ==> r < c.nextRun)
    && (c.burst.Some? ==>
          && BurstOk(c, c.burst.value)
          && (forall r :: r in c.burst.value.chain ==> r !in started)
          && (c.burst.value.running.Some? ==> c.burst.value.running.value.id in started))
  }

  lemma {:induction false} AppendAllFresh(maxRestarts: nat, messages: seq<Message>)
    requires messages != []
    ensures AppendAll(FreshBurst(maxRestarts, messages[0]), messages[1..])
         == Burst(maxRestarts, BatchOf(messages), true, None, 0, false, [], None)
  {
    if |messages| == 1 {
      assert messages[..0] == [];
    } else {
      var front := messages[..|messages| - 1];
      AppendAllFresh(maxRestarts, front);
      assert messages[1..][..|messages[1..]| - 1] == front[1..];
    }
  }

  lemma {:induction false} BatchOfSize(messages: seq<Message>)
    ensures |BatchOf(messages).fragments| == |messages|
  {
    if messages != [] {
      BatchOfSize(messages[..|messages| - 1]);
    }
  }

  lemma {:induction false} TimingsShape(c: Conversation, maxRestarts: nat, started: set<RunId>)
    requires Shape(c, started)
    ensures Shape(OnTimings(c, maxRestarts), started)
  {
    if c.starting != [] {
      AppendAllFresh(maxRestarts, c.starting);
      BatchOfSize(c.starting);
    }
  }

  lemma {:induction false} TimerShape(c: Conversation, started: set<RunId>)
    requires Shape(c, started)
    ensures Shape(OnTimer(c), started)
  {
    if c.burst.Some? {
      var chain := c.burst.value.chain;
      assert forall i :: 0 <= i < |chain| ==> chain[i] in chain;
      assert Distinct(chain + [c.nextRun]);
    }
  }

  lemma {:induction false} LinkShape(c: Conversation, started: set<RunId>)
    requires Shape(c, started)
    ensures Shape(OnLink(c), if Called(c, LinkStarts).Some? then started + {Called(c, LinkStarts).value.id} else started)
  {
    if CanStart(c) {
      var chain := c.burst.value.chain;
      assert forall r :: r in chain <==> r == chain[0] || r in chain[1..];
      assert Distinct(chain[1..]);
      assert chain[0] !in chain[1..];
    }
  }

  lemma {:induction false} ShapeKept(c: Conversation, e: Event, started: set<RunId>)
    requires Shape(c, started)
    ensures Shape(Next(c, e), if Called(c, e).Some? then started + {Called(c, e).value.id} else started)
  {
    match e
    case TimingsResolved(maxRestarts) => TimingsShape(c, maxRestarts, started);
    case TimerFires => TimerShape(c, started);
    case LinkStarts => LinkShape(c, started);
    case _ =>
  }

  // ---------------------------------------------------------------- one handler, gates, restarts

  /** The handler calls in flight are exactly the running link's, while it is in its handler. */
  ghost predicate OneHandler(w: World) {
    w.seen.active == if InPhase(w.conv, Handling) then {w.conv.burst.value.running.value.id} else {}
  }

  /** A run whose gate answered true is not aborted, and is shielded while a fragment could reach it. */
  ghost predicate GatesHold(w: World) {
    && w.seen.gated <= w.seen.started
    && w.seen.gated !! w.conv.aborted
    && (w.conv.burst.Some? ==>
          var b := w.conv.burst.value;
          b.currentAbort.Some? && b.currentAbort.value in w.seen.gated ==> b.toolStarted)
  }

  function Running(c: Conversation): nat {
    if c.burst.Some? && c.burst.value.running.Some? then 1 else 0
  }

  function RunningAborted(c: Conversation): nat {
    if Running(c) == 1 && c.burst.value.running.value.id in c.aborted then 1 else 0
  }

  /** Each handler call since the last finalization is still running, or was paid for by an abort. */
  ghost predicate Paid(w: World) {
    && w.seen.calls + RunningAborted(w.conv) <= w.seen.aborts + w.seen.spurious + Running(w.conv)
    && w.seen.aborts == (if w.conv.burst.Some? then w.conv.burst.value.restartCount else 0)
  }

  ghost predicate Safe(w: World) {
    Shape(w.conv, w.seen.started) && OneHandler(w) && GatesHold(w) && Paid(w)
  }

  lemma {:induction false} GatesKept(w: World, e: Event)
    requires Safe(w) && Possible(w, e)
    ensures GatesHold(Step(w, e))
  {
    if e.TimingsResolved? && w.conv.starting != [] {
      AppendAllFresh(e.maxRestarts, w.conv.starting);
    }
  }

  lemma {:induction false} PaidKept(w: World, e: Event)
    requires Safe(w) && Possible(w, e)
    ensures Paid(Step(w, e))
  {
    hide Distinct, OneHandler, GatesHold;
    if e.TimingsResolved? && w.conv.starting != [] {
      AppendAllFresh(e.maxRestarts, w.conv.starting);
    }
  }

  lemma {:induction false} OneHandlerKept(w: World, e: Event)
    requires Safe(w) && Possible(w, e)
    ensures OneHandler(Step(w, e))
  {
    if e.TimingsResolved? && w.conv.starting != [] {
      AppendAllFresh(e.maxRestarts, w.conv.starting);
    }
  }

  lemma {:induction false} SafeKept(w: World, e: Event)
    requires Safe(w)
    ensures Safe(Step(w, e))
  {
    if Possible(w, e) {
      ShapeKept(w.conv, e, w.seen.started);
      OneHandlerKept(w, e);
      GatesKept(w, e);
      PaidKept(w, e);
    }
  }

  lemma {:induction false} SafeAlways(events: seq<Event>)
    ensures Safe(Play(START, events))
  {
    if events != [] {
      SafeAlways(events[..|events| - 1]);
      SafeKept(Play(START, events[..|events| - 1]), events[|events| - 1]);
    }
  }

  // ---------------------------------------------------------------- controllers, order, marks

  /** The run the last timer created is queued or in progress, and nobody aborted it. */
  predicate NewestLive(c: Conversation) {
    && c.burst.Some? && c.nextRun > 0 && c.nextRun - 1 !in c.aborted
    && (c.nextRun - 1 in c.burst.value.chain
        || (c.burst.value.running.Some? && c.burst.value.running.value.id == c.nextRun - 1))
  }

  /** The current controller is the newest run's for as long as that run is live. */
  ghost predicate Controlled(c: Conversation) {
    c.burst.Some? ==> c.burst.value.currentAbort == if NewestLive(c) then Some(c.nextRun - 1) else None
  }

  ghost predicate Increasing(s: seq<RunId>) {
    forall i, j :: 0 <= i < j < |s| ==> s[i] < s[j]
  }

  ghost predicate Below(runs: set<RunId>, s: seq<RunId>) {
    forall r, q :: r in runs && q in s ==> r < q
  }

  /** Runs start in the order their timers created them. */
  ghost predicate InTurn(w: World) {
    w.conv.burst.Some? ==> Increasing(w.conv.burst.value.chain) && Below(w.seen.started, w.conv.burst.value.chain)
  }

  predicate Marked(c: Conversation) {
    c.burst.Some? && c.burst.value.toolStarted
  }

  /** While a run is in progress only its own gate has marked the burst. */
  ghost predicate OwnMark(w: World) {
    Running(w.conv) == 1 && Marked(w.conv) ==> w.conv.burst.value.running.value.id in w.seen.gated
  }

  lemma {:induction false} ControlledKept(w: World, e: Event)
    requires Safe(w) && Controlled(w.conv) && Possible(w, e)
    ensures Controlled(Step(w, e).conv)
  {
    hide GatesHold, OneHandler, Paid;
    if e.TimingsResolved? && w.conv.starting != [] {
      AppendAllFresh(e.maxRestarts, w.conv.starting);
    } else if e.LinkStarts? && CanStart(w.conv) {
      var chain := w.conv.burst.value.chain;
      assert forall r :: r in chain <==> r == chain[0] || r in chain[1..];
    } else if e.TimerFires? && w.conv.burst.Some? && w.conv.burst.value.timerArmed {
      assert w.conv.nextRun in Next(w.conv, e).burst.value.chain;
    }
  }

  lemma {:induction false} QueueLast(started: set<RunId>, chain: seq<RunId>, run: RunId)
    requires Increasing(chain) && Below(started, chain)
    requires (forall r :: r in chain ==> r < run) && (forall r :: r in started ==> r < run)
    ensures Increasing(chain + [run]) && Below(started, chain + [run])
  {
    assert forall i :: 0 <= i < |chain| ==> chain[i] in chain;
  }

  lemma {:induction false} QueueFirst(started: set<RunId>, chain: seq<RunId>)
    requires Increasing(chain) && Below(started, chain) && chain != []
    ensures Increasing(chain[1..]) && Below(started, chain[1..]) && Below(started + {chain[0]}, chain[1..])
    ensures forall r :: r in started ==> r < chain[0]
  {
    assert chain[0] in chain;
    assert forall r :: r in chain[1..] ==> r in chain && chain[0] < r;
  }

  lemma {:induction false} InTurnKept(w: World, e: Event)
    requires Safe(w) && InTurn(w) && Possible(w, e)
    ensures InTurn(Step(w, e))
    ensures Called(w.conv, e).Some? ==> forall r :: r in w.seen.started ==> r < Called(w.conv, e).value.id
  {
    hide GatesHold, OneHandler, Paid, Distinct, Increasing, Below;
    if e.TimingsResolved? && w.conv.starting != [] {
      AppendAllFresh(e.maxRestarts, w.conv.starting);
      NothingQueued(w.seen.started);
    } else if w.conv.burst.Some? {
      var chain := w.conv.burst.value.chain;
      if e.LinkStarts? && CanStart(w.conv) {
        QueueFirst(w.seen.started, chain);
      } else if e.TimerFires? {
        QueueLast(w.seen.started, chain, w.conv.nextRun);
      }
    }
  }

  lemma {:induction false} NothingQueued(started: set<RunId>)
    ensures Increasing([]) && Below(started, [])
  {
  }

  lemma {:induction false} OwnMarkKept(w: World, e: Event)
    requires Safe(w) && OwnMark(w) && Possible(w, e)
    ensures OwnMark(Step(w, e))
  {
    hide Distinct, OneHandler, Paid;
    if e.TimingsResolved? && w.conv.starting != [] {
      AppendAllFresh(e.maxRestarts, w.conv.starting);
    }
  }

  lemma {:induction false} SteeredAlways(events: seq<Event>)
    ensures Controlled(Play(START, events).conv) && InTurn(Play(START, events)) && OwnMark(Play(START, events))
  {
    if events != [] {
      var front, e := events[..|events| - 1], events[|events| - 1];
      var w := Play(START, front);
      SteeredAlways(front);
      SafeAlways(front);
      if Possible(w, e) {
        ControlledKept(w, e);
        InTurnKept(w, e);
        OwnMarkKept(w, e);
      }
    }
  }
}
