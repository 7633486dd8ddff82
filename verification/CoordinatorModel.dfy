/**
 The per-conversation protocol of the message coordinator, as a state machine.

 One conversation is a burst (its entry in `states`), the messages waiting for the timings
 read of a burst that is still starting, and the abort signals of its runs. An event is one
 uninterrupted piece of the coordinator's code; `Next` is total, an event that is not
 possible in a state changes nothing, so a run of the protocol is any sequence of events.
 */
module CoordinatorModel {
  import opened Options

  type RunId = nat
  type Attachment = string

  datatype Message = Message(text: string, attachments: seq<Attachment>)

  /** Fragment texts with the attachments gathered alongside them. */
  datatype Batch = Batch(fragments: seq<string>, attachments: seq<Attachment>) {
    function Then(later: Batch): Batch {
      Batch(fragments + later.fragments, attachments + later.attachments)
    }
  }

  const EMPTY_BATCH := Batch([], [])

  /** The batch made of exactly these messages, in order. */
  function BatchOf(messages: seq<Message>): Batch {
    if messages == [] then EMPTY_BATCH
    else BatchOf(messages[..|messages| - 1]).Then(Batch([messages[|messages| - 1].text], messages[|messages| - 1].attachments))
  }

  datatype Phase = Handling | Sending

  /** The link of the flush chain that has snapshotted its fragments and is not done yet. */
  datatype Run = Run(id: RunId, batch: Batch, phase: Phase)

  datatype Burst = Burst(
    maxRestarts: nat,
    waiting: Batch,
    timerArmed: bool,
    currentAbort: Option<RunId>,
    restartCount: nat,
    toolStarted: bool,
    chain: seq<RunId>,        // links of the flush chain that have not started
    running: Option<Run>)

  datatype Conversation = Conversation(
    burst: Option<Burst>,
    starting: seq<Message>,   // the owner of the timings read, then the messages waiting for it
    aborted: set<RunId>,
    nextRun: RunId)

  datatype Event =
    | Arrive(message: Message)
    | TimingsResolved(maxRestarts: nat)
    | TimerFires
    | LinkStarts
    | GateAsked(run: RunId)
    | HandlerReturns(hasText: bool)
    | HandlerThrows(abortLike: bool)
    | SendEnds

  const IDLE := Conversation(None, [], {}, 0)

  // ---------------------------------------------------------------- transitions

  predicate Cancels(b: Burst) {
    b.currentAbort.Some? && b.restartCount < b.maxRestarts && !b.toolStarted
  }

  /** A fragment that reaches an installed burst. */
  function Append(b: Burst, message: Message): Burst {
    var b1 := b.(waiting := b.waiting.Then(Batch([message.text], message.attachments)));
    if b.currentAbort.None? then b1.(timerArmed := true)
    else if Cancels(b) then b1.(currentAbort := None, restartCount := b.restartCount + 1, timerArmed := true)
    else b1
  }

  function AbortedBy(b: Burst): set<RunId> {
    if Cancels(b) then {b.currentAbort.value} else {}
  }

  function AppendAll(b: Burst, messages: seq<Message>): Burst {
    if messages == [] then b
    else Append(AppendAll(b, messages[..|messages| - 1]), messages[|messages| - 1])
  }

  /** The burst its first message installs once the agent's timings are known. */
  function FreshBurst(maxRestarts: nat, first: Message): Burst {
    Burst(maxRestarts, Batch([first.text], first.attachments), true, None, 0, false, [], None)
  }

  function Release(current: Option<RunId>, run: RunId): Option<RunId> {
    if current == Some(run) then None else current
  }

  /** What the end of a run clears. */
  function Reset(b: Burst, run: RunId): Burst {
    b.(currentAbort := Release(b.currentAbort, run), restartCount := 0, toolStarted := false, running := None)
  }

  /**
   A run is done and its fragments with it: re-arm for what accumulated, or drop the burst.
   The links still queued behind a dropped burst find an empty buffer and end at once.
   */
  function Finalize(c: Conversation, b: Burst, run: RunId): Conversation {
    c.(burst := if b.waiting.fragments != [] then Some(Reset(b, run).(timerArmed := true)) else None)
  }

  /** A cancelled run puts its fragments back in front of what arrived meanwhile. */
  function Restore(c: Conversation, b: Burst, run: Run): Conversation {
    c.(burst := Some(b.(waiting := run.batch.Then(b.waiting),
                        currentAbort := Release(b.currentAbort, run.id),
                        running := None)))
  }

  function OnArrive(c: Conversation, message: Message): Conversation {
    if c.starting != [] || c.burst.None? then c.(starting := c.starting + [message])
    else c.(burst := Some(Append(c.burst.value, message)), aborted := c.aborted + AbortedBy(c.burst.value))
  }

  function OnTimings(c: Conversation, maxRestarts: nat): Conversation {
    if c.starting == [] then c
    else c.(burst := Some(AppendAll(FreshBurst(maxRestarts, c.starting[0]), c.starting[1..])), starting := [])
  }

  function OnTimer(c: Conversation): Conversation {
    if c.burst.None? || !c.burst.value.timerArmed then c
    else
      var b := c.burst.value;
      c.(burst := Some(b.(timerArmed := false, currentAbort := Some(c.nextRun), chain := b.chain + [c.nextRun])),
         nextRun := c.nextRun + 1)
  }

  predicate CanStart(c: Conversation) {
    c.burst.Some? && c.burst.value.running.None? && c.burst.value.chain != []
  }

  /** A link taken off the chain: skipped if superseded, else it snapshots and clears the buffer. */
  function StartRun(c: Conversation, b: Burst, run: RunId): Conversation {
    if run in c.aborted then c.(burst := Some(b))
    else if b.waiting.fragments == [] then Finalize(c, b.(waiting := EMPTY_BATCH), run)
    else c.(burst := Some(b.(waiting := EMPTY_BATCH, toolStarted := false, running := Some(Run(run, b.waiting, Handling)))))
  }

  function OnLink(c: Conversation): Conversation {
    if !CanStart(c) then c
    else StartRun(c, c.burst.value.(chain := c.burst.value.chain[1..]), c.burst.value.chain[0])
  }

  function OnGate(c: Conversation, run: RunId): Conversation {
    if run in c.aborted || c.burst.None? || c.burst.value.currentAbort != Some(run) then c
    else c.(burst := Some(c.burst.value.(toolStarted := true)))
  }

  predicate InPhase(c: Conversation, phase: Phase) {
    c.burst.Some? && c.burst.value.running.Some? && c.burst.value.running.value.phase == phase
  }

  function OnReturn(c: Conversation, hasText: bool): Conversation {
    if !InPhase(c, Handling) then c
    else
      var b := c.burst.value;
      var run := b.running.value;
      if run.id in c.aborted then Restore(c, b, run)
      else if hasText then c.(burst := Some(b.(running := Some(run.(phase := Sending)))))
      else Finalize(c, b, run.id)
  }

  function OnThrow(c: Conversation, abortLike: bool): Conversation {
    if !InPhase(c, Handling) then c
    else
      var b := c.burst.value;
      var run := b.running.value;
      if abortLike || run.id in c.aborted then Restore(c, b, run) else Finalize(c, b, run.id)
  }

  function OnSent(c: Conversation): Conversation {
    if !InPhase(c, Sending) then c else Finalize(c, c.burst.value, c.burst.value.running.value.id)
  }

  function Next(c: Conversation, e: Event): Conversation {
    match e
    case Arrive(message) => OnArrive(c, message)
    case TimingsResolved(maxRestarts) => OnTimings(c, maxRestarts)
    case TimerFires => OnTimer(c)
    case LinkStarts => OnLink(c)
    case GateAsked(run) => OnGate(c, run)
    case HandlerReturns(hasText) => OnReturn(c, hasText)
    case HandlerThrows(abortLike) => OnThrow(c, abortLike)
    case SendEnds => OnSent(c)
  }

  // ---------------------------------------------------------------- what an observer records

  /** The run whose handler an event invokes. */
  function Called(c: Conversation, e: Event): Option<Run> {
    if e.LinkStarts? && CanStart(c) && c.burst.value.chain[0] !in c.aborted && c.burst.value.waiting.fragments != []
    then Some(Run(c.burst.value.chain[0], c.burst.value.waiting, Handling))
    else None
  }

  /** The batch of the run an event finalizes. */
  function Finalized(c: Conversation, e: Event): Option<Batch> {
    if InPhase(c, Handling) && c.burst.value.running.value.id !in c.aborted &&
       (e == HandlerReturns(false) || e == HandlerThrows(false))
    then Some(c.burst.value.running.value.batch)
    else if InPhase(c, Sending) && e.SendEnds? then Some(c.burst.value.running.value.batch)
    else if e.LinkStarts? && CanStart(c) && c.burst.value.chain[0] !in c.aborted && c.burst.value.waiting.fragments == []
    then Some(EMPTY_BATCH)
    else None
  }

  /** The handler rejects with what looks like an abort although nobody aborted its signal. */
  predicate Spurious(c: Conversation, e: Event) {
    e == HandlerThrows(true) && InPhase(c, Handling) && c.burst.value.running.value.id !in c.aborted
  }

  predicate Aborts(c: Conversation, e: Event) {
    e.Arrive? && c.starting == [] && c.burst.Some? && Cancels(c.burst.value)
  }

  /**
   What can be seen from outside: the messages received, the batches of finalized runs, the
   runs whose handler was called, those still inside it, those whose tool gate answered true,
   and the counts of aborts, handler calls and spurious aborts since the last finalization.
   */
  datatype History = History(
    received: seq<Message>,
    finalized: seq<Batch>,
    started: set<RunId>,
    active: set<RunId>,
    gated: set<RunId>,
    aborts: nat,
    calls: nat,
    spurious: nat)

  datatype World = World(conv: Conversation, seen: History)

  const START := World(IDLE, History([], [], {}, {}, {}, 0, 0, 0))

  function Observe(w: World, e: Event): History {
    var (c, h) := (w.conv, w.seen);
    var h1 := h.(
      received := if e.Arrive? then h.received + [e.message] else h.received,
      finalized := if Finalized(c, e).Some? then h.finalized + [Finalized(c, e).value] else h.finalized,
      started := if Called(c, e).Some? then h.started + {Called(c, e).value.id} else h.started,
      active := if Called(c, e).Some? then h.active + {Called(c, e).value.id}
                else if (e.HandlerReturns? || e.HandlerThrows?) && InPhase(c, Handling) then h.active - {c.burst.value.running.value.id}
                else h.active,
      gated := if e.GateAsked? && e.run in h.started && e.run !in c.aborted then h.gated + {e.run} else h.gated);
    if Finalized(c, e).Some? then h1.(aborts := 0, calls := 0, spurious := 0)
    else h1.(aborts := h.aborts + (if Aborts(c, e) then 1 else 0),
             calls := h.calls + (if Called(c, e).Some? then 1 else 0),
             spurious := h.spurious + (if Spurious(c, e) then 1 else 0))
  }

  /** A tool gate exists only once its run's handler has been called; asking another is no step. */
  predicate Possible(w: World, e: Event) {
    e.GateAsked? ==> e.run in w.seen.started
  }

  function Step(w: World, e: Event): World {
    if Possible(w, e) then World(Next(w.conv, e), Observe(w, e)) else w
  }

  function Play(w: World, events: seq<Event>): World {
    if events == [] then w else Step(Play(w, events[..|events| - 1]), events[|events| - 1])
  }
}
