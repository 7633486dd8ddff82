/**
 The coordinator itself: the `states` and `starting` maps and the mutable state of each burst.
 Every method is one event of CoordinatorModel on its own conversation, and leaves every
 other conversation as it was.
 */
module MessageCoordinator {
  import opened Options
  import opened CoordinatorModel

  class ConversationState {
    const maxRestarts: nat
    var buffer: seq<string>
    var attachments: seq<Attachment>
    var pipelineTimer: bool
    var currentAbort: Option<RunId>
    var restartCount: nat
    var toolStarted: bool
    var flushChain: seq<RunId>
    var running: Option<Run>

    constructor (maxRestarts: nat, seed: Message)
      ensures View() == FreshBurst(maxRestarts, seed).(timerArmed := false)
    {
      this.maxRestarts := maxRestarts;
      buffer, attachments := [seed.text], seed.attachments;
      pipelineTimer, currentAbort, restartCount, toolStarted := false, None, 0, false;
      flushChain, running := [], None;
    }

    /** A fragment joins the burst; the run it cancels, if any, is for the caller to abort. */
    method Append(msg: Message) returns (cancelled: Option<RunId>)
      modifies this
      ensures View() == CoordinatorModel.Append(old(View()), msg)
      ensures cancelled == if Cancels(old(View())) then old(currentAbort) else None
    {
      buffer := buffer + [msg.text];
      attachments := attachments + msg.attachments;
      cancelled := None;
      if currentAbort.Some? {
        if restartCount < maxRestarts && !toolStarted {
          cancelled := currentAbort;
          currentAbort := None;
          restartCount := restartCount + 1;
          pipelineTimer := true;
        }
      } else {
        pipelineTimer := true;
      }
    }

    /** Snapshot the fragments for a run and clear the buffer. */
    method TakeFragments() returns (batch: Batch)
      modifies this`buffer, this`attachments
      ensures batch == old(View()).waiting
      ensures View() == old(View()).(waiting := EMPTY_BATCH)
    {
      batch := Batch(buffer, attachments);
      buffer, attachments := [], [];
    }

    function View(): Burst
      reads this
    {
      Burst(maxRestarts, Batch(buffer, attachments), pipelineTimer, currentAbort, restartCount, toolStarted, flushChain, running)
    }
  }

  class Coordinator {
    var states: map<string, ConversationState>
    /** The messages of a burst whose timings are being read: its owner first, then those waiting. */
    var starting: map<string, seq<Message>>
    /** Abort signals that fired and controllers created, numbered per conversation. */
    var aborted: map<string, set<RunId>>
    var controllers: map<string, nat>

    ghost predicate Valid()
      reads this
    {
      && (forall k, l :: k in states && l in states && k != l ==> states[k] != states[l])
      && (forall k :: k in starting ==> starting[k] != [])
    }

    ghost function View(key: string): Conversation
      reads this, states.Values
    {
      Conversation(
        if key in states then Some(states[key].View()) else None,
        if key in starting then starting[key] else [],
        if key in aborted then aborted[key] else {},
        if key in controllers then controllers[key] else 0)
    }

    constructor ()
      ensures Valid() && forall key :: View(key) == IDLE
    {
      states, starting, aborted, controllers := map[], map[], map[], map[];
    }

    predicate IsAborted(key: string, run: RunId)
      reads this
    {
      key in aborted && run in aborted[key]
    }

    method OnMessage(key: string, msg: Message)
      requires Valid()
      modifies this, if key in states then {states[key]} else {}
      ensures Valid()
      ensures View(key) == Next(old(View(key)), Arrive(msg))
      ensures forall k :: k != key ==> View(k) == old(View(k))
    {
      if key in starting {
        starting := starting[key := starting[key] + [msg]];
      } else if key !in states {
        starting := starting[key := [msg]];
      } else {
        AppendFragment(key, msg);
      }
    }

    method AppendFragment(key: string, msg: Message)
      requires Valid() && key in states
      modifies this`aborted, states[key]
      ensures Valid()
      ensures states[key].View() == CoordinatorModel.Append(old(states[key].View()), msg)
      ensures View(key).aborted == old(View(key).aborted) + AbortedBy(old(states[key].View()))
      ensures forall k :: k != key ==> View(k) == old(View(k))
    {
      var cancelled := states[key].Append(msg);
      if cancelled.Some? {
        var signals := if key in aborted then aborted[key] else {};
        aborted := aborted[key := signals + {cancelled.value}];
      }
    }

    /** The timings read of a starting burst ends: install it, then the waiting messages go on, in order. */
    method TimingsResolved(key: string, maxRestarts: nat)
      requires Valid()
      modifies this
      ensures Valid()
      ensures View(key) == Next(old(View(key)), Event.TimingsResolved(maxRestarts))
      ensures forall k :: k != key ==> View(k) == old(View(k))
    {
      if key in starting {
        var waiting := starting[key];
        InstallState(key, maxRestarts);
        var i := 1;
        assert waiting[1..1] == [];
        while i < |waiting|
          invariant 1 <= i <= |waiting|
          invariant Valid() && key in states && fresh(states[key]) && starting == old(starting) - {key}
          invariant View(key) == old(View(key)).(
                      burst := Some(AppendAll(FreshBurst(maxRestarts, waiting[0]), waiting[1..i])), starting := [])
          invariant states[key].currentAbort.None?
          invariant forall k :: k != key ==> View(k) == old(View(k))
        {
          AppendFragment(key, waiting[i]);
          assert waiting[1..i + 1][..|waiting[1..i + 1]| - 1] == waiting[1..i];
          i := i + 1;
        }
        assert waiting[1..] == waiting[1..|waiting|];
      }
    }

    method InstallState(key: string, maxRestarts: nat)
      requires Valid() && key in starting
      modifies this
      ensures Valid() && key in states && fresh(states[key]) && starting == old(starting) - {key}
      ensures View(key) == old(View(key)).(burst := Some(FreshBurst(maxRestarts, old(starting)[key][0])), starting := [])
      ensures forall k :: k != key ==> View(k) == old(View(k))
    {
      var state := new ConversationState(maxRestarts, starting[key][0]);
      states := states[key := state];
      state.pipelineTimer := true;
      starting := starting - {key};
    }

    method OnPipelineTimer(key: string)
      requires Valid()
      modifies this`controllers, if key in states then {states[key]} else {}
      ensures Valid()
      ensures View(key) == Next(old(View(key)), TimerFires)
      ensures forall k :: k != key ==> View(k) == old(View(k))
    {
      if key in states && states[key].pipelineTimer {
        var state := states[key];
        var run := if key in controllers then controllers[key] else 0;
        controllers := controllers[key := run + 1];
        state.pipelineTimer := false;
        state.currentAbort := Some(run);
        state.flushChain := state.flushChain + [run];
      }
    }

    method LinkStarts(key: string)
      requires Valid()
      modifies this`states, if key in states then {states[key]} else {}
      ensures Valid()
      ensures View(key) == Next(old(View(key)), Event.LinkStarts)
      ensures forall k :: k != key ==> View(k) == old(View(k))
    {
      if key in states && states[key].running.None? && states[key].flushChain != [] {
        var state := states[key];
        var run := state.flushChain[0];
        state.flushChain := state.flushChain[1..];
        StartRun(key, run);
      }
    }

    method StartRun(key: string, run: RunId)
      requires Valid() && key in states
      modifies this`states, states[key]
      ensures Valid()
      ensures View(key) == CoordinatorModel.StartRun(old(View(key)), old(states[key].View()), run)
      ensures forall k :: k != key ==> View(k) == old(View(k))
    {
      if IsAborted(key, run) {
        return;
      }
      var state := states[key];
      var batch := state.TakeFragments();
      if batch.fragments == [] {
        FinalizePipeline(key, run);
        return;
      }
      state.toolStarted := false;
      state.running := Some(Run(run, batch, Handling));
    }

    method ToolGate(key: string, run: RunId) returns (allowed: bool)
      requires Valid()
      modifies if key in states then {states[key]} else {}
      ensures Valid()
      ensures allowed <==> run !in View(key).aborted
      ensures View(key) == Next(old(View(key)), GateAsked(run))
      ensures forall k :: k != key ==> View(k) == old(View(k))
    {
      if IsAborted(key, run) {
        return false;
      }
      if key in states && states[key].currentAbort == Some(run) {
        states[key].toolStarted := true;
      }
      return true;
    }

    method HandlerReturned(key: string, hasText: bool)
      requires Valid()
      modifies this`states, if key in states then {states[key]} else {}
      ensures Valid()
      ensures View(key) == Next(old(View(key)), HandlerReturns(hasText))
      ensures forall k :: k != key ==> View(k) == old(View(k))
    {
      if key in states && states[key].running.Some? && states[key].running.value.phase == Handling {
        var state := states[key];
        var run := state.running.value;
        if IsAborted(key, run.id) {
          RestoreOnAbort(state, run);
        } else if hasText {
          state.running := Some(run.(phase := Sending));
        } else {
          FinalizePipeline(key, run.id);
        }
      }
    }

    method HandlerThrew(key: string, abortLike: bool)
      requires Valid()
      modifies this`states, if key in states then {states[key]} else {}
      ensures Valid()
      ensures View(key) == Next(old(View(key)), HandlerThrows(abortLike))
      ensures forall k :: k != key ==> View(k) == old(View(k))
    {
      if key in states && states[key].running.Some? && states[key].running.value.phase == Handling {
        var run := states[key].running.value;
        if abortLike || IsAborted(key, run.id) {
          RestoreOnAbort(states[key], run);
        } else {
          FinalizePipeline(key, run.id);
        }
      }
    }

    method SendEnded(key: string)
      requires Valid()
      modifies this`states, if key in states then {states[key]} else {}
      ensures Valid()
      ensures View(key) == Next(old(View(key)), SendEnds)
      ensures forall k :: k != key ==> View(k) == old(View(k))
    {
      if key in states && states[key].running.Some? && states[key].running.value.phase == Sending {
        FinalizePipeline(key, states[key].running.value.id);
      }
    }

    method RestoreOnAbort(state: ConversationState, run: Run)
      modifies state
      ensures state.View() == Restore(Conversation(None, [], {}, 0), old(state.View()), run).burst.value
    {
      state.buffer := run.batch.fragments + state.buffer;
      state.attachments := run.batch.attachments + state.attachments;
      if state.currentAbort == Some(run.id) {
        state.currentAbort := None;
      }
      state.running := None;
    }

    method FinalizePipeline(key: string, run: RunId)
      requires Valid() && key in states
      modifies this`states, states[key]
      ensures Valid()
      ensures View(key) == Finalize(old(View(key)), old(states[key].View()), run)
      ensures forall k :: k != key ==> View(k) == old(View(k))
    {
      var state := states[key];
      ResetBurst(state, run);
      if state.buffer != [] {
        state.pipelineTimer := true;
      } else {
        DropBurst(key);
      }
    }

    method ResetBurst(state: ConversationState, run: RunId)
      modifies state
      ensures state.View() == Reset(old(state.View()), run)
    {
      if state.currentAbort == Some(run) {
        state.currentAbort := None;
      }
      state.restartCount := 0;
      state.toolStarted := false;
      state.running := None;
    }

    method DropBurst(key: string)
      requires Valid() && key in states && states[key].buffer == []
      modifies this`states, states[key]
      ensures Valid()
      ensures View(key) == old(View(key)).(burst := None)
      ensures forall k :: k != key ==> View(k) == old(View(k))
    {
      var state := states[key];
      state.pipelineTimer := false;
      states := states - {key};
      DrainChain(key, state);
    }

    /** The links queued behind a dropped burst: an aborted one returns, a live one finds nothing and drops it again. */
    method DrainChain(key: string, state: ConversationState)
      requires Valid() && key !in states && state !in states.Values && state.buffer == []
      modifies this`states, state
      ensures Valid()
      ensures states == old(states)
      ensures state.flushChain == []
    {
      while state.flushChain != []
        invariant states == old(states)
        invariant state.buffer == []
        decreases |state.flushChain|
      {
        var run := state.flushChain[0];
        state.flushChain := state.flushChain[1..];
        if !IsAborted(key, run) {
          state.attachments := [];
          if state.currentAbort == Some(run) {
            state.currentAbort := None;
          }
          state.restartCount, state.toolStarted, state.pipelineTimer := 0, false, false;
          states := states - {key};
        }
      }
    }
  }
}
