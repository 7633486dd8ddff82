/**
 What a finished turn may commit: `runPipelinePost` against an abort that can land at any of
 its steps.

 The steps are numbered in the order the code reaches them; the abort signal is sticky, so a
 gate sees it when it landed at that step or an earlier one.
 */
module PipelinePost {
  import opened Options
  import opened StateBuffer

  /** Where an abort lands: before a gate is read, or while what precedes it is awaited. */
  const ENTRY_GATE := 0
  const AFTER_HOOKS_GATE := 1
  const AFTER_FLUSH_GATE := 2

  datatype Trace = Trace(finalText: string)
  datatype Exchange = Exchange(userText: string, reply: string)

  /** One turn as its caller hands it over. */
  datatype Turn = Turn(
    userText: string,
    resultText: string,
    persist: bool,
    autoTask: bool,
    hasHooks: bool,                      // a hook payload could be built
    preRun: bool,                        // response_generated already ran, in the replay loop
    generatedWrites: seq<Op>,            // what live response_generated hooks write
    replacement: Option<string>,         // the reply one of them asked for instead
    sentWrites: seq<Op>,                 // what live response_sent hooks write
    clearsContextPrompt: bool,
    firstFlushFails: bool,
    secondFlushFails: bool)

  /** What a turn leaves behind besides the conversation state. */
  class Records {
    var traces: seq<Trace>
    var messages: seq<Exchange>
    var contextPromptCleared: bool

    constructor ()
      ensures traces == [] && messages == [] && !contextPromptCleared
    {
      traces, messages, contextPromptCleared := [], [], false;
    }
  }

  predicate Seen(abort: Option<nat>, gate: nat) {
    abort.Some? && abort.value <= gate
  }

  method RunHookWrites(state: ConversationStateBuffer, writes: seq<Op>)
    modifies state
    ensures state.View() == ApplyAll(state.size, old(state.View()), writes)
  {
    for i := 0 to |writes|
      invariant state.View() == ApplyAll(state.size, old(state.View()), writes[..i])
    {
      assert writes[..i + 1][..|writes[..i + 1]| - 1] == writes[..i];
      match writes[i]
      case Set(key, value) => var _ := state.Set(key, value);
      case Delete(key) => state.Delete(key);
      case SeedChannel(channel) => state.SeedChannel(channel);
    }
    assert writes[..|writes|] == writes;
  }

  /** The buffer is in step with the row it was loaded from, or last flushed to. */
  ghost predicate InStep(state: ConversationStateBuffer, store: StateStore)
    reads state, store
  {
    Tracks(state.View(), Loaded(store.Row(state.conversationId)))
  }

  lemma {:induction false} ApplyAllTracks(size: Blob -> nat, b: Buffer, stored: Blob, ops: seq<Op>)
    requires Tracks(b, stored)
    ensures Tracks(ApplyAll(size, b, ops), stored)
    ensures ApplyAll(size, b, ops).data == WriteAll(size, b.data, ops)
  {
    if ops != [] {
      ApplyAllTracks(size, b, stored, ops[..|ops| - 1]);
      ApplyTracks(size, ApplyAll(size, b, ops[..|ops| - 1]), stored, ops[|ops| - 1]);
    }
  }

  /** A round of hooks, if it runs at all: its live writes go to the run's own state. */
  method HookPhase(runs: bool, writes: seq<Op>, state: ConversationStateBuffer, store: StateStore)
    requires InStep(state, store)
    modifies state
    ensures InStep(state, store)
    ensures state.data == if runs then WriteAll(state.size, old(state.data), writes) else old(state.data)
  {
    if runs {
      ApplyAllTracks(state.size, state.View(), Loaded(store.Row(state.conversationId)), writes);
      RunHookWrites(state, writes);
    }
  }

  /** Flush, with a failed upsert logged and swallowed: the marks stay for the next flush. */
  method TryFlush(state: ConversationStateBuffer, store: StateStore, fails: bool)
    requires InStep(state, store)
    modifies state, store
    ensures InStep(state, store)
    ensures state.data == old(state.data)
    ensures Loaded(store.Row(state.conversationId))
         == if fails then old(Loaded(store.Row(state.conversationId))) else state.data
    ensures forall id :: id != state.conversationId ==> store.Row(id) == old(store.Row(id))
  {
    if !fails {
      ghost var b, row := state.View(), store.Row(state.conversationId);
      FlushStores(b, row);
      state.Flush(store);
    }
  }

  /** What the live response_generated hooks of this call write; a replay loop that ran them before has them in its state. */
  function GeneratedWrites(t: Turn): seq<Op> {
    if t.hasHooks && !t.preRun then t.generatedWrites else []
  }

  function SentWrites(t: Turn): seq<Op> {
    if t.hasHooks then t.sentWrites else []
  }

  /** The stored state after a persisting turn that passed the second gate: as of the last flush that succeeded. */
  function Stored(t: Turn, abort: Option<nat>, size: Blob -> nat, run: Blob, stored: Blob): Blob {
    StoredFrom(t, abort, size, if t.hasHooks && !t.preRun then WriteAll(size, run, t.generatedWrites) else run, stored)
  }

  function StoredFrom(t: Turn, abort: Option<nat>, size: Blob -> nat, generated: Blob, stored: Blob): Blob {
    if t.hasHooks && !Seen(abort, AFTER_FLUSH_GATE) && !t.secondFlushFails then WriteAll(size, generated, t.sentWrites)
    else if !t.firstFlushFails then generated
    else stored
  }

  lemma {:induction false} WriteAllAppend(size: Blob -> nat, blob: Blob, a: seq<Op>, b: seq<Op>)
    ensures WriteAll(size, blob, a + b) == WriteAll(size, WriteAll(size, blob, a), b)
  {
    if b == [] {
      assert a + b == a;
    } else {
      WriteAllAppend(size, blob, a, b[..|b| - 1]);
      assert (a + b)[..|a + b| - 1] == a + b[..|b| - 1];
    }
  }

  /** The state is what all live writes of the turn, in order, make of the run's own state, up to the last flush that worked. */
  lemma {:induction false} StoredIsLiveWrites(t: Turn, abort: Option<nat>, size: Blob -> nat, run: Blob, stored: Blob)
    ensures Stored(t, abort, size, run, stored) ==
              if t.hasHooks && (abort.Some? ==> abort.value > 2) && !t.secondFlushFails
              then WriteAll(size, run, GeneratedWrites(t) + SentWrites(t))
              else if !t.firstFlushFails then WriteAll(size, run, GeneratedWrites(t))
              else stored
  {
    WriteAllAppend(size, run, GeneratedWrites(t), SentWrites(t));
    assert WriteAll(size, run, []) == run;
  }

  /** Between the second and the third gate: the trace, then the first flush. */
  method Commit(t: Turn, finalText: string, state: ConversationStateBuffer, store: StateStore, records: Records)
    requires InStep(state, store)
    modifies state, store, records
    ensures InStep(state, store) && state.data == old(state.data)
    ensures !t.persist ==> unchanged(records) && unchanged(store)
    ensures records.traces == old(records.traces) + if t.persist && !t.autoTask then [Trace(finalText)] else []
    ensures records.messages == old(records.messages) && records.contextPromptCleared == old(records.contextPromptCleared)
    ensures Loaded(store.Row(state.conversationId))
         == if t.persist && !t.firstFlushFails then state.data else old(Loaded(store.Row(state.conversationId)))
    ensures forall id :: id != state.conversationId ==> store.Row(id) == old(store.Row(id))
  {
    hide Tracks;
    if t.persist && !t.autoTask {
      records.traces := records.traces + [Trace(finalText)];
    }
    if t.persist {
      TryFlush(state, store, t.firstFlushFails);
    }
  }

  /** After the third gate: the messages, then the response_sent hooks and the second flush. */
  method Deliver(t: Turn, finalText: string, state: ConversationStateBuffer, store: StateStore, records: Records)
    requires InStep(state, store)
    modifies state, store, records
    ensures InStep(state, store)
    ensures !t.persist ==> unchanged(records) && unchanged(store)
    ensures records.traces == old(records.traces)
    ensures records.messages == old(records.messages) + if t.persist then [Exchange(t.userText, finalText)] else []
    ensures records.contextPromptCleared == (old(records.contextPromptCleared) || (t.persist && t.clearsContextPrompt))
    ensures state.data == if t.hasHooks then WriteAll(state.size, old(state.data), t.sentWrites) else old(state.data)
    ensures Loaded(store.Row(state.conversationId))
         == if t.persist && t.hasHooks && !t.secondFlushFails then state.data
            else old(Loaded(store.Row(state.conversationId)))
    ensures forall id :: id != state.conversationId ==> store.Row(id) == old(store.Row(id))
  {
    hide WriteAll, Tracks;
    if t.persist {
      records.messages := records.messages + [Exchange(t.userText, finalText)];
      if t.clearsContextPrompt {
        records.contextPromptCleared := true;
      }
    }
    HookPhase(t.hasHooks, t.sentWrites, state, store);
    if t.hasHooks && t.persist {
      TryFlush(state, store, t.secondFlushFails);
    }
  }

  /** From the second gate on, with the run's own state as the first round of hooks left it. */
  method AfterHooks(t: Turn, finalText: string, abort: Option<nat>, state: ConversationStateBuffer, store: StateStore, records: Records)
    requires InStep(state, store)
    modifies state, store, records
    ensures abort.Some? && abort.value <= 1 ==> unchanged(records) && unchanged(store)
    ensures !t.persist ==> unchanged(records) && unchanged(store)
    ensures records.traces == old(records.traces) +
              (if t.persist && !t.autoTask && (abort.Some? ==> abort.value > 1) then [Trace(finalText)] else [])
    ensures records.messages == old(records.messages) +
              (if t.persist && (abort.Some? ==> abort.value > 2) then [Exchange(t.userText, finalText)] else [])
    ensures records.contextPromptCleared ==
              (old(records.contextPromptCleared) || (t.persist && t.clearsContextPrompt && (abort.Some? ==> abort.value > 2)))
    ensures t.persist && (abort.Some? ==> abort.value > 1) ==>
              var before := old(Loaded(store.Row(state.conversationId)));
              Loaded(store.Row(state.conversationId)) == StoredFrom(t, abort, state.size, old(state.data), before)
    ensures forall id :: id != state.conversationId ==> store.Row(id) == old(store.Row(id))
  {
    hide WriteAll, Tracks;
    if Seen(abort, AFTER_HOOKS_GATE) {
      return;
    }
    Commit(t, finalText, state, store, records);
    if Seen(abort, AFTER_FLUSH_GATE) {
      return;
    }
    Deliver(t, finalText, state, store, records);
  }

  /**
   The post-run of a turn whose state buffer was loaded from `store`; `abort` says where the
   coordinator's abort lands, if it does.
   */
  method RunPipelinePost(t: Turn, abort: Option<nat>, state: ConversationStateBuffer, store: StateStore, records: Records)
    returns (finalText: string)
    requires InStep(state, store)
    modifies state, store, records
    // an abort seen by one of the first two gates leaves nothing written
    ensures abort.Some? && abort.value <= 1 ==> unchanged(records) && store.rows == old(store.rows)
    // a turn that does not persist writes nothing wherever the abort lands
    ensures !t.persist ==> unchanged(records) && store.rows == old(store.rows)
    // the trace is written exactly when the second gate is passed by a persisting turn that is no auto task
    ensures records.traces == old(records.traces) +
              (if t.persist && !t.autoTask && (abort.Some? ==> abort.value > 1) then [Trace(finalText)] else [])
    // the messages exactly when the third is, and they carry the delivered text
    ensures records.messages == old(records.messages) +
              (if t.persist && (abort.Some? ==> abort.value > 2) then [Exchange(t.userText, finalText)] else [])
    ensures records.contextPromptCleared ==
              (old(records.contextPromptCleared) || (t.persist && t.clearsContextPrompt && (abort.Some? ==> abort.value > 2)))
    // the stored state is the one of the last flush that succeeded
    ensures t.persist && (abort.Some? ==> abort.value > 1) ==>
              var before := old(Loaded(store.Row(state.conversationId)));
              Loaded(store.Row(state.conversationId)) == Stored(t, abort, state.size, old(state.data), before)
    ensures forall id :: id != state.conversationId ==> store.Row(id) == old(store.Row(id))
    // a live round's replacement is delivered; one folded in by the replay loop is in the result already
    ensures finalText == if t.hasHooks && !t.preRun && t.replacement.Some? && (abort.Some? ==> abort.value > 0)
                         then t.replacement.value else t.resultText
  {
    finalText := t.resultText;
    if Seen(abort, ENTRY_GATE) {
      return;
    }
    hide WriteAll, Tracks, StoredFrom;
    HookPhase(t.hasHooks && !t.preRun, t.generatedWrites, state, store);
    if t.hasHooks && !t.preRun && t.replacement.Some? {
      finalText := t.replacement.value;
    }
    AfterHooks(t, finalText, abort, state, store, records);
  }

  /** The writes of a turn that reach the row: none without hooks, all of both rounds in order with them. */
  lemma {:induction false} WritesOfTurn(t: Turn)
    ensures !t.hasHooks ==> GeneratedWrites(t) + SentWrites(t) == []
    ensures t.hasHooks && !t.preRun ==> GeneratedWrites(t) == t.generatedWrites && SentWrites(t) == t.sentWrites
    ensures t.preRun ==> GeneratedWrites(t) == [] && (t.hasHooks ==> SentWrites(t) == t.sentWrites)
  {
  }
}
