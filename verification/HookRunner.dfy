/**
 One round of lifecycle hooks: the hooks run one after another, each under a deadline and the
 pipeline's abort signal, while handlers that were given up on may still be running.

 An event is one uninterrupted piece of the runner or of a handler; `Next` is total.
 */
module HookRunner {
  import opened Options
  import opened StateBuffer

  /** An enabled hook; `known` when an executor is registered for its action type. */
  datatype Hook = Hook(id: string, known: bool)

  datatype Summary = Summary(hook: nat, success: bool, halt: bool)

  datatype Round = Round(
    hooks: seq<Hook>,
    at: nat,                 // the hook being awaited, or past the end
    finished: bool,
    expired: set<nat>,       // hooks whose deadline passed
    aborted: bool,           // the pipeline's own signal
    halts: set<nat>,         // hooks that captured a halt
    summaries: seq<Summary>,
    buffer: Buffer)

  datatype Event =
    | StateWrite(hook: nat, op: Op)
    | CaptureHalt(hook: nat)
    | HookSettles(success: bool)
    | DeadlinePasses
    | PipelineAborts

  /** The runner goes on to the first known hook from `i`, unless the pipeline was aborted. */
  function Resume(r: Round, i: nat): (r': Round)
    requires i <= |r.hooks|
    ensures r' == r.(at := r'.at, finished := r'.finished)
    decreases |r.hooks| - i
  {
    if r.aborted || i == |r.hooks| then r.(at := i, finished := true)
    else if r.hooks[i].known then r.(at := i, finished := false)
    else Resume(r, i + 1)
  }

  function Begin(hooks: seq<Hook>, buffer: Buffer, aborted: bool): Round {
    Resume(Round(hooks, 0, false, {}, aborted, {}, [], buffer), 0)
  }

  /** The signal a hook was handed has fired. */
  predicate Signalled(r: Round, hook: nat) {
    r.aborted || hook in r.expired
  }

  predicate Awaited(r: Round, hook: nat) {
    !r.finished && r.at == hook && r.at < |r.hooks|
  }

  /** The awaited hook is recorded; a halt it captured ends the round. */
  function Record(r: Round, success: bool): Round
    requires Awaited(r, r.at)
  {
    var r1 := r.(summaries := r.summaries + [Summary(r.at, success, r.at in r.halts)]);
    if r.at in r.halts then r1.(finished := true) else Resume(r1, r.at + 1)
  }

  function Next(size: Blob -> nat, r: Round, e: Event): Round {
    match e
    case StateWrite(hook, op) => if Signalled(r, hook) then r else r.(buffer := Apply(size, r.buffer, op))
    case CaptureHalt(hook) => if Signalled(r, hook) then r else r.(halts := r.halts + {hook})
    case HookSettles(success) => if Awaited(r, r.at) then Record(r, success) else r
    case DeadlinePasses => if Awaited(r, r.at) then Record(r.(expired := r.expired + {r.at}), false) else r
    case PipelineAborts => r.(aborted := true)
  }

  function Play(size: Blob -> nat, r: Round, events: seq<Event>): Round {
    if events == [] then r else Next(size, Play(size, r, events[..|events| - 1]), events[|events| - 1])
  }

  // ---------------------------------------------------------------- the runner

  class HookRun {
    const hooks: seq<Hook>
    const size: Blob -> nat
    var at: nat
    var finished: bool
    var expired: set<nat>
    var aborted: bool
    var halts: set<nat>
    var summaries: seq<Summary>
    const state: ConversationStateBuffer

    ghost function View(): Round
      reads this, state
    {
      Round(hooks, at, finished, expired, aborted, halts, summaries, state.View())
    }

    constructor (hooks: seq<Hook>, state: ConversationStateBuffer, aborted: bool)
      ensures this.hooks == hooks && this.state == state && this.size == state.size
      ensures View() == Begin(hooks, state.View(), aborted)
    {
      this.hooks, this.state, this.size := hooks, state, state.size;
      this.aborted, expired, halts, summaries, at, finished := aborted, {}, {}, [], 0, false;
      new;
      StartFrom(0);
    }

    method StartFrom(first: nat)
      requires first <= |hooks|
      modifies this`at, this`finished
      ensures View() == Resume(old(View()), first)
    {
      var i := first;
      while i < |hooks| && !aborted && !hooks[i].known
        invariant first <= i <= |hooks|
        invariant Resume(View(), first) == Resume(View(), i)
      {
        i := i + 1;
      }
      at := i;
      finished := aborted || i == |hooks|;
    }

    method PushSummary(success: bool)
      requires Awaited(View(), at)
      modifies this`at, this`finished, this`summaries
      ensures View() == Record(old(View()), success)
    {
      summaries := summaries + [Summary(at, success, at in halts)];
      if at in halts {
        finished := true;
      } else {
        StartFrom(at + 1);
      }
    }

    /** The fenced view of the conversation state a hook writes through. */
    method FencedWrite(hook: nat, op: Op)
      modifies state
      requires size == state.size
      ensures View() == Next(size, old(View()), StateWrite(hook, op))
    {
      if aborted || hook in expired {
        return;
      }
      match op
      case Set(key, value) => var _ := state.Set(key, value);
      case Delete(key) => state.Delete(key);
      case SeedChannel(channel) => state.SeedChannel(channel);
    }

    /** What a handler returned counts only while its hook's signal is live. */
    method Capture(hook: nat)
      modifies this`halts
      ensures View() == Next(size, old(View()), CaptureHalt(hook))
    {
      if aborted || hook in expired {
        return;
      }
      halts := halts + {hook};
    }

    method Settled(success: bool)
      modifies this`at, this`finished, this`summaries
      ensures View() == Next(size, old(View()), HookSettles(success))
    {
      if !finished && at < |hooks| {
        PushSummary(success);
      }
    }

    method Expired()
      modifies this`at, this`finished, this`summaries, this`expired
      ensures View() == Next(size, old(View()), DeadlinePasses)
    {
      if !finished && at < |hooks| {
        expired := expired + {at};
        PushSummary(false);
      }
    }

    method Aborted()
      modifies this`aborted
      ensures View() == Next(size, old(View()), PipelineAborts)
    {
      aborted := true;
    }
  }

  // ---------------------------------------------------------------- abandoned hooks

  /** Something done by a hook whose signal fired, or a capture by one the runner is done with. */
  predicate Late(r: Round, e: Event) {
    || ((e.StateWrite? || e.CaptureHalt?) && Signalled(r, e.hook))
    || (e.CaptureHalt? && !(r.at <= e.hook && !r.finished))
  }

  /** The events of a round without the late ones. */
  function Timely(size: Blob -> nat, r: Round, events: seq<Event>): seq<Event> {
    if events == [] then []
    else
      var front, e := events[..|events| - 1], events[|events| - 1];
      Timely(size, r, front) + if Late(Play(size, r, front), e) then [] else [e]
  }

  function LiveWrites(size: Blob -> nat, r: Round, events: seq<Event>): seq<Op> {
    if events == [] then []
    else
      var front, e := events[..|events| - 1], events[|events| - 1];
      LiveWrites(size, r, front) + if e.StateWrite? && !Signalled(Play(size, r, front), e.hook) then [e.op] else []
  }

  /** Two rounds that differ only in what hooks already done with captured. */
  ghost predicate Alike(a: Round, b: Round) {
    && a == b.(halts := a.halts)
    && (!a.finished ==> forall i :: a.at <= i ==> (i in a.halts <==> i in b.halts))
  }

  lemma {:induction false} ResumeAlike(a: Round, b: Round, i: nat)
    requires i <= |a.hooks| && Alike(a, b) && !a.finished && a.at <= i
    ensures Alike(Resume(a, i), Resume(b, i))
    decreases |a.hooks| - i
  {
    if !a.aborted && i < |a.hooks| && !a.hooks[i].known {
      ResumeAlike(a, b, i + 1);
    }
  }

  lemma {:induction false} ResumeFrom(r: Round, i: nat)
    requires i <= |r.hooks|
    ensures i <= Resume(r, i).at <= |r.hooks|
    decreases |r.hooks| - i
  {
    if !r.aborted && i < |r.hooks| && !r.hooks[i].known {
      ResumeFrom(r, i + 1);
    }
  }

  lemma {:induction false} RecordAlike(a: Round, b: Round, success: bool)
    requires Alike(a, b) && Awaited(a, a.at)
    ensures Alike(Record(a, success), Record(b, success))
  {
    var (a1, b1) := (a.(summaries := a.summaries + [Summary(a.at, success, a.at in a.halts)]),
                     b.(summaries := b.summaries + [Summary(b.at, success, b.at in b.halts)]));
    assert a.at in a.halts <==> b.at in b.halts;
    if a.at !in a.halts {
      ResumeAlike(a1, b1, a.at + 1);
    }
  }

  lemma {:induction false} NextAlike(size: Blob -> nat, a: Round, b: Round, e: Event)
    requires Alike(a, b)
    ensures Late(a, e) ==> Alike(Next(size, a, e), b)
    ensures !Late(a, e) ==> Alike(Next(size, a, e), Next(size, b, e))
  {
    match e
    case HookSettles(success) =>
      if Awaited(a, a.at) {
        RecordAlike(a, b, success);
      }
    case DeadlinePasses =>
      if Awaited(a, a.at) {
        RecordAlike(a.(expired := a.expired + {a.at}), b.(expired := b.expired + {b.at}), false);
      }
    case _ =>
  }

  /**
   A hook abandoned by its deadline or by the pipeline's abort has no later effect: the round
   ends as if the events it caused afterwards had not happened.
   */
  lemma {:induction false} AbandonedHooksAreInert(size: Blob -> nat, r: Round, events: seq<Event>)
    ensures Alike(Play(size, r, events), Play(size, r, Timely(size, r, events)))
  {
    if events != [] {
      var front, e := events[..|events| - 1], events[|events| - 1];
      AbandonedHooksAreInert(size, r, front);
      var kept := Timely(size, r, front);
      NextAlike(size, Play(size, r, front), Play(size, r, kept), e);
      assert kept + [] == kept;
      assert (kept + [e])[..|kept + [e]| - 1] == kept;
    }
  }

  lemma {:induction false} ApplyPush(size: Blob -> nat, b: Buffer, ops: seq<Op>, op: Op)
    ensures ApplyAll(size, b, ops + [op]) == Apply(size, ApplyAll(size, b, ops), op)
  {
    assert (ops + [op])[..|ops + [op]| - 1] == ops;
  }

  /** The state holds exactly the writes made while their hook's signal was live. */
  lemma {:induction false} StateIsLiveWrites(size: Blob -> nat, r: Round, events: seq<Event>)
    ensures Play(size, r, events).buffer == ApplyAll(size, r.buffer, LiveWrites(size, r, events))
  {
    if events != [] {
      var front, e := events[..|events| - 1], events[|events| - 1];
      StateIsLiveWrites(size, r, front);
      var writes := LiveWrites(size, r, front);
      assert writes + [] == writes;
      if e.StateWrite? {
        ApplyPush(size, r.buffer, writes, e.op);
      }
    }
  }

  /** Once the pipeline is aborted no handler changes the state or asks for a halt, and no further hook is started. */
  lemma {:induction false} NothingAfterAbort(size: Blob -> nat, r: Round, events: seq<Event>)
    requires r.aborted
    ensures var r' := Play(size, r, events);
            && r'.aborted && r'.buffer == r.buffer && r'.halts == r.halts
            && |r'.summaries| <= |r.summaries| + (if r.finished then 0 else 1)
            && (r.finished || |r'.summaries| > |r.summaries| ==> r'.finished)
  {
    if events != [] {
      NothingAfterAbort(size, r, events[..|events| - 1]);
    }
  }

  function WithoutActsOf(events: seq<Event>, hook: nat): seq<Event> {
    if events == [] then []
    else
      var e := events[|events| - 1];
      WithoutActsOf(events[..|events| - 1], hook) + if (e.StateWrite? || e.CaptureHalt?) && e.hook == hook then [] else [e]
  }

  /** A hook whose deadline passed might as well have stopped: the round goes on exactly as if it had. */
  lemma {:induction false} ExpiredHookDoesNothing(size: Blob -> nat, r: Round, events: seq<Event>)
    requires Awaited(r, r.at)
    ensures var after := Next(size, r, DeadlinePasses);
            && r.at in after.expired
            && Play(size, after, events) == Play(size, after, WithoutActsOf(events, r.at))
  {
    ResumeFrom(r, r.at + 1);
    ExpiredStaysSilent(size, Next(size, r, DeadlinePasses), r.at, events);
  }

  lemma {:induction false} ExpiredStep(size: Blob -> nat, r: Round, hook: nat, e: Event)
    requires hook in r.expired
    ensures hook in Next(size, r, e).expired
    ensures (e.StateWrite? || e.CaptureHalt?) && e.hook == hook ==> Next(size, r, e) == r
  {
    hide Apply;
  }

  lemma {:induction false} ExpiredStaysSilent(size: Blob -> nat, r: Round, hook: nat, events: seq<Event>)
    requires hook in r.expired
    ensures hook in Play(size, r, events).expired
    ensures Play(size, r, events) == Play(size, r, WithoutActsOf(events, hook))
  {
    if events != [] {
      var front, e := events[..|events| - 1], events[|events| - 1];
      ExpiredStaysSilent(size, r, hook, front);
      ExpiredStep(size, Play(size, r, front), hook, e);
      hide Next;
      var kept := WithoutActsOf(front, hook);
      assert kept + [] == kept;
      assert (kept + [e])[..|kept + [e]| - 1] == kept;
    }
  }

  // ---------------------------------------------------------------- summaries

  /** The positions of the hooks an executor exists for, in order, below `n`. */
  function KnownBelow(hooks: seq<Hook>, n: nat): seq<nat>
    requires n <= |hooks|
  {
    if n == 0 then [] else KnownBelow(hooks, n - 1) + if hooks[n - 1].known then [n - 1] else []
  }

  function Ran(summaries: seq<Summary>): seq<nat> {
    seq(|summaries|, i requires 0 <= i < |summaries| => summaries[i].hook)
  }

  /** What has been recorded is a prefix of the known hooks, in order, and no recorded hook but the last halted. */
  ghost predicate InOrder(r: Round) {
    && r.at <= |r.hooks|
    && (forall i :: 0 <= i < |r.summaries| - 1 ==> !r.summaries[i].halt)
    && (if r.summaries != [] && r.summaries[|r.summaries| - 1].halt
        then r.finished && r.at < |r.hooks| && Ran(r.summaries) == KnownBelow(r.hooks, r.at + 1)
        else Ran(r.summaries) == KnownBelow(r.hooks, r.at))
    && (!r.finished ==> r.at < |r.hooks| && r.hooks[r.at].known)
  }

  lemma {:induction false} ResumeInOrder(r: Round, i: nat)
    requires i <= |r.hooks| && Ran(r.summaries) == KnownBelow(r.hooks, i)
    requires forall k :: 0 <= k < |r.summaries| ==> !r.summaries[k].halt
    ensures InOrder(Resume(r, i))
    decreases |r.hooks| - i
  {
    if !r.aborted && i < |r.hooks| && !r.hooks[i].known {
      ResumeInOrder(r, i + 1);
    }
  }

  lemma {:induction false} RecordInOrder(r: Round, success: bool)
    requires InOrder(r) && Awaited(r, r.at)
    ensures InOrder(Record(r, success))
  {
    var r1 := r.(summaries := r.summaries + [Summary(r.at, success, r.at in r.halts)]);
    assert Ran(r1.summaries) == Ran(r.summaries) + [r.at];
    assert forall k :: 0 <= k < |r.summaries| ==> !r1.summaries[k].halt;
    if r.at !in r.halts {
      ResumeInOrder(r1, r.at + 1);
    }
  }

  /** For any events: the summaries follow a prefix of the hooks, and a halt can only be in the last. */
  lemma {:induction false} SummariesInOrder(size: Blob -> nat, hooks: seq<Hook>, buffer: Buffer, aborted: bool, events: seq<Event>)
    ensures InOrder(Play(size, Begin(hooks, buffer, aborted), events))
  {
    if events == [] {
      ResumeInOrder(Round(hooks, 0, false, {}, aborted, {}, [], buffer), 0);
    } else {
      var front, e := events[..|events| - 1], events[|events| - 1];
      SummariesInOrder(size, hooks, buffer, aborted, front);
      var r := Play(size, Begin(hooks, buffer, aborted), front);
      match e
      case HookSettles(success) =>
        if Awaited(r, r.at) {
          RecordInOrder(r, success);
        }
      case DeadlinePasses =>
        if Awaited(r, r.at) {
          RecordInOrder(r.(expired := r.expired + {r.at}), false);
        }
      case _ =>
    }
  }

  // ---------------------------------------------------------------- nothing else ends a round

  ghost predicate NoHalt(summaries: seq<Summary>) {
    forall i :: 0 <= i < |summaries| ==> !summaries[i].halt
  }

  /** A round that is finished, not aborted and not halted is past its last hook. */
  ghost predicate EndsOnlyAtEnd(r: Round) {
    r.finished && !r.aborted && NoHalt(r.summaries) ==> r.at == |r.hooks|
  }

  lemma {:induction false} ResumeEndsAtEnd(r: Round, i: nat)
    requires i <= |r.hooks|
    ensures EndsOnlyAtEnd(Resume(r, i))
    decreases |r.hooks| - i
  {
    if !r.aborted && i < |r.hooks| && !r.hooks[i].known {
      ResumeEndsAtEnd(r, i + 1);
    }
  }

  lemma {:induction false} RecordEndsAtEnd(r: Round, success: bool)
    requires Awaited(r, r.at)
    ensures EndsOnlyAtEnd(Record(r, success))
  {
    var r1 := r.(summaries := r.summaries + [Summary(r.at, success, r.at in r.halts)]);
    if r.at in r.halts {
      assert r1.summaries[|r.summaries|].halt;
    } else {
      ResumeEndsAtEnd(r1, r.at + 1);
    }
  }

  lemma {:induction false} NextEndsAtEnd(size: Blob -> nat, r: Round, e: Event)
    requires EndsOnlyAtEnd(r)
    ensures EndsOnlyAtEnd(Next(size, r, e))
  {
    hide Resume, Apply;
    match e
    case HookSettles(success) =>
      if Awaited(r, r.at) {
        RecordEndsAtEnd(r, success);
      }
    case DeadlinePasses =>
      if Awaited(r, r.at) {
        RecordEndsAtEnd(r.(expired := r.expired + {r.at}), false);
      }
    case _ =>
  }

  /** For any events: a round that ended without an abort and without a halt has run every known hook. */
  lemma {:induction false} AllHooksRun(size: Blob -> nat, hooks: seq<Hook>, buffer: Buffer, events: seq<Event>)
    requires var r := Play(size, Begin(hooks, buffer, false), events); r.finished && !r.aborted && NoHalt(r.summaries)
    ensures Ran(Play(size, Begin(hooks, buffer, false), events).summaries) == KnownBelow(hooks, |hooks|)
  {
    SummariesInOrder(size, hooks, buffer, false, events);
    PlayEndsAtEnd(size, hooks, buffer, false, events);
  }

  lemma {:induction false} PlayEndsAtEnd(size: Blob -> nat, hooks: seq<Hook>, buffer: Buffer, aborted: bool, events: seq<Event>)
    ensures EndsOnlyAtEnd(Play(size, Begin(hooks, buffer, aborted), events))
    ensures Play(size, Begin(hooks, buffer, aborted), events).hooks == hooks
  {
    if events == [] {
      ResumeEndsAtEnd(Round(hooks, 0, false, {}, aborted, {}, [], buffer), 0);
    } else {
      PlayEndsAtEnd(size, hooks, buffer, aborted, events[..|events| - 1]);
      NextEndsAtEnd(size, Play(size, Begin(hooks, buffer, aborted), events[..|events| - 1]), events[|events| - 1]);
    }
  }

  /** The runner stands at the first known hook from `i`, if there is one and the pipeline was not aborted. */
  ghost predicate FirstKnown(r: Round, i: nat) {
    && (r.finished <==> r.aborted || forall j :: i <= j < |r.hooks| ==> !r.hooks[j].known)
    && (!r.finished ==> i <= r.at < |r.hooks| && r.hooks[r.at].known && forall j :: i <= j < r.at ==> !r.hooks[j].known)
  }

  lemma {:induction false} ResumeFinds(r: Round, i: nat)
    requires i <= |r.hooks|
    ensures FirstKnown(Resume(r, i), i)
    decreases |r.hooks| - i
  {
    if !r.aborted && i < |r.hooks| && !r.hooks[i].known {
      ResumeFinds(r, i + 1);
    }
  }

  /**
   A round starts at its first known hook. Only the end of the awaited hook moves it: to the next
   known hook, unless that hook halted, or the pipeline was aborted, or there is none.
   */
  lemma {:induction false} RoundGoesOn(size: Blob -> nat, hooks: seq<Hook>, buffer: Buffer, aborted: bool, events: seq<Event>, e: Event)
    ensures FirstKnown(Begin(hooks, buffer, aborted), 0)
    ensures var r := Play(size, Begin(hooks, buffer, aborted), events);
            var r' := Next(size, r, e);
            if r.finished || !(e.HookSettles? || e.DeadlinePasses?) then r'.finished == r.finished && r'.at == r.at
            else if r.at in r.halts then r'.finished
            else FirstKnown(r', r.at + 1)
  {
    ResumeFinds(Round(hooks, 0, false, {}, aborted, {}, [], buffer), 0);
    SummariesInOrder(size, hooks, buffer, aborted, events);
    var r := Play(size, Begin(hooks, buffer, aborted), events);
    if Awaited(r, r.at) {
      ResumeFinds(r.(summaries := r.summaries + [Summary(r.at, e.HookSettles? && e.success, false)],
                     expired := if e.DeadlinePasses? then r.expired + {r.at} else r.expired), r.at + 1);
    }
    hide Resume, FirstKnown, Begin, Play, Apply;
  }

  // ---------------------------------------------------------------- what a round records

  /** A halt the hook returned while its signal was live. */
  ghost predicate HaltedLive(size: Blob -> nat, r: Round, events: seq<Event>, hook: nat) {
    exists k :: 0 <= k < |events| && HaltsAt(size, r, events, hook, k)
  }

  ghost predicate HaltsAt(size: Blob -> nat, r: Round, events: seq<Event>, hook: nat, k: nat)
    requires k < |events|
  {
    events[k] == CaptureHalt(hook) && !Signalled(Play(size, r, events[..k]), hook)
  }

  /** The hook's own deadline passed while it was awaited. */
  ghost predicate TimedOut(size: Blob -> nat, r: Round, events: seq<Event>, hook: nat) {
    exists k :: 0 <= k < |events| && TimesOutAt(size, r, events, hook, k)
  }

  ghost predicate TimesOutAt(size: Blob -> nat, r: Round, events: seq<Event>, hook: nat, k: nat)
    requires k < |events|
  {
    events[k] == DeadlinePasses && Awaited(Play(size, r, events[..k]), hook)
  }

  ghost predicate Aborts(events: seq<Event>) {
    exists k :: 0 <= k < |events| && events[k] == PipelineAborts
  }

  lemma {:induction false} HaltedLivePush(size: Blob -> nat, r: Round, events: seq<Event>, hook: nat)
    requires events != []
    ensures HaltedLive(size, r, events, hook)
       <==> HaltedLive(size, r, events[..|events| - 1], hook) || HaltsAt(size, r, events, hook, |events| - 1)
  {
    var front := events[..|events| - 1];
    forall k: nat | k < |front|
      ensures HaltsAt(size, r, events, hook, k) <==> HaltsAt(size, r, front, hook, k)
    {
      assert front[..k] == events[..k];
    }
  }

  lemma {:induction false} TimedOutPush(size: Blob -> nat, r: Round, events: seq<Event>, hook: nat)
    requires events != []
    ensures TimedOut(size, r, events, hook)
       <==> TimedOut(size, r, events[..|events| - 1], hook) || TimesOutAt(size, r, events, hook, |events| - 1)
  {
    var front := events[..|events| - 1];
    forall k: nat | k < |front|
      ensures TimesOutAt(size, r, events, hook, k) <==> TimesOutAt(size, r, front, hook, k)
    {
      assert front[..k] == events[..k];
    }
  }

  /** A hook's signal fires exactly by its own deadline or the pipeline's abort, and a halt counts exactly if returned before. */
  lemma {:induction false} SignalsExactly(size: Blob -> nat, hooks: seq<Hook>, buffer: Buffer, aborted: bool, events: seq<Event>, hook: nat)
    ensures var (r0, r) := (Begin(hooks, buffer, aborted), Play(size, Begin(hooks, buffer, aborted), events));
            && (r.aborted <==> aborted || Aborts(events))
            && (hook in r.expired <==> TimedOut(size, r0, events, hook))
            && (hook in r.halts <==> HaltedLive(size, r0, events, hook))
  {
    var r0 := Begin(hooks, buffer, aborted);
    if events != [] {
      var front, e := events[..|events| - 1], events[|events| - 1];
      SignalsExactly(size, hooks, buffer, aborted, front, hook);
      HaltedLivePush(size, r0, events, hook);
      TimedOutPush(size, r0, events, hook);
      AbortsPush(events);
      hide Resume, Apply, HaltedLive, TimedOut, Aborts, Begin;
    }
  }

  lemma {:induction false} AbortsPush(events: seq<Event>)
    requires events != []
    ensures Aborts(events) <==> Aborts(events[..|events| - 1]) || events[|events| - 1] == PipelineAborts
  {
    var front := events[..|events| - 1];
    assert forall k :: 0 <= k < |front| ==> front[k] == events[k];
  }

  datatype Ending = Ending(success: bool, halted: bool)

  /**
   How each awaited hook ended: as it settled, or without success when its deadline passed first;
   and halted if it had returned a halt by then.
   */
  ghost function Endings(size: Blob -> nat, r: Round, events: seq<Event>): seq<Ending> {
    if events == [] then []
    else
      var front, e := events[..|events| - 1], events[|events| - 1];
      var before := Play(size, r, front);
      Endings(size, r, front) +
      (if before.finished || !(e.HookSettles? || e.DeadlinePasses?) then []
       else [Ending(e.HookSettles? && e.success, HaltedLive(size, r, front, before.at))])
  }

  function EndingsIn(summaries: seq<Summary>): seq<Ending> {
    seq(|summaries|, i requires 0 <= i < |summaries| => Ending(summaries[i].success, summaries[i].halt))
  }

  lemma {:induction false} RecordPushes(r: Round, success: bool)
    requires Awaited(r, r.at)
    ensures EndingsIn(Record(r, success).summaries) == EndingsIn(r.summaries) + [Ending(success, r.at in r.halts)]
  {
    hide Resume;
  }

  lemma {:induction false} NextRecords(size: Blob -> nat, r: Round, e: Event)
    requires InOrder(r)
    ensures EndingsIn(Next(size, r, e).summaries) == EndingsIn(r.summaries) +
              (if r.finished || !(e.HookSettles? || e.DeadlinePasses?) then []
               else [Ending(e.HookSettles? && e.success, r.at in r.halts)])
  {
    if Awaited(r, r.at) && e.HookSettles? {
      RecordPushes(r, e.success);
    } else if Awaited(r, r.at) && e.DeadlinePasses? {
      RecordPushes(r.(expired := r.expired + {r.at}), false);
    }
    hide Record, EndingsIn, Apply;
  }

  /** The summaries say how each hook ended and whether it halted, in the order the hooks were awaited. */
  lemma {:induction false} SummariesRecord(size: Blob -> nat, hooks: seq<Hook>, buffer: Buffer, aborted: bool, events: seq<Event>)
    ensures var r0 := Begin(hooks, buffer, aborted);
            EndingsIn(Play(size, r0, events).summaries) == Endings(size, r0, events)
  {
    var r0 := Begin(hooks, buffer, aborted);
    if events != [] {
      var front, e := events[..|events| - 1], events[|events| - 1];
      var r := Play(size, r0, front);
      SummariesRecord(size, hooks, buffer, aborted, front);
      SummariesInOrder(size, hooks, buffer, aborted, front);
      SignalsExactly(size, hooks, buffer, aborted, front, r.at);
      NextRecords(size, r, e);
      hide Begin, HaltedLive, TimedOut, InOrder, Next, EndingsIn;
    }
  }

  /** The round's state is what the live writes make of the buffer it began with. */
  lemma {:induction false} RoundState(size: Blob -> nat, hooks: seq<Hook>, buffer: Buffer, aborted: bool, events: seq<Event>)
    ensures var r0 := Begin(hooks, buffer, aborted);
            Play(size, r0, events).buffer == ApplyAll(size, buffer, LiveWrites(size, r0, events))
  {
    StateIsLiveWrites(size, Begin(hooks, buffer, aborted), events);
  }
}
