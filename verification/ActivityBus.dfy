/**
 The in-process activity bus: recent history replayed to a new subscriber, then live events.

 Handlers are identified by the order they subscribe in; what each has been called with is its
 inbox. A handler that throws on a live event ends that event's dispatch, as Node's
 EventEmitter does: the listeners registered after it are not called.
 */
module ActivityBus {
  import opened Options

  type Evt = string
  type Handler = nat

  const BUFFER_SIZE := 100

  datatype Bus = Bus(history: seq<Evt>, buffer: seq<Evt>, listeners: seq<Handler>, inbox: map<Handler, seq<Evt>>)

  datatype Action =
    | Emit(evt: Evt, throwers: set<Handler>)   // the handlers that throw on this event
    | Subscribe(handler: Handler)
    | Unsubscribe(handler: Handler)

  const NEW_BUS := Bus([], [], [], map[])

  function Last(events: seq<Evt>, n: nat): seq<Evt> {
    if |events| <= n then events else events[|events| - n..]
  }

  /** How many listeners an event reaches: up to and including the first that throws. */
  function ReachCount(listeners: seq<Handler>, throwers: set<Handler>): (n: nat)
    ensures n <= |listeners|
    ensures forall j :: 0 <= j < n - 1 ==> listeners[j] !in throwers
    ensures n < |listeners| ==> n > 0 && listeners[n - 1] in throwers
  {
    if listeners == [] then 0
    else if listeners[0] in throwers then 1
    else
      var n := ReachCount(listeners[1..], throwers);
      assert forall j :: 0 < j < n ==> listeners[j] == listeners[1..][j - 1];
      1 + n
  }

  function Reached(listeners: seq<Handler>, throwers: set<Handler>): seq<Handler> {
    listeners[..ReachCount(listeners, throwers)]
  }

  function InboxOf(b: Bus, h: Handler): seq<Evt> {
    if h in b.inbox then b.inbox[h] else []
  }

  function Deliver(inbox: map<Handler, seq<Evt>>, reached: seq<Handler>, evt: Evt): map<Handler, seq<Evt>> {
    map h | h in inbox :: inbox[h] + if h in reached then [evt] else []
  }

  function IndexOf(listeners: seq<Handler>, h: Handler): (i: nat)
    ensures i <= |listeners|
    ensures if i < |listeners| then listeners[i] == h else h !in listeners
  {
    if listeners == [] || listeners[0] == h then 0 else 1 + IndexOf(listeners[1..], h)
  }

  /** The listeners once `h` is taken off. */
  function Without(listeners: seq<Handler>, h: Handler): seq<Handler> {
    var i := IndexOf(listeners, h);
    if i < |listeners| then listeners[..i] + listeners[i + 1..] else listeners
  }

  function Next(b: Bus, a: Action): Bus {
    match a
    case Emit(evt, throwers) =>
      Bus(b.history + [evt], Last(b.buffer + [evt], BUFFER_SIZE), b.listeners,
          Deliver(b.inbox, Reached(b.listeners, throwers), evt))
    case Subscribe(h) =>
      if h in b.inbox then b else b.(listeners := b.listeners + [h], inbox := b.inbox[h := b.buffer])
    case Unsubscribe(h) => b.(listeners := Without(b.listeners, h))
  }

  function Play(b: Bus, actions: seq<Action>): Bus {
    if actions == [] then b else Next(Play(b, actions[..|actions| - 1]), actions[|actions| - 1])
  }

  class ActivityBus {
    var buffer: seq<Evt>
    var listeners: seq<Handler>
    var inbox: map<Handler, seq<Evt>>
    ghost var history: seq<Evt>

    ghost function View(): Bus
      reads this
    {
      Bus(history, buffer, listeners, inbox)
    }

    constructor ()
      ensures View() == NEW_BUS
    {
      buffer, listeners, inbox, history := [], [], map[], [];
    }

    method EmitEvent(evt: Evt, throwers: set<Handler>)
      requires BusOk(View())
      modifies this
      ensures View() == Next(old(View()), Emit(evt, throwers))
    {
      buffer := buffer + [evt];
      if |buffer| > BUFFER_SIZE {
        buffer := buffer[|buffer| - BUFFER_SIZE..];
      }
      history := history + [evt];
      Dispatch(evt, throwers);
    }

    /** Call the listeners in order; the first that throws ends it. */
    method Dispatch(evt: Evt, throwers: set<Handler>)
      requires Distinct(listeners) && forall h :: h in listeners ==> h in inbox
      modifies this`inbox
      ensures inbox == Deliver(old(inbox), Reached(listeners, throwers), evt)
    {
      var i := 0;
      ghost var reach := ReachCount(listeners, throwers);
      assert forall h :: h in inbox ==> inbox[h] + [] == inbox[h];
      while i < |listeners| && (i == 0 || listeners[i - 1] !in throwers)
        invariant 0 <= i <= reach
        invariant inbox == Deliver(old(inbox), listeners[..i], evt)
      {
        var h := listeners[i];
        assert listeners[..i + 1] == listeners[..i] + [h];
        assert h !in listeners[..i] && inbox[h] == old(inbox)[h] + [];
        inbox := inbox[h := inbox[h] + [evt]];
        i := i + 1;
      }
    }

    /** A handler that throws during the replay is still called with the rest of it. */
    method Subscribe(h: Handler)
      modifies this
      ensures View() == Next(old(View()), Action.Subscribe(h))
    {
      if h in inbox {
        return;
      }
      inbox := inbox[h := []];
      for i := 0 to |buffer|
        invariant unchanged(`buffer) && unchanged(`listeners) && unchanged(`history)
        invariant inbox == old(inbox)[h := buffer[..i]]
      {
        assert buffer[..i + 1] == buffer[..i] + [buffer[i]];
        inbox := inbox[h := inbox[h] + [buffer[i]]];
      }
      assert buffer[..|buffer|] == buffer;
      listeners := listeners + [h];
    }

    method Unsubscribe(h: Handler)
      modifies this
      ensures View() == Next(old(View()), Action.Unsubscribe(h))
    {
      listeners := Without(listeners, h);
    }
  }

  // ---------------------------------------------------------------- invariant

  ghost predicate Distinct(s: seq<Handler>) {
    forall i, j :: 0 <= i < j < |s| ==> s[i] != s[j]
  }

  ghost predicate BusOk(b: Bus) {
    && b.buffer == Last(b.history, BUFFER_SIZE)
    && Distinct(b.listeners)
    && forall h :: h in b.listeners ==> h in b.inbox
  }

  lemma {:induction false} WithoutIs(listeners: seq<Handler>, h: Handler)
    requires Distinct(listeners)
    ensures Distinct(Without(listeners, h))
    ensures forall k :: k in Without(listeners, h) <==> k in listeners && k != h
  {
    var i := IndexOf(listeners, h);
    if i < |listeners| {
      var (before, after) := (listeners[..i], listeners[i + 1..]);
      assert listeners == before + [h] + after;
      assert forall j :: 0 <= j < |after| ==> after[j] == listeners[i + 1 + j];
      assert h !in before && h !in after;
    }
  }

  /** Dispatch calls a listener exactly when none registered before it throws. */
  lemma {:induction false} ReachedIs(listeners: seq<Handler>, throwers: set<Handler>, i: nat)
    requires Distinct(listeners) && i < |listeners|
    ensures listeners[i] in Reached(listeners, throwers) <==> forall j :: 0 <= j < i ==> listeners[j] !in throwers
  {
    var n := ReachCount(listeners, throwers);
    assert listeners[i] in listeners[..n] <==> i < n;
    if n <= i {
      assert listeners[n - 1] in throwers;
    }
  }

  lemma {:induction false} BusOkKept(b: Bus, a: Action)
    requires BusOk(b)
    ensures BusOk(Next(b, a))
  {
    match a
    case Emit(evt, throwers) =>
      assert Last(b.buffer + [evt], BUFFER_SIZE) == Last(b.history + [evt], BUFFER_SIZE);
    case Subscribe(h) =>
    case Unsubscribe(h) =>
      WithoutIs(b.listeners, h);
  }

  lemma {:induction false} BusOkAlways(b: Bus, actions: seq<Action>)
    requires BusOk(b)
    ensures BusOk(Play(b, actions))
  {
    if actions != [] {
      BusOkAlways(b, actions[..|actions| - 1]);
      BusOkKept(Play(b, actions[..|actions| - 1]), actions[|actions| - 1]);
    }
  }

  // ---------------------------------------------------------------- what a subscriber sees

  ghost predicate Stays(actions: seq<Action>, h: Handler) {
    forall i :: 0 <= i < |actions| ==> actions[i] != Unsubscribe(h)
  }

  /** A listener registered before `h` throws on the event. */
  ghost predicate CutsOff(b: Bus, a: Action, h: Handler) {
    a.Emit? && exists j :: 0 <= j < IndexOf(b.listeners, h) && b.listeners[j] in a.throwers
  }

  ghost predicate CutOff(b: Bus, actions: seq<Action>, h: Handler, k: nat)
    requires k < |actions|
  {
    CutsOff(Play(b, actions[..k]), actions[k], h)
  }

  ghost predicate NeverCutOff(b: Bus, actions: seq<Action>, h: Handler) {
    forall k: nat :: k < |actions| ==> !CutOff(b, actions, h, k)
  }

  lemma {:induction false} CutOffPush(b: Bus, actions: seq<Action>, h: Handler)
    requires actions != []
    ensures NeverCutOff(b, actions, h) <==> NeverCutOff(b, actions[..|actions| - 1], h) && !CutOff(b, actions, h, |actions| - 1)
  {
    var front := actions[..|actions| - 1];
    forall k: nat | k < |front|
      ensures CutOff(b, actions, h, k) <==> CutOff(b, front, h, k)
    {
      assert front[..k] == actions[..k];
    }
  }

  /** `h` is subscribed and, as long as it was never cut off, has been given everything since `start`. */
  ghost predicate Sees(b: Bus, h: Handler, start: nat, intact: bool) {
    && BusOk(b) && h in b.listeners && start <= |b.history|
    && if intact then b.inbox[h] == b.history[start..] else |b.inbox[h]| < |b.history| - start
  }

  lemma {:induction false} EmitReaches(b: Bus, h: Handler, evt: Evt, throwers: set<Handler>)
    requires BusOk(b) && h in b.listeners
    ensures Next(b, Emit(evt, throwers)).inbox[h]
         == b.inbox[h] + if CutsOff(b, Emit(evt, throwers), h) then [] else [evt]
  {
    ReachedIs(b.listeners, throwers, IndexOf(b.listeners, h));
  }

  lemma {:induction false} SeesNext(b: Bus, h: Handler, start: nat, intact: bool, a: Action)
    requires Sees(b, h, start, intact) && a != Unsubscribe(h)
    ensures Sees(Next(b, a), h, start, intact && !CutsOff(b, a, h))
  {
    BusOkKept(b, a);
    match a
    case Emit(evt, throwers) =>
      EmitReaches(b, h, evt, throwers);
      hide Deliver, Reached, CutsOff;
      assert (b.history + [evt])[start..] == b.history[start..] + [evt];
    case Subscribe(_) =>
    case Unsubscribe(k) =>
      WithoutIs(b.listeners, k);
  }

  lemma {:induction false} SeesFrom(b: Bus, h: Handler, start: nat, actions: seq<Action>)
    requires Sees(b, h, start, true) && Stays(actions, h)
    ensures Sees(Play(b, actions), h, start, NeverCutOff(b, actions, h))
  {
    if actions != [] {
      var front, a := actions[..|actions| - 1], actions[|actions| - 1];
      assert Stays(front, h) by {
        assert forall i :: 0 <= i < |front| ==> front[i] == actions[i];
      }
      assert a != Unsubscribe(h);
      hide Sees, CutsOff;
      SeesFrom(b, h, start, front);
      CutOffPush(b, actions, h);
      SeesNext(Play(b, front), h, start, NeverCutOff(b, front, h), a);
    }
  }

  /**
   A new subscriber sees a gap-free, duplicate-free run of the event history that starts at
   most 100 events back, if and only if no handler registered before it throws on an event.
   */
  lemma {:induction false} SubscriberSeesHistory(before: seq<Action>, h: Handler, after: seq<Action>)
    requires h !in Play(NEW_BUS, before).inbox && Stays(after, h)
    ensures var b0 := Play(NEW_BUS, before);
            var joined := Next(b0, Subscribe(h));
            var b' := Play(joined, after);
            var start := if |b0.history| <= 100 then 0 else |b0.history| - 100;
            && h in b'.inbox && start <= |b'.history|
            && (b'.inbox[h] == b'.history[start..] <==> NeverCutOff(joined, after, h))
  {
    var b0 := Play(NEW_BUS, before);
    BusOkAlways(NEW_BUS, before);
    BusOkKept(b0, Subscribe(h));
    var start := if |b0.history| <= 100 then 0 else |b0.history| - 100;
    assert b0.history[0..] == b0.history;
    SeesFrom(Next(b0, Subscribe(h)), h, start, after);
  }

  /** It does happen: the second of two subscribers misses an event the first throws on. */
  lemma {:induction false} ThrowingListenerHidesEvent(evt: Evt)
    ensures var b := Next(Next(Next(NEW_BUS, Subscribe(0)), Subscribe(1)), Emit(evt, {0}));
            b.history == [evt] && InboxOf(b, 0) == [evt] && InboxOf(b, 1) == []
  {
    var b := Next(Next(NEW_BUS, Subscribe(0)), Subscribe(1));
    assert b.listeners == [0, 1] && b.inbox == map[0 := [], 1 := []];
    assert Reached([0, 1], {0}) == [0];
  }

  // ---------------------------------------------------------------- what the bus holds

  function Emitted(actions: seq<Action>): seq<Evt> {
    if actions == [] then []
    else
      var before, a := Emitted(actions[..|actions| - 1]), actions[|actions| - 1];
      if a.Emit? then before + [a.evt] else before
  }

  /** The history is every event emitted, in order, whatever the listeners do. */
  lemma {:induction false} HistoryIsEmitted(actions: seq<Action>)
    ensures Play(NEW_BUS, actions).history == Emitted(actions)
  {
    if actions != [] {
      HistoryIsEmitted(actions[..|actions| - 1]);
    }
  }

  /** Action number k is the one that first subscribed `h`. */
  ghost predicate JoinedAt(actions: seq<Action>, h: Handler, k: nat) {
    k < |actions| && actions[k] == Subscribe(h) && forall j :: 0 <= j < k ==> actions[j] != Subscribe(h)
  }

  ghost predicate Joined(actions: seq<Action>, h: Handler) {
    exists k: nat :: JoinedAt(actions, h, k)
  }

  ghost predicate LeftAt(actions: seq<Action>, h: Handler, j: nat) {
    j < |actions| && actions[j] == Unsubscribe(h) && Joined(actions[..j], h)
  }

  ghost predicate Left(actions: seq<Action>, h: Handler) {
    exists j: nat :: LeftAt(actions, h, j)
  }

  /** `g` joined before `h` did. */
  ghost predicate JoinedBefore(actions: seq<Action>, g: Handler, h: Handler) {
    exists k: nat, l: nat :: k < l && JoinedAt(actions, g, k) && JoinedAt(actions, h, l)
  }

  /** Who listens: those who joined and did not leave since, in the order they joined. */
  ghost predicate InOrderOfJoining(actions: seq<Action>, b: Bus) {
    && (forall h :: h in b.inbox <==> Joined(actions, h))
    && (forall h :: h in b.listeners <==> Joined(actions, h) && !Left(actions, h))
    && (forall i, j :: 0 <= i < j < |b.listeners| ==> JoinedBefore(actions, b.listeners[i], b.listeners[j]))
  }

  lemma {:induction false} JoinedPush(actions: seq<Action>, a: Action, h: Handler)
    ensures forall k: nat :: k < |actions| ==> (JoinedAt(actions + [a], h, k) <==> JoinedAt(actions, h, k))
    ensures JoinedAt(actions + [a], h, |actions|) <==> a == Subscribe(h) && !Joined(actions, h)
    ensures Joined(actions + [a], h) <==> Joined(actions, h) || a == Subscribe(h)
  {
    var n, all := |actions|, actions + [a];
    assert all[n] == a && forall k :: 0 <= k < n ==> all[k] == actions[k];
    if exists j :: 0 <= j < n && actions[j] == Subscribe(h) {
      var j := FirstSubscribe(actions, h);
      assert JoinedAt(actions, h, j) && JoinedAt(all, h, j);
    } else {
      assert Joined(all, h) <==> JoinedAt(all, h, n);
    }
  }

  lemma {:induction false} FirstSubscribe(actions: seq<Action>, h: Handler) returns (k: nat)
    requires exists j :: 0 <= j < |actions| && actions[j] == Subscribe(h)
    ensures JoinedAt(actions, h, k)
  {
    k := 0;
    while actions[k] != Subscribe(h)
      invariant k < |actions| && forall j :: 0 <= j < k ==> actions[j] != Subscribe(h)
      decreases |actions| - k
    {
      k := k + 1;
    }
  }

  lemma {:induction false} LeftPush(actions: seq<Action>, a: Action, h: Handler)
    ensures Left(actions + [a], h) <==> Left(actions, h) || (a == Unsubscribe(h) && Joined(actions, h))
  {
    var n, all := |actions|, actions + [a];
    assert all[..n] == actions && all[n] == a;
    forall j: nat | j < n
      ensures LeftAt(all, h, j) <==> LeftAt(actions, h, j)
    {
      assert all[..j] == actions[..j] && all[j] == actions[j];
    }
    hide Joined;
    if Left(actions, h) {
      var j: nat :| LeftAt(actions, h, j);
      assert LeftAt(all, h, j);
    }
    assert LeftAt(all, h, n) <==> a == Unsubscribe(h) && Joined(actions, h);
  }

  lemma {:induction false} LeftWasJoined(actions: seq<Action>, h: Handler)
    ensures Left(actions, h) ==> Joined(actions, h)
  {
    if j: nat :| LeftAt(actions, h, j) {
      var k: nat :| JoinedAt(actions[..j], h, k);
      assert JoinedAt(actions, h, k);
    }
  }

  lemma {:induction false} JoinedBeforePush(actions: seq<Action>, a: Action, g: Handler, h: Handler)
    ensures JoinedBefore(actions, g, h) ==> JoinedBefore(actions + [a], g, h)
    ensures Joined(actions, g) && a == Subscribe(h) && !Joined(actions, h) ==> JoinedBefore(actions + [a], g, h)
  {
    JoinedPush(actions, a, g);
    JoinedPush(actions, a, h);
    if JoinedBefore(actions, g, h) {
      var k: nat, l: nat :| k < l && JoinedAt(actions, g, k) && JoinedAt(actions, h, l);
      assert JoinedAt(actions + [a], g, k) && JoinedAt(actions + [a], h, l);
    }
    if Joined(actions, g) && a == Subscribe(h) && !Joined(actions, h) {
      var k: nat :| JoinedAt(actions, g, k);
      assert JoinedAt(actions + [a], g, k) && JoinedAt(actions + [a], h, |actions|);
    }
  }

  lemma {:induction false} WithoutKeepsOrder(listeners: seq<Handler>, h: Handler, i: nat, j: nat) returns (k: nat, l: nat)
    requires i < j < |Without(listeners, h)|
    ensures k < l < |listeners| && Without(listeners, h)[i] == listeners[k] && Without(listeners, h)[j] == listeners[l]
  {
    var at := IndexOf(listeners, h);
    k, l := if i < at then i else i + 1, if j < at then j else j + 1;
    hide IndexOf;
  }

  lemma {:induction false} JoiningKept(actions: seq<Action>, b: Bus, a: Action)
    requires BusOk(b) && InOrderOfJoining(actions, b)
    ensures InOrderOfJoining(actions + [a], Next(b, a))
  {
    var b' := Next(b, a);
    forall h
      ensures h in b'.inbox <==> Joined(actions + [a], h)
      ensures h in b'.listeners <==> Joined(actions + [a], h) && !Left(actions + [a], h)
    {
      JoinedPush(actions, a, h);
      LeftPush(actions, a, h);
      LeftWasJoined(actions, h);
      WithoutIs(b.listeners, h);
      if a.Unsubscribe? {
        WithoutIs(b.listeners, a.handler);
      }
      hide Joined, Left, Without, Distinct, JoinedBefore, Reached;
    }
    forall i, j | 0 <= i < j < |b'.listeners|
      ensures JoinedBefore(actions + [a], b'.listeners[i], b'.listeners[j])
    {
      JoinedBeforePush(actions, a, b'.listeners[i], b'.listeners[j]);
      if a.Unsubscribe? {
        var k, l := WithoutKeepsOrder(b.listeners, a.handler, i, j);
      }
      hide Joined, Left, Without, Distinct, JoinedBefore, Reached;
    }
  }

  /** At any time the listeners are those who joined and have not left, in the order they joined. */
  lemma {:induction false} ListenersInOrder(actions: seq<Action>)
    ensures InOrderOfJoining(actions, Play(NEW_BUS, actions))
  {
    if actions != [] {
      var front := actions[..|actions| - 1];
      ListenersInOrder(front);
      BusOkAlways(NEW_BUS, front);
      JoiningKept(front, Play(NEW_BUS, front), actions[|actions| - 1]);
      assert front + [actions[|actions| - 1]] == actions;
    }
  }

  /** One who has left is given nothing more. */
  lemma {:induction false} LeaversHearNothing(actions: seq<Action>, h: Handler, a: Action)
    requires Left(actions, h)
    ensures InboxOf(Next(Play(NEW_BUS, actions), a), h) == InboxOf(Play(NEW_BUS, actions), h)
  {
    var b := Play(NEW_BUS, actions);
    ListenersInOrder(actions);
    LeftWasJoined(actions, h);
    assert h !in b.listeners && h in b.inbox;
    if a.Emit? {
      assert h !in Reached(b.listeners, a.throwers);
      assert b.inbox[h] + [] == b.inbox[h];
    }
  }
}
