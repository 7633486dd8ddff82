/**
 The accounting of open activity streams: the process-wide and per-user connection counters
 and the set of open feeds, under opens, repeated teardowns and shutdown.
 */
module ActivityFeeds {
  import opened Options

  type FeedId = nat
  type UserId = string
  type Counts = map<UserId, int>

  /** The open feeds of one user. */
  ghost function FeedsOf(open: set<FeedId>, users: map<FeedId, Option<UserId>>, user: UserId): set<FeedId> {
    set f | f in open && f in users && users[f] == Some(user)
  }

  /** Every entry is the number of that user's open feeds, and no zero is kept. */
  ghost predicate Counted(counts: Counts, open: set<FeedId>, users: map<FeedId, Option<UserId>>) {
    forall u :: CountedFor(counts, open, users, u)
  }

  ghost predicate CountedFor(counts: Counts, open: set<FeedId>, users: map<FeedId, Option<UserId>>, u: UserId) {
    if u in counts then counts[u] == |FeedsOf(open, users, u)| > 0 else FeedsOf(open, users, u) == {}
  }

  ghost predicate WithinCap(cap: nat, open: set<FeedId>, users: map<FeedId, Option<UserId>>) {
    forall u :: |FeedsOf(open, users, u)| <= cap
  }

  /** Whatever cap of at least `least` every user was within, every user still is. */
  ghost predicate CapsKept(least: nat, open: set<FeedId>, users: map<FeedId, Option<UserId>>, open': set<FeedId>, users': map<FeedId, Option<UserId>>) {
    forall cap: nat :: least <= cap && WithinCap(cap, open, users) ==> WithinCap(cap, open', users')
  }

  /** A feed's response is ended once, when the feed is torn down, unless a write to it failed before. */
  ghost predicate EndedOnce(open: set<FeedId>, all: set<FeedId>, closed: set<FeedId>, failed: set<FeedId>, ended: multiset<FeedId>) {
    && failed <= closed == (all - open) + failed
    && forall f :: ended[f] == if f in closed && f !in failed then 1 else 0
  }

  function EndedBy(feed: FeedId, closed: set<FeedId>, ended: multiset<FeedId>): multiset<FeedId> {
    if feed in closed then ended else ended + multiset{feed}
  }

  lemma {:induction false} OpenKeepsEnded(open: set<FeedId>, all: set<FeedId>, closed: set<FeedId>, failed: set<FeedId>, ended: multiset<FeedId>, feed: FeedId)
    requires EndedOnce(open, all, closed, failed, ended) && feed !in all
    ensures EndedOnce(open + {feed}, all + {feed}, closed, failed, ended)
  {
    assert all + {feed} - (open + {feed}) == all - open;
  }

  lemma {:induction false} CloseKeepsEnded(open: set<FeedId>, all: set<FeedId>, closed: set<FeedId>, failed: set<FeedId>, ended: multiset<FeedId>, feed: FeedId)
    requires EndedOnce(open, all, closed, failed, ended) && feed in all
    ensures EndedOnce(open - {feed}, all, closed + {feed}, failed, EndedBy(feed, closed, ended))
  {
    assert all - (open - {feed}) == all - open + {feed};
  }

  function Claimed(counts: Counts, user: Option<UserId>): Counts {
    if user.None? then counts
    else counts[user.value := (if user.value in counts then counts[user.value] else 0) + 1]
  }

  function Released(counts: Counts, user: Option<UserId>): Counts {
    if user.None? then counts
    else
      var remaining := (if user.value in counts then counts[user.value] else 1) - 1;
      if remaining <= 0 then map u | u in counts && u != user.value :: counts[u] else counts[user.value := remaining]
  }

  lemma {:induction false} FeedsAfterOpen(open: set<FeedId>, users: map<FeedId, Option<UserId>>, feed: FeedId, user: Option<UserId>, u: UserId)
    requires feed !in users && feed !in open
    ensures |FeedsOf(open + {feed}, users[feed := user], u)| == |FeedsOf(open, users, u)| + if user == Some(u) then 1 else 0
    ensures user != Some(u) ==> FeedsOf(open + {feed}, users[feed := user], u) == FeedsOf(open, users, u)
  {
    var before, after := FeedsOf(open, users, u), FeedsOf(open + {feed}, users[feed := user], u);
    assert feed !in before;
    assert forall f :: f in after <==> f in before || (f == feed && user == Some(u));
    hide FeedsOf;
    if user == Some(u) {
      assert after == before + {feed};
    } else {
      assert after == before;
    }
  }

  lemma {:induction false} FeedsAfterClose(open: set<FeedId>, users: map<FeedId, Option<UserId>>, feed: FeedId, u: UserId)
    requires feed in users && feed in open
    ensures |FeedsOf(open - {feed}, users, u)| == |FeedsOf(open, users, u)| - if users[feed] == Some(u) then 1 else 0
    ensures users[feed] != Some(u) ==> FeedsOf(open - {feed}, users, u) == FeedsOf(open, users, u)
  {
    var before, gone := FeedsOf(open, users, u), if users[feed] == Some(u) then {feed} else {};
    assert FeedsOf(open - {feed}, users, u) == before - gone;
    assert gone <= before;
    hide FeedsOf;
    assert |before - gone| == |before| - |gone|;
  }

  lemma {:induction false} OpenKeepsCounts(counts: Counts, open: set<FeedId>, users: map<FeedId, Option<UserId>>, feed: FeedId, user: Option<UserId>)
    requires Counted(counts, open, users) && feed !in users && feed !in open
    ensures Counted(Claimed(counts, user), open + {feed}, users[feed := user])
  {
    var counts', open', users' := Claimed(counts, user), open + {feed}, users[feed := user];
    forall u
      ensures CountedFor(counts', open', users', u)
    {
      assert CountedFor(counts, open, users, u);
      FeedsAfterOpen(open, users, feed, user, u);
    }
  }

  lemma {:induction false} CloseKeepsCounts(counts: Counts, open: set<FeedId>, users: map<FeedId, Option<UserId>>, feed: FeedId)
    requires Counted(counts, open, users) && feed in users && feed in open
    ensures Counted(Released(counts, users[feed]), open - {feed}, users)
  {
    var counts', open' := Released(counts, users[feed]), open - {feed};
    forall u
      ensures CountedFor(counts', open', users, u)
    {
      assert CountedFor(counts, open, users, u);
      FeedsAfterClose(open, users, feed, u);
      if users[feed] == Some(u) {
        assert feed in FeedsOf(open, users, u);
      }
    }
  }

  lemma {:induction false} OpenKeepsCap(cap: nat, open: set<FeedId>, users: map<FeedId, Option<UserId>>, feed: FeedId, user: Option<UserId>)
    requires WithinCap(cap, open, users) && feed !in users && feed !in open
    requires user.Some? ==> |FeedsOf(open, users, user.value)| < cap
    ensures WithinCap(cap, open + {feed}, users[feed := user])
  {
    var open', users' := open + {feed}, users[feed := user];
    forall u
      ensures |FeedsOf(open', users', u)| <= cap
    {
      FeedsAfterOpen(open, users, feed, user, u);
    }
  }

  lemma {:induction false} OpenKeepsCaps(maxPerUser: nat, open: set<FeedId>, users: map<FeedId, Option<UserId>>, feed: FeedId, user: Option<UserId>)
    requires feed !in users && feed !in open
    requires user.Some? ==> |FeedsOf(open, users, user.value)| < maxPerUser
    ensures CapsKept(maxPerUser, open, users, open + {feed}, users[feed := user])
  {
    forall cap: nat | maxPerUser <= cap && WithinCap(cap, open, users)
      ensures WithinCap(cap, open + {feed}, users[feed := user])
    {
      OpenKeepsCap(cap, open, users, feed, user);
    }
  }

  lemma {:induction false} CloseKeepsCap(cap: nat, open: set<FeedId>, users: map<FeedId, Option<UserId>>, feed: FeedId)
    requires WithinCap(cap, open, users) && feed in users && feed in open
    ensures WithinCap(cap, open - {feed}, users)
  {
    var open' := open - {feed};
    forall u
      ensures |FeedsOf(open', users, u)| <= cap
    {
      FeedsAfterClose(open, users, feed, u);
    }
  }

  lemma {:induction false} CloseKeepsCaps(open: set<FeedId>, users: map<FeedId, Option<UserId>>, feed: FeedId)
    requires feed in users && feed in open
    ensures CapsKept(0, open, users, open - {feed}, users)
  {
    forall cap: nat | WithinCap(cap, open, users)
      ensures WithinCap(cap, open - {feed}, users)
    {
      CloseKeepsCap(cap, open, users, feed);
    }
  }

  lemma {:induction false} CountOf(counts: Counts, open: set<FeedId>, users: map<FeedId, Option<UserId>>, u: UserId)
    requires Counted(counts, open, users)
    ensures (if u in counts then counts[u] else 0) == |FeedsOf(open, users, u)|
  {
    assert CountedFor(counts, open, users, u);
  }

  // ---------------------------------------------------------------- the registry as a value

  /**
   `users` holds every feed ever opened; `ended` counts how often each response was ended and
   `failed` the feeds closed by a failed write.
   */
  datatype Registry = Registry(
    active: int,
    perUser: Counts,
    open: set<FeedId>,
    users: map<FeedId, Option<UserId>>,
    closed: set<FeedId>,
    decremented: set<FeedId>,
    ended: multiset<FeedId>,
    failed: set<FeedId>)

  ghost predicate RegistryOk(r: Registry) {
    && r.active == |r.open|
    && r.open <= r.users.Keys
    && r.decremented == r.users.Keys - r.open
    && Counted(r.perUser, r.open, r.users)
    && EndedOnce(r.open, r.users.Keys, r.closed, r.failed, r.ended)
  }

  function Opened(r: Registry, feed: FeedId, user: Option<UserId>): Registry {
    r.(active := r.active + 1, perUser := Claimed(r.perUser, user), open := r.open + {feed}, users := r.users[feed := user])
  }

  function WriteFailed(r: Registry, feed: FeedId): Registry {
    if feed in r.closed then r else r.(closed := r.closed + {feed}, failed := r.failed + {feed})
  }

  function Decremented(r: Registry, feed: FeedId): Registry
    requires feed in r.users
  {
    if feed in r.decremented then r
    else r.(active := if r.active > 0 then r.active - 1 else 0,
            perUser := Released(r.perUser, r.users[feed]),
            decremented := r.decremented + {feed})
  }

  function Ended(r: Registry, feed: FeedId): Registry {
    r.(closed := r.closed + {feed}, ended := EndedBy(feed, r.closed, r.ended))
  }

  function TornDown(r: Registry, feed: FeedId): Registry
    requires feed in r.users
  {
    Decremented(Ended(r, feed), feed).(open := r.open - {feed})
  }

  lemma {:induction false} OpenKeepsRegistry(r: Registry, feed: FeedId, user: Option<UserId>)
    requires RegistryOk(r) && feed !in r.users
    ensures RegistryOk(Opened(r, feed, user))
  {
    OpenKeepsCounts(r.perUser, r.open, r.users, feed, user);
    OpenKeepsEnded(r.open, r.users.Keys, r.closed, r.failed, r.ended, feed);
    hide Counted, EndedOnce, Claimed, FeedsOf, WithinCap;
    KeysAfterOpen(r.open, r.users, feed, user);
    assert feed !in r.open && |r.open + {feed}| == |r.open| + 1;
  }

  lemma {:induction false} KeysAfterOpen(open: set<FeedId>, users: map<FeedId, Option<UserId>>, feed: FeedId, user: Option<UserId>)
    requires feed !in users
    ensures users[feed := user].Keys == users.Keys + {feed}
    ensures users.Keys + {feed} - (open + {feed}) == users.Keys - open
  {
  }

  lemma {:induction false} OpenIsFresh(r: Registry, feed: FeedId)
    requires RegistryOk(r) && feed !in r.users
    ensures feed !in r.open
  {
  }

  lemma {:induction false} FailKeepsRegistry(r: Registry, feed: FeedId)
    requires RegistryOk(r) && feed in r.users
    ensures RegistryOk(WriteFailed(r, feed))
  {
    hide Counted;
  }

  /** A teardown releases what the feed holds the first time, and changes nothing after that. */
  lemma {:induction false} TeardownKeepsRegistry(r: Registry, feed: FeedId)
    requires RegistryOk(r) && feed in r.users
    ensures RegistryOk(TornDown(r, feed))
    ensures CapsKept(0, r.open, r.users, TornDown(r, feed).open, r.users)
    ensures feed !in r.open ==> TornDown(r, feed) == r
    ensures feed !in r.failed ==> TornDown(r, feed).ended[feed] == 1
  {
    if feed in r.open {
      CloseKeepsCounts(r.perUser, r.open, r.users, feed);
      CloseKeepsEnded(r.open, r.users.Keys, r.closed, r.failed, r.ended, feed);
      CloseKeepsCaps(r.open, r.users, feed);
      hide Counted, Released, CapsKept;
      assert r.users.Keys - (r.open - {feed}) == r.users.Keys - r.open + {feed};
    } else {
      assert r.open - {feed} == r.open;
      assert r.closed + {feed} == r.closed;
    }
  }

  function CountFor(r: Registry, user: UserId): int {
    if user in r.perUser then r.perUser[user] else 0
  }

  /** An accepted feed is open: one more connection in all and one more of its user, and nothing else changes. */
  lemma {:induction false} OpenTakesSlot(r: Registry, feed: FeedId, user: Option<UserId>)
    requires RegistryOk(r) && feed !in r.users
    ensures var r' := Opened(r, feed, user);
            && r'.open == r.open + {feed} && feed !in r.open && feed in r'.users && r'.users[feed] == user
            && (forall f :: f in r.users ==> f in r'.users && r'.users[f] == r.users[f])
            && r'.active == r.active + 1
            && (forall u :: CountFor(r', u) == CountFor(r, u) + if user == Some(u) then 1 else 0)
            && (r'.closed, r'.decremented, r'.ended, r'.failed) == (r.closed, r.decremented, r.ended, r.failed)
  {
  }

  /** Tearing an open feed down gives back exactly its slot, and its user's count. */
  lemma {:induction false} TeardownFreesSlot(r: Registry, feed: FeedId)
    requires RegistryOk(r) && feed in r.open
    ensures var r' := TornDown(r, feed);
            && r'.open == r.open - {feed} && r'.users == r.users
            && r'.active == r.active - 1
            && (forall u :: CountFor(r', u) == CountFor(r, u) - if r.users[feed] == Some(u) then 1 else 0)
            && feed in r'.closed && r'.failed == r.failed
  {
    CloseKeepsCounts(r.perUser, r.open, r.users, feed);
    forall u
      ensures CountFor(TornDown(r, feed), u) == CountFor(r, u) - if r.users[feed] == Some(u) then 1 else 0
    {
      FeedsAfterClose(r.open, r.users, feed, u);
      CountOf(r.perUser, r.open, r.users, u);
      CountOf(Released(r.perUser, r.users[feed]), r.open - {feed}, r.users, u);
    }
  }

  /** A failed write closes the feed, once, and gives nothing back. */
  lemma {:induction false} FailClosesFeed(r: Registry, feed: FeedId)
    ensures var r' := WriteFailed(r, feed);
            && feed in r'.closed && (feed in r'.failed <==> feed in r.failed || feed !in r.closed)
            && (forall f :: f != feed ==> (f in r'.closed <==> f in r.closed) && (f in r'.failed <==> f in r.failed))
            && r' == r.(closed := r'.closed, failed := r'.failed)
  {
  }

  lemma {:induction false} NoneOpen(r: Registry)
    requires RegistryOk(r) && r.open == {}
    ensures r.active == 0 && r.perUser == map[]
  {
    assert forall u :: u in r.perUser ==> CountedFor(r.perUser, r.open, r.users, u) && FeedsOf(r.open, r.users, u) == {};
  }

  // ---------------------------------------------------------------- the controller's counters

  class FeedRegistry {
    var activeConnections: int
    var perUserConnections: Counts
    var openFeeds: set<FeedId>
    var users: map<FeedId, Option<UserId>>
    var closed: set<FeedId>
    var decremented: set<FeedId>
    var ended: multiset<FeedId>
    ghost var failed: set<FeedId>

    ghost function View(): Registry
      reads this
    {
      Registry(activeConnections, perUserConnections, openFeeds, users, closed, decremented, ended, failed)
    }

    ghost predicate Valid()
      reads this
    {
      RegistryOk(View())
    }

    constructor ()
      ensures Valid() && View() == Registry(0, map[], {}, map[], {}, {}, multiset{}, {})
      ensures WithinCap(0, openFeeds, users)
    {
      activeConnections, perUserConnections, openFeeds := 0, map[], {};
      users, closed, decremented, ended, failed := map[], {}, {}, multiset{}, {};
    }

    /** Open a feed unless its user is at the cap the caller resolved for this connection. */
    method OpenFeed(feed: FeedId, user: Option<UserId>, maxPerUser: nat) returns (accepted: bool)
      requires Valid() && feed !in users
      modifies this
      ensures Valid()
      ensures accepted <==> user.None? || |FeedsOf(old(openFeeds), old(users), user.value)| < maxPerUser
      ensures View() == if accepted then Opened(old(View()), feed, user) else old(View())
      ensures accepted ==> CapsKept(maxPerUser, old(openFeeds), old(users), openFeeds, users)
    {
      ghost var before := View();
      if user.Some? {
        CountOf(perUserConnections, openFeeds, users, user.value);
      }
      hide RegistryOk, CapsKept, FeedsOf, Counted;
      if user.Some? {
        var current := if user.value in perUserConnections then perUserConnections[user.value] else 0;
        if current >= maxPerUser {
          return false;
        }
        perUserConnections := perUserConnections[user.value := current + 1];
      }
      activeConnections := activeConnections + 1;
      openFeeds := openFeeds + {feed};
      users := users[feed := user];
      accepted := true;
      OpenKeepsRegistry(before, feed, user);
      OpenIsFresh(before, feed);
      OpenKeepsCaps(maxPerUser, before.open, before.users, feed, user);
    }

    /** A write to the client failed: the feed is closed, but still owes its teardown. */
    method WriteFails(feed: FeedId)
      requires Valid() && feed in users
      modifies this`closed, this`failed
      ensures Valid() && View() == WriteFailed(old(View()), feed)
    {
      FailKeepsRegistry(View(), feed);
      hide RegistryOk;
      if feed in closed {
        return;
      }
      closed := closed + {feed};
      failed := failed + {feed};
    }

    method DecrementCounters(feed: FeedId)
      requires feed in users
      modifies this`activeConnections, this`perUserConnections, this`decremented
      ensures View() == Decremented(old(View()), feed)
    {
      if feed in decremented {
        return;
      }
      decremented := decremented + {feed};
      activeConnections := if activeConnections - 1 > 0 then activeConnections - 1 else 0;
      var user := users[feed];
      if user.Some? {
        var remaining := (if user.value in perUserConnections then perUserConnections[user.value] else 1) - 1;
        if remaining <= 0 {
          perUserConnections := perUserConnections - {user.value};
        } else {
          perUserConnections := perUserConnections[user.value := remaining];
        }
      }
    }

    /** Only a response still considered open is ended; one that a write failed on is left. */
    method EndResponse(feed: FeedId)
      modifies this`closed, this`ended
      ensures View() == Ended(old(View()), feed)
    {
      if feed !in closed {
        ended := ended + multiset{feed};
      }
      closed := closed + {feed};
    }

    /** Runs on close, on error and at shutdown, any number of times. */
    method Teardown(feed: FeedId)
      requires Valid() && feed in users
      modifies this
      ensures Valid() && View() == TornDown(old(View()), feed)
    {
      hide RegistryOk, Decremented, Ended;
      ghost var before := View();
      EndResponse(feed);
      DecrementCounters(feed);
      openFeeds := openFeeds - {feed};
      TeardownKeepsRegistry(before, feed);
    }

    method CloseActivityStreams() returns (count: nat)
      requires Valid()
      modifies this
      ensures Valid() && openFeeds == {} && count == |old(openFeeds)|
      ensures activeConnections == 0 && perUserConnections == map[]
    {
      var open := openFeeds;
      var left := open;
      while left != {}
        invariant Valid() && left <= open && openFeeds == left
        decreases |left|
      {
        var feed :| feed in left;
        Teardown(feed);
        left := left - {feed};
      }
      count := |open|;
      NoneOpen(View());
    }
  }
}
