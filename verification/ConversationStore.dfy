/**
 The counters a conversation row keeps about its messages, and the operations that move them.

 The message table is grouped by conversation id; it has no foreign key to the conversation
 table. Each operation is one transaction. Times are integers.
 */
module ConversationStore {
  import opened Options

  type ConversationId = string

  datatype MessageRow = MessageRow(id: string, role: string, createdAt: int)

  datatype Row = Row(
    instanceId: string,
    channel: string,
    source: string,
    userIdentifier: Option<string>,
    contextPrompt: Option<string>,
    title: Option<string>,
    messageCount: int,
    userMessageCount: int,
    lastMessageAt: Option<int>)

  datatype EnsureOptions = EnsureOptions(
    channel: Option<string>,
    source: Option<string>,
    userIdentifier: Option<string>,
    contextPrompt: Option<string>)

  datatype Db = Db(conversations: map<ConversationId, Row>, messages: map<ConversationId, set<MessageRow>>)

  datatype Op =
    | Ensure(id: ConversationId, instanceId: string, options: EnsureOptions)
    | Append(id: ConversationId, rows: set<MessageRow>)
    | ReplaceOldest(id: ConversationId, count: nat, oldest: set<MessageRow>, summaryId: string, now: int)
    | Rename(id: ConversationId, newId: ConversationId, inTenant: bool, title: Option<string>)
    | Delete(id: ConversationId, inTenant: bool)

  function MessagesOf(db: Db, id: ConversationId): set<MessageRow> {
    if id in db.messages then db.messages[id] else {}
  }

  function UserRows(rows: set<MessageRow>): set<MessageRow> {
    set r | r in rows && r.role == "user"
  }

  predicate Apart(a: set<MessageRow>, b: set<MessageRow>) {
    forall r, s :: r in a && s in b ==> r.id != s.id
  }

  predicate OwnIds(rows: set<MessageRow>) {
    forall r, s :: r in rows && s in rows && r.id == s.id ==> r == s
  }

  /** No inserted row takes a primary key that is in use, or another inserted row's. */
  predicate FreshRows(db: Db, rows: set<MessageRow>) {
    (forall id :: id in db.messages ==> Apart(db.messages[id], rows)) && OwnIds(rows)
  }

  /** SQL's GREATEST, which ignores a null. */
  function Greatest(a: Option<int>, b: int): Option<int> {
    if a.Some? && a.value > b then a else Some(b)
  }

  /** `latest` is the newest time among the rows, absent when there are none. */
  ghost predicate IsLatest(rows: set<MessageRow>, latest: Option<int>) {
    && (latest.None? <==> rows == {})
    && (forall r :: r in rows ==> latest.Some? && r.createdAt <= latest.value)
    && (latest.Some? ==> exists r :: r in rows && r.createdAt == latest.value)
  }

  function Bump(row: Row, added: int, users: int, latest: Option<int>): Row {
    row.(messageCount := row.messageCount + added,
         userMessageCount := row.userMessageCount + users,
         lastMessageAt := if latest.Some? then Greatest(row.lastMessageAt, latest.value) else row.lastMessageAt)
  }

  ghost function Newest(rows: set<MessageRow>): (r: MessageRow)
    requires rows != {}
    ensures r in rows && forall x :: x in rows ==> x.createdAt <= r.createdAt
    decreases |rows|
  {
    var r :| r in rows;
    if rows == {r} then r
    else
      assert rows == (rows - {r}) + {r} && rows - {r} != {};
      var rest := Newest(rows - {r});
      assert forall x :: x in rows ==> x == r || x in rows - {r};
      if r.createdAt > rest.createdAt then r else rest
  }

  ghost function Latest(rows: set<MessageRow>): (latest: Option<int>)
    ensures IsLatest(rows, latest)
  {
    if rows == {} then None else Some(Newest(rows).createdAt)
  }

  ghost function AppendTo(db: Db, id: ConversationId, rows: set<MessageRow>): Db {
    if rows == {} || !FreshRows(db, rows) then db
    else Db(if id in db.conversations
            then db.conversations[id := Bump(db.conversations[id], |rows|, |UserRows(rows)|, Latest(rows))]
            else db.conversations,
            db.messages[id := MessagesOf(db, id) + rows])
  }

  /** `oldest` is what ordering the rows by creation time and taking the first `count` returned. */
  ghost predicate SelectedOldest(rows: set<MessageRow>, count: nat, oldest: set<MessageRow>) {
    && oldest <= rows
    && |oldest| == (if |rows| <= count then |rows| else count)
    && forall o, r :: o in oldest && r in rows - oldest ==> o.createdAt <= r.createdAt
  }

  function Remaining(db: Db, id: ConversationId, oldest: set<MessageRow>): Db {
    db.(messages := db.messages[id := MessagesOf(db, id) - oldest])
  }

  function ReplaceIn(db: Db, id: ConversationId, oldest: set<MessageRow>, summaryId: string, now: int): Db {
    var summary := MessageRow(summaryId, "system", now);
    if oldest == {} || !FreshRows(Remaining(db, id, oldest), {summary}) then db
    else Db(if id in db.conversations
            then db.conversations[id := Bump(db.conversations[id], 1 - |oldest|, -|UserRows(oldest)|, Some(now))]
            else db.conversations,
            db.messages[id := MessagesOf(db, id) - oldest + {summary}])
  }

  function Retitled(row: Row, title: Option<string>): Row {
    if title.Some? then row.(title := title) else row
  }

  /** The unique key on the conversation id rejects a rename onto another conversation. */
  predicate Renames(db: Db, id: ConversationId, newId: ConversationId, inTenant: bool) {
    id in db.conversations && inTenant && (newId == id || newId !in db.conversations)
  }

  function RenameIn(db: Db, id: ConversationId, newId: ConversationId, inTenant: bool, title: Option<string>): Db {
    if !Renames(db, id, newId, inTenant) then db
    else if newId == id then db.(conversations := db.conversations[id := Retitled(db.conversations[id], title)])
    else Db((db.conversations - {id})[newId := Retitled(db.conversations[id], title)],
            (db.messages - {id})[newId := MessagesOf(db, newId) + MessagesOf(db, id)])
  }

  function DeleteIn(db: Db, id: ConversationId, inTenant: bool): Db {
    if id !in db.conversations || !inTenant then db
    else Db(db.conversations - {id}, db.messages - {id})
  }

  function Given(option: Option<string>, default: string): string {
    if option.Some? then option.value else default
  }

  function NewRow(instanceId: string, o: EnsureOptions): Row {
    Row(instanceId, Given(o.channel, "web"), Given(o.source, "user"), o.userIdentifier, o.contextPrompt, None, 0, 0, None)
  }

  /** What a conflicting insert updates: an empty context prompt leaves the stored one. */
  function Refreshed(row: Row, o: EnsureOptions): Row {
    row.(channel := Given(o.channel, "web"),
         userIdentifier := o.userIdentifier,
         contextPrompt := if Given(o.contextPrompt, "") != "" then o.contextPrompt else row.contextPrompt)
  }

  function EnsureIn(db: Db, id: ConversationId, instanceId: string, o: EnsureOptions): Db {
    db.(conversations := db.conversations[id := if id in db.conversations then Refreshed(db.conversations[id], o)
                                                else NewRow(instanceId, o)])
  }

  ghost function Next(db: Db, op: Op): Db {
    match op
    case Ensure(id, instanceId, o) => EnsureIn(db, id, instanceId, o)
    case Append(id, rows) => AppendTo(db, id, rows)
    case ReplaceOldest(id, _, oldest, summaryId, now) => ReplaceIn(db, id, oldest, summaryId, now)
    case Rename(id, newId, inTenant, title) => RenameIn(db, id, newId, inTenant, title)
    case Delete(id, inTenant) => DeleteIn(db, id, inTenant)
  }

  class ConversationStore {
    var conversations: map<ConversationId, Row>
    var messages: map<ConversationId, set<MessageRow>>

    function View(): Db
      reads this
    {
      Db(conversations, messages)
    }

    constructor ()
      ensures View() == Db(map[], map[])
    {
      conversations, messages := map[], map[];
    }

    method EnsureConversation(id: ConversationId, instanceId: string, o: EnsureOptions) returns (created: bool)
      modifies this
      ensures View() == EnsureIn(old(View()), id, instanceId, o)
      ensures created <==> id !in old(conversations)
    {
      created := id !in conversations;
      conversations := conversations[id := if created then NewRow(instanceId, o) else Refreshed(conversations[id], o)];
    }

    method LatestOf(rows: set<MessageRow>) returns (latest: Option<int>)
      ensures latest == Latest(rows)
    {
      latest := None;
      var left := rows;
      ghost var top: MessageRow := *;
      while left != {}
        invariant left <= rows
        invariant latest.None? ==> left == rows
        invariant latest.Some? ==> top in rows && latest == Some(top.createdAt)
        invariant forall r :: r in rows && r !in left ==> latest.Some? && r.createdAt <= latest.value
        decreases |left|
      {
        var r :| r in left;
        if latest.None? || r.createdAt > latest.value {
          latest, top := Some(r.createdAt), r;
        }
        left := left - {r};
      }
      if rows != {} {
        assert Newest(rows) in rows && top.createdAt <= Newest(rows).createdAt;
      }
    }

    method AppendMessages(id: ConversationId, rows: set<MessageRow>)
      modifies this
      ensures View() == AppendTo(old(View()), id, rows)
    {
      if rows == {} || !FreshRows(View(), rows) {
        return;
      }
      messages := messages[id := (if id in messages then messages[id] else {}) + rows];
      var latest := LatestOf(rows);
      if id in conversations {
        conversations := conversations[id := Bump(conversations[id], |rows|, |UserRows(rows)|, latest)];
      }
    }

    method ReplaceOldestMessages(id: ConversationId, count: nat, oldest: set<MessageRow>, summaryId: string, now: int)
      requires SelectedOldest(MessagesOf(View(), id), count, oldest)
      modifies this
      ensures View() == ReplaceIn(old(View()), id, oldest, summaryId, now)
    {
      var summary := MessageRow(summaryId, "system", now);
      if oldest == {} || !FreshRows(Remaining(View(), id, oldest), {summary}) {
        return;
      }
      messages := messages[id := messages[id] - oldest + {summary}];
      if id in conversations {
        conversations := conversations[id := Bump(conversations[id], 1 - |oldest|, -|UserRows(oldest)|, Some(now))];
      }
    }

    method RenameConversation(id: ConversationId, newId: ConversationId, inTenant: bool, title: Option<string>) returns (renamed: bool)
      modifies this
      ensures View() == RenameIn(old(View()), id, newId, inTenant, title)
      ensures renamed <==> id in old(conversations) && inTenant && (newId == id || newId !in old(conversations))
    {
      if id !in conversations || !inTenant {
        return false;
      }
      if newId != id {
        if newId in conversations {
          return false;
        }
        var moved := (if newId in messages then messages[newId] else {}) + (if id in messages then messages[id] else {});
        messages := (messages - {id})[newId := moved];
      }
      var row := Retitled(conversations[id], title);
      conversations := if newId == id then conversations[id := row] else (conversations - {id})[newId := row];
      renamed := true;
    }

    method DeleteConversation(id: ConversationId, inTenant: bool) returns (deleted: bool)
      modifies this
      ensures View() == DeleteIn(old(View()), id, inTenant)
      ensures deleted <==> id in old(conversations) && inTenant
    {
      deleted := id in conversations && inTenant;
      if deleted {
        messages := messages - {id};
        conversations := conversations - {id};
      }
    }
  }

  /** Such a selection always exists. */
  lemma {:induction false} SelectionExists(rows: set<MessageRow>, count: nat) returns (oldest: set<MessageRow>)
    ensures SelectedOldest(rows, count, oldest)
    decreases |rows|
  {
    if |rows| <= count {
      oldest := rows;
    } else {
      var last := Newest(rows);
      oldest := SelectionExists(rows - {last}, count);
    }
  }

  // ---------------------------------------------------------------- what the counters say

  ghost predicate Tallied(row: Row, rows: set<MessageRow>) {
    row.messageCount == |rows| && row.userMessageCount == |set r | r in rows && r.role == "user"|
  }

  predicate Seen(row: Row, r: MessageRow) {
    row.lastMessageAt.Some? && row.lastMessageAt.value >= r.createdAt
  }

  ghost predicate UpToDate(row: Row, rows: set<MessageRow>) {
    forall r :: r in rows ==> Seen(row, r)
  }

  ghost predicate TalliesRight(db: Db) {
    forall id :: id in db.conversations ==> Tallied(db.conversations[id], MessagesOf(db, id))
  }

  ghost predicate TimesRight(db: Db) {
    forall id :: id in db.conversations ==> UpToDate(db.conversations[id], MessagesOf(db, id))
  }

  /** The stored counters of every conversation say what its messages are. */
  ghost predicate CountersRight(db: Db) {
    TalliesRight(db) && TimesRight(db)
  }

  /** The primary key of the message table. */
  ghost predicate UniqueIds(db: Db) {
    && (forall id :: id in db.messages ==> OwnIds(db.messages[id]))
    && (forall a, b :: a in db.messages && b in db.messages && a != b ==> Apart(db.messages[a], db.messages[b]))
  }

  /** What the database guarantees of an operation's own input. */
  ghost predicate Sound(db: Db, op: Op) {
    op.ReplaceOldest? ==> SelectedOldest(MessagesOf(db, op.id), op.count, op.oldest)
  }

  /** A row comes to stand for messages that were stored under its id before there was a row. */
  predicate Adopts(db: Db, op: Op) {
    match op
    case Ensure(id, _, _) => id !in db.conversations && MessagesOf(db, id) != {}
    case Rename(id, newId, inTenant, _) => Renames(db, id, newId, inTenant) && newId != id && MessagesOf(db, newId) != {}
    case _ => false
  }

  /** It adopts a message newer than the last one it knows of. */
  predicate AdoptsNewer(db: Db, op: Op) {
    && Adopts(db, op)
    && (op.Rename? ==> exists r :: r in MessagesOf(db, op.newId) && !Seen(db.conversations[op.id], r))
  }

  // ---------------------------------------------------------------- the counts

  /** How far the counters of a row are off. */
  ghost function Drift(row: Row, rows: set<MessageRow>): (int, int) {
    (row.messageCount - |rows|, row.userMessageCount - |set r | r in rows && r.role == "user"|)
  }

  lemma {:induction false} AppendDrift(row: Row, had: set<MessageRow>, rows: set<MessageRow>, latest: Option<int>)
    requires had !! rows
    ensures Drift(Bump(row, |rows|, |UserRows(rows)|, latest), had + rows) == Drift(row, had)
  {
    assert UserRows(had + rows) == UserRows(had) + UserRows(rows);
    assert UserRows(had) !! UserRows(rows);
  }

  lemma {:induction false} ReplaceDrift(row: Row, had: set<MessageRow>, oldest: set<MessageRow>, summary: MessageRow)
    requires oldest <= had && summary !in had - oldest && summary.role == "system"
    ensures Drift(Bump(row, 1 - |oldest|, -|UserRows(oldest)|, Some(summary.createdAt)), had - oldest + {summary}) == Drift(row, had)
  {
    assert |had - oldest| == |had| - |oldest|;
    assert UserRows(had - oldest + {summary}) == UserRows(had) - UserRows(oldest);
    assert UserRows(oldest) <= UserRows(had);
    assert |UserRows(had) - UserRows(oldest)| == |UserRows(had)| - |UserRows(oldest)|;
  }

  lemma {:induction false} AppendDriftKept(db: Db, id: ConversationId, rows: set<MessageRow>)
    requires id in db.conversations
    ensures var db' := AppendTo(db, id, rows);
            Drift(db'.conversations[id], MessagesOf(db', id)) == Drift(db.conversations[id], MessagesOf(db, id))
  {
    if FreshRows(db, rows) {
      FreshApart(db, id, rows);
      AppendDrift(db.conversations[id], MessagesOf(db, id), rows, Latest(rows));
    }
    hide Drift, FreshRows, UserRows, Latest, Bump;
  }

  lemma {:induction false} ReplaceDriftKept(db: Db, id: ConversationId, oldest: set<MessageRow>, summaryId: string, now: int)
    requires id in db.conversations && oldest <= MessagesOf(db, id)
    ensures var db' := ReplaceIn(db, id, oldest, summaryId, now);
            Drift(db'.conversations[id], MessagesOf(db', id)) == Drift(db.conversations[id], MessagesOf(db, id))
  {
    var left, summary := Remaining(db, id, oldest), MessageRow(summaryId, "system", now);
    if FreshRows(left, {summary}) {
      FreshApart(left, id, {summary});
      ReplaceDrift(db.conversations[id], MessagesOf(db, id), oldest, summary);
    }
    hide Drift, FreshRows, UserRows, Bump;
  }

  /** Right or wrong, the counters of a conversation move with its rows: appending and replacing leave them as far off as they were. */
  lemma {:induction false} DriftKept(db: Db, op: Op, k: ConversationId)
    requires (op.Append? || op.ReplaceOldest?) && Sound(db, op) && k in db.conversations
    ensures k in Next(db, op).conversations
    ensures Drift(Next(db, op).conversations[k], MessagesOf(Next(db, op), k)) == Drift(db.conversations[k], MessagesOf(db, k))
  {
    if k == op.id {
      match op
      case Append(id, rows) => AppendDriftKept(db, id, rows);
      case ReplaceOldest(id, _, oldest, summaryId, now) => ReplaceDriftKept(db, id, oldest, summaryId, now);
    }
    hide Drift, FreshRows, UserRows, Latest, Bump;
  }

  lemma {:induction false} MergedTallies(row: Row, had: set<MessageRow>, found: set<MessageRow>)
    requires Tallied(row, had) && had !! found
    ensures Tallied(row, found + had) <==> found == {}
  {
    assert found == {} ==> found + had == had;
    assert |found + had| == |found| + |had|;
  }

  lemma {:induction false} FreshApart(db: Db, id: ConversationId, rows: set<MessageRow>)
    requires FreshRows(db, rows)
    ensures MessagesOf(db, id) !! rows
  {
  }

  lemma {:induction false} IdsApart(db: Db, a: ConversationId, b: ConversationId)
    requires UniqueIds(db) && a != b
    ensures MessagesOf(db, a) !! MessagesOf(db, b)
  {
  }

  lemma {:induction false} DriftTells(row: Row, rows: set<MessageRow>)
    ensures Tallied(row, rows) <==> Drift(row, rows) == (0, 0)
  {
  }

  lemma {:induction false} TalliesKept(db: Db, op: Op)
    requires TalliesRight(db) && UniqueIds(db) && Sound(db, op)
    ensures TalliesRight(Next(db, op)) <==> !Adopts(db, op)
  {
    hide UniqueIds, Tallied, FreshRows, UserRows, Latest, Drift;
    match op
    case Ensure(id, instanceId, o) => EnsureTalliesKept(db, id, instanceId, o);
    case Append(_, _) => MovedTalliesKept(db, op);
    case ReplaceOldest(_, _, _, _, _) => MovedTalliesKept(db, op);
    case Rename(id, newId, inTenant, title) => RenameTalliesKept(db, id, newId, inTenant, title);
    case Delete(id, inTenant) =>
  }

  lemma {:induction false} MovedTalliesKept(db: Db, op: Op)
    requires TalliesRight(db) && Sound(db, op) && (op.Append? || op.ReplaceOldest?)
    ensures TalliesRight(Next(db, op))
  {
    assert Next(db, op).conversations.Keys == db.conversations.Keys;
    hide Tallied, Drift, Next, Sound;
    forall k | k in db.conversations
      ensures Tallied(Next(db, op).conversations[k], MessagesOf(Next(db, op), k))
    {
      DriftKept(db, op, k);
      DriftTells(db.conversations[k], MessagesOf(db, k));
      DriftTells(Next(db, op).conversations[k], MessagesOf(Next(db, op), k));
    }
  }

  lemma {:induction false} EnsureTalliesKept(db: Db, id: ConversationId, instanceId: string, o: EnsureOptions)
    requires TalliesRight(db)
    ensures TalliesRight(EnsureIn(db, id, instanceId, o)) <==> !Adopts(db, Ensure(id, instanceId, o))
  {
    var db' := EnsureIn(db, id, instanceId, o);
    assert UserRows({}) == {};
    assert id in db'.conversations && MessagesOf(db', id) == MessagesOf(db, id);
  }

  lemma {:induction false} RenameTalliesKept(db: Db, id: ConversationId, newId: ConversationId, inTenant: bool, title: Option<string>)
    requires TalliesRight(db) && UniqueIds(db)
    ensures TalliesRight(RenameIn(db, id, newId, inTenant, title)) <==> !Adopts(db, Rename(id, newId, inTenant, title))
  {
    if Renames(db, id, newId, inTenant) && newId != id {
      IdsApart(db, id, newId);
      var had, found, row := MessagesOf(db, id), MessagesOf(db, newId), Retitled(db.conversations[id], title);
      assert Tallied(row, found + had) <==> found == {} by {
        MergedTallies(row, had, found);
      }
      RenamedRows(db, id, newId, inTenant, title);
      hide Tallied, RenameIn, UserRows, UniqueIds, MessagesOf, Retitled;
    }
  }

  /** What an accepted rename to another id leaves under each id. */
  lemma {:induction false} RenamedRows(db: Db, id: ConversationId, newId: ConversationId, inTenant: bool, title: Option<string>)
    requires Renames(db, id, newId, inTenant) && newId != id
    ensures var db' := RenameIn(db, id, newId, inTenant, title);
            && db'.conversations.Keys == db.conversations.Keys - {id} + {newId}
            && db'.conversations[newId] == Retitled(db.conversations[id], title)
            && MessagesOf(db', newId) == MessagesOf(db, newId) + MessagesOf(db, id)
            && (forall k :: k in db'.conversations && k != newId ==> db'.conversations[k] == db.conversations[k])
            && (forall k :: k != newId && k != id ==> MessagesOf(db', k) == MessagesOf(db, k))
  {
  }

  // ---------------------------------------------------------------- the times

  lemma {:induction false} TimesKept(db: Db, op: Op)
    requires TimesRight(db)
    ensures TimesRight(Next(db, op)) <==> !AdoptsNewer(db, op)
  {
    match op
    case Ensure(id, instanceId, o) => EnsureTimesKept(db, id, instanceId, o);
    case Append(id, rows) => AppendTimesKept(db, id, rows);
    case ReplaceOldest(id, _, oldest, summaryId, now) => ReplaceTimesKept(db, id, oldest, summaryId, now);
    case Rename(id, newId, inTenant, title) => RenameTimesKept(db, id, newId, inTenant, title);
    case Delete(id, inTenant) =>
  }

  lemma {:induction false} EnsureTimesKept(db: Db, id: ConversationId, instanceId: string, o: EnsureOptions)
    requires TimesRight(db)
    ensures TimesRight(EnsureIn(db, id, instanceId, o)) <==> !AdoptsNewer(db, Ensure(id, instanceId, o))
  {
    var db' := EnsureIn(db, id, instanceId, o);
    assert id in db'.conversations && MessagesOf(db', id) == MessagesOf(db, id);
  }

  lemma {:induction false} RenameTimesKept(db: Db, id: ConversationId, newId: ConversationId, inTenant: bool, title: Option<string>)
    requires TimesRight(db)
    ensures TimesRight(RenameIn(db, id, newId, inTenant, title)) <==> !AdoptsNewer(db, Rename(id, newId, inTenant, title))
  {
    if Renames(db, id, newId, inTenant) && newId != id {
      RenamedRows(db, id, newId, inTenant, title);
      hide RenameIn;
    }
  }

  lemma {:induction false} AppendTimesKept(db: Db, id: ConversationId, rows: set<MessageRow>)
    requires TimesRight(db)
    ensures TimesRight(AppendTo(db, id, rows))
  {
    hide FreshRows, UserRows, Newest;
  }

  lemma {:induction false} ReplaceTimesKept(db: Db, id: ConversationId, oldest: set<MessageRow>, summaryId: string, now: int)
    requires TimesRight(db)
    ensures TimesRight(ReplaceIn(db, id, oldest, summaryId, now))
  {
    hide FreshRows, UserRows;
  }

  // ---------------------------------------------------------------- over every operation and run

  /** The rows under one id replaced by others with keys of their own. */
  lemma {:induction false} UniqueIdsUpdated(db: Db, id: ConversationId, rows: set<MessageRow>)
    requires UniqueIds(db) && OwnIds(rows)
    requires forall k :: k in db.messages && k != id ==> Apart(db.messages[k], rows)
    ensures UniqueIds(db.(messages := db.messages[id := rows]))
  {
    hide OwnIds;
    forall k | k in db.messages && k != id
      ensures Apart(rows, db.messages[k])
    {
      ApartFlip(db.messages[k], rows);
    }
    hide Apart;
  }

  lemma {:induction false} ApartFlip(a: set<MessageRow>, b: set<MessageRow>)
    requires Apart(a, b)
    ensures Apart(b, a)
  {
  }

  lemma {:induction false} ApartUnion(a: set<MessageRow>, b: set<MessageRow>, c: set<MessageRow>)
    ensures Apart(a, b) && Apart(a, c) ==> Apart(a, b + c)
    ensures Apart(b, c) && OwnIds(b) && OwnIds(c) ==> OwnIds(b + c)
  {
  }

  lemma {:induction false} ApartLess(a: set<MessageRow>, b: set<MessageRow>, less: set<MessageRow>)
    requires less <= b
    ensures Apart(a, b) ==> Apart(a, less)
    ensures OwnIds(b) ==> OwnIds(less)
  {
  }

  lemma {:induction false} UniqueIdsKept(db: Db, op: Op)
    requires UniqueIds(db)
    ensures UniqueIds(Next(db, op))
  {
    hide Apart, OwnIds;
    match op
    case Ensure(id, instanceId, o) =>
    case Append(id, rows) => AddedUniqueIds(db, id, rows);
    case ReplaceOldest(id, count, oldest, summaryId, now) =>
      if oldest != {} {
        var left := Remaining(db, id, oldest);
        RemainingUniqueIds(db, id, oldest);
        AddedUniqueIds(left, id, {MessageRow(summaryId, "system", now)});
        assert MessagesOf(left, id) == MessagesOf(db, id) - oldest;
        var rows := MessagesOf(left, id) + {MessageRow(summaryId, "system", now)};
        assert left.messages[id := rows] == db.messages[id := rows];
      }
    case Rename(id, newId, inTenant, title) => RenameUniqueIds(db, id, newId, inTenant, title);
    case Delete(id, inTenant) =>
  }

  lemma {:induction false} AddedUniqueIds(db: Db, id: ConversationId, rows: set<MessageRow>)
    requires UniqueIds(db)
    ensures FreshRows(db, rows) ==> UniqueIds(db.(messages := db.messages[id := MessagesOf(db, id) + rows]))
  {
    if FreshRows(db, rows) {
      NoRows();
      hide Apart, OwnIds;
      forall k | k in db.messages && k != id
        ensures Apart(db.messages[k], MessagesOf(db, id) + rows)
      {
        ApartNone(db.messages[k]);
        ApartUnion(db.messages[k], MessagesOf(db, id), rows);
      }
      ApartNone(rows);
      ApartUnion({}, MessagesOf(db, id), rows);
      UniqueIdsUpdated(db, id, MessagesOf(db, id) + rows);
    }
  }

  lemma {:induction false} NoRows()
    ensures OwnIds({})
  {
  }

  lemma {:induction false} ApartNone(a: set<MessageRow>)
    ensures Apart(a, {}) && Apart({}, a)
  {
  }

  lemma {:induction false} RemainingUniqueIds(db: Db, id: ConversationId, oldest: set<MessageRow>)
    requires UniqueIds(db)
    ensures UniqueIds(Remaining(db, id, oldest))
  {
    NoRows();
    hide Apart, OwnIds;
    var had := MessagesOf(db, id);
    ApartLess({}, had, had - oldest);
    forall k | k in db.messages && k != id
      ensures Apart(db.messages[k], had - oldest)
    {
      ApartNone(db.messages[k]);
      ApartLess(db.messages[k], had, had - oldest);
    }
    UniqueIdsUpdated(db, id, had - oldest);
  }

  lemma {:induction false} RenameUniqueIds(db: Db, id: ConversationId, newId: ConversationId, inTenant: bool, title: Option<string>)
    requires UniqueIds(db)
    ensures UniqueIds(RenameIn(db, id, newId, inTenant, title))
  {
    hide Apart, OwnIds;
    if Renames(db, id, newId, inTenant) && newId != id {
      var others := db.(messages := db.messages - {id});
      if id in db.messages {
        assert FreshRows(others, db.messages[id]);
        AddedUniqueIds(others, newId, db.messages[id]);
      } else {
        NoRows();
        forall k | k in others.messages
          ensures Apart(others.messages[k], {})
        {
          ApartNone(others.messages[k]);
        }
        AddedUniqueIds(others, newId, {});
      }
    }
  }

  /** An operation keeps every counter right if and only if it adopts no stored messages. */
  lemma {:induction false} CountersKept(db: Db, op: Op)
    requires CountersRight(db) && UniqueIds(db) && Sound(db, op)
    ensures CountersRight(Next(db, op)) <==> !Adopts(db, op)
  {
    hide TalliesRight, TimesRight, Adopts, Next;
    TalliesKept(db, op);
    TimesKept(db, op);
  }

  ghost function Play(db: Db, ops: seq<Op>): Db {
    if ops == [] then db else Next(Play(db, ops[..|ops| - 1]), ops[|ops| - 1])
  }

  ghost predicate AllSound(db: Db, ops: seq<Op>) {
    ops == [] || (AllSound(db, ops[..|ops| - 1]) && Sound(Play(db, ops[..|ops| - 1]), ops[|ops| - 1]))
  }

  ghost predicate NeverAdopts(db: Db, ops: seq<Op>) {
    ops == [] || (NeverAdopts(db, ops[..|ops| - 1]) && !Adopts(Play(db, ops[..|ops| - 1]), ops[|ops| - 1]))
  }

  ghost predicate NeverAdoptsNewer(db: Db, ops: seq<Op>) {
    ops == [] || (NeverAdoptsNewer(db, ops[..|ops| - 1]) && !AdoptsNewer(Play(db, ops[..|ops| - 1]), ops[|ops| - 1]))
  }

  /** The counters are right at the start and after every operation. */
  ghost predicate RightThroughout(db: Db, ops: seq<Op>) {
    CountersRight(Play(db, ops)) && (ops != [] ==> RightThroughout(db, ops[..|ops| - 1]))
  }

  /** Over any run, the counters stay right if and only if no operation adopts stored messages. */
  lemma {:induction false} CountersThroughout(db: Db, ops: seq<Op>)
    requires CountersRight(db) && UniqueIds(db) && AllSound(db, ops)
    ensures RightThroughout(db, ops) <==> NeverAdopts(db, ops)
    ensures UniqueIds(Play(db, ops))
  {
    hide CountersRight, UniqueIds, Adopts, Sound, Next;
    if ops != [] {
      var front := ops[..|ops| - 1];
      CountersThroughout(db, front);
      UniqueIdsKept(Play(db, front), ops[|ops| - 1]);
      if RightThroughout(db, front) {
        CountersKept(Play(db, front), ops[|ops| - 1]);
      }
    }
  }

  const EMPTY_DB := Db(map[], map[])

  /** It does happen: a message stored before its conversation is created is never counted. */
  lemma {:induction false} LateEnsureMiscounts(id: ConversationId, r: MessageRow, instanceId: string, o: EnsureOptions)
    ensures var appended := Next(EMPTY_DB, Append(id, {r}));
            var ensured := Next(appended, Ensure(id, instanceId, o));
            && CountersRight(appended) && MessagesOf(ensured, id) == {r}
            && ensured.conversations[id].messageCount == 0 && ensured.conversations[id].lastMessageAt == None
  {
  }

  // ---------------------------------------------------------------- the analytics filter

  predicate InWindow(r: MessageRow, from: int, to: int) {
    from <= r.createdAt <= to
  }

  /** `last_message_at >= from`, false for a null. */
  predicate ActiveSince(row: Row, from: int) {
    row.lastMessageAt.Some? && row.lastMessageAt.value >= from
  }

  /** A query that joins messages to conversations yields the same messages in a window with and without the filter. */
  ghost predicate FilterExact(db: Db, from: int, to: int) {
    forall id, r :: id in db.conversations && r in MessagesOf(db, id) && InWindow(r, from, to)
                    ==> ActiveSince(db.conversations[id], from)
  }

  lemma {:induction false} FilterExactIff(db: Db)
    ensures (forall from, to :: FilterExact(db, from, to)) <==> TimesRight(db)
  {
    if forall from, to :: FilterExact(db, from, to) {
      forall id, r | id in db.conversations && r in MessagesOf(db, id)
        ensures Seen(db.conversations[id], r)
      {
        assert FilterExact(db, r.createdAt, r.createdAt);
        assert InWindow(r, r.createdAt, r.createdAt);
      }
    }
  }

  ghost predicate FilterExactThroughout(db: Db, ops: seq<Op>) {
    && (forall from, to :: FilterExact(Play(db, ops), from, to))
    && (ops != [] ==> FilterExactThroughout(db, ops[..|ops| - 1]))
  }

  /** The filter drops nothing throughout a run if and only if no row adopts a message newer than its last. */
  lemma {:induction false} FilterDropsNothing(db: Db, ops: seq<Op>)
    requires TimesRight(db)
    ensures FilterExactThroughout(db, ops) <==> NeverAdoptsNewer(db, ops)
  {
    hide TimesRight, AdoptsNewer, Next;
    FilterExactIff(Play(db, ops));
    if ops != [] {
      var front := ops[..|ops| - 1];
      FilterDropsNothing(db, front);
      FilterExactIff(Play(db, front));
      if FilterExactThroughout(db, front) {
        TimesKept(Play(db, front), ops[|ops| - 1]);
      }
    }
  }
}
