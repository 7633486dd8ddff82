/** What the operations of the conversation store do to each message and each row, followed over whole runs. */
module ConversationContents {
  import opened Options
  import opened ConversationStore

  // ---------------------------------------------------------------- one message

  /** The keys of the rows are new to the table, and each row has its own. */
  ghost predicate NewKeys(db: Db, rows: set<MessageRow>) {
    && (forall k, r, s :: r in MessagesOf(db, k) && s in rows ==> r.id != s.id)
    && (forall r, s :: r in rows && s in rows && r.id == s.id ==> r == s)
  }

  /** Once `oldest` is gone no row of the table has the key. */
  ghost predicate KeyFreed(db: Db, id: ConversationId, oldest: set<MessageRow>, key: string) {
    forall k, r :: r in MessagesOf(db, k) && r.id == key ==> k == id && r in oldest
  }

  /** The operation stores `r` under the id. */
  ghost predicate Stores(db: Db, op: Op, r: MessageRow, id: ConversationId) {
    match op
    case Append(to, rows) => to == id && r in rows && NewKeys(db, rows)
    case ReplaceOldest(at, _, oldest, summaryId, now) =>
      at == id && oldest != {} && KeyFreed(db, at, oldest, summaryId) && r == MessageRow(summaryId, "system", now)
    case _ => false
  }

  /** The operation removes `r`, which is stored under the id: replaced by a summary, or deleted with its conversation. */
  ghost predicate Drops(db: Db, op: Op, r: MessageRow, id: ConversationId) {
    match op
    case ReplaceOldest(at, _, oldest, summaryId, _) => at == id && r in oldest && KeyFreed(db, at, oldest, summaryId)
    case Delete(gone, inTenant) => gone == id && gone in db.conversations && inTenant
    case _ => false
  }

  /** The operation moves what is stored under the id to another. */
  ghost predicate Moves(db: Db, op: Op, id: ConversationId) {
    op.Rename? && op.id == id && id in db.conversations && op.inTenant && op.newId !in db.conversations
  }

  /** Where a message is after an operation, given where it was. */
  ghost function Followed(db: Db, op: Op, r: MessageRow, at: Option<ConversationId>): Option<ConversationId> {
    if (op.Append? || op.ReplaceOldest?) && Stores(db, op, r, op.id) then Some(op.id)
    else if at.Some? && Drops(db, op, r, at.value) then None
    else if at.Some? && Moves(db, op, at.value) then Some(op.newId)
    else at
  }

  /** `r` is stored under the id `at` says, and under no other. */
  ghost predicate IsAt(db: Db, r: MessageRow, at: Option<ConversationId>) {
    forall id :: r in MessagesOf(db, id) <==> at == Some(id)
  }

  lemma {:induction false} FreshRowsIs(db: Db, rows: set<MessageRow>)
    ensures FreshRows(db, rows) <==> NewKeys(db, rows)
  {
    if FreshRows(db, rows) {
      forall k, r, s | r in MessagesOf(db, k) && s in rows
        ensures r.id != s.id
      {
        assert Apart(db.messages[k], rows);
      }
    }
    if NewKeys(db, rows) {
      forall k | k in db.messages
        ensures Apart(db.messages[k], rows)
      {
        assert MessagesOf(db, k) == db.messages[k];
      }
    }
  }

  lemma {:induction false} FreshSummaryIs(db: Db, id: ConversationId, oldest: set<MessageRow>, summary: MessageRow)
    ensures FreshRows(Remaining(db, id, oldest), {summary}) <==> KeyFreed(db, id, oldest, summary.id)
  {
    var left := Remaining(db, id, oldest);
    FreshRowsIs(left, {summary});
    assert forall k :: MessagesOf(left, k) == if k == id then MessagesOf(db, id) - oldest else MessagesOf(db, k);
    assert summary in {summary};
    hide FreshRows, Remaining;
  }

  lemma {:induction false} FollowedAppend(db: Db, op: Op, r: MessageRow, at: Option<ConversationId>)
    requires IsAt(db, r, at) && op.Append?
    ensures IsAt(Next(db, op), r, Followed(db, op, r, at))
  {
    FreshRowsIs(db, op.rows);
    hide FreshRows;
    var db' := Next(db, op);
    assert forall k :: MessagesOf(db', k) == if k == op.id && op.rows != {} && NewKeys(db, op.rows)
                                             then MessagesOf(db, k) + op.rows else MessagesOf(db, k);
    if r in op.rows && NewKeys(db, op.rows) {
      assert forall k :: r !in MessagesOf(db, k);
    }
  }

  lemma {:induction false} FollowedReplace(db: Db, op: Op, r: MessageRow, at: Option<ConversationId>)
    requires IsAt(db, r, at) && op.ReplaceOldest?
    ensures IsAt(Next(db, op), r, Followed(db, op, r, at))
  {
    var summary := MessageRow(op.summaryId, "system", op.now);
    FreshSummaryIs(db, op.id, op.oldest, summary);
    hide FreshRows;
    var db' := Next(db, op);
    assert forall k :: MessagesOf(db', k) == if k == op.id && op.oldest != {} && KeyFreed(db, op.id, op.oldest, op.summaryId)
                                             then MessagesOf(db, k) - op.oldest + {summary} else MessagesOf(db, k);
    if r == summary && KeyFreed(db, op.id, op.oldest, op.summaryId) {
      assert forall k :: r in MessagesOf(db, k) ==> k == op.id;
    }
  }

  lemma {:induction false} FollowedRename(db: Db, op: Op, r: MessageRow, at: Option<ConversationId>)
    requires IsAt(db, r, at) && op.Rename?
    ensures IsAt(Next(db, op), r, Followed(db, op, r, at))
  {
    if Renames(db, op.id, op.newId, op.inTenant) && op.newId != op.id {
      var db' := Next(db, op);
      assert forall k :: MessagesOf(db', k) == if k == op.newId then MessagesOf(db, op.newId) + MessagesOf(db, op.id)
                                               else if k == op.id then {} else MessagesOf(db, k);
    }
  }

  lemma {:induction false} FollowedStep(db: Db, op: Op, r: MessageRow, at: Option<ConversationId>)
    requires IsAt(db, r, at)
    ensures IsAt(Next(db, op), r, Followed(db, op, r, at))
  {
    match op
    case Ensure(_, _, _) =>
      assert forall k :: MessagesOf(Next(db, op), k) == MessagesOf(db, k);
    case Append(_, _) => FollowedAppend(db, op, r, at);
    case ReplaceOldest(_, _, _, _, _) => FollowedReplace(db, op, r, at);
    case Rename(_, _, _, _) => FollowedRename(db, op, r, at);
    case Delete(id, _) =>
      assert forall k :: MessagesOf(Next(db, op), k)
                      == if k == id && id in db.conversations && op.inTenant then {} else MessagesOf(db, k);
  }

  /** Where a message is after a run, followed through it. */
  ghost function Trail(db: Db, ops: seq<Op>, r: MessageRow, at: Option<ConversationId>): Option<ConversationId> {
    if ops == [] then at
    else Followed(Play(db, ops[..|ops| - 1]), ops[|ops| - 1], r, Trail(db, ops[..|ops| - 1], r, at))
  }

  /** After any run a message is stored exactly where its trail ends, and nowhere else. */
  lemma {:induction false} StoredWhereFollowed(db: Db, ops: seq<Op>, r: MessageRow, at: Option<ConversationId>)
    requires IsAt(db, r, at)
    ensures IsAt(Play(db, ops), r, Trail(db, ops, r, at))
  {
    if ops != [] {
      StoredWhereFollowed(db, ops[..|ops| - 1], r, at);
      FollowedStep(Play(db, ops[..|ops| - 1]), ops[|ops| - 1], r, Trail(db, ops[..|ops| - 1], r, at));
    }
  }

  /** Operation number k stored the message. */
  ghost predicate StoredBy(ops: seq<Op>, r: MessageRow, k: nat) {
    k < |ops| && exists id :: Stores(Play(EMPTY_DB, ops[..k]), ops[k], r, id)
  }

  /** Operation number j removed it: it was dropped from where it was, and not stored anew by the same operation. */
  ghost predicate DroppedBy(ops: seq<Op>, r: MessageRow, j: nat) {
    && j < |ops| && !StoredBy(ops, r, j)
    && exists id :: r in MessagesOf(Play(EMPTY_DB, ops[..j]), id) && Drops(Play(EMPTY_DB, ops[..j]), ops[j], r, id)
  }

  ghost predicate StoredSince(ops: seq<Op>, r: MessageRow, k: nat) {
    StoredBy(ops, r, k) && forall j :: k < j < |ops| ==> !DroppedBy(ops, r, j)
  }

  ghost predicate Kept(ops: seq<Op>, r: MessageRow) {
    exists k: nat :: StoredSince(ops, r, k)
  }

  lemma {:induction false} ActsPush(ops: seq<Op>, op: Op, r: MessageRow, k: nat)
    requires k < |ops|
    ensures StoredBy(ops + [op], r, k) <==> StoredBy(ops, r, k)
    ensures DroppedBy(ops + [op], r, k) <==> DroppedBy(ops, r, k)
  {
    assert (ops + [op])[..k] == ops[..k] && (ops + [op])[k] == ops[k];
  }

  lemma {:induction false} KeptPush(ops: seq<Op>, op: Op, r: MessageRow)
    ensures var all := ops + [op];
            Kept(all, r) <==> StoredBy(all, r, |ops|) || (Kept(ops, r) && !DroppedBy(all, r, |ops|))
  {
    var n, all := |ops|, ops + [op];
    forall k: nat | k < n
      ensures StoredBy(all, r, k) <==> StoredBy(ops, r, k)
      ensures DroppedBy(all, r, k) <==> DroppedBy(ops, r, k)
    {
      ActsPush(ops, op, r, k);
    }
    assert StoredSince(all, r, n) <==> StoredBy(all, r, n);
    assert forall k: nat :: StoredSince(all, r, k) ==> k < |all|;
    hide StoredBy, DroppedBy;
    assert forall k: nat :: k < n ==> (StoredSince(all, r, k) <==> StoredSince(ops, r, k) && !DroppedBy(all, r, n));
  }

  /** From an empty database: a message is stored if and only if it was appended or inserted as a summary, and not replaced or deleted since. */
  lemma {:induction false} StoredExactly(ops: seq<Op>, r: MessageRow)
    ensures Trail(EMPTY_DB, ops, r, None).Some? <==> Kept(ops, r)
    ensures (exists id :: r in MessagesOf(Play(EMPTY_DB, ops), id)) <==> Kept(ops, r)
  {
    StoredWhereFollowed(EMPTY_DB, ops, r, None);
    var end := Trail(EMPTY_DB, ops, r, None);
    assert end.Some? ==> r in MessagesOf(Play(EMPTY_DB, ops), end.value);
    if ops != [] {
      var front, op := ops[..|ops| - 1], ops[|ops| - 1];
      StoredExactly(front, r);
      KeptPush(front, op, r);
      assert front + [op] == ops;
      var db, at := Play(EMPTY_DB, front), Trail(EMPTY_DB, front, r, None);
      StoredWhereFollowed(EMPTY_DB, front, r, None);
      assert forall id :: r in MessagesOf(db, id) <==> at == Some(id);
      assert StoredBy(ops, r, |front|) <==> (op.Append? || op.ReplaceOldest?) && Stores(db, op, r, op.id);
    }
  }

  // ---------------------------------------------------------------- the conversation rows

  /** A row without its counters. */
  function Described(row: Row): Row {
    row.(messageCount := 0, userMessageCount := 0, lastMessageAt := None)
  }

  /** Rows that are none of these ids stay as they are, except for their counters. */
  ghost predicate OthersStay(db: Db, db': Db, ids: set<ConversationId>) {
    forall k :: k !in ids ==> (k in db'.conversations <==> k in db.conversations)
                              && (k in db.conversations ==> Described(db'.conversations[k]) == Described(db.conversations[k]))
  }

  /** Which conversations have a row after an operation, and what the rows say besides the counters. */
  lemma {:induction false} RowsAfter(db: Db, op: Op)
    ensures var db' := Next(db, op);
            match op
            case Ensure(id, instanceId, o) =>
              && OthersStay(db, db', {id}) && id in db'.conversations
              && var row := db'.conversations[id];
                 var channel := if o.channel == None then "web" else o.channel.value;
                 if id !in db.conversations then
                   row == Row(instanceId, channel, if o.source == None then "user" else o.source.value,
                              o.userIdentifier, o.contextPrompt, None, 0, 0, None)
                 else
                   row == db.conversations[id].(
                            channel := channel, userIdentifier := o.userIdentifier,
                            contextPrompt := if o.contextPrompt in {None, Some("")} then db.conversations[id].contextPrompt
                                             else o.contextPrompt)
            case Append(_, _) => OthersStay(db, db', {})
            case ReplaceOldest(_, _, _, _, _) => OthersStay(db, db', {})
            case Rename(id, newId, inTenant, title) =>
              if id !in db.conversations || !inTenant || (newId != id && newId in db.conversations) then db' == db
              else
                && OthersStay(db, db', {id, newId}) && (newId != id ==> id !in db'.conversations) && newId in db'.conversations
                && db'.conversations[newId] == db.conversations[id].(title := if title == None then db.conversations[id].title else title)
            case Delete(id, inTenant) =>
              if id !in db.conversations || !inTenant then db' == db
              else OthersStay(db, db', {id}) && id !in db'.conversations
  {
    hide FreshRows, Latest, UserRows, MessagesOf, Remaining;
  }

  /** The last-message time moves only to the time of a message just stored. */
  lemma {:induction false} LastMoves(db: Db, op: Op, k: ConversationId)
    requires (op.Append? || op.ReplaceOldest?) && k in db.conversations
    ensures var (last, last') := (db.conversations[k].lastMessageAt, Next(db, op).conversations[k].lastMessageAt);
            last' == last || (k == op.id && exists r :: Stores(db, op, r, k) && last' == Some(r.createdAt))
  {
    match op
    case Append(id, rows) =>
      FreshRowsIs(db, rows);
      if rows != {} {
        var r :| r in rows && Some(r.createdAt) == Latest(rows);
        assert k == id && NewKeys(db, rows) ==> Stores(db, op, r, k);
      }
      hide FreshRows, Newest;
    case ReplaceOldest(id, count, oldest, summaryId, now) =>
      var summary := MessageRow(summaryId, "system", now);
      FreshSummaryIs(db, id, oldest, summary);
      assert k == id && oldest != {} && KeyFreed(db, id, oldest, summaryId) ==> Stores(db, op, summary, k);
      hide FreshRows;
  }
}
