/**
 A conversation's shared key/value state: the write-back buffer of one pipeline run and the
 upsert that merges it into the stored row.

 A value is its JSON text. The size of a blob is a parameter of the buffer, since JSON
 encoding is not modelled.
 */
module StateBuffer {
  import opened Options

  type Json = string
  type Blob = map<string, Json>

  const CHANNEL_STATE_KEY := "_channel"
  const MAX_STATE_BYTES := 64 * 1024

  /** One write of a run: what a tool or hook asked for, or the trusted channel identity. */
  datatype Op =
    | Set(key: string, value: Option<Json>)   // None: not JSON-serializable
    | Delete(key: string)
    | SeedChannel(channel: Json)

  datatype Buffer = Buffer(data: Blob, dirty: set<string>, removed: set<string>)

  function Remove(blob: Blob, keys: set<string>): Blob {
    map k | k in blob && k !in keys :: blob[k]
  }

  /** The write, made directly on a blob. */
  function Write(size: Blob -> nat, blob: Blob, op: Op): Blob {
    match op
    case Set(key, value) =>
      if value.Some? && size(blob[key := value.value]) <= MAX_STATE_BYTES then blob[key := value.value] else blob
    case Delete(key) => Remove(blob, {key})
    case SeedChannel(channel) => blob[CHANNEL_STATE_KEY := channel]
  }

  function WriteAll(size: Blob -> nat, blob: Blob, ops: seq<Op>): Blob {
    if ops == [] then blob else Write(size, WriteAll(size, blob, ops[..|ops| - 1]), ops[|ops| - 1])
  }

  function Apply(size: Blob -> nat, b: Buffer, op: Op): Buffer {
    match op
    case Set(key, value) =>
      if value.None? || size(b.data[key := value.value]) > MAX_STATE_BYTES then b
      else Buffer(b.data[key := value.value], b.dirty + {key}, b.removed - {key})
    case Delete(key) =>
      if key !in b.data then b else Buffer(Remove(b.data, {key}), b.dirty - {key}, b.removed + {key})
    case SeedChannel(channel) =>
      if CHANNEL_STATE_KEY in b.data && b.data[CHANNEL_STATE_KEY] == channel then b
      else Buffer(b.data[CHANNEL_STATE_KEY := channel], b.dirty + {CHANNEL_STATE_KEY}, b.removed - {CHANNEL_STATE_KEY})
  }

  // ---------------------------------------------------------------- the stored row

  function Loaded(row: Option<Blob>): Blob {
    if row.Some? then row.value else map[]
  }

  /** The stored row after the upsert: merge the changed keys, then drop the removed ones; a fresh row is the changed keys. */
  function Upserted(row: Option<Blob>, changed: Blob, removed: set<string>): Option<Blob> {
    if changed == map[] && removed == {} then row
    else if row.None? then Some(changed)
    else Some(Remove(row.value + changed, removed))
  }

  class StateStore {
    var rows: map<string, Blob>

    constructor ()
      ensures rows == map[]
    {
      rows := map[];
    }

    function Row(conversationId: string): Option<Blob>
      reads this
    {
      if conversationId in rows then Some(rows[conversationId]) else None
    }

    method LoadConversationState(conversationId: string) returns (data: Blob)
      ensures data == Loaded(Row(conversationId))
    {
      data := if conversationId in rows then rows[conversationId] else map[];
    }

    /** The removed keys are dropped one at a time from the merged blob. */
    method FlushConversationState(conversationId: string, changed: Blob, removed: seq<string>)
      modifies this
      ensures Row(conversationId) == Upserted(old(Row(conversationId)), changed, set k | k in removed)
      ensures forall id :: id != conversationId ==> Row(id) == old(Row(id))
    {
      if changed == map[] && removed == [] {
        return;
      }
      ghost var gone := set k | k in removed;
      assert removed != [] ==> removed[0] in gone && gone != {};
      if conversationId !in rows {
        rows := rows[conversationId := changed];
      } else {
        var data := rows[conversationId] + changed;
        for i := 0 to |removed|
          invariant data == Remove(rows[conversationId] + changed, set k | k in removed[..i])
        {
          assert removed[..i + 1] == removed[..i] + [removed[i]];
          data := data - {removed[i]};
        }
        assert removed[..|removed|] == removed;
        rows := rows[conversationId := data];
      }
    }
  }

  class ConversationStateBuffer {
    const conversationId: string
    const size: Blob -> nat
    var data: Blob
    var dirty: seq<string>
    var removed: seq<string>

    constructor (conversationId: string, size: Blob -> nat, initial: Blob)
      ensures View() == Buffer(initial, {}, {})
      ensures this.conversationId == conversationId && this.size == size
    {
      this.conversationId, this.size := conversationId, size;
      data, dirty, removed := initial, [], [];
    }

    /** `dirty` and `removed` are insertion-ordered sets in the source; their order reaches nothing but the upsert. */
    ghost function View(): Buffer
      reads this
    {
      Buffer(data, set k | k in dirty, set k | k in removed)
    }

    method SeedChannel(channel: Json)
      modifies this
      ensures View() == Apply(size, old(View()), Op.SeedChannel(channel))
    {
      if !(CHANNEL_STATE_KEY in data && data[CHANNEL_STATE_KEY] == channel) {
        data := data[CHANNEL_STATE_KEY := channel];
        dirty := dirty + [CHANNEL_STATE_KEY];
        removed := Without(removed, CHANNEL_STATE_KEY);
      }
    }

    method Set(key: string, value: Option<Json>) returns (stored: bool)
      modifies this
      ensures View() == Apply(size, old(View()), Op.Set(key, value))
      ensures stored <==> value.Some? && size(old(data)[key := value.value]) <= MAX_STATE_BYTES
    {
      if value.None? || size(data[key := value.value]) > MAX_STATE_BYTES {
        return false;
      }
      data := data[key := value.value];
      dirty := dirty + [key];
      removed := Without(removed, key);
      stored := true;
    }

    method Delete(key: string)
      modifies this
      ensures View() == Apply(size, old(View()), Op.Delete(key))
    {
      if key in data {
        data := data - {key};
        dirty := Without(dirty, key);
        removed := removed + [key];
      }
    }

    method Flush(store: StateStore)
      requires Consistent(View())
      modifies this, store
      ensures store.Row(conversationId) == Flushed(old(View()), old(store.Row(conversationId)))
      ensures forall id :: id != conversationId ==> store.Row(id) == old(store.Row(id))
      ensures View() == Clean(old(View()))
    {
      if dirty == [] && removed == [] {
        return;
      }
      var changed: Blob := map[];
      for i := 0 to |dirty|
        invariant changed == map k | k in dirty[..i] :: data[k]
        invariant unchanged(this) && unchanged(store)
      {
        assert dirty[i] in View().dirty;
        changed := changed[dirty[i] := data[dirty[i]]];
      }
      assert dirty[..|dirty|] == dirty;
      assert changed == Changed(View());
      assert dirty != [] ==> dirty[0] in changed;
      assert removed != [] ==> removed[0] in View().removed;
      store.FlushConversationState(conversationId, changed, removed);
      dirty, removed := [], [];
    }
  }

  function Without(keys: seq<string>, key: string): (rest: seq<string>)
    ensures forall k :: k in rest <==> k in keys && k != key
  {
    if keys == [] then []
    else if keys[0] == key then Without(keys[1..], key)
    else [keys[0]] + Without(keys[1..], key)
  }

  // ---------------------------------------------------------------- what the buffer keeps

  ghost predicate Consistent(b: Buffer) {
    b.dirty !! b.removed && b.dirty <= b.data.Keys && b.removed !! b.data.Keys
  }

  function Changed(b: Buffer): Blob
    requires b.dirty <= b.data.Keys
  {
    map k | k in b.dirty :: b.data[k]
  }

  function Flushed(b: Buffer, row: Option<Blob>): Option<Blob>
    requires b.dirty <= b.data.Keys
  {
    Upserted(row, Changed(b), b.removed)
  }

  function Clean(b: Buffer): Buffer {
    b.(dirty := {}, removed := {})
  }

  /** Keys the buffer does not mark hold in it what they hold in the stored blob. */
  ghost predicate Tracks(b: Buffer, stored: Blob) {
    Consistent(b)
    && forall k :: k !in b.dirty && k !in b.removed ==>
                     (k in b.data <==> k in stored) && (k in stored ==> b.data[k] == stored[k])
  }

  lemma {:induction false} ApplyTracks(size: Blob -> nat, b: Buffer, stored: Blob, op: Op)
    requires Tracks(b, stored)
    ensures Tracks(Apply(size, b, op), stored)
    ensures Apply(size, b, op).data == Write(size, b.data, op)
  {
    if op.Delete? && op.key !in b.data {
      assert Remove(b.data, {op.key}) == b.data;
    }
  }

  lemma {:induction false} FlushStores(b: Buffer, row: Option<Blob>)
    requires Tracks(b, Loaded(row))
    ensures Loaded(Flushed(b, row)) == b.data
    ensures Tracks(Clean(b), b.data)
  {
    var changed := Changed(b);
    assert forall k :: k in b.dirty ==> k in changed;
  }

  /** A run's history: writes, and flushes between them. */
  datatype Act = Do(op: Op) | Flush

  datatype Session = Session(buffer: Buffer, row: Option<Blob>)

  function Open(row: Option<Blob>): Session {
    Session(Buffer(Loaded(row), {}, {}), row)
  }

  function Act1(size: Blob -> nat, s: Session, a: Act): (s': Session)
    requires s.buffer.dirty <= s.buffer.data.Keys
    ensures s'.buffer.dirty <= s'.buffer.data.Keys
  {
    match a
    case Do(op) => s.(buffer := Apply(size, s.buffer, op))
    case Flush => Session(Clean(s.buffer), Flushed(s.buffer, s.row))
  }

  function Acts(size: Blob -> nat, s: Session, acts: seq<Act>): (s': Session)
    requires s.buffer.dirty <= s.buffer.data.Keys
    ensures s'.buffer.dirty <= s'.buffer.data.Keys
  {
    if acts == [] then s else Act1(size, Acts(size, s, acts[..|acts| - 1]), acts[|acts| - 1])
  }

  function OpsOf(acts: seq<Act>): seq<Op> {
    if acts == [] then []
    else OpsOf(acts[..|acts| - 1]) + if acts[|acts| - 1].Do? then [acts[|acts| - 1].op] else []
  }

  lemma {:induction false} WritePush(size: Blob -> nat, blob: Blob, ops: seq<Op>, op: Op)
    ensures WriteAll(size, blob, ops + [op]) == Write(size, WriteAll(size, blob, ops), op)
  {
    assert (ops + [op])[..|ops + [op]| - 1] == ops;
  }

  lemma {:induction false} SessionTracks(size: Blob -> nat, row: Option<Blob>, acts: seq<Act>)
    ensures var s := Acts(size, Open(row), acts);
            && Tracks(s.buffer, Loaded(s.row))
            && s.buffer.data == WriteAll(size, Loaded(row), OpsOf(acts))
  {
    if acts != [] {
      var front, a := acts[..|acts| - 1], acts[|acts| - 1];
      SessionTracks(size, row, front);
      var s := Acts(size, Open(row), front);
      match a
      case Do(op) =>
        ApplyTracks(size, s.buffer, Loaded(s.row), op);
        WritePush(size, Loaded(row), OpsOf(front), op);
      case Flush =>
        FlushStores(s.buffer, s.row);
        assert OpsOf(acts) == OpsOf(front);
    }
  }

  /**
   The buffer refines direct writes: after any writes and flushes, a flush leaves stored
   exactly what those writes make of the loaded blob, whether or not a row existed.
   */
  lemma {:induction false} BufferRefinesDirectWrites(size: Blob -> nat, row: Option<Blob>, acts: seq<Act>)
    ensures Consistent(Acts(size, Open(row), acts).buffer)
    ensures Loaded(Acts(size, Open(row), acts + [Flush]).row) == WriteAll(size, Loaded(row), OpsOf(acts))
  {
    SessionTracks(size, row, acts);
    assert (acts + [Flush])[..|acts + [Flush]| - 1] == acts;
    var s := Acts(size, Open(row), acts);
    FlushStores(s.buffer, s.row);
  }

  function KeyOf(op: Op): string {
    match op
    case Set(key, _) => key
    case Delete(key) => key
    case SeedChannel(_) => CHANNEL_STATE_KEY
  }

  /** A key no later write names holds what its last write left: its value, nothing, or what was there if that was refused. */
  lemma {:induction false} LastWriteWins(size: Blob -> nat, blob: Blob, ops: seq<Op>, i: nat)
    requires i < |ops| && forall j :: i < j < |ops| ==> KeyOf(ops[j]) != KeyOf(ops[i])
    ensures var (before, after, key) := (WriteAll(size, blob, ops[..i]), WriteAll(size, blob, ops), KeyOf(ops[i]));
            match ops[i]
            case Delete(_) => key !in after
            case SeedChannel(channel) => key in after && after[key] == channel
            case Set(_, value) =>
              if value.Some? && size(before[key := value.value]) <= 65536 then key in after && after[key] == value.value
              else SameAt(before, after, key)
  {
    var n := |ops| - 1;
    if i < n {
      LastWriteWins(size, blob, ops[..n], i);
      assert ops[..n][..i] == ops[..i];
      WriteElsewhere(size, WriteAll(size, blob, ops[..n]), ops[n], KeyOf(ops[i]));
      hide Write;
    }
  }

  lemma {:induction false} WriteElsewhere(size: Blob -> nat, blob: Blob, op: Op, key: string)
    requires KeyOf(op) != key
    ensures SameAt(blob, Write(size, blob, op), key)
  {
  }

  ghost predicate SameAt(a: Blob, b: Blob, key: string) {
    (key in a <==> key in b) && (key in a ==> a[key] == b[key])
  }

  /** A key no write names holds what it held. */
  lemma {:induction false} UnnamedKeysStay(size: Blob -> nat, blob: Blob, ops: seq<Op>, key: string)
    requires forall j :: 0 <= j < |ops| ==> KeyOf(ops[j]) != key
    ensures SameAt(blob, WriteAll(size, blob, ops), key)
  {
    if ops != [] {
      UnnamedKeysStay(size, blob, ops[..|ops| - 1], key);
    }
  }

  /** Seeding the identity a run already has, deleting an absent key and a refused write mark nothing; any other write marks its key. */
  lemma {:induction false} MarksOfWrite(size: Blob -> nat, b: Buffer, op: Op)
    ensures var idle := match op
                        case SeedChannel(channel) => "_channel" in b.data && b.data["_channel"] == channel
                        case Delete(key) => key !in b.data
                        case Set(key, value) => value.None? || size(b.data[key := value.value]) > 65536;
            if idle then Apply(size, b, op) == b
            else Marks(Apply(size, b, op)) == Marks(b) + {KeyOf(op)}
  {
  }

  // ---------------------------------------------------------------- two runs on one conversation

  function Marks(b: Buffer): set<string> {
    b.dirty + b.removed
  }

  /** The two buffers do the same to every key both of them mark. */
  ghost predicate Agree(a: Buffer, b: Buffer)
    requires a.dirty <= a.data.Keys && b.dirty <= b.data.Keys
  {
    forall k :: k in Marks(a) && k in Marks(b) ==>
                  (k in a.dirty <==> k in b.dirty) && (k in a.dirty ==> a.data[k] == b.data[k])
  }

  lemma {:induction false} MarkedIsChange(b: Buffer)
    requires b.dirty <= b.data.Keys
    ensures Changed(b) == map[] && b.removed == {} <==> Marks(b) == {}
  {
    assert forall k :: k in b.dirty ==> k in Changed(b);
  }

  function Effect(blob: Blob, b: Buffer): Blob
    requires b.dirty <= b.data.Keys
  {
    Remove(blob + Changed(b), b.removed)
  }

  lemma {:induction false} FlushEffect(b: Buffer, row: Option<Blob>)
    requires Consistent(b)
    ensures Loaded(Flushed(b, row)) == Effect(Loaded(row), b)
    ensures Flushed(b, row).None? <==> row.None? && Marks(b) == {}
  {
    MarkedIsChange(b);
    if row.None? {
      assert map[] + Changed(b) == Changed(b);
      assert Remove(Changed(b), b.removed) == Changed(b);
    } else if Marks(b) == {} {
      assert Effect(Loaded(row), b) == Loaded(row);
    }
  }

  lemma {:induction false} EffectOrder(a: Buffer, b: Buffer, blob: Blob)
    requires Consistent(a) && Consistent(b)
    ensures Effect(Effect(blob, a), b) == Effect(Effect(blob, b), a) <==> Agree(a, b)
  {
    var ab, ba := Effect(Effect(blob, a), b), Effect(Effect(blob, b), a);
    forall k | k in Marks(b)
      ensures (k in ab <==> k in b.dirty) && (k in b.dirty ==> ab[k] == b.data[k])
    {
    }
    forall k | k in Marks(a)
      ensures (k in ba <==> k in a.dirty) && (k in a.dirty ==> ba[k] == a.data[k])
    {
    }
    if Agree(a, b) {
      EffectsMeet(a, b, blob);
    }
  }

  lemma {:induction false} EffectsMeet(a: Buffer, b: Buffer, blob: Blob)
    requires Consistent(a) && Consistent(b) && Agree(a, b)
    ensures Effect(Effect(blob, a), b) == Effect(Effect(blob, b), a)
  {
    var ab, ba := Effect(Effect(blob, a), b), Effect(Effect(blob, b), a);
    forall k
      ensures (k in ab <==> k in ba) && (k in ab ==> ab[k] == ba[k])
    {
      if k in Marks(a) && k in Marks(b) {
      } else if k in Marks(a) {
      } else if k in Marks(b) {
      } else {
      }
    }
  }

  /** Two runs leave the same stored row in either flush order exactly when they agree on the keys both changed. */
  lemma {:induction false} FlushOrder(a: Buffer, b: Buffer, row: Option<Blob>)
    requires Consistent(a) && Consistent(b)
    ensures Flushed(b, Flushed(a, row)) == Flushed(a, Flushed(b, row)) <==> Agree(a, b)
  {
    FlushEffect(a, row);
    FlushEffect(b, row);
    FlushEffect(b, Flushed(a, row));
    FlushEffect(a, Flushed(b, row));
    EffectOrder(a, b, Loaded(row));
  }

  /** Runs on disjoint keys never clobber each other, and a flush leaves alone every key its run did not change. */
  lemma {:induction false} DisjointRunsCommute(a: Buffer, b: Buffer, row: Option<Blob>)
    requires Consistent(a) && Consistent(b) && Marks(a) !! Marks(b)
    ensures Flushed(b, Flushed(a, row)) == Flushed(a, Flushed(b, row))
    ensures forall k :: k in a.dirty ==> var s := Loaded(Flushed(b, Flushed(a, row))); k in s && s[k] == a.data[k]
    ensures forall k :: k in a.removed ==> k !in Loaded(Flushed(b, Flushed(a, row)))
    ensures forall k :: k !in Marks(a) + Marks(b) ==> SameAt(Loaded(row), Loaded(Flushed(b, Flushed(a, row))), k)
  {
    FlushOrder(a, b, row);
    FlushEffect(a, row);
    FlushEffect(b, Flushed(a, row));
  }

  function ApplyAll(size: Blob -> nat, b: Buffer, ops: seq<Op>): Buffer {
    if ops == [] then b else Apply(size, ApplyAll(size, b, ops[..|ops| - 1]), ops[|ops| - 1])
  }

  lemma {:induction false} MarksAreTouched(size: Blob -> nat, blob: Blob, ops: seq<Op>)
    ensures var b := ApplyAll(size, Buffer(blob, {}, {}), ops);
            && Tracks(b, blob)
            && forall k :: k in Marks(b) ==> exists i :: 0 <= i < |ops| && KeyOf(ops[i]) == k
  {
    if ops != [] {
      var front, op := ops[..|ops| - 1], ops[|ops| - 1];
      MarksAreTouched(size, blob, front);
      var b := ApplyAll(size, Buffer(blob, {}, {}), front);
      ApplyTracks(size, b, blob, op);
      forall k | k in Marks(Apply(size, b, op))
        ensures exists i :: 0 <= i < |ops| && KeyOf(ops[i]) == k
      {
        if k == KeyOf(op) {
          assert KeyOf(ops[|ops| - 1]) == k;
        } else {
          assert k in Marks(b);
          var i :| 0 <= i < |front| && KeyOf(front[i]) == k;
          assert KeyOf(ops[i]) == k;
        }
      }
    }
  }

  /** Two runs that loaded the same row and wrote disjoint keys store the same row, whoever flushes first. */
  lemma {:induction false} ConcurrentRunsCommute(size: Blob -> nat, row: Option<Blob>, mine: seq<Op>, theirs: seq<Op>)
    requires forall i, j :: 0 <= i < |mine| && 0 <= j < |theirs| ==> KeyOf(mine[i]) != KeyOf(theirs[j])
    ensures var a, b := ApplyAll(size, Open(row).buffer, mine), ApplyAll(size, Open(row).buffer, theirs);
            && Consistent(a) && Consistent(b)
            && Flushed(b, Flushed(a, row)) == Flushed(a, Flushed(b, row))
  {
    MarksAreTouched(size, Loaded(row), mine);
    MarksAreTouched(size, Loaded(row), theirs);
    var a, b := ApplyAll(size, Open(row).buffer, mine), ApplyAll(size, Open(row).buffer, theirs);
    assert Marks(a) !! Marks(b);
    DisjointRunsCommute(a, b, row);
  }
}
