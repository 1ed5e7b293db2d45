/** The conversation tables as the handlers change them, transaction by transaction. */
module ConversationStore {
  import opened Common
  import opened Conversations

  class Store {
    var rows: Table

    constructor ()
      ensures rows == map[]
    {
      rows := map[];
    }

    /** `insertConversationItems`: inside the caller's transaction, so a failure leaves undoing to the caller. */
    method InsertItems(id: ConversationId, bodies: seq<Body>) returns (ok: bool)
      requires id in rows
      modifies this
      ensures ok <==> Insert(old(rows)[id], bodies).Some?
      ensures rows == if ok then old(rows)[id := Insert(old(rows)[id], bodies).value] else old(rows)
    {
      var c := rows[id];
      var count, size, ordinal := |c.items|, TotalBytes(InOrder(c.items)), MaxOrdinal(c.items.Keys);
      var incoming, i := 0, 0;
      while i < |bodies|
        invariant 0 <= i <= |bodies| && rows == old(rows) && incoming == TotalBytes(bodies[..i])
      {
        TotalBytesAppend(bodies[..i], [bodies[i]]);
        assert bodies[..i + 1] == bodies[..i] + [bodies[i]];
        incoming := incoming + |bodies[i]|;
        i := i + 1;
      }
      assert bodies[..i] == bodies;
      if count + |bodies| > MAX_ITEMS_PER_CONVERSATION || size + incoming > MAX_CONVERSATION_BYTES { return false; }
      ghost var before, start := rows, ordinal;
      i := 0;
      assert bodies[0..] == bodies;
      while i < |bodies|
        invariant 0 <= i <= |bodies| && id in rows && rows == before[id := c.(items := rows[id].items)]
        invariant InsertAfter(rows[id].items, ordinal, bodies[i..]) == InsertAfter(c.items, start, bodies)
      {
        assert bodies[i..][0] == bodies[i] && bodies[i..][1..] == bodies[i + 1..];
        ordinal := ordinal + 1;
        rows := rows[id := rows[id].(items := rows[id].items[ordinal := bodies[i]])];
        i := i + 1;
      }
      assert bodies[i..] == [];
      return true;
    }

    /** `prepareConversationResponse`: revision and history come from one read transaction. */
    method Prepare(id: ConversationId, key: nat, newItems: seq<Body>) returns (a: Option<Attachment>)
      ensures a == Snapshot(rows, id, key, newItems)
    {
      if id !in rows || rows[id].key != key || rows[id].deleted { return None; }
      var items := rows[id].items;
      var last := MaxOrdinal(items.Keys);
      var history: seq<Body>, n := [], 0;
      while n < last
        invariant 0 <= n <= last && history == UpTo(items, n)
      {
        n := n + 1;
        if n in items { history := history + [items[n]]; }
      }
      return Some(Attachment(id, key, rows[id].revision, history, newItems));
    }

    /** `appendConversationTurn` in its transaction: the compare-and-set on the revision comes first, and any later
        failure rolls it back. */
    method AppendTurn(a: Attachment, output: seq<Body>, room: bool) returns (failure: Option<Failure>)
      modifies this
      ensures match Turn(old(rows), a, output, room)
              case Committed(t) => failure.None? && rows == t
              case Failed(f) => failure == Some(f) && rows == old(rows)
    {
      var before := rows;
      if a.id !in rows || rows[a.id].key != a.key || rows[a.id].deleted || rows[a.id].revision != a.revision {
        return Some(Changed);
      }
      rows := rows[a.id := rows[a.id].(revision := a.revision + 1)];
      if !room {
        rows := before;
        return Some(RetentionLimit);
      }
      var ok := InsertItems(a.id, a.newItems + output);
      if !ok {
        rows := before;
        return Some(ItemLimit);
      }
      assert rows == before[a.id := rows[a.id]];
      return None;
    }

    /** `createConversationItems`. */
    method CreateItems(id: ConversationId, key: nat, bodies: seq<Body>, room: bool) returns (failure: Option<Failure>)
      modifies this
      ensures match AddItems(old(rows), id, key, bodies, room)
              case Committed(t) => failure.None? && rows == t
              case Failed(f) => failure == Some(f) && rows == old(rows)
    {
      var before := rows;
      if id !in rows || rows[id].key != key || rows[id].deleted { return Some(Changed); }
      if !room { return Some(RetentionLimit); }
      var ok := InsertItems(id, bodies);
      if !ok { return Some(ItemLimit); }
      rows := rows[id := rows[id].(revision := rows[id].revision + 1)];
      assert rows == before[id := rows[id]];
      return None;
    }

    /** `createConversation`: insert at revision 0, add the items, then count the first revision. */
    method CreateConversation(id: ConversationId, owner: nat, key: nat, bodies: seq<Body>, room: bool) returns (failure: Option<Failure>)
      requires id !in rows
      modifies this
      ensures match Create(old(rows), id, owner, key, bodies, room)
              case Committed(t) => failure.None? && rows == t
              case Failed(f) => failure == Some(f) && rows == old(rows)
    {
      var before := rows;
      if !room { return Some(RetentionLimit); }
      rows := rows[id := Conversation(owner, key, 0, false, map[])];
      var ok := InsertItems(id, bodies);
      if !ok {
        rows := before;
        return Some(ItemLimit);
      }
      rows := rows[id := rows[id].(revision := rows[id].revision + 1)];
      assert rows == before[id := rows[id]];
      return None;
    }
  }
}
