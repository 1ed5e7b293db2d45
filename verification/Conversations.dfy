/** Stored conversations: revisions, item ordinals, and the transactions that change them. */
module Conversations {
  import opened Common

  const MAX_ITEMS_PER_CONVERSATION: nat := 10000
  const MAX_CONVERSATION_BYTES: nat := 67108864

  type Body = string
  type ConversationId = nat

  /** A conversation row with its item rows, keyed by their ordinal (1 or more). */
  datatype Conversation = Conversation(owner: nat, key: nat, revision: nat, deleted: bool, items: map<nat, Body>)

  type Table = map<ConversationId, Conversation>

  /** What `prepareConversationResponse` remembers: the revision it read and, in the request body, the history it read
      followed by the new items. */
  datatype Attachment = Attachment(id: ConversationId, key: nat, revision: nat, history: seq<Body>, newItems: seq<Body>)

  datatype Failure = Changed | RetentionLimit | ItemLimit

  datatype Result = Committed(table: Table) | Failed(failure: Failure)

  // ----------------------------------------------------------- item ordinals

  lemma {:induction false} MaxExists(s: set<nat>) returns (m: nat)
    requires s != {}
    ensures m in s && forall x :: x in s ==> x <= m
  {
    var x :| x in s;
    if s == {x} {
      m := x;
    } else {
      var rest := s - {x};
      assert rest != {};
      m := MaxExists(rest);
      assert forall y :: y in s ==> y == x || y in rest;
      if m < x { m := x; }
    }
  }

  /** COALESCE(MAX(ordinal),0). */
  function MaxOrdinal(s: set<nat>): (m: nat)
    ensures forall x :: x in s ==> x <= m
    ensures s != {} ==> m in s
  {
    if s == {} then 0
    else
      assert exists m :: m in s && forall x :: x in s ==> x <= m by { var m := MaxExists(s); }
      var m :| m in s && forall x :: x in s ==> x <= m;
      m
  }

  /** The bodies with ordinals 1 to `n`, in ordinal order. */
  function UpTo(items: map<nat, Body>, n: nat): seq<Body> {
    if n == 0 then [] else UpTo(items, n - 1) + if n in items then [items[n]] else []
  }

  /** SELECT body_json ... ORDER BY ordinal. */
  function InOrder(items: map<nat, Body>): seq<Body> { UpTo(items, MaxOrdinal(items.Keys)) }

  function TotalBytes(bodies: seq<Body>): nat {
    if bodies == [] then 0 else |bodies[0]| + TotalBytes(bodies[1..])
  }

  function InsertAfter(items: map<nat, Body>, ordinal: nat, bodies: seq<Body>): map<nat, Body>
    decreases |bodies|
  {
    if bodies == [] then items else InsertAfter(items[ordinal + 1 := bodies[0]], ordinal + 1, bodies[1..])
  }

  lemma {:induction false} UpToFrame(a: map<nat, Body>, b: map<nat, Body>, n: nat)
    requires forall k :: 1 <= k <= n ==> (k in a <==> k in b) && (k in a ==> a[k] == b[k])
    ensures UpTo(a, n) == UpTo(b, n)
  {
    if n > 0 { UpToFrame(a, b, n - 1); }
  }

  lemma {:induction false} UpToBeyond(items: map<nat, Body>, n: nat, m: nat)
    requires n <= m && forall k :: k in items ==> k <= n
    ensures UpTo(items, m) == UpTo(items, n)
    decreases m
  {
    if n < m { UpToBeyond(items, n, m - 1); }
  }

  /** Rows inserted after the greatest ordinal come last, in the order they were given. */
  lemma {:induction false} InsertAppends(items: map<nat, Body>, ordinal: nat, bodies: seq<Body>)
    requires forall k :: k in items ==> 1 <= k <= ordinal
    ensures var after := InsertAfter(items, ordinal, bodies);
            && (forall k :: k in after ==> 1 <= k <= ordinal + |bodies|)
            && UpTo(after, ordinal + |bodies|) == UpTo(items, ordinal) + bodies
    decreases |bodies|
  {
    if bodies == [] {
    } else {
      var next := items[ordinal + 1 := bodies[0]];
      UpToFrame(items, next, ordinal);
      InsertAppends(next, ordinal + 1, bodies[1..]);
      assert UpTo(next, ordinal + 1) == UpTo(items, ordinal) + [bodies[0]];
      assert bodies == [bodies[0]] + bodies[1..];
    }
  }

  lemma InsertedInOrder(items: map<nat, Body>, bodies: seq<Body>)
    requires 0 !in items
    ensures var after := InsertAfter(items, MaxOrdinal(items.Keys), bodies);
            0 !in after && InOrder(after) == InOrder(items) + bodies
  {
    var n := MaxOrdinal(items.Keys);
    InsertAppends(items, n, bodies);
    var after := InsertAfter(items, n, bodies);
    UpToBeyond(after, MaxOrdinal(after.Keys), n + |bodies|);
  }

  lemma {:induction false} UpToCount(items: map<nat, Body>, s: set<nat>, n: nat)
    requires forall k :: k in s <==> k in items && 1 <= k <= n
    ensures |UpTo(items, n)| == |s|
  {
    if n == 0 {
      assert s == {};
    } else {
      UpToCount(items, s - {n}, n - 1);
      if n in items { assert s == (s - {n}) + {n}; } else { assert s == s - {n}; }
    }
  }

  /** Reading in ordinal order returns every row. */
  lemma InOrderCount(items: map<nat, Body>)
    requires 0 !in items
    ensures |InOrder(items)| == |items|
  {
    UpToCount(items, items.Keys, MaxOrdinal(items.Keys));
  }

  lemma {:induction false} TotalBytesAppend(a: seq<Body>, b: seq<Body>)
    ensures TotalBytes(a + b) == TotalBytes(a) + TotalBytes(b)
  {
    if a == [] {
      assert a + b == b;
    } else {
      TotalBytesAppend(a[1..], b);
      assert (a + b)[1..] == a[1..] + b;
    }
  }

  // ------------------------------------------------------------- transactions

  predicate Visible(t: Table, id: ConversationId, key: nat) { id in t && t[id].key == key && !t[id].deleted }

  /** `insertConversationItems` with its two per-conversation limits. */
  function Insert(c: Conversation, bodies: seq<Body>): Option<Conversation> {
    if |c.items| + |bodies| > MAX_ITEMS_PER_CONVERSATION
       || TotalBytes(InOrder(c.items)) + TotalBytes(bodies) > MAX_CONVERSATION_BYTES then None
    else Some(c.(items := InsertAfter(c.items, MaxOrdinal(c.items.Keys), bodies)))
  }

  /** `appendConversationTurn`; `room` is the outcome of the retention check over all conversations. */
  function Turn(t: Table, a: Attachment, output: seq<Body>, room: bool): Result {
    if !Visible(t, a.id, a.key) || t[a.id].revision != a.revision then Failed(Changed)
    else if !room then Failed(RetentionLimit)
    else match Insert(t[a.id].(revision := a.revision + 1), a.newItems + output)
         case None => Failed(ItemLimit)
         case Some(c) => Committed(t[a.id := c])
  }

  /** `createConversationItems`. */
  function AddItems(t: Table, id: ConversationId, key: nat, bodies: seq<Body>, room: bool): Result {
    if !Visible(t, id, key) then Failed(Changed)
    else if !room then Failed(RetentionLimit)
    else match Insert(t[id], bodies)
         case None => Failed(ItemLimit)
         case Some(c) => Committed(t[id := c.(revision := t[id].revision + 1)])
  }

  /** `deleteConversationItem`. */
  function DeleteItem(t: Table, id: ConversationId, key: nat, ordinal: nat): Result {
    if !Visible(t, id, key) || ordinal !in t[id].items then Failed(Changed)
    else Committed(t[id := t[id].(items := t[id].items - {ordinal}, revision := t[id].revision + 1)])
  }

  /** `deleteConversation`: only a mark; the rows stay until they are purged. */
  function Delete(t: Table, id: ConversationId, key: nat): Result {
    if !Visible(t, id, key) then Failed(Changed) else Committed(t[id := t[id].(deleted := true)])
  }

  /** `createConversation` under an id never used before. */
  function Create(t: Table, id: ConversationId, owner: nat, key: nat, bodies: seq<Body>, room: bool): Result {
    if !room then Failed(RetentionLimit)
    else match Insert(Conversation(owner, key, 0, false, map[]), bodies)
         case None => Failed(ItemLimit)
         case Some(c) => Committed(t[id := c.(revision := 1)])
  }

  /** The snapshot `prepareConversationResponse` takes in one read transaction. */
  function Snapshot(t: Table, id: ConversationId, key: nat, newItems: seq<Body>): Option<Attachment> {
    if Visible(t, id, key) then Some(Attachment(id, key, t[id].revision, InOrder(t[id].items), newItems)) else None
  }

  // --------------------------------------------------------------- invariant

  ghost predicate ConversationOk(c: Conversation) {
    0 !in c.items && |c.items| <= MAX_ITEMS_PER_CONVERSATION && TotalBytes(InOrder(c.items)) <= MAX_CONVERSATION_BYTES
  }

  ghost predicate TableOk(t: Table) { forall id :: id in t ==> ConversationOk(t[id]) }

  /** How a row may change: revisions only grow, and at an unchanged revision the items are unchanged. */
  ghost predicate ConversationEvolves(c: Conversation, d: Conversation) {
    && c.owner == d.owner && c.key == d.key && c.revision <= d.revision
    && (c.revision == d.revision ==> c.items == d.items)
    && (c.deleted ==> d == c)
  }

  lemma InsertOk(c: Conversation, bodies: seq<Body>)
    requires 0 !in c.items
    ensures var r := Insert(c, bodies);
            r.Some? ==> ConversationOk(r.value) && InOrder(r.value.items) == InOrder(c.items) + bodies
                        && r.value == c.(items := r.value.items)
  {
    InsertedInOrder(c.items, bodies);
    var after := InsertAfter(c.items, MaxOrdinal(c.items.Keys), bodies);
    InOrderCount(c.items);
    InOrderCount(after);
    TotalBytesAppend(InOrder(c.items), bodies);
  }

  /** A turn that commits extends exactly the history that was sent to the provider, whatever happened in between. */
  lemma TurnExtendsHistory(t: Table, a: Attachment, output: seq<Body>, room: bool)
    requires TableOk(t) && Turn(t, a, output, room).Committed?
    requires a.id in t && t[a.id].revision == a.revision ==> InOrder(t[a.id].items) == a.history
    ensures var t' := Turn(t, a, output, room).table;
            && t'.Keys == t.Keys && InOrder(t'[a.id].items) == a.history + a.newItems + output
            && t'[a.id].revision == a.revision + 1 && t' == t[a.id := t'[a.id]]
  {
    InsertOk(t[a.id].(revision := a.revision + 1), a.newItems + output);
    assert a.history + (a.newItems + output) == a.history + a.newItems + output;
  }

  lemma {:induction false} UpToRemove(items: map<nat, Body>, ordinal: nat, n: nat)
    requires ordinal in items
    ensures TotalBytes(UpTo(items - {ordinal}, n)) <= TotalBytes(UpTo(items, n))
  {
    if n > 0 {
      UpToRemove(items, ordinal, n - 1);
      TotalBytesAppend(UpTo(items, n - 1), if n in items then [items[n]] else []);
      TotalBytesAppend(UpTo(items - {ordinal}, n - 1), if n in items - {ordinal} then [items[n]] else []);
    }
  }

  lemma DeleteItemOk(c: Conversation, ordinal: nat)
    requires ConversationOk(c) && ordinal in c.items
    ensures ConversationOk(c.(items := c.items - {ordinal}))
  {
    var rest := c.items - {ordinal};
    UpToRemove(c.items, ordinal, MaxOrdinal(c.items.Keys));
    UpToBeyond(rest, MaxOrdinal(rest.Keys), MaxOrdinal(c.items.Keys));
    assert c.items == rest[ordinal := c.items[ordinal]];
    assert |rest| <= |c.items|;
  }

  // ------------------------------------------------------ what each operation does

  /** One row changed: to this history, one revision further; every other row and every other column is as it was. */
  ghost predicate Extends(t: Table, u: Table, id: ConversationId, history: seq<Body>)
    requires id in t
  {
    && u.Keys == t.Keys && (forall k :: k in t && k != id ==> u[k] == t[k])
    && u[id] == t[id].(items := u[id].items, revision := t[id].revision + 1)
    && InOrder(u[id].items) == history
  }

  /** The conversation exists, belongs to the key and is not deleted. */
  predicate Open(t: Table, id: ConversationId, key: nat) { id in t && t[id].key == key && !t[id].deleted }

  /** The bodies fit the item and byte limits of the conversation. */
  ghost predicate Fits(c: Conversation, bodies: seq<Body>) {
    |InOrder(c.items) + bodies| <= MAX_ITEMS_PER_CONVERSATION && TotalBytes(InOrder(c.items) + bodies) <= MAX_CONVERSATION_BYTES
  }

  lemma InsertIff(c: Conversation, bodies: seq<Body>)
    requires 0 !in c.items
    ensures Insert(c, bodies).Some? <==> Fits(c, bodies)
  {
    InOrderCount(c.items);
    TotalBytesAppend(InOrder(c.items), bodies);
  }

  /** A turn commits if and only if the conversation is open at the remembered revision, there is room, and the new items
      and the output fit; it then appends exactly these and changes nothing else. */
  lemma TurnAppends(t: Table, a: Attachment, output: seq<Body>, room: bool)
    requires TableOk(t)
    ensures Turn(t, a, output, room).Committed?
            <==> Open(t, a.id, a.key) && t[a.id].revision == a.revision && room && Fits(t[a.id], a.newItems + output)
    ensures Turn(t, a, output, room).Committed? ==>
              Extends(t, Turn(t, a, output, room).table, a.id, InOrder(t[a.id].items) + (a.newItems + output))
  {
    hide InOrder, Insert, TotalBytes;
    if Open(t, a.id, a.key) {
      assert ConversationOk(t[a.id]);
      InsertIff(t[a.id].(revision := a.revision + 1), a.newItems + output);
      InsertOk(t[a.id].(revision := a.revision + 1), a.newItems + output);
    }
  }

  /** Adding items: the same without a revision to compare with. */
  lemma AddItemsAppends(t: Table, id: ConversationId, key: nat, bodies: seq<Body>, room: bool)
    requires TableOk(t)
    ensures AddItems(t, id, key, bodies, room).Committed? <==> Open(t, id, key) && room && Fits(t[id], bodies)
    ensures AddItems(t, id, key, bodies, room).Committed? ==>
              Extends(t, AddItems(t, id, key, bodies, room).table, id, InOrder(t[id].items) + bodies)
  {
    hide InOrder, Insert, TotalBytes;
    if Open(t, id, key) {
      assert ConversationOk(t[id]);
      InsertIff(t[id], bodies);
      InsertOk(t[id], bodies);
    }
  }

  lemma {:induction false} UpToWithout(items: map<nat, Body>, ordinal: nat, n: nat)
    requires 1 <= ordinal <= n && ordinal in items
    ensures UpTo(items, ordinal - 1) + [items[ordinal]] <= UpTo(items, n)
    ensures UpTo(items - {ordinal}, n) == UpTo(items, ordinal - 1) + UpTo(items, n)[|UpTo(items, ordinal - 1)| + 1..]
    decreases n
  {
    if n == ordinal {
      UpToFrame(items, items - {ordinal}, n - 1);
    } else {
      UpToWithout(items, ordinal, n - 1);
    }
  }

  /** Deleting an item succeeds if and only if the conversation is open and has the item; its history then lacks exactly
      the body at that place, and nothing else changes but the revision. */
  lemma DeleteItemRemoves(t: Table, id: ConversationId, key: nat, ordinal: nat)
    requires TableOk(t)
    ensures DeleteItem(t, id, key, ordinal).Committed? <==> Open(t, id, key) && ordinal in t[id].items
    ensures DeleteItem(t, id, key, ordinal).Committed? ==>
              var before, all := UpTo(t[id].items, ordinal - 1), InOrder(t[id].items);
              before + [t[id].items[ordinal]] <= all
              && Extends(t, DeleteItem(t, id, key, ordinal).table, id, before + all[|before| + 1..])
  {
    if Open(t, id, key) && ordinal in t[id].items {
      assert ConversationOk(t[id]);
      var items := t[id].items;
      var rest, n := items - {ordinal}, MaxOrdinal(items.Keys);
      UpToWithout(items, ordinal, n);
      UpToBeyond(rest, MaxOrdinal(rest.Keys), n);
    }
  }

  /** Creating a conversation succeeds if and only if there is room and the items fit; it then holds exactly these at
      revision 1, and deleting one only marks it. */
  lemma CreateHolds(t: Table, id: ConversationId, owner: nat, key: nat, bodies: seq<Body>, room: bool)
    ensures Create(t, id, owner, key, bodies, room).Committed?
            <==> room && |bodies| <= MAX_ITEMS_PER_CONVERSATION && TotalBytes(bodies) <= MAX_CONVERSATION_BYTES
    ensures Create(t, id, owner, key, bodies, room).Committed? ==>
              var u := Create(t, id, owner, key, bodies, room).table;
              id in u && u == t[id := Conversation(owner, key, 1, false, u[id].items)] && InOrder(u[id].items) == bodies
  {
    var c := Conversation(owner, key, 0, false, map[]);
    assert InOrder(c.items) == [];
    InsertIff(c, bodies);
    InsertOk(c, bodies);
    assert [] + bodies == bodies;
  }

  lemma DeleteMarks(t: Table, id: ConversationId, key: nat)
    ensures Delete(t, id, key).Committed? <==> Open(t, id, key)
    ensures Delete(t, id, key).Committed? ==> Delete(t, id, key).table == t[id := t[id].(deleted := true)]
  {
  }

  /** What is sent to the provider is the history read, and the revision goes with it. */
  lemma SnapshotReads(t: Table, id: ConversationId, key: nat, newItems: seq<Body>)
    ensures Snapshot(t, id, key, newItems).Some? <==> Open(t, id, key)
    ensures Snapshot(t, id, key, newItems).Some? ==>
              var a := Snapshot(t, id, key, newItems).value;
              a.id == id && a.key == key && a.revision == t[id].revision && a.history == InOrder(t[id].items) && a.newItems == newItems
  {
  }
}
