/** The order in which one background process picks work: three queues in rotation, and within the Response queue
    other owners and other keys first. */
module Rotation {
  import opened Common

  const KINDS: nat := 3

  /** Which queues have work that can be claimed, in one round of `RunBackground`. */
  datatype Round = Round(ready: seq<bool>)
  {
    predicate Valid() { |ready| == KINDS }
  }

  /** The kind a round runs when the rotation stands at `next`: the first ready one from there on. */
  function Picked(next: nat, round: Round): Option<nat>
    requires next < KINDS && round.Valid()
  {
    if round.ready[next] then Some(next)
    else if round.ready[(next + 1) % KINDS] then Some((next + 1) % KINDS)
    else if round.ready[(next + 2) % KINDS] then Some((next + 2) % KINDS)
    else None
  }

  function After(next: nat, round: Round): (r: nat)
    requires next < KINDS && round.Valid()
    ensures r < KINDS
  {
    match Picked(next, round) case Some(kind) => (kind + 1) % KINDS case None => next
  }

  class Scheduler {
    var nextBackground: nat

    constructor ()
      ensures nextBackground == 0
    {
      nextBackground := 0;
    }

    /** One pass of the loop in `RunBackground`. */
    method RunRound(round: Round) returns (ran: Option<nat>)
      requires nextBackground < KINDS && round.Valid()
      modifies this
      ensures ran == Picked(old(nextBackground), round) && nextBackground == After(old(nextBackground), round)
      ensures ran.None? <==> forall k :: 0 <= k < KINDS ==> !round.ready[k]
    {
      var offset := 0;
      while offset < KINDS
        invariant 0 <= offset <= KINDS && nextBackground == old(nextBackground)
        invariant offset >= 1 ==> !round.ready[nextBackground]
        invariant offset >= 2 ==> !round.ready[(nextBackground + 1) % KINDS]
        invariant offset >= 3 ==> !round.ready[(nextBackground + 2) % KINDS]
      {
        var kind := (nextBackground + offset) % KINDS;
        if round.ready[kind] {
          nextBackground := (kind + 1) % KINDS;
          return Some(kind);
        }
        offset := offset + 1;
      }
      return None;
    }
  }

  function NextAfter(next: nat, rounds: seq<Round>, n: nat): (r: nat)
    requires next < KINDS && n <= |rounds| && forall i :: 0 <= i < |rounds| ==> rounds[i].Valid()
    ensures r < KINDS
  {
    if n == 0 then next else After(NextAfter(next, rounds, n - 1), rounds[n - 1])
  }

  /** Rounds until the rotation reaches a kind. */
  function Distance(next: nat, kind: nat): nat
    requires next < KINDS && kind < KINDS
  {
    (kind + KINDS - next) % KINDS
  }

  lemma CloserOrPicked(next: nat, round: Round, kind: nat)
    requires next < KINDS && kind < KINDS && round.Valid() && round.ready[kind]
    ensures Picked(next, round) == Some(kind) || Distance(After(next, round), kind) < Distance(next, kind)
  {
  }

  /** No queue starves: one that stays ready is run within any three rounds, however busy the others are. */
  lemma NoKindStarves(next: nat, rounds: seq<Round>, start: nat, kind: nat)
    requires next < KINDS && kind < KINDS && start + KINDS <= |rounds|
    requires forall i :: 0 <= i < |rounds| ==> rounds[i].Valid()
    requires forall i :: start <= i < start + KINDS ==> rounds[i].Valid() && rounds[i].ready[kind]
    ensures exists i :: start <= i < start + KINDS && Picked(NextAfter(next, rounds, i), rounds[i]) == Some(kind)
  {
    hide Picked, After;
    var a, b, c := NextAfter(next, rounds, start), NextAfter(next, rounds, start + 1), NextAfter(next, rounds, start + 2);
    CloserOrPicked(a, rounds[start], kind);
    CloserOrPicked(b, rounds[start + 1], kind);
    CloserOrPicked(c, rounds[start + 2], kind);
  }

  // ------------------------------------------------------------- claim order

  datatype Queued = Queued(id: nat, owner: nat, key: nat, createdAt: int)

  /** ORDER BY in `claimBackground`: not the last owner, then not the last key, then oldest, then by id. */
  predicate Precedes(a: Queued, b: Queued, lastOwner: nat, lastKey: nat) {
    if (a.owner == lastOwner) != (b.owner == lastOwner) then a.owner != lastOwner
    else if (a.key == lastKey) != (b.key == lastKey) then a.key != lastKey
    else if a.createdAt != b.createdAt then a.createdAt < b.createdAt
    else a.id < b.id
  }

  /** Another owner comes before the last one, then another key before the last one, then the older, then the smaller id. */
  predicate ClaimedBefore(a: Queued, b: Queued, lastOwner: nat, lastKey: nat) {
    && (a.owner == lastOwner ==> b.owner == lastOwner)
    && ((a.owner == lastOwner) == (b.owner == lastOwner) ==>
          && (a.key == lastKey ==> b.key == lastKey)
          && ((a.key == lastKey) == (b.key == lastKey) ==> a.createdAt < b.createdAt || (a.createdAt == b.createdAt && a.id <= b.id)))
  }

  /** LIMIT 1: the first queued Response in that order. */
  method ClaimNext(queue: seq<Queued>, lastOwner: nat, lastKey: nat) returns (claimed: Option<Queued>)
    ensures claimed.None? <==> queue == []
    ensures claimed.Some? ==> claimed.value in queue && forall q :: q in queue ==> !Precedes(q, claimed.value, lastOwner, lastKey)
    ensures claimed.Some? ==> forall q :: q in queue ==> ClaimedBefore(claimed.value, q, lastOwner, lastKey)
    ensures claimed.Some? && claimed.value.owner == lastOwner ==> forall q :: q in queue ==> q.owner == lastOwner
    ensures claimed.Some? && claimed.value.owner == lastOwner && claimed.value.key == lastKey ==> forall q :: q in queue ==> q.key == lastKey
  {
    if queue == [] { return None; }
    var best := 0;
    var i := 1;
    while i < |queue|
      invariant 0 <= best < i <= |queue|
      invariant forall k :: 0 <= k < i ==> !Precedes(queue[k], queue[best], lastOwner, lastKey)
    {
      if Precedes(queue[i], queue[best], lastOwner, lastKey) { best := i; }
      i := i + 1;
    }
    return Some(queue[best]);
  }
}
