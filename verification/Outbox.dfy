// The leased outbox (core/db/repo/outbox.py): publish, consume, ack and nack, and what
// every history of them guarantees about each event's deliveries.
module Outbox {
  import opened Domain

  // A row's id is its position in the table.
  datatype Row = Row(
    kind: string, payload: string, key: string,
    availableAt: Time, claimedBy: Option<Worker>, leaseUntil: Option<Time>,
    attempts: nat, deliveredAt: Option<Time>, lastError: Option<string>)

  datatype Box = Box(rows: seq<Row>, now: Time)

  // ---- the four operations

  predicate Has(rows: seq<Row>, key: string) {
    exists i :: 0 <= i < |rows| && rows[i].key == key
  }

  function Fresh(kind: string, payload: string, key: string, now: Time): Row {
    Row(kind, payload, key, now, None, None, 0, None, None)
  }

  function Published(b: Box, kind: string, payload: string, key: string): Box {
    if Has(b.rows, key) then b else b.(rows := b.rows + [Fresh(kind, payload, key, b.now)])
  }

  predicate Available(r: Row, now: Time) {
    r.deliveredAt.None? && r.availableAt <= now && (r.leaseUntil.None? || r.leaseUntil.value < now)
  }

  // ORDER BY available_at LIMIT limit over the available rows; equal times in any order.
  ghost predicate Selected(b: Box, limit: nat, picked: seq<nat>) {
    && |picked| <= limit
    && (forall i | 0 <= i < |picked| :: picked[i] < |b.rows| && Available(b.rows[picked[i]], b.now))
    && (forall i, j | 0 <= i < j < |picked| ::
          picked[i] != picked[j] && b.rows[picked[i]].availableAt <= b.rows[picked[j]].availableAt)
    && (forall id: nat | id < |b.rows| && Available(b.rows[id], b.now) && id !in picked ::
          |picked| == limit && forall i | 0 <= i < |picked| :: b.rows[picked[i]].availableAt <= b.rows[id].availableAt)
  }

  function Handed(r: Row, worker: Worker, now: Time, lease: real): Row {
    r.(claimedBy := Some(worker), leaseUntil := Some(now + lease), attempts := r.attempts + 1)
  }

  function Consumed(b: Box, worker: Worker, lease: real, picked: seq<nat>): Box {
    b.(rows := seq(|b.rows|, id requires 0 <= id < |b.rows| =>
      if id in picked then Handed(b.rows[id], worker, b.now, lease) else b.rows[id]))
  }

  function Acked(r: Row, now: Time): Row {
    r.(deliveredAt := Some(now), claimedBy := None, leaseUntil := None)
  }

  function Nacked(r: Row, error: string, now: Time, backoff: real): Row {
    r.(lastError := Some(error), availableAt := now + backoff, claimedBy := None, leaseUntil := None)
  }

  // ---- the class

  class Outbox {
    var rows: seq<Row>
    var now: Time

    constructor (now: Time)
      ensures View() == Box([], now)
    {
      rows, this.now := [], now;
    }

    function View(): Box
      reads this
    {
      Box(rows, now)
    }

    method Publish(kind: string, payload: string, key: string)
      modifies this
      ensures View() == Published(old(View()), kind, payload, key)
    {
      for i := 0 to |rows|
        invariant View() == old(View()) && forall j | 0 <= j < i :: rows[j].key != key
      {
        if rows[i].key == key {
          return;
        }
      }
      rows := rows + [Fresh(kind, payload, key, now)];
    }

    // The available row, not yet picked, that has been available longest.
    method Oldest(picked: seq<nat>) returns (best: Option<nat>)
      ensures best.None? <==> forall id: nat | id < |rows| && Available(rows[id], now) :: id in picked
      ensures best.Some? ==>
                && best.value < |rows| && Available(rows[best.value], now) && best.value !in picked
                && forall id: nat | id < |rows| && Available(rows[id], now) && id !in picked ::
                     rows[best.value].availableAt <= rows[id].availableAt
    {
      best := None;
      for i := 0 to |rows|
        invariant best.None? <==> forall id: nat | id < i && Available(rows[id], now) :: id in picked
        invariant best.Some? ==>
                    && best.value < i && Available(rows[best.value], now) && best.value !in picked
                    && forall id: nat | id < i && Available(rows[id], now) && id !in picked ::
                         rows[best.value].availableAt <= rows[id].availableAt
      {
        if Available(rows[i], now) && i !in picked
            && (best.None? || rows[i].availableAt < rows[best.value].availableAt) {
          best := Some(i);
        }
      }
    }

    method Select(limit: nat) returns (picked: seq<nat>)
      ensures Selected(View(), limit, picked)
    {
      picked := [];
      while |picked| < limit
        invariant Selected(View(), |picked|, picked) && |picked| <= limit
      {
        var best := Oldest(picked);
        if best.None? {
          return;
        }
        assert best.value !in picked;
        picked := picked + [best.value];
      }
    }

    method Consume(worker: Worker, limit: nat, lease: real) returns (picked: seq<nat>)
      modifies this
      ensures Selected(old(View()), limit, picked)
      ensures View() == Consumed(old(View()), worker, lease, picked)
    {
      picked := Select(limit);
      for i := 0 to |picked|
        invariant now == old(now) && |rows| == |old(rows)|
        invariant forall id: nat | id < |rows| ::
                    rows[id] == if id in picked[..i] then Handed(old(rows)[id], worker, now, lease) else old(rows)[id]
      {
        assert picked[i] !in picked[..i];
        assert picked[..i + 1] == picked[..i] + [picked[i]];
        rows := rows[picked[i] := Handed(rows[picked[i]], worker, now, lease)];
      }
      assert picked[..|picked|] == picked;
      assert rows == Consumed(old(View()), worker, lease, picked).rows;
    }

    // False: no such event.
    method Ack(id: nat) returns (ok: bool)
      modifies this
      ensures ok <==> id < |old(rows)|
      ensures View() == if ok then old(View()).(rows := old(rows)[id := Acked(old(rows)[id], old(now))])
          else old(View())
    {
      if id >= |rows| {
        return false;
      }
      var e := rows[id];
      e := e.(deliveredAt := Some(now));
      e := e.(claimedBy := None, leaseUntil := None);
      rows := rows[id := e];
      return true;
    }

    method Nack(id: nat, error: string, backoff: real) returns (ok: bool)
      modifies this
      ensures ok <==> id < |old(rows)|
      ensures View() == if ok then old(View()).(rows := old(rows)[id := Nacked(old(rows)[id], error, old(now),
          backoff)]) else old(View())
    {
      if id >= |rows| {
        return false;
      }
      var e := rows[id];
      e := e.(lastError := Some(error));
      e := e.(availableAt := now + backoff);
      e := e.(claimedBy := None, leaseUntil := None);
      rows := rows[id := e];
      return true;
    }
  }

  // ---- histories

  datatype Op =
    | Publishing(kind: string, payload: string, key: string)
    | Consuming(worker: Worker, limit: nat, lease: real, picked: seq<nat>)
    | Acking(id: nat)
    | Nacking(id: nat, error: string, backoff: real)
    | Waiting(until: Time)

  ghost predicate Next(b: Box, op: Op, after: Box) {
    match op
    case Publishing(kind, payload, key) => after == Published(b, kind, payload, key)
    case Consuming(worker, limit, lease, picked) =>
      Selected(b, limit, picked) && after == Consumed(b, worker, lease, picked)
    case Acking(id) => id < |b.rows| && after == b.(rows := b.rows[id := Acked(b.rows[id], b.now)])
    case Nacking(id, error, backoff) =>
      id < |b.rows| && after == b.(rows := b.rows[id := Nacked(b.rows[id], error, b.now, backoff)])
    case Waiting(until) => until >= b.now && after == b.(now := until)
  }

  datatype History = History(boxes: seq<Box>, ops: seq<Op>)

  ghost predicate OpAt(h: History, i: nat)
    requires |h.boxes| == |h.ops| + 1 && i < |h.ops|
  {
    Next(h.boxes[i], h.ops[i], h.boxes[i + 1])
  }

  ghost predicate Valid(h: History) {
    && |h.boxes| == |h.ops| + 1
    && h.boxes[0].rows == []
    && forall i: nat | i < |h.ops| :: OpAt(h, i)
  }

  predicate Delivers(op: Op, id: nat) {
    op.Consuming? && id in op.picked
  }

  // ---- what one operation does to one row

  // Rows keep their identity, time moves forward, and an acknowledged row stays so.
  ghost predicate RowKept(r: Row, t: Row) {
    && t.kind == r.kind && t.payload == r.payload && t.key == r.key
    && (r.deliveredAt.Some? ==> t.deliveredAt.Some?)
    && r.attempts <= t.attempts
  }

  ghost predicate BoxKept(b: Box, after: Box) {
    && |b.rows| <= |after.rows| && b.now <= after.now
    && forall id: nat | id < |b.rows| :: RowKept(b.rows[id], after.rows[id])
  }

  lemma StepKeepsRows(b: Box, op: Op, after: Box)
    requires Next(b, op, after)
    ensures BoxKept(b, after)
  {
  }

  lemma {:induction false} RowsKept(h: History, i: nat, j: nat)
    requires Valid(h) && i <= j < |h.boxes|
    ensures BoxKept(h.boxes[i], h.boxes[j])
    decreases j
  {
    if i < j {
      RowsKept(h, i, j - 1);
      assert OpAt(h, j - 1);
      StepKeepsRows(h.boxes[j - 1], h.ops[j - 1], h.boxes[j]);
      forall id: nat | id < |h.boxes[i].rows| ensures RowKept(h.boxes[i].rows[id], h.boxes[j].rows[id]) {
        assert RowKept(h.boxes[i].rows[id], h.boxes[j - 1].rows[id])
            && RowKept(h.boxes[j - 1].rows[id], h.boxes[j].rows[id]);
      }
    }
  }

  // No row is ever lost or relabelled, and dedupe keys stay unique.
  lemma {:induction false} KeysStayUnique(h: History, i: nat)
    requires Valid(h) && i < |h.boxes|
    ensures forall a, b | 0 <= a < b < |h.boxes[i].rows| :: h.boxes[i].rows[a].key != h.boxes[i].rows[b].key
  {
    if i > 0 {
      KeysStayUnique(h, i - 1);
      assert OpAt(h, i - 1);
      var before, after := h.boxes[i - 1].rows, h.boxes[i].rows;
      StepKeepsRows(h.boxes[i - 1], h.ops[i - 1], h.boxes[i]);
      assert forall a: nat | a < |before| :: RowKept(before[a], after[a]);
    }
  }

  // Only consuming it delivers an event, and it must have been available.
  lemma DeliveredWasAvailable(b: Box, op: Op, after: Box, id: nat)
    requires Next(b, op, after) && Delivers(op, id)
    ensures id < |b.rows| && Available(b.rows[id], b.now)
    ensures after.now == b.now && id < |after.rows| && after.rows[id] == Handed(b.rows[id], op.worker, b.now, op.lease)
  {
    var k :| 0 <= k < |op.picked| && op.picked[k] == id;
  }

  // ---- the lease

  // The event is done with, still under this lease, or the lease has run out.
  ghost predicate LeaseHolds(b: Box, id: nat, until: Time) {
    id < |b.rows| && (b.rows[id].deliveredAt.Some? || b.rows[id].leaseUntil == Some(until) || b.now > until)
  }

  lemma LeaseStep(b: Box, op: Op, after: Box, id: nat, until: Time)
    requires Next(b, op, after) && LeaseHolds(b, id, until)
    requires !(op.Nacking? && op.id == id)
    ensures LeaseHolds(after, id, until)
    ensures Delivers(op, id) ==> b.now > until
  {
    if Delivers(op, id) {
      DeliveredWasAvailable(b, op, after, id);
    }
  }

  lemma {:induction false} LeaseHeld(h: History, i: nat, j: nat, id: nat)
    requires Valid(h) && i < j < |h.boxes| && Delivers(h.ops[i], id)
    requires forall k: nat | i < k < j :: !(h.ops[k].Nacking? && h.ops[k].id == id)
    ensures LeaseHolds(h.boxes[j], id, h.boxes[i].now + h.ops[i].lease)
    decreases j
  {
    if j == i + 1 {
      assert OpAt(h, i);
      DeliveredWasAvailable(h.boxes[i], h.ops[i], h.boxes[j], id);
    } else {
      LeaseHeld(h, i, j - 1, id);
      assert OpAt(h, j - 1);
      LeaseStep(h.boxes[j - 1], h.ops[j - 1], h.boxes[j], id, h.boxes[i].now + h.ops[i].lease);
    }
  }

  // Two deliveries of one event with no nack between them are more than the lease apart.
  lemma DeliveriesAreApart(h: History, i: nat, j: nat, id: nat)
    requires Valid(h) && i < j < |h.ops| && Delivers(h.ops[i], id) && Delivers(h.ops[j], id)
    requires forall k: nat | i < k < j :: !(h.ops[k].Nacking? && h.ops[k].id == id)
    ensures h.boxes[j].now > h.boxes[i].now + h.ops[i].lease
  {
    LeaseHeld(h, i, j, id);
    assert OpAt(h, j);
    LeaseStep(h.boxes[j], h.ops[j], h.boxes[j + 1], id, h.boxes[i].now + h.ops[i].lease);
  }

  // ---- nack and ack

  lemma {:induction false} BackoffHeld(h: History, i: nat, j: nat, id: nat)
    requires Valid(h) && i < j < |h.boxes| && h.ops[i].Nacking? && h.ops[i].id == id
    requires forall k: nat | i < k < j :: !(h.ops[k].Nacking? && h.ops[k].id == id)
    ensures id < |h.boxes[j].rows| && h.boxes[j].rows[id].availableAt == h.boxes[i].now + h.ops[i].backoff
    decreases j
  {
    assert OpAt(h, j - 1);
    if j > i + 1 {
      BackoffHeld(h, i, j - 1, id);
    }
  }

  // A nacked event is not handed out before the backoff of its last nack has passed.
  lemma NackDelays(h: History, i: nat, j: nat, id: nat)
    requires Valid(h) && i < j < |h.ops| && h.ops[i].Nacking? && h.ops[i].id == id && Delivers(h.ops[j], id)
    requires forall k: nat | i < k < j :: !(h.ops[k].Nacking? && h.ops[k].id == id)
    ensures h.boxes[j].now >= h.boxes[i].now + h.ops[i].backoff
  {
    BackoffHeld(h, i, j, id);
    assert OpAt(h, j);
    DeliveredWasAvailable(h.boxes[j], h.ops[j], h.boxes[j + 1], id);
  }

  // An acknowledged event is never handed out again.
  lemma AckIsFinal(h: History, i: nat, j: nat, id: nat)
    requires Valid(h) && i < j < |h.ops| && h.ops[i] == Acking(id)
    ensures !Delivers(h.ops[j], id)
  {
    assert OpAt(h, i);
    assert OpAt(h, j);
    RowsKept(h, i + 1, j);
    assert RowKept(h.boxes[i + 1].rows[id], h.boxes[j].rows[id]);
    if Delivers(h.ops[j], id) {
      DeliveredWasAvailable(h.boxes[j], h.ops[j], h.boxes[j + 1], id);
    }
  }

  // ---- counting

  function Deliveries(ops: seq<Op>, id: nat): nat {
    if ops == [] then 0 else Deliveries(ops[..|ops| - 1], id) + if Delivers(ops[|ops| - 1], id) then 1 else 0
  }

  // An event's attempts are exactly the times it was handed out, and an event that does
  // not exist yet was never handed out.
  lemma {:induction false} AttemptsCountDeliveries(h: History, i: nat, id: nat)
    requires Valid(h) && i < |h.boxes|
    ensures Deliveries(h.ops[..i], id) == if id < |h.boxes[i].rows| then h.boxes[i].rows[id].attempts else 0
  {
    if i > 0 {
      AttemptsCountDeliveries(h, i - 1, id);
      assert h.ops[..i][..i - 1] == h.ops[..i - 1];
      assert OpAt(h, i - 1);
      if Delivers(h.ops[i - 1], id) {
        DeliveredWasAvailable(h.boxes[i - 1], h.ops[i - 1], h.boxes[i], id);
      }
    }
  }
}
