/** Reconciling one role's HTTP capture with the ledger: what the wire, the server and the
    durable rows must agree on. */
module HttpPrimary {
  import opened Options
  import opened Ledger
  import opened LedgerInvariant
  import BoundedProvider

  /** The client side of one request. */
  datatype Wire = Wire(request: Id, headerAttempts: nat, bodyBytes: nat, path: Id, fixtureOrigin: Id, logicalOrigin: Id,
                       rawBody: Id, retained: nat)

  datatype Headers = Headers(host: Id, json: bool, contentLength: nat, close: bool, others: bool)

  /** What the server says it received. */
  datatype Receipt = Receipt(headers: Headers, bodyReceived: bool, request: Id, receivedBytes: nat, declaredBytes: nat,
                             path: Id)

  datatype Contract = Contract(body: Id, bodyBytes: nat, rest: Id)

  datatype Captured = Captured(
    events: seq<BoundedProvider.TransportEvent>, wire: Option<Wire>, contract: Contract, factsAcknowledged: bool)

  /** The captures of one process; `role` is the one whose attempts it made. */
  datatype Primary = Primary(captured: Captured, receipts: seq<Receipt>, connections: int, serverErrors: seq<Id>)

  datatype Lease = Lease(attemptId: Id, consumed: bool, fixtureOrigin: Id, logicalOrigin: Id)
  datatype Facts = Facts(attemptId: Id, contract: Contract)

  /** The durable snapshot: the ledger, its one-use send leases and its response facts. */
  datatype Snapshot = Snapshot(db: Ledger, leases: seq<Lease>, facts: seq<Facts>)

  function Current(db: Ledger, o: Id, role: Role): set<Id> {
    set id | id in db.attempts
      && db.attempts[id].reservation.observation == o && db.attempts[id].reservation.role == role
  }

  function LeasesOf(leases: seq<Lease>, id: Id): seq<Lease> {
    if leases == [] then [] else (if leases[0].attemptId == id then [leases[0]] else []) + LeasesOf(leases[1..], id)
  }

  function FactsOf(facts: seq<Facts>, id: Id): seq<Facts> {
    if facts == [] then [] else (if facts[0].attemptId == id then [facts[0]] else []) + FactsOf(facts[1..], id)
  }

  predicate Silent(p: Primary) {
    p.captured.wire.None? && p.receipts == [] && p.connections == 0 && p.captured.events == []
  }

  predicate ServerConsistent(p: Primary) {
    |p.receipts| <= 1 && p.connections == |p.receipts| && p.serverErrors == []
  }

  predicate Delivered(w: Wire, receipt: Receipt, request: Id, lease: Lease) {
    && lease.consumed && receipt.bodyReceived && w.request == request && receipt.request == request
    && receipt.receivedBytes == w.bodyBytes && receipt.declaredBytes == receipt.receivedBytes && receipt.path == w.path
    && receipt.headers == Headers(w.fixtureOrigin, true, receipt.receivedBytes, true, false)
    && w.fixtureOrigin == lease.fixtureOrigin && w.logicalOrigin == lease.logicalOrigin
  }

  predicate Recorded(c: Captured, w: Wire, facts: seq<Facts>) {
    && |facts| == 1 && c.factsAcknowledged && facts[0].contract == c.contract
    && w.rawBody == facts[0].contract.body && w.retained == facts[0].contract.bodyBytes
  }

  predicate Exchanged(p: Primary, s: Snapshot, id: Id)
    requires id in s.db.attempts
  {
    && p.captured.wire.Some?
    && var w, leases := p.captured.wire.value, LeasesOf(s.leases, id);
    && |leases| == 1 && w.headerAttempts == |p.receipts| == 1
    && Delivered(w, p.receipts[0], s.db.attempts[id].reservation.request, leases[0])
    && Recorded(p.captured, w, FactsOf(s.facts, id))
  }

  predicate Validates(p: Primary, role: Role, o: Id, s: Snapshot) {
    && ServerConsistent(p)
    && var current := Current(s.db, o, role);
    if current == {} then Silent(p)
    else |current| == 1 && forall id | id in current :: Exchanged(p, s, id)
  }

  lemma Alone<T>(s: set<T>, a: T, b: T)
    requires |s| == 1 && a in s && b in s
    ensures a == b
  {
    assert |s - {a}| == 0;
  }

  /** A validated capture was silent exactly when the ledger holds no attempt for it. */
  lemma SilentIffUnreserved(p: Primary, role: Role, o: Id, s: Snapshot)
    requires Validates(p, role, o, s)
    ensures Silent(p) <==> Current(s.db, o, role) == {}
  {
    var current := Current(s.db, o, role);
    if current != {} {
      var id :| id in current;
      assert Exchanged(p, s, id);
    }
  }

  /** In a sound ledger a validated exchange stands for a single first attempt: nothing was retried, the headers went
      out once, and every byte the client emitted is a byte the server received. */
  lemma ValidatedIsOneFirstAttempt(p: Primary, role: Role, o: Id, s: Snapshot)
    requires Inv(s.db) && Validates(p, role, o, s) && !Silent(p)
    ensures exists id :: (
      && id in Current(s.db, o, role) && Current(s.db, o, role) == {id}
      && s.db.attempts[id].reservation.retry == 0
      && Exchanged(p, s, id)
      && p.captured.wire.value.headerAttempts == 1
      && p.captured.wire.value.bodyBytes == p.receipts[0].receivedBytes == p.receipts[0].headers.contentLength)
  {
    var current := Current(s.db, o, role);
    assert current != {};
    var id :| id in current;
    assert Exchanged(p, s, id);
    forall x | x in current ensures x == id { Alone(current, x, id); }
    assert current == {id};
    FirstInSlot(s.db, o, role, id);
  }

  /** Where there is any attempt of a role there is a first one. */
  lemma FirstInSlot(db: Ledger, o: Id, role: Role, id: Id)
    requires Inv(db) && id in Current(db, o, role)
    ensures exists first :: first in Current(db, o, role) && db.attempts[first].reservation.retry == 0
  {
    assert AttemptSound(db.observations, db.stopped, id, db.attempts[id]);
    if db.attempts[id].reservation.retry == 1 {
      assert HasSibling(db.attempts, db.attempts[id].reservation);
      var first :| first in db.attempts && Sibling(db.attempts[id].reservation, db.attempts[first]);
      assert first in Current(db, o, role);
    }
  }

  /** A validated role was used once at most, and never for a retry. */
  lemma ValidatedOnce(p: Primary, role: Role, o: Id, s: Snapshot)
    requires Inv(s.db) && Validates(p, role, o, s)
    ensures |Current(s.db, o, role)| <= 1
    ensures forall id | id in Current(s.db, o, role) :: s.db.attempts[id].reservation.retry == 0
  {
    var current := Current(s.db, o, role);
    if current != {} {
      SilentIffUnreserved(p, role, o, s);
      ValidatedIsOneFirstAttempt(p, role, o, s);
    }
  }

  // ---- Validation, field by field ----

  /** l is the only lease row of the attempt. */
  ghost predicate OnlyLease(leases: seq<Lease>, id: Id, l: Lease) {
    exists k :: 0 <= k < |leases| && leases[k] == l && l.attemptId == id
      && forall j | 0 <= j < |leases| && j != k :: leases[j].attemptId != id
  }

  ghost predicate OnlyFacts(facts: seq<Facts>, id: Id, f: Facts) {
    exists k :: 0 <= k < |facts| && facts[k] == f && f.attemptId == id
      && forall j | 0 <= j < |facts| && j != k :: facts[j].attemptId != id
  }

  lemma {:induction false} NoLeases(leases: seq<Lease>, id: Id)
    ensures LeasesOf(leases, id) == [] <==> forall j | 0 <= j < |leases| :: leases[j].attemptId != id
  {
    if leases != [] { NoLeases(leases[1..], id); }
  }

  lemma {:induction false} OneLease(leases: seq<Lease>, id: Id, l: Lease)
    ensures LeasesOf(leases, id) == [l] <==> OnlyLease(leases, id, l)
  {
    if leases != [] {
      var rest := leases[1..];
      OneLease(rest, id, l);
      NoLeases(rest, id);
      assert forall j | 1 <= j < |leases| :: leases[j] == rest[j - 1];
      if leases[0].attemptId == id {
        var all := [leases[0]] + LeasesOf(rest, id);
        if LeasesOf(leases, id) == [l] {
          assert all[0] == l && all[1..] == LeasesOf(rest, id) == [];
          assert forall j | 0 <= j < |leases| && j != 0 :: leases[j].attemptId != id;
        }
      } else if OnlyLease(rest, id, l) {
        var k :| 0 <= k < |rest| && rest[k] == l && forall j | 0 <= j < |rest| && j != k :: rest[j].attemptId != id;
        assert leases[k + 1] == l;
      }
    }
  }

  lemma {:induction false} NoFacts(facts: seq<Facts>, id: Id)
    ensures FactsOf(facts, id) == [] <==> forall j | 0 <= j < |facts| :: facts[j].attemptId != id
  {
    if facts != [] { NoFacts(facts[1..], id); }
  }

  lemma {:induction false} OneFact(facts: seq<Facts>, id: Id, f: Facts)
    ensures FactsOf(facts, id) == [f] <==> OnlyFacts(facts, id, f)
  {
    if facts != [] {
      var rest := facts[1..];
      OneFact(rest, id, f);
      NoFacts(rest, id);
      assert forall j | 1 <= j < |facts| :: facts[j] == rest[j - 1];
      if facts[0].attemptId == id {
        var all := [facts[0]] + FactsOf(rest, id);
        if FactsOf(facts, id) == [f] {
          assert all[0] == f && all[1..] == FactsOf(rest, id) == [];
          assert forall j | 0 <= j < |facts| && j != 0 :: facts[j].attemptId != id;
        }
      } else if OnlyFacts(rest, id, f) {
        var k :| 0 <= k < |rest| && rest[k] == f && forall j | 0 <= j < |rest| && j != k :: rest[j].attemptId != id;
        assert facts[k + 1] == f;
      }
    }
  }

  /** What client, server, lease and response facts must agree on, for the request of the reservation. */
  ghost predicate Agreed(p: Primary, request: Id, l: Lease, f: Facts) {
    && p.captured.wire.Some? && |p.receipts| == 1
    && var w, receipt := p.captured.wire.value, p.receipts[0];
    && w.headerAttempts == 1 && l.consumed && receipt.bodyReceived
    && w.request == request && receipt.request == request
    && w.bodyBytes == receipt.receivedBytes == receipt.declaredBytes == receipt.headers.contentLength
    && receipt.path == w.path && receipt.headers.host == w.fixtureOrigin
    && receipt.headers.json && receipt.headers.close && !receipt.headers.others
    && l.fixtureOrigin == w.fixtureOrigin && l.logicalOrigin == w.logicalOrigin
    && p.captured.factsAcknowledged && f.contract == p.captured.contract
    && w.rawBody == f.contract.body && w.retained == f.contract.bodyBytes
  }

  ghost predicate OnlyAttempt(db: Ledger, o: Id, role: Role, id: Id) {
    && id in db.attempts && db.attempts[id].reservation.observation == o && db.attempts[id].reservation.role == role
    && forall x | x in db.attempts && x != id ::
         db.attempts[x].reservation.observation != o || db.attempts[x].reservation.role != role
  }

  ghost predicate NoAttempt(db: Ledger, o: Id, role: Role) {
    forall x | x in db.attempts ::
      db.attempts[x].reservation.observation != o || db.attempts[x].reservation.role != role
  }

  lemma CurrentExactly(db: Ledger, o: Id, role: Role)
    ensures Current(db, o, role) == {} <==> NoAttempt(db, o, role)
    ensures forall id :: Current(db, o, role) == {id} <==> OnlyAttempt(db, o, role, id)
  {
    var current := Current(db, o, role);
    if current == {} {
      forall x | x in db.attempts
        ensures db.attempts[x].reservation.observation != o || db.attempts[x].reservation.role != role
      {
        assert x !in current;
      }
    }
    forall id ensures current == {id} <==> OnlyAttempt(db, o, role, id) {
      if current == {id} {
        assert id in current;
        forall x | x in db.attempts && x != id
          ensures db.attempts[x].reservation.observation != o || db.attempts[x].reservation.role != role
        {
          assert x !in current;
        }
      }
    }
  }

  /** The one attempt that the capture is of. */
  ghost predicate Corresponds(p: Primary, role: Role, o: Id, s: Snapshot, id: Id, l: Lease, f: Facts) {
    && OnlyAttempt(s.db, o, role, id)
    && OnlyLease(s.leases, id, l) && OnlyFacts(s.facts, id, f)
    && Agreed(p, s.db.attempts[id].reservation.request, l, f)
  }

  /** A capture is validated exactly when the server is consistent and either there was neither an attempt nor any
      activity, or there was one attempt, with one consumed lease and one row of facts, and all of them agree. */
  lemma ValidatesExactly(p: Primary, role: Role, o: Id, s: Snapshot)
    ensures Validates(p, role, o, s) <==>
      && p.serverErrors == [] && p.connections == |p.receipts| <= 1
      && ((NoAttempt(s.db, o, role) && p.captured.wire.None? && p.receipts == [] && p.captured.events == [])
          || exists id, l, f :: Corresponds(p, role, o, s, id, l, f))
  {
    var current := Current(s.db, o, role);
    CurrentExactly(s.db, o, role);
    hide OnlyAttempt, NoAttempt;
    if Validates(p, role, o, s) && current != {} {
      var id :| id in current;
      assert Exchanged(p, s, id);
      forall x | x in current ensures x == id { Alone(current, x, id); }
      var l, f := LeasesOf(s.leases, id)[0], FactsOf(s.facts, id)[0];
      assert LeasesOf(s.leases, id) == [l] && FactsOf(s.facts, id) == [f];
      OneLease(s.leases, id, l);
      OneFact(s.facts, id, f);
      assert Corresponds(p, role, o, s, id, l, f);
    }
    if id, l, f :| Corresponds(p, role, o, s, id, l, f) {
      OneLease(s.leases, id, l);
      OneFact(s.facts, id, f);
      if p.serverErrors == [] && p.connections == |p.receipts| { assert Exchanged(p, s, id); }
    }
  }

  /** Validation looks at the reservations of one role only: a ledger with the same ones validates the same captures. */
  lemma ValidationStands(p: Primary, role: Role, o: Id, s: Snapshot, db: Ledger)
    requires Validates(p, role, o, s)
    requires Current(db, o, role) == Current(s.db, o, role)
    requires forall id | id in Current(s.db, o, role) :: db.attempts[id].reservation == s.db.attempts[id].reservation
    ensures Validates(p, role, o, s.(db := db))
  {
    forall id | id in Current(s.db, o, role) && |Current(s.db, o, role)| == 1 ensures Exchanged(p, s.(db := db), id) {
      assert Exchanged(p, s, id);
    }
  }

  /** The events of a capture matter only where there is no attempt. */
  lemma EventsOnlyOfTheSilent(p: Primary, role: Role, o: Id, s: Snapshot, before: seq<BoundedProvider.TransportEvent>,
                              after: seq<BoundedProvider.TransportEvent>)
    requires Validates(p.(captured := p.captured.(events := before)), role, o, s) && Current(s.db, o, role) != {}
    ensures Validates(p.(captured := p.captured.(events := after)), role, o, s)
  {
    var q, q' := p.(captured := p.captured.(events := before)), p.(captured := p.captured.(events := after));
    forall id | id in Current(s.db, o, role) ensures Exchanged(q', s, id) { assert Exchanged(q, s, id); }
  }

  /** Once a retry is in the ledger no capture of that role can be validated any more. */
  lemma RetryIsNeverValidated(p: Primary, role: Role, o: Id, s: Snapshot, id: Id)
    requires Inv(s.db) && id in Current(s.db, o, role) && s.db.attempts[id].reservation.retry == 1
    ensures !Validates(p, role, o, s)
  {
    if Validates(p, role, o, s) {
      SilentIffUnreserved(p, role, o, s);
      ValidatedIsOneFirstAttempt(p, role, o, s);
      assert false;
    }
  }
}
