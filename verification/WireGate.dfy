/** The lower network gate of one HTTP request: every outgoing byte is checked
    against one fixed header block and its body, behind a one-use send lease. */
module WireGate {
  import opened Options

  newtype byte = x: int | 0 <= x < 256

  datatype LeaseCustody = NotAttempted | UnknownPendingAck | AcknowledgedConsumed

  datatype Completion =
    | NotStarted
    | SendDeadlineUnarmed
    | AfterSendDeadline
    | SendCompletionUnknown
    | BodyLimitRejected
    | BodyReadComplete

  /** What happens to the durable lease consumption. */
  datatype LeaseFate = Acknowledged | NotCommitted | AckLost

  datatype Facts = Facts(
    blockedWrites: nat, leaseCustody: LeaseCustody, leaseAcknowledged: bool, headerEmissionAttempts: nat,
    bodyEmissionAttempted: nat, socketWriteCalls: nat, headersCompleted: bool, retained: nat, completion: Completion)

  const NO_FACTS := Facts(0, NotAttempted, false, 0, 0, 0, false, 0, NotStarted)

  /** One persistent send lease; a consumed lease is never recreated. */
  class SendLease {
    var available: bool

    constructor ()
      ensures available
    {
      available := true;
    }

    method Consume(fate: LeaseFate) returns (acknowledged: bool)
      modifies this
      ensures acknowledged <==> old(available) && fate == Acknowledged
      ensures available <==> old(available) && fate == NotCommitted
    {
      acknowledged := available && fate == Acknowledged;
      available := available && fate == NotCommitted;
    }
  }

  function Flatten(parts: seq<seq<byte>>): seq<byte> {
    if parts == [] then [] else Flatten(parts[..|parts| - 1]) + parts[|parts| - 1]
  }

  lemma {:induction false} FlattenGrows(parts: seq<seq<byte>>, k: nat)
    requires k <= |parts|
    ensures |Flatten(parts[..k])| <= |Flatten(parts)|
    decreases |parts|
  {
    if k < |parts| {
      assert parts[..|parts| - 1][..k] == parts[..k];
      FlattenGrows(parts[..|parts| - 1], k);
    } else {
      assert parts[..k] == parts;
    }
  }

  class LiveHTTPTransport {
    const lease: SendLease
    var sendDeadline: Option<real>
    var entered: bool
    var intact: bool                   // integrity(): nothing was swapped, not closed
    var facts: Facts

    constructor (lease: SendLease)
      ensures this.lease == lease && sendDeadline == None && !entered && intact
      ensures facts == NO_FACTS
    {
      this.lease := lease;
      sendDeadline, entered, intact := None, false, true;
      facts := NO_FACTS;
    }

    /** One-use, and only before the request is entered. */
    method ArmSendDeadline(t: real) returns (ok: bool)
      modifies this`sendDeadline
      ensures ok <==> !entered && old(sendDeadline).None? && t > 0.0
      ensures sendDeadline == if ok then Some(t) else old(sendDeadline)
    {
      ok := !entered && sendDeadline.None? && t > 0.0;
      if ok {
        sendDeadline := Some(t);
      }
    }

    method GuardSendDeadline(now: real) returns (ok: bool)
      modifies this`facts
      ensures ok <==> sendDeadline.Some? && now < sendDeadline.value
      ensures facts == old(facts).(completion := if sendDeadline.None? then SendDeadlineUnarmed
                                                 else if ok then old(facts).completion else AfterSendDeadline)
    {
      ok := false;
      if sendDeadline.None? {
        facts := facts.(completion := SendDeadlineUnarmed);
      } else if now >= sendDeadline.value {
        facts := facts.(completion := AfterSendDeadline);
      } else {
        ok := true;
      }
    }

    /** The read loop: it accepts exactly the bodies that fit, and what it retains is
        the concatenation of the parts accepted so far, never more than the bound. */
    method ReadBody(parts: seq<seq<byte>>, max: nat) returns (ok: bool, retained: seq<byte>, accepted: nat)
      requires facts.retained == 0
      modifies this`facts
      ensures ok <==> |Flatten(parts)| <= max
      ensures accepted <= |parts| && retained == Flatten(parts[..accepted]) && |retained| <= max
      ensures ok ==> accepted == |parts|
      ensures !ok ==> accepted < |parts| && |retained| + |parts[accepted]| > max
      ensures facts ==
        old(facts).(retained := |retained|, completion := if ok then BodyReadComplete else BodyLimitRejected)
    {
      retained, accepted := [], 0;
      while accepted < |parts|
        invariant accepted <= |parts| && retained == Flatten(parts[..accepted]) && |retained| <= max
        invariant facts == old(facts).(retained := |retained|)
      {
        var part := parts[accepted];
        assert parts[..accepted + 1][..accepted] == parts[..accepted];
        if |part| > max - |retained| {
          FlattenGrows(parts, accepted + 1);
          facts := facts.(completion := BodyLimitRejected);
          return false, retained, accepted;
        }
        retained := retained + part;
        facts := facts.(retained := |retained|);
        accepted := accepted + 1;
      }
      assert parts[..accepted] == parts;
      facts := facts.(completion := BodyReadComplete);
      ok := true;
    }
  }

  /** One call of write with everything the outside decides about it, and what happened since the call before: the
      transport's parts may have been swapped, and the stream may have been closed. */
  datatype WriteCall = WriteCall(buffer: seq<byte>, lease: LeaseFate, sample: real, sendSucceeds: bool,
                                 swapped: bool, closes: bool)

  class OneRequestStream {
    const headers: seq<byte>
    const body: seq<byte>
    const owner: LiveHTTPTransport
    var headersEmitted: bool
    var bodyOffset: nat
    var closed: bool
    ghost var offered: seq<byte>          // every byte handed to the socket, in order
    ghost var gateSample: Option<real>    // the clock sample that opened the gate

    ghost predicate Valid()
      reads this, owner, owner.lease
    {
      && bodyOffset <= |body|
      && offered == (if headersEmitted then headers + body[..bodyOffset] else [])
      && owner.facts.headerEmissionAttempts == (if headersEmitted then 1 else 0)
      && (headersEmitted ==>
            && owner.facts.leaseAcknowledged && !owner.lease.available
            && owner.sendDeadline.Some? && gateSample.Some? && gateSample.value < owner.sendDeadline.value)
      && (!headersEmitted ==> bodyOffset == 0)
    }

    constructor (headers: seq<byte>, body: seq<byte>, owner: LiveHTTPTransport)
      requires owner.facts.headerEmissionAttempts == 0
      ensures Valid() && !headersEmitted && !closed && offered == []
      ensures this.headers == headers && this.body == body && this.owner == owner
    {
      this.headers, this.body, this.owner := headers, body, owner;
      headersEmitted, bodyOffset, closed, offered, gateSample := false, 0, false, [], None;
    }

    /** Exactly the calls that hand their buffer to the socket. */
    ghost predicate Admits(c: WriteCall)
      requires Valid()
      reads this, owner, owner.lease
    {
      && owner.intact && !closed
      && if headersEmitted then
           c.buffer <= body[bodyOffset..]
         else
           && c.buffer == headers
           && owner.lease.available && c.lease == LeaseFate.Acknowledged
           && owner.sendDeadline.Some? && c.sample < owner.sendDeadline.value
    }

    /** What a write records, told by what stops it or how far it gets. */
    ghost function FactsAfter(c: WriteCall): Facts
      reads this, owner, owner.lease
      requires Valid()
    {
      var f, deadline := owner.facts, owner.sendDeadline;
      var leased := f.(leaseAcknowledged := true, leaseCustody := AcknowledgedConsumed);
      if !owner.intact || closed then f
      else if !headersEmitted && c.buffer != headers then f.(blockedWrites := f.blockedWrites + 1)
      else if !headersEmitted && !(owner.lease.available && c.lease == LeaseFate.Acknowledged) then
        f.(leaseCustody := UnknownPendingAck)
      else if !headersEmitted && deadline.None? then leased.(completion := SendDeadlineUnarmed)
      else if !headersEmitted && deadline.value <= c.sample then leased.(completion := AfterSendDeadline)
      else if !headersEmitted then Emitted(leased.(headerEmissionAttempts := f.headerEmissionAttempts + 1), c, true)
      else if c.buffer <= body[bodyOffset..] then
        Emitted(f.(bodyEmissionAttempted := bodyOffset + |c.buffer|), c, false)
      else f.(blockedWrites := f.blockedWrites + 1)
    }

    /** What the socket operation adds; an empty buffer never reaches it. */
    function Emitted(f: Facts, c: WriteCall, isHeader: bool): Facts {
      if c.buffer == [] then f
      else f.(socketWriteCalls := f.socketWriteCalls + 1,
              completion := if c.sendSucceeds then f.completion else SendCompletionUnknown,
              headersCompleted := f.headersCompleted || (isHeader && c.sendSucceeds))
    }

    method Write(c: WriteCall) returns (ok: bool)
      requires Valid()
      modifies this`headersEmitted, this`bodyOffset, this`offered, this`gateSample, owner`facts, owner.lease
      ensures Valid()
      ensures offered == old(offered) + (if old(Admits(c)) then c.buffer else [])
      ensures headersEmitted <==> old(headersEmitted) || old(Admits(c))
      ensures bodyOffset == old(bodyOffset) + (if old(headersEmitted) && old(Admits(c)) then |c.buffer| else 0)
      ensures ok <==> old(Admits(c)) && (c.buffer == [] || c.sendSucceeds)
      ensures owner.lease.available <==>
        && old(owner.lease.available)
        && (old(headersEmitted) || !owner.intact || closed || c.buffer != headers || c.lease == NotCommitted)
      ensures owner.facts == old(FactsAfter(c))
    {
      if !owner.intact || closed {
        return false;
      }
      var isHeader := !headersEmitted;
      if isHeader {
        ok := OpenGate(c);
      } else {
        ok := TakeBody(c.buffer);
      }
      if ok {
        ok := Emit(c, isHeader);
      }
    }

    /** The first write: the exact header block, after the lease and before the deadline. */
    method OpenGate(c: WriteCall) returns (ok: bool)
      requires Valid() && !headersEmitted
      modifies this`headersEmitted, this`offered, this`gateSample, owner`facts, owner.lease
      ensures Valid() && headersEmitted == ok
      ensures ok <==>
        && c.buffer == headers && old(owner.lease.available) && c.lease == LeaseFate.Acknowledged
        && owner.sendDeadline.Some? && c.sample < owner.sendDeadline.value
      ensures offered == if ok then headers else []
      ensures owner.lease.available <==> old(owner.lease.available) && (c.buffer != headers || c.lease == NotCommitted)
      ensures ok ==> owner.facts == old(owner.facts).(leaseAcknowledged := true, leaseCustody := AcknowledgedConsumed,
                                                      headerEmissionAttempts := 1)
      ensures !ok && owner.intact && !closed ==> owner.facts == old(FactsAfter(c))
    {
      if c.buffer != headers {
        owner.facts := owner.facts.(blockedWrites := owner.facts.blockedWrites + 1);
        return false;
      }
      // The durable consumption returns before any header byte enters the socket.
      owner.facts := owner.facts.(leaseCustody := UnknownPendingAck);
      ok := owner.lease.Consume(c.lease);
      if !ok {
        return;
      }
      owner.facts := owner.facts.(leaseAcknowledged := true, leaseCustody := AcknowledgedConsumed);
      ok := owner.GuardSendDeadline(c.sample);
      if ok {
        headersEmitted := true;
        gateSample := Some(c.sample);
        offered := headers;
        owner.facts := owner.facts.(headerEmissionAttempts := owner.facts.headerEmissionAttempts + 1);
      }
    }

    /** A later write: exactly the next bytes of the body. */
    method TakeBody(buffer: seq<byte>) returns (ok: bool)
      requires Valid() && headersEmitted
      modifies this`bodyOffset, this`offered, owner`facts
      ensures Valid()
      ensures ok <==> buffer <= body[old(bodyOffset)..]
      ensures bodyOffset == old(bodyOffset) + if ok then |buffer| else 0
      ensures offered == old(offered) + if ok then buffer else []
      ensures owner.facts == if ok then old(owner.facts).(bodyEmissionAttempted := bodyOffset)
                             else old(owner.facts).(blockedWrites := old(owner.facts).blockedWrites + 1)
    {
      var remaining := body[bodyOffset..];
      ok := |buffer| <= |remaining| && buffer == remaining[..|buffer|];
      if ok {
        assert body[..bodyOffset + |buffer|] == body[..bodyOffset] + buffer;
        bodyOffset := bodyOffset + |buffer|;
        offered := offered + buffer;
        owner.facts := owner.facts.(bodyEmissionAttempted := bodyOffset);
      } else {
        owner.facts := owner.facts.(blockedWrites := owner.facts.blockedWrites + 1);
      }
    }

    /** The socket operation itself; an empty buffer never reaches it. */
    method Emit(c: WriteCall, isHeader: bool) returns (ok: bool)
      requires Valid()
      modifies owner`facts
      ensures Valid()
      ensures ok <==> c.buffer == [] || c.sendSucceeds
      ensures owner.facts == Emitted(old(owner.facts), c, isHeader)
    {
      if c.buffer == [] {
        return true;
      }
      ok := c.sendSucceeds;
      owner.facts := owner.facts.(socketWriteCalls := owner.facts.socketWriteCalls + 1);
      if !ok {
        owner.facts := owner.facts.(completion := SendCompletionUnknown);
      } else if isHeader {
        owner.facts := owner.facts.(headersCompleted := true);
      }
    }

    /** Neither swapped nor closed. */
    predicate Usable()
      reads this, owner
    {
      owner.intact && !closed
    }

    /** What may happen before a write, and the write. */
    method Step(c: WriteCall)
      requires Valid()
      modifies this`headersEmitted, this`bodyOffset, this`offered, this`gateSample, this`closed
      modifies owner`facts, owner`intact, owner.lease
      ensures Valid() && old(offered) <= offered <= headers + body
      ensures Usable() <==> old(Usable()) && !c.swapped && !c.closes
      ensures !Usable() ==> offered == old(offered)
      ensures old(!headersEmitted && !owner.lease.available) ==> !headersEmitted && !owner.lease.available
      ensures offered == old(offered) + if !c.swapped && !c.closes && old(Admits(c)) then c.buffer else []
      ensures headersEmitted <==> old(headersEmitted) || (!c.swapped && !c.closes && old(Admits(c)))
    {
      if c.swapped { owner.intact := false; }
      if c.closes { closed := true; }
      var _ := Write(c);
      assert body[..bodyOffset] <= body;
    }

    /** The i-th of these writes; if all of them are to go out, it goes out too. */
    method StepOn(calls: seq<WriteCall>, i: nat, ghost whole: bool)
      requires Valid() && i < |calls|
      requires whole ==> WentOut(calls, i) && Harmless(calls) && Flatten(Buffers(calls[1..])) == body
      modifies this`headersEmitted, this`bodyOffset, this`offered, this`gateSample, this`closed
      modifies owner`facts, owner`intact, owner.lease
      ensures Valid() && old(offered) <= offered <= headers + body
      ensures offered in {old(offered), old(offered) + calls[i].buffer}
      ensures Usable() <==> old(Usable()) && !calls[i].swapped && !calls[i].closes
      ensures !Usable() ==> offered == old(offered)
      ensures old(!headersEmitted && !owner.lease.available) ==> !headersEmitted && !owner.lease.available
      ensures whole ==> WentOut(calls, i + 1)
    {
      hide Harmless, Opens, WentOut, SoFar, Flatten, Buffers, Admits;
      if whole { NextIsAdmitted(calls, i); }
      Step(calls[i]);
      if whole { NextWentOut(calls, i); }
    }

    /** Any sequence of writes, with the transport swapped or the stream closed at any point between them: at every
        moment the bytes offered are a prefix of header block and body, the header block goes whole and once, nothing
        goes out before an acknowledged lease consumption sampled in time, and nothing after a swap or a close. */
    method Drive(calls: seq<WriteCall>) returns (ghost log: seq<seq<byte>>)
      requires Valid()
      modifies this`headersEmitted, this`bodyOffset, this`offered, this`gateSample, this`closed
      modifies owner`facts, owner`intact, owner.lease
      ensures Valid()
      ensures |log| == |calls| + 1 && log[0] == old(offered) && log[|calls|] == offered
      ensures Grows(log) && CutOff(log, calls)
      ensures forall x | x in log[1..] :: x <= headers + body
      ensures !old(Usable()) ==> offered == old(offered)
      ensures offered != [] ==>
        && headers <= offered && owner.facts.headerEmissionAttempts == 1
        && owner.facts.leaseAcknowledged && gateSample.Some?
        && owner.sendDeadline.Some? && gateSample.value < owner.sendDeadline.value
      ensures old(!headersEmitted && !owner.lease.available) ==> offered == []
      ensures forall i | 0 <= i < |calls| :: log[i + 1] in {log[i], log[i] + calls[i].buffer}
      // A caller that writes the header block under its lease in time and then the body piece by piece gets it all out.
      ensures calls != [] && old(Opens(calls)) && Harmless(calls) && Flatten(Buffers(calls[1..])) == body ==>
        offered == headers + body
    {
      hide WentOut, SoFar, Opens, Flatten, Buffers, Harmless, Grows, CutOff, Admits;
      log := [offered];
      NothingYet();
      ghost var whole := calls != [] && Opens(calls) && Harmless(calls) && Flatten(Buffers(calls[1..])) == body;
      if whole { StartsWhole(calls); }
      for i := 0 to |calls|
        invariant Valid()
        invariant |log| == i + 1 && log[0] == old(offered) && log[i] == offered
        invariant Recorded(log, calls[..i], headers + body)
        invariant Usable() <==> old(Usable()) && Harmless(calls[..i])
        invariant !old(Usable()) ==> offered == old(offered)
        invariant old(!headersEmitted && !owner.lease.available) ==> !headersEmitted && !owner.lease.available
        invariant whole ==> WentOut(calls, i)
      {
        hide Recorded, Valid, Usable;
        StepOn(calls, i, whole);
        LogExtends(log, calls[..i], calls[i], offered, headers + body);
        assert calls[..i + 1] == calls[..i] + [calls[i]];
        log := log + [offered];
      }
      assert calls[..|calls|] == calls;
      if whole {
        EndsWhole(calls);
      }
    }

    /** The bytes of the first i writes. */
    ghost function SoFar(calls: seq<WriteCall>, i: nat): seq<byte>
      requires i <= |calls|
    {
      if i == 0 then [] else headers + Flatten(Buffers(calls[1..])[..i - 1])
    }

    /** The first i writes went out whole. */
    ghost predicate WentOut(calls: seq<WriteCall>, i: nat)
      requires i <= |calls|
      reads this, owner, owner.lease
    {
      && Valid() && Usable() && offered == SoFar(calls, i)
      && if i == 0 then Opens(calls) else headersEmitted
    }

    lemma NextIsAdmitted(calls: seq<WriteCall>, i: nat)
      requires i < |calls| && WentOut(calls, i) && Harmless(calls) && Flatten(Buffers(calls[1..])) == body
      ensures Admits(calls[i]) && Usable() && !calls[i].swapped && !calls[i].closes
      ensures offered + calls[i].buffer == SoFar(calls, i + 1)
    {
      assert calls[i] in calls;
      hide Harmless, Admits, Flatten, Buffers, Opens;
      if i > 0 { NextPiece(calls, i); } else { FirstPiece(calls); }
    }

    lemma NothingYet()
      ensures Recorded([offered], [], headers + body) && Harmless([])
    {
    }

    lemma StartsWhole(calls: seq<WriteCall>)
      requires Valid() && Opens(calls)
      ensures WentOut(calls, 0) && calls != []
    {
    }

    lemma EndsWhole(calls: seq<WriteCall>)
      requires calls != [] && WentOut(calls, |calls|) && Flatten(Buffers(calls[1..])) == body
      ensures offered == headers + body
    {
      assert Buffers(calls[1..])[..|calls| - 1] == Buffers(calls[1..]);
    }

    lemma FirstPiece(calls: seq<WriteCall>)
      requires Valid() && Opens(calls)
      ensures Admits(calls[0]) && [] + calls[0].buffer == headers + Flatten(Buffers(calls[1..])[..0])
    {
    }

    lemma NextWentOut(calls: seq<WriteCall>, i: nat)
      requires i < |calls| && Valid() && Usable() && headersEmitted && offered == SoFar(calls, i + 1)
      ensures WentOut(calls, i + 1)
    {
    }

    /** The first call writes the header block under an available lease, acknowledged and in time. */
    ghost predicate Opens(calls: seq<WriteCall>)
      requires Valid()
      reads this, owner, owner.lease
    {
      calls != [] && !headersEmitted && Admits(calls[0])
    }

    lemma NextPiece(calls: seq<WriteCall>, i: nat)
      requires Valid() && 0 < i < |calls| && headersEmitted && Usable()
      requires Flatten(Buffers(calls[1..])) == body && offered == headers + Flatten(Buffers(calls[1..])[..i - 1])
      ensures Admits(calls[i])
      ensures offered + calls[i].buffer == headers + Flatten(Buffers(calls[1..])[..i])
    {
      var parts := Buffers(calls[1..]);
      FlattenPrefix(parts, i);
      assert parts[..i][..i - 1] == parts[..i - 1] && parts[i - 1] == calls[i].buffer;
      assert offered[|headers|..] == body[..bodyOffset] == Flatten(parts[..i - 1]);
      assert calls[i].buffer == body[bodyOffset..][..|calls[i].buffer|];
    }
  }

  function Buffers(calls: seq<WriteCall>): seq<seq<byte>> {
    seq(|calls|, i requires 0 <= i < |calls| => calls[i].buffer)
  }

  lemma {:induction false} FlattenPrefix(parts: seq<seq<byte>>, k: nat)
    requires k <= |parts|
    ensures Flatten(parts[..k]) <= Flatten(parts)
    decreases |parts|
  {
    if k < |parts| {
      assert parts[..|parts| - 1][..k] == parts[..k];
      FlattenPrefix(parts[..|parts| - 1], k);
    } else {
      assert parts[..k] == parts;
    }
  }

  ghost predicate Harmless(calls: seq<WriteCall>) { forall c | c in calls :: !c.swapped && !c.closes }

  /** The log of a sequence of writes whose bytes may only be those of the wire. */
  ghost predicate Recorded(log: seq<seq<byte>>, calls: seq<WriteCall>, wire: seq<byte>) {
    && |log| == |calls| + 1 && Grows(log) && CutOff(log, calls)
    && (forall i | 0 <= i < |calls| :: log[i + 1] in {log[i], log[i] + calls[i].buffer})
    && forall x | x in log[1..] :: x <= wire
  }

  /** Every entry of the log is a prefix of every later one. */
  ghost predicate Grows(log: seq<seq<byte>>) { forall i, j | 0 <= i <= j < |log| :: log[i] <= log[j] }

  /** From a swap or a close on the log stands still. */
  ghost predicate CutOff(log: seq<seq<byte>>, calls: seq<WriteCall>)
    requires |log| == |calls| + 1
  {
    forall i, j | 0 <= i < j < |log| && (calls[i].swapped || calls[i].closes) :: log[j] == log[i]
  }

  lemma LogExtends(log: seq<seq<byte>>, calls: seq<WriteCall>, c: WriteCall, x: seq<byte>, wire: seq<byte>)
    requires Recorded(log, calls, wire) && log[|calls|] <= x <= wire && x in {log[|calls|], log[|calls|] + c.buffer}
    requires c.swapped || c.closes || !Harmless(calls) ==> x == log[|calls|]
    ensures Recorded(log + [x], calls + [c], wire)
    ensures Harmless(calls + [c]) <==> Harmless(calls) && !c.swapped && !c.closes
  {
    var longer, more := log + [x], calls + [c];
    assert longer[1..] == log[1..] + [x];
    forall i, j | 0 <= i <= j < |longer| ensures longer[i] <= longer[j] {
      if j == |log| && i < |log| { assert log[i] <= log[|calls|]; }
    }
    forall i, j | 0 <= i < j < |longer| && (more[i].swapped || more[i].closes) ensures longer[j] == longer[i] {
      if i < |calls| {
        assert calls[i] in calls && more[i] == calls[i];
        if j == |log| { assert log[|calls|] == log[i]; }
      }
    }
  }
}
