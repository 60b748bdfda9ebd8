/** The SSE broker: publishers fan a message out to bounded channels under a
    read lock; connection handlers add and remove their channel under the write
    lock and close it afterwards. */
module Broker {
  import opened Prelude

  type ClientId = nat
  type PublisherId = nat

  // Slots of a client channel.
  const CAPACITY: nat := 16

  /** A send that gives up when the buffer is full. */
  function Offer<T>(buf: seq<T>, x: T): seq<T> { if |buf| < CAPACITY then buf + [x] else buf }

  // ----------------------------------------------------- the program's form

  class Channel {
    var buf: seq<string>
    var closed: bool

    constructor ()
      ensures buf == [] && !closed
    {
      buf, closed := [], false;
    }
  }

  class EventBroker {
    var clients: set<Channel>

    constructor ()
      ensures clients == {}
    {
      clients := {};
    }

    method Subscribe() returns (client: Channel)
      modifies this
      ensures fresh(client) && client.buf == [] && !client.closed && clients == old(clients) + {client}
    {
      client := new Channel();
      clients := clients + {client};
    }

    method Unsubscribe(client: Channel)
      modifies this, client
      ensures clients == old(clients) - {client} && client.closed && client.buf == old(client.buf)
    {
      clients := clients - {client};
      client.closed := true;
    }

    /** Every registered channel is offered the message once, whatever the order
        of the iteration, and nothing else changes. */
    method PublishRaw(body: string)
      requires forall c :: c in clients ==> !c.closed
      modifies clients
      ensures forall c :: c in old(clients) ==>
        c.buf == (if |old(c.buf)| < 16 then old(c.buf) + [body] else old(c.buf)) && !c.closed
    {
      var rest := clients;
      while rest != {}
        invariant rest <= clients
        invariant forall c :: c in rest ==> c.buf == old(c.buf)
        invariant forall c :: c in clients - rest ==> c.buf == Offer(old(c.buf), body)
        invariant forall c :: c in clients ==> !c.closed
        decreases |rest|
      {
        var client :| client in rest;
        if |client.buf| < CAPACITY {
          client.buf := client.buf + [body];
        }
        rest := rest - {client};
      }
    }
  }

  // ---------------------------------------------------------- interleavings

  datatype Handler =
    | Joining    // waits for the write lock
    | Adding     // holds it
    | Serving
    | Leaving    // the request is done; waits for the write lock
    | Deleting   // holds it
    | Closing    // released it, about to close the channel
    | Gone

  datatype Publisher = Idle | Sending(pos: nat, rest: set<ClientId>)

  // Messages are named by their position in the log of published messages.
  datatype Client = Client(
    handler: Handler, closed: bool, buf: seq<nat>,
    got: seq<nat>,                // written to the response, in order
    from: nat, until: Option<nat>, // the part of the log published while registered
    skipped: map<nat, nat>)       // skipped message to the length of the buffer then

  datatype State = State(
    clients: set<ClientId>, conns: map<ClientId, Client>, publishers: map<PublisherId, Publisher>,
    writer: Option<ClientId>, log: nat)

  datatype Step =
    | Connect(c: ClientId)
    | Lock(c: ClientId)
    | Unlock(c: ClientId)          // after adding or deleting its channel
    | Hangup(c: ClientId)
    | Close(c: ClientId)
    | Receive(c: ClientId)
    | Publish(p: PublisherId)      // takes the read lock
    | Send(p: PublisherId, c: ClientId)
    | Done(p: PublisherId)         // releases the read lock

  ghost predicate NoReaders(s: State) { forall p :: p in s.publishers ==> s.publishers[p].Idle? }

  ghost predicate Enabled(s: State, a: Step) {
    match a
    case Connect(c) => c !in s.conns
    case Lock(c) => c in s.conns && (s.conns[c].handler.Joining? || s.conns[c].handler.Leaving?) && s.writer.None? && NoReaders(s)
    case Unlock(c) => c in s.conns && (s.conns[c].handler.Adding? || s.conns[c].handler.Deleting?)
    case Hangup(c) => c in s.conns && s.conns[c].handler.Serving?
    case Close(c) => c in s.conns && s.conns[c].handler.Closing?
    case Receive(c) => c in s.conns && s.conns[c].handler.Serving? && s.conns[c].buf != []
    case Publish(p) => p in s.publishers && s.publishers[p].Idle? && s.writer.None?
    case Send(p, c) => p in s.publishers && s.publishers[p].Sending? && c in s.publishers[p].rest && c in s.conns
    case Done(p) => p in s.publishers && s.publishers[p].Sending? && s.publishers[p].rest == {}
  }

  function SetClient(s: State, c: ClientId, k: Client): State { s.(conns := s.conns[c := k]) }

  function Delivered(k: Client, pos: nat): Client {
    if |k.buf| < CAPACITY then k.(buf := Offer(k.buf, pos)) else k.(skipped := k.skipped[pos := |k.buf|])
  }

  ghost function Apply(s: State, a: Step): State
    requires Enabled(s, a)
  {
    match a
    case Connect(c) => SetClient(s, c, Client(Joining, false, [], [], s.log, Some(s.log), map[]))
    case Lock(c) =>
      SetClient(s, c, s.conns[c].(handler := if s.conns[c].handler.Joining? then Adding else Deleting)).(writer := Some(c))
    case Unlock(c) =>
      if s.conns[c].handler.Adding?
      then SetClient(s, c, s.conns[c].(handler := Serving, from := s.log, until := None)).(writer := None, clients := s.clients + {c})
      else SetClient(s, c, s.conns[c].(handler := Closing, until := Some(s.log))).(writer := None, clients := s.clients - {c})
    case Hangup(c) => SetClient(s, c, s.conns[c].(handler := Leaving))
    case Close(c) => SetClient(s, c, s.conns[c].(handler := Gone, closed := true))
    case Receive(c) => SetClient(s, c, s.conns[c].(buf := s.conns[c].buf[1..], got := s.conns[c].got + [s.conns[c].buf[0]]))
    case Publish(p) => s.(publishers := s.publishers[p := Sending(s.log, s.clients)], log := s.log + 1)
    case Send(p, c) =>
      var pub := s.publishers[p];
      SetClient(s, c, Delivered(s.conns[c], pub.pos)).(publishers := s.publishers[p := Sending(pub.pos, pub.rest - {c})])
    case Done(p) => s.(publishers := s.publishers[p := Idle])
  }

  ghost predicate Initial(s: State) {
    s.clients == {} && s.conns == map[] && NoReaders(s) && s.writer.None? && s.log == 0
  }

  ghost function Exec(s: State, run: seq<Step>): Option<State>
    decreases |run|
  {
    if run == [] then Some(s)
    else if !Enabled(s, run[0]) then None
    else Exec(Apply(s, run[0]), run[1..])
  }

  // ----------------------------------------------------------------- safety

  predicate Registered(h: Handler) { h.Serving? || h.Leaving? || h.Deleting? }

  ghost predicate ConnLocked(s: State, c: ClientId)
    requires c in s.conns
  {
    var k := s.conns[c];
    && (c in s.clients <==> Registered(k.handler))
    && (k.handler.Adding? || k.handler.Deleting? ==> s.writer == Some(c))
    && (k.closed <==> k.handler.Gone?)
    && (c in s.clients <==> k.until.None?)
  }

  /** Publishers hold the read lock while they send, to registered clients only. */
  ghost predicate PublishersLocked(s: State) {
    && s.clients <= s.conns.Keys
    && (s.writer.Some? ==> NoReaders(s))
    && (forall p :: p in s.publishers && s.publishers[p].Sending? ==>
          s.publishers[p].rest <= s.clients && s.publishers[p].pos < s.log)
  }

  ghost predicate LocksOk(s: State) {
    (forall c :: c in s.conns ==> ConnLocked(s, c)) && PublishersLocked(s)
  }

  lemma StepKeepsConnLocked(s: State, a: Step, c: ClientId)
    requires LocksOk(s) && Enabled(s, a) && c in Apply(s, a).conns
    ensures ConnLocked(Apply(s, a), c)
  {
    hide NoReaders;
    assert c in s.conns ==> ConnLocked(s, c);
    if (a.Unlock? || a.Lock?) && a.c != c { assert ConnLocked(s, a.c); }
  }

  lemma StepKeepsPublishersLocked(s: State, a: Step)
    requires LocksOk(s) && Enabled(s, a)
    ensures PublishersLocked(Apply(s, a))
  {
    if a.Unlock? { assert ConnLocked(s, a.c); }
  }

  lemma StepKeepsLocks(s: State, a: Step)
    requires LocksOk(s) && Enabled(s, a)
    ensures LocksOk(Apply(s, a))
  {
    hide Enabled, Apply, ConnLocked, PublishersLocked;
    forall c | c in Apply(s, a).conns ensures ConnLocked(Apply(s, a), c) { StepKeepsConnLocked(s, a, c); }
    StepKeepsPublishersLocked(s, a);
  }

  // --------------------------------------------------------------- delivery

  ghost predicate Pending(s: State, c: ClientId, pos: nat) {
    exists p :: p in s.publishers && s.publishers[p].Sending? && s.publishers[p].pos == pos && c in s.publishers[p].rest
  }

  function End(s: State, k: Client): nat { if k.until.Some? then k.until.value else s.log }

  /** A message published while the client was registered is in exactly one of:
      read or buffered, skipped on a full buffer, still to be offered. */
  ghost predicate Accounted(s: State, c: ClientId, pos: nat)
    requires c in s.conns
  {
    var k := s.conns[c];
    var kept := pos in k.got + k.buf;
    && (kept || pos in k.skipped || Pending(s, c, pos) <==> k.from <= pos < End(s, k))
    && !(kept && pos in k.skipped) && !(kept && Pending(s, c, pos)) && !(pos in k.skipped && Pending(s, c, pos))
    && (pos in k.skipped ==> k.skipped[pos] == CAPACITY)
  }

  /** At most one publisher works on a message. */
  ghost predicate OnePerMessage(s: State) {
    forall p, q ::
      (p in s.publishers && q in s.publishers && s.publishers[p].Sending? && s.publishers[q].Sending?
       && s.publishers[p].pos == s.publishers[q].pos) ==> p == q
  }

  ghost predicate ConnOk(s: State, k: Client) {
    && |k.buf| <= CAPACITY && k.from <= s.log && End(s, k) <= s.log
    && (k.handler.Joining? || k.handler.Adding? ==> k.until == Some(k.from))
  }

  ghost predicate DeliveryOk(s: State) {
    && LocksOk(s) && OnePerMessage(s)
    && (forall c :: c in s.conns ==> ConnOk(s, s.conns[c]))
    && forall c, pos :: c in s.conns ==> Accounted(s, c, pos)
  }

  predicate ByConnection(a: Step) { !a.Publish? && !a.Send? && !a.Done? }

  lemma ConnectionKeepsAccount(s: State, a: Step, c: ClientId, pos: nat)
    requires LocksOk(s) && (c in s.conns ==> ConnOk(s, s.conns[c]) && Accounted(s, c, pos))
    requires Enabled(s, a) && ByConnection(a) && c in Apply(s, a).conns
    ensures Accounted(Apply(s, a), c, pos)
  {
    var t := Apply(s, a);
    hide Pending;
    PendingKept(s, t, c, pos);
    if Pending(s, c, pos) { PendingIsRegistered(s, c, pos); }
    if a.Receive? {
      assert s.conns[a.c].buf == [s.conns[a.c].buf[0]] + s.conns[a.c].buf[1..];
      assert t.conns[a.c].got + t.conns[a.c].buf == s.conns[a.c].got + s.conns[a.c].buf;
    }
  }

  lemma PendingIsRegistered(s: State, c: ClientId, pos: nat)
    requires LocksOk(s) && Pending(s, c, pos)
    ensures c in s.clients && pos < s.log
  {
  }

  lemma StepKeepsAccount(s: State, a: Step, c: ClientId, pos: nat)
    requires DeliveryOk(s) && Enabled(s, a) && c in Apply(s, a).conns
    ensures Accounted(Apply(s, a), c, pos)
  {
    assert c in s.conns ==> Accounted(s, c, pos) && ConnOk(s, s.conns[c]);
    if ByConnection(a) {
      hide DeliveryOk, Accounted, Pending, Apply, Enabled, ConnOk;
      ConnectionKeepsAccount(s, a, c, pos);
    } else {
      hide Pending;
      match a
      case Publish(p) => PublishPends(s, p, c, pos);
      case Send(p, d) => SendPends(s, p, d, c, pos);
      case Done(p) => DonePends(s, p, c, pos);
    }
  }

  lemma PendingKept(s: State, t: State, c: ClientId, pos: nat)
    requires t.publishers == s.publishers
    ensures Pending(t, c, pos) == Pending(s, c, pos)
  {
  }

  lemma PublishPends(s: State, p: PublisherId, c: ClientId, pos: nat)
    requires Enabled(s, Publish(p))
    ensures Pending(Apply(s, Publish(p)), c, pos) <==> Pending(s, c, pos) || (pos == s.log && c in s.clients)
  {
    var t := Apply(s, Publish(p));
    if pos == s.log && c in s.clients { assert t.publishers[p].pos == pos; }
    if Pending(s, c, pos) {
      var q :| q in s.publishers && s.publishers[q].Sending? && s.publishers[q].pos == pos && c in s.publishers[q].rest;
      assert t.publishers[q] == s.publishers[q];
    }
  }

  lemma SendPends(s: State, p: PublisherId, d: ClientId, c: ClientId, pos: nat)
    requires OnePerMessage(s) && Enabled(s, Send(p, d))
    ensures Pending(Apply(s, Send(p, d)), c, pos) <==> Pending(s, c, pos) && !(c == d && pos == s.publishers[p].pos)
    ensures Pending(s, d, s.publishers[p].pos)
  {
    var t := Apply(s, Send(p, d));
    if Pending(s, c, pos) && !(c == d && pos == s.publishers[p].pos) {
      var q :| q in s.publishers && s.publishers[q].Sending? && s.publishers[q].pos == pos && c in s.publishers[q].rest;
      assert q in t.publishers && t.publishers[q].pos == pos && c in t.publishers[q].rest;
    }
  }

  lemma DonePends(s: State, p: PublisherId, c: ClientId, pos: nat)
    requires Enabled(s, Done(p))
    ensures Pending(Apply(s, Done(p)), c, pos) == Pending(s, c, pos)
  {
    var t := Apply(s, Done(p));
    if Pending(s, c, pos) {
      var q :| q in s.publishers && s.publishers[q].Sending? && s.publishers[q].pos == pos && c in s.publishers[q].rest;
      assert t.publishers[q] == s.publishers[q];
    }
  }

  lemma StepKeepsConn(s: State, a: Step, c: ClientId)
    requires LocksOk(s) && Enabled(s, a) && c in Apply(s, a).conns && (c in s.conns ==> ConnOk(s, s.conns[c]))
    ensures ConnOk(Apply(s, a), Apply(s, a).conns[c])
  {
  }

  lemma StepKeepsOnePerMessage(s: State, a: Step)
    requires LocksOk(s) && OnePerMessage(s) && Enabled(s, a)
    ensures OnePerMessage(Apply(s, a))
  {
  }

  lemma StepKeepsDelivery(s: State, a: Step)
    requires DeliveryOk(s) && Enabled(s, a)
    ensures DeliveryOk(Apply(s, a))
  {
    hide Enabled, Apply, LocksOk, OnePerMessage, Accounted, ConnOk;
    StepKeepsLocks(s, a);
    StepKeepsOnePerMessage(s, a);
    forall c | c in Apply(s, a).conns ensures ConnOk(Apply(s, a), Apply(s, a).conns[c]) { StepKeepsConn(s, a, c); }
    forall c, pos | c in Apply(s, a).conns ensures Accounted(Apply(s, a), c, pos) { StepKeepsAccount(s, a, c, pos); }
  }

  lemma {:induction false} RunKeepsDelivery(s: State, run: seq<Step>)
    requires DeliveryOk(s) && Exec(s, run).Some?
    ensures DeliveryOk(Exec(s, run).value)
    decreases |run|
  {
    hide Enabled, Apply, DeliveryOk;
    if run != [] {
      StepKeepsDelivery(s, run[0]);
      RunKeepsDelivery(Apply(s, run[0]), run[1..]);
    }
  }

  /** No send ever reaches a closed channel, under any interleaving of any number
      of publishers and connections. */
  lemma NoSendOnClosed(s0: State, run: seq<Step>, p: PublisherId, c: ClientId)
    requires Initial(s0) && Exec(s0, run).Some? && Enabled(Exec(s0, run).value, Send(p, c))
    ensures !Exec(s0, run).value.conns[c].closed
  {
    RunKeepsDelivery(s0, run);
  }

  /** Every message published while a client was registered is read or buffered,
      or was skipped when 16 messages were waiting, or is about to be offered. */
  lemma EveryMessageIsAccountedFor(s0: State, run: seq<Step>, c: ClientId, pos: nat)
    requires Initial(s0) && Exec(s0, run).Some? && c in Exec(s0, run).value.conns
    ensures Accounted(Exec(s0, run).value, c, pos)
    ensures var k := Exec(s0, run).value.conns[c]; |k.buf| <= 16 && (pos in k.skipped ==> k.skipped[pos] == 16)
  {
    RunKeepsDelivery(s0, run);
    assert ConnOk(Exec(s0, run).value, Exec(s0, run).value.conns[c]);
  }

  // ------------------------------------------------------- publish order

  ghost predicate Increasing(xs: seq<nat>) { forall i, j :: 0 <= i < j < |xs| ==> xs[i] < xs[j] }

  ghost predicate SinglePublisher(s: State) {
    forall p, q :: p in s.publishers && q in s.publishers ==> p == q
  }

  /** With one publisher, a message still to be offered is the latest one. */
  ghost predicate OrderOk(s: State) {
    && SinglePublisher(s)
    && (forall p :: p in s.publishers && s.publishers[p].Sending? ==> s.publishers[p].pos + 1 == s.log)
    && (forall c :: c in s.conns ==> Increasing(s.conns[c].got + s.conns[c].buf))
  }

  lemma StepKeepsOrder(s: State, a: Step)
    requires DeliveryOk(s) && OrderOk(s) && Enabled(s, a)
    ensures OrderOk(Apply(s, a))
  {
    hide DeliveryOk, Increasing, Enabled, Apply;
    StepKeepsLatest(s, a);
    forall c | c in Apply(s, a).conns ensures Increasing(Apply(s, a).conns[c].got + Apply(s, a).conns[c].buf) {
      StepKeepsIncreasing(s, a, c);
    }
  }

  lemma StepKeepsLatest(s: State, a: Step)
    requires OrderOk(s) && Enabled(s, a)
    ensures var t := Apply(s, a);
      SinglePublisher(t) && forall p :: p in t.publishers && t.publishers[p].Sending? ==> t.publishers[p].pos + 1 == t.log
  {
    hide Increasing;
  }

  lemma StepKeepsIncreasing(s: State, a: Step, c: ClientId)
    requires DeliveryOk(s) && OrderOk(s) && Enabled(s, a) && c in Apply(s, a).conns
    ensures Increasing(Apply(s, a).conns[c].got + Apply(s, a).conns[c].buf)
  {
    hide DeliveryOk, SinglePublisher;
    var t := Apply(s, a);
    if a.Send? && a.c == c {
      SendKeepsIncreasing(s, a.p, c);
    } else if a.Receive? && a.c == c {
      assert s.conns[c].buf == [s.conns[c].buf[0]] + s.conns[c].buf[1..];
      assert t.conns[c].got + t.conns[c].buf == s.conns[c].got + s.conns[c].buf;
    }
  }

  lemma SendKeepsIncreasing(s: State, p: PublisherId, c: ClientId)
    requires DeliveryOk(s) && OrderOk(s) && Enabled(s, Send(p, c))
    ensures Increasing(s.conns[c].got + Delivered(s.conns[c], s.publishers[p].pos).buf)
  {
    var k, pos := s.conns[c], s.publishers[p].pos;
    forall i | 0 <= i < |k.got + k.buf| ensures (k.got + k.buf)[i] < pos {
      var x := (k.got + k.buf)[i];
      assert x in k.got + k.buf && Accounted(s, c, x) && Accounted(s, c, pos);
      SendPends(s, p, c, c, pos);
    }
    assert k.got + (k.buf + [pos]) == (k.got + k.buf) + [pos];
  }

  lemma {:induction false} RunKeepsOrder(s: State, run: seq<Step>)
    requires DeliveryOk(s) && OrderOk(s) && Exec(s, run).Some?
    ensures OrderOk(Exec(s, run).value)
    decreases |run|
  {
    hide Enabled, Apply, DeliveryOk, OrderOk;
    if run != [] {
      StepKeepsDelivery(s, run[0]);
      StepKeepsOrder(s, run[0]);
      RunKeepsOrder(Apply(s, run[0]), run[1..]);
    }
  }

  /** With one publisher, what a client has read is a subsequence, in publish
      order, of the messages published while it was registered. */
  lemma ReadInPublishOrder(s0: State, run: seq<Step>, c: ClientId)
    requires Initial(s0) && SinglePublisher(s0) && Exec(s0, run).Some? && c in Exec(s0, run).value.conns
    ensures var k := Exec(s0, run).value.conns[c];
      && (forall i, j :: 0 <= i < j < |k.got| ==> k.got[i] < k.got[j])
      && (forall i :: 0 <= i < |k.got| ==> k.from <= k.got[i] < End(Exec(s0, run).value, k))
  {
    RunKeepsOrder(s0, run);
    RunKeepsDelivery(s0, run);
    var s := Exec(s0, run).value;
    var k := s.conns[c];
    assert Increasing(k.got + k.buf);
    forall i, j | 0 <= i < j < |k.got| ensures k.got[i] < k.got[j] {
      assert (k.got + k.buf)[i] == k.got[i] && (k.got + k.buf)[j] == k.got[j];
    }
    forall i | 0 <= i < |k.got| ensures k.from <= k.got[i] < End(s, k) {
      assert k.got[i] in k.got + k.buf && Accounted(s, c, k.got[i]);
    }
  }
}
