/** The relay's outbound back-pressure: one queue of unsent envelopes per peer, three policies for a
    peer that does not keep up. The transport's answer to each try_send is an input. */
module RelayOutbound {
  import opened Common

  type Peer = nat
  type Time = int

  /** serial is the envelope's place in the order in which envelopes were passed to send_or_hold;
      correlation 0 means that no reply is expected. */
  datatype Envelope = Envelope(serial: nat, peer: Peer, correlation: nat)

  datatype Held = Held(envelope: Envelope, sender: Option<nat>, deadline: Time)

  datatype Answer = Sent | Refused | Error

  datatype Policy = Drop | Fail | Queue

  /** What has become of envelopes: handed over by the transport, reported as errors, or dropped. */
  datatype Log = Log(passed: seq<Envelope>, sent: seq<Envelope>, failed: seq<Envelope>, lost: seq<Envelope>)

  // ---------------------------------------------------------------- the books

  function QueueOf(outbound: map<Peer, seq<Held>>, p: Peer): seq<Held> {
    if p in outbound then outbound[p] else []
  }

  function Envelopes(queue: seq<Held>): seq<Envelope> {
    if queue == [] then [] else [queue[0].envelope] + Envelopes(queue[1..])
  }

  lemma {:induction false} EnvelopesAppend(queue: seq<Held>, h: Held)
    ensures Envelopes(queue + [h]) == Envelopes(queue) + [h.envelope]
  {
    if queue == [] {
      assert (queue + [h])[1..] == [];
    } else {
      assert (queue + [h])[1..] == queue[1..] + [h];
      EnvelopesAppend(queue[1..], h);
    }
  }

  function To(xs: seq<Envelope>, p: Peer): seq<Envelope> {
    if xs == [] then []
    else To(xs[..|xs| - 1], p) + if xs[|xs| - 1].peer == p then [xs[|xs| - 1]] else []
  }

  lemma ToAppend(xs: seq<Envelope>, e: Envelope, p: Peer)
    ensures To(xs + [e], p) == To(xs, p) + if e.peer == p then [e] else []
  {
    assert (xs + [e])[..|xs|] == xs;
  }

  predicate Increasing(xs: seq<Envelope>) {
    forall i, j :: 0 <= i < j < |xs| ==> xs[i].serial < xs[j].serial
  }

  predicate Below(xs: seq<Envelope>, n: nat) {
    forall i :: 0 <= i < |xs| ==> xs[i].serial < n
  }

  /** Each envelope passed in is in exactly one place. */
  predicate Balanced(outbound: map<Peer, seq<Held>>, log: Log, e: Envelope) {
    multiset(log.passed)[e] == multiset(log.sent)[e] + multiset(log.failed)[e] + multiset(log.lost)[e]
                               + multiset(Envelopes(QueueOf(outbound, e.peer)))[e]
  }

  /** What the transport accepted for a peer, followed by what is held for it, is in send order. */
  predicate Ordered(outbound: map<Peer, seq<Held>>, log: Log, p: Peer) {
    var all := To(log.sent, p) + Envelopes(QueueOf(outbound, p));
    Increasing(all) && Below(all, |log.passed|)
  }

  predicate IsSuffix(xs: seq<Held>, ys: seq<Held>) {
    |xs| <= |ys| && ys[|ys| - |xs|..] == xs
  }

  /** p's queue has lost only its oldest envelopes and is waiting for the peer. */
  predicate Waits(o: map<Peer, seq<Held>>, before: map<Peer, seq<Held>>, p: Peer, now: Time) {
    && p in o && p in before && IsSuffix(o[p], before[p])
    && o[p] != [] && o[p][0].deadline > now
  }

  predicate AllTo(queue: seq<Held>, p: Peer) {
    forall i :: 0 <= i < |queue| ==> queue[i].envelope.peer == p
  }

  predicate Numbered(xs: seq<Envelope>) {
    forall i :: 0 <= i < |xs| ==> xs[i].serial == i
  }

  ghost predicate BooksOk(outbound: map<Peer, seq<Held>>, log: Log) {
    && Numbered(log.passed)
    && (forall e :: Balanced(outbound, log, e))
    && (forall p :: Ordered(outbound, log, p))
    && (forall p :: p in outbound ==> AllTo(outbound[p], p))
  }

  // ---------------------------------------------------------------- entries in the books

  function Passed(log: Log, e: Envelope): Log {
    log.(passed := log.passed + [e])
  }

  lemma Grows(xs: seq<Envelope>, e: Envelope)
    requires Increasing(xs) && Below(xs, e.serial)
    ensures Increasing(xs + [e]) && Below(xs + [e], e.serial + 1)
  {
  }

  lemma Loosen(xs: seq<Envelope>, n: nat)
    requires Below(xs, n)
    ensures Below(xs, n + 1)
  {
  }

  lemma SendNowOrdered(o: map<Peer, seq<Held>>, log: Log, e: Envelope, p: Peer)
    requires Ordered(o, log, p) && QueueOf(o, e.peer) == [] && e.serial == |log.passed|
    ensures Ordered(o, Passed(log, e).(sent := log.sent + [e]), p)
  {
    var all := To(log.sent, p) + Envelopes(QueueOf(o, p));
    ToAppend(log.sent, e, p);
    if p == e.peer {
      assert all == To(log.sent, p);
      Grows(all, e);
      assert To(log.sent, p) + [e] + Envelopes(QueueOf(o, p)) == all + [e];
    } else {
      assert To(log.sent, p) + [] == To(log.sent, p);
      Loosen(all, |log.passed|);
    }
  }

  lemma SendNow(o: map<Peer, seq<Held>>, log: Log, e: Envelope)
    requires BooksOk(o, log) && QueueOf(o, e.peer) == [] && e.serial == |log.passed|
    ensures BooksOk(o, Passed(log, e).(sent := log.sent + [e]))
  {
    var log' := Passed(log, e).(sent := log.sent + [e]);
    forall x ensures Balanced(o, log', x) { assert Balanced(o, log, x); }
    forall p ensures Ordered(o, log', p) { assert Ordered(o, log, p); SendNowOrdered(o, log, e, p); }
  }

  lemma GiveUp(o: map<Peer, seq<Held>>, log: Log, e: Envelope, drop: bool)
    requires BooksOk(o, log) && e.serial == |log.passed|
    ensures BooksOk(o, if drop then Passed(log, e).(lost := log.lost + [e]) else Passed(log, e).(failed := log.failed + [e]))
  {
    var log' := if drop then Passed(log, e).(lost := log.lost + [e]) else Passed(log, e).(failed := log.failed + [e]);
    forall x ensures Balanced(o, log', x) { assert Balanced(o, log, x); }
    forall p ensures Ordered(o, log', p) { assert Ordered(o, log, p); }
  }

  lemma HoldOrdered(o: map<Peer, seq<Held>>, log: Log, h: Held, p: Peer)
    requires Ordered(o, log, p) && h.envelope.serial == |log.passed|
    ensures Ordered(o[h.envelope.peer := QueueOf(o, h.envelope.peer) + [h]], Passed(log, h.envelope), p)
  {
    var e := h.envelope;
    var all := To(log.sent, p) + Envelopes(QueueOf(o, p));
    if p == e.peer {
      EnvelopesAppend(QueueOf(o, p), h);
      Grows(all, e);
      assert To(log.sent, p) + (Envelopes(QueueOf(o, p)) + [e]) == all + [e];
    } else {
      Loosen(all, |log.passed|);
    }
  }

  lemma HoldBalanced(o: map<Peer, seq<Held>>, log: Log, h: Held, x: Envelope)
    requires Balanced(o, log, x)
    ensures Balanced(o[h.envelope.peer := QueueOf(o, h.envelope.peer) + [h]], Passed(log, h.envelope), x)
  {
    EnvelopesAppend(QueueOf(o, h.envelope.peer), h);
  }

  lemma Hold(o: map<Peer, seq<Held>>, log: Log, h: Held)
    requires BooksOk(o, log) && h.envelope.serial == |log.passed|
    ensures var p := h.envelope.peer; BooksOk(o[p := QueueOf(o, p) + [h]], Passed(log, h.envelope))
  {
    var e := h.envelope;
    var o' := o[e.peer := QueueOf(o, e.peer) + [h]];
    forall x ensures Balanced(o', Passed(log, e), x) { assert Balanced(o, log, x); HoldBalanced(o, log, h, x); }
    forall p ensures Ordered(o', Passed(log, e), p) { assert Ordered(o, log, p); HoldOrdered(o, log, h, p); }
  }

  function Left(log: Log, e: Envelope, sent: bool): Log {
    if sent then log.(sent := log.sent + [e]) else log.(failed := log.failed + [e])
  }

  /** The front of the queue moves over to the sent ones, or drops out of the middle. */
  lemma FrontLeaves(xs: seq<Envelope>, e: Envelope, ys: seq<Envelope>, n: nat)
    requires Increasing(xs + ([e] + ys)) && Below(xs + ([e] + ys), n)
    ensures Increasing(xs + [e] + ys) && Below(xs + [e] + ys, n)
    ensures Increasing(xs + ys) && Below(xs + ys, n)
  {
    assert xs + [e] + ys == xs + ([e] + ys);
    DropMiddle(xs, e, ys, n);
  }

  lemma LeaveOrdered(o: map<Peer, seq<Held>>, log: Log, p: Peer, sent: bool, q: Peer)
    requires Ordered(o, log, q) && p in o && o[p] != [] && AllTo(o[p], p)
    ensures Ordered(o[p := o[p][1..]], Left(log, o[p][0].envelope, sent), q)
  {
    var e, rest := o[p][0].envelope, o[p][1..];
    var o' := o[p := rest];
    var log' := Left(log, e, sent);
    var before, after := To(log.sent, q), Envelopes(rest);
    ToAppend(log.sent, e, q);
    if q == p {
      assert QueueOf(o', q) == rest && QueueOf(o, q) == o[p];
      assert Envelopes(o[p]) == [e] + after;
      FrontLeaves(before, e, after, |log.passed|);
      assert To(log'.sent, q) == if sent then before + [e] else before;
    } else {
      assert e.peer == p;
      assert before + [] == before;
      assert To(log'.sent, q) == before && QueueOf(o', q) == QueueOf(o, q);
    }
  }

  lemma LeaveBalanced(o: map<Peer, seq<Held>>, log: Log, p: Peer, sent: bool, x: Envelope)
    requires Balanced(o, log, x) && p in o && o[p] != [] && AllTo(o[p], p)
    ensures Balanced(o[p := o[p][1..]], Left(log, o[p][0].envelope, sent), x)
  {
    assert Envelopes(o[p]) == [o[p][0].envelope] + Envelopes(o[p][1..]);
    assert o[p][0].envelope.peer == p;
  }

  /** The oldest envelope held for a peer leaves its queue, sent or reported. */
  lemma Leave(o: map<Peer, seq<Held>>, log: Log, p: Peer, sent: bool)
    requires BooksOk(o, log) && p in o && o[p] != []
    ensures BooksOk(o[p := o[p][1..]], Left(log, o[p][0].envelope, sent))
  {
    var o' := o[p := o[p][1..]];
    var log' := Left(log, o[p][0].envelope, sent);
    forall x ensures Balanced(o', log', x) { assert Balanced(o, log, x); LeaveBalanced(o, log, p, sent, x); }
    forall q ensures Ordered(o', log', q) { assert Ordered(o, log, q); LeaveOrdered(o, log, p, sent, q); }
  }

  lemma DropMiddle(xs: seq<Envelope>, e: Envelope, ys: seq<Envelope>, n: nat)
    requires Increasing(xs + [e] + ys) && Below(xs + [e] + ys, n)
    ensures Increasing(xs + ys) && Below(xs + ys, n)
  {
    var long, short := xs + [e] + ys, xs + ys;
    assert forall i :: 0 <= i < |short| ==> short[i] == long[if i < |xs| then i else i + 1];
  }

  lemma Erase(o: map<Peer, seq<Held>>, log: Log, p: Peer)
    requires BooksOk(o, log) && QueueOf(o, p) == []
    ensures BooksOk(o - {p}, log)
  {
    var o' := o - {p};
    assert forall q :: QueueOf(o', q) == QueueOf(o, q);
    forall x ensures Balanced(o', log, x) { assert Balanced(o, log, x); }
    forall q ensures Ordered(o', log, q) { assert Ordered(o, log, q); }
  }

  lemma {:induction false} NotAmong(queue: seq<Held>, p: Peer, x: Envelope)
    requires AllTo(queue, p) && x.peer != p
    ensures multiset(Envelopes(queue))[x] == 0
  {
    if queue != [] { NotAmong(queue[1..], p, x); }
  }

  /** reported has the envelopes of the queues in done, each once. */
  ghost predicate Reports(o: map<Peer, seq<Held>>, done: set<Peer>, reported: seq<Envelope>) {
    forall x :: multiset(reported)[x] == if x.peer in done then multiset(Envelopes(QueueOf(o, x.peer)))[x] else 0
  }

  lemma ReportQueue(o: map<Peer, seq<Held>>, done: set<Peer>, reported: seq<Envelope>, p: Peer)
    requires Reports(o, done, reported) && p in o && p !in done && AllTo(o[p], p)
    ensures Reports(o, done + {p}, reported + Envelopes(o[p]))
  {
    forall x
      ensures multiset(reported + Envelopes(o[p]))[x]
           == if x.peer in done + {p} then multiset(Envelopes(QueueOf(o, x.peer)))[x] else 0
    {
      assert multiset(reported)[x] == if x.peer in done then multiset(Envelopes(QueueOf(o, x.peer)))[x] else 0;
      if x.peer != p { NotAmong(o[p], p, x); }
    }
  }

  lemma ReportAll(o: map<Peer, seq<Held>>, log: Log, reported: seq<Envelope>)
    requires BooksOk(o, log) && Reports(o, o.Keys, reported)
    ensures BooksOk(map[], log.(failed := log.failed + reported))
  {
    var log' := log.(failed := log.failed + reported);
    forall x ensures Balanced(map[], log', x) { assert Balanced(o, log, x); }
    forall p ensures Ordered(map[], log', p)
    {
      assert Ordered(o, log, p);
      var all := To(log.sent, p) + Envelopes(QueueOf(o, p));
      assert forall i :: 0 <= i < |To(log.sent, p)| ==> To(log.sent, p)[i] == all[i];
      assert To(log.sent, p) + [] == To(log.sent, p);
    }
  }

  lemma {:induction false} NumberedOnce(xs: seq<Envelope>, e: Envelope)
    requires Numbered(xs) && e in xs
    ensures multiset(xs)[e] == 1
  {
    var k :| 0 <= k < |xs| && xs[k] == e;
    assert xs == xs[..k] + [e] + xs[k + 1..];
    assert e !in xs[..k] && e !in xs[k + 1..];
  }

  /** e is exactly one of sent, reported, dropped and held. */
  predicate OneFate(o: map<Peer, seq<Held>>, log: Log, e: Envelope) {
    multiset(log.sent)[e] + multiset(log.failed)[e] + multiset(log.lost)[e]
    + multiset(Envelopes(QueueOf(o, e.peer)))[e] == 1
  }

  predicate AllBefore(xs: seq<Envelope>, ys: seq<Envelope>) {
    forall i, j :: 0 <= i < |xs| && 0 <= j < |ys| ==> xs[i].serial < ys[j].serial
  }

  lemma ExactlyOneFate(o: map<Peer, seq<Held>>, log: Log, e: Envelope)
    requires BooksOk(o, log) && e in log.passed
    ensures OneFate(o, log, e)
  {
    NumberedOnce(log.passed, e);
    assert Balanced(o, log, e);
  }

  lemma SentInOrder(o: map<Peer, seq<Held>>, log: Log, p: Peer)
    requires BooksOk(o, log)
    ensures Increasing(To(log.sent, p)) && Increasing(Envelopes(QueueOf(o, p)))
    ensures AllBefore(To(log.sent, p), Envelopes(QueueOf(o, p)))
  {
    assert Ordered(o, log, p);
    SplitsInOrder(To(log.sent, p), Envelopes(QueueOf(o, p)));
  }

  lemma SplitsInOrder(before: seq<Envelope>, after: seq<Envelope>)
    requires Increasing(before + after)
    ensures Increasing(before) && Increasing(after) && AllBefore(before, after)
  {
    var all := before + after;
    assert forall i :: 0 <= i < |before| ==> before[i] == all[i];
    assert forall j :: 0 <= j < |after| ==> after[j] == all[|before| + j];
  }

  // ---------------------------------------------------------------- the sum of queue lengths

  ghost function Lengths(o: map<Peer, seq<Held>>, peers: set<Peer>): nat
    requires peers <= o.Keys
  {
    if peers == {} then 0 else var p :| p in peers; |o[p]| + Lengths(o, peers - {p})
  }

  lemma {:induction false} LengthsWithout(o: map<Peer, seq<Held>>, peers: set<Peer>, p: Peer)
    requires peers <= o.Keys && p in peers
    ensures Lengths(o, peers) == |o[p]| + Lengths(o, peers - {p})
  {
    var q :| q in peers && Lengths(o, peers) == |o[q]| + Lengths(o, peers - {q});
    if q != p {
      LengthsWithout(o, peers - {q}, p);
      LengthsWithout(o, peers - {p}, q);
      assert peers - {q} - {p} == peers - {p} - {q};
    }
  }

  lemma {:induction false} LengthsSame(o: map<Peer, seq<Held>>, o': map<Peer, seq<Held>>, peers: set<Peer>)
    requires peers <= o.Keys && peers <= o'.Keys && forall p :: p in peers ==> o[p] == o'[p]
    ensures Lengths(o, peers) == Lengths(o', peers)
  {
    if peers != {} {
      var p :| p in peers;
      LengthsWithout(o, peers, p);
      LengthsWithout(o', peers, p);
      LengthsSame(o, o', peers - {p});
    }
  }

  ghost function Total(o: map<Peer, seq<Held>>): nat {
    Lengths(o, o.Keys)
  }

  lemma TotalUpdate(o: map<Peer, seq<Held>>, p: Peer, queue: seq<Held>)
    ensures Total(o[p := queue]) == Total(o) - |QueueOf(o, p)| + |queue|
  {
    var o' := o[p := queue];
    LengthsWithout(o', o'.Keys, p);
    assert o'.Keys - {p} == o.Keys - {p};
    LengthsSame(o, o', o.Keys - {p});
    if p in o { LengthsWithout(o, o.Keys, p); } else { assert o.Keys - {p} == o.Keys; }
  }

  lemma TotalErase(o: map<Peer, seq<Held>>, p: Peer)
    requires p in o
    ensures Total(o - {p}) == Total(o) - |o[p]|
  {
    LengthsWithout(o, o.Keys, p);
    assert (o - {p}).Keys == o.Keys - {p};
    LengthsSame(o, o - {p}, o.Keys - {p});
  }

  // ---------------------------------------------------------------- the relay

  /** Only a request sent from inside an actor has someone to reply to. */
  function Awaiting(requests: map<nat, nat>, e: Envelope, sender: Option<nat>): map<nat, nat> {
    if e.correlation != 0 && sender.Some? then requests[e.correlation := sender.value] else requests
  }

  lemma OneEntry(before: map<nat, nat>, after: map<nat, nat>, e: Envelope, sender: Option<nat>)
    requires e.correlation != 0 && sender.Some? ==> e.correlation in after && after[e.correlation] == sender.value
    requires e.correlation == 0 || sender.None? ==> after == before
    requires after - {e.correlation} == before - {e.correlation}
    ensures after == Awaiting(before, e, sender)
  {
    forall c | c != e.correlation
      ensures c in after <==> c in before
      ensures c in after ==> after[c] == before[c]
    {
      assert c in after <==> c in after - {e.correlation};
      assert c in before <==> c in before - {e.correlation};
      assert c in after ==> after[c] == (after - {e.correlation})[c];
    }
  }

  class Relay {
    var outbound: map<Peer, seq<Held>>
    var queued: nat
    var dropped: nat
    var policy: Policy
    var maxQueued: nat  // 0 is no limit
    var requests: map<nat, nat>  // who awaits the reply with this correlation id
    var log: Log  // what the relay handed to the transport, reported and dropped

    ghost predicate Valid()
      reads this
    {
      && BooksOk(outbound, log)
      && queued == Total(outbound)
      && dropped == |log.lost|
      && (forall c :: c in requests ==> c != 0 && Asked(log.sent, c))
    }

    constructor (policy: Policy, maxQueued: nat)
      ensures Valid() && log == Log([], [], [], [])
      ensures this.policy == policy && this.maxQueued == maxQueued
    {
      this.policy, this.maxQueued := policy, maxQueued;
      outbound, queued, dropped, requests := map[], 0, 0, map[];
      log := Log([], [], [], []);
    }

    method Configure(policy: Policy, maxQueued: nat)
      requires Valid()
      modifies this`policy, this`maxQueued
      ensures Valid()
      ensures this.policy == policy && this.maxQueued == maxQueued
    {
      this.policy, this.maxQueued := policy, maxQueued;
    }

    method TrackRequest(e: Envelope, sender: Option<nat>)
      modifies this`requests
      ensures e.correlation != 0 && sender.Some? ==>
                e.correlation in requests && requests[e.correlation] == sender.value
      ensures e.correlation == 0 || sender.None? ==> requests == old(requests)
      ensures requests - {e.correlation} == old(requests) - {e.correlation}
    {
      if e.correlation != 0 && sender.Some? {
        requests := requests[e.correlation := sender.value];
      }
    }

    /** Messages already held for this peer go first: behind them nothing is tried. */
    method SendOrHold(e: Envelope, sender: Option<nat>, deadline: Time, answer: Answer) returns (fate: Fate)
      requires Valid() && e.serial == |log.passed|
      modifies this`outbound, this`queued, this`dropped, this`requests, this`log
      ensures Valid() && log.passed == old(log).passed + [e]
      ensures var held := QueueOf(old(outbound), e.peer) != [] || answer.Refused?;
              var room := maxQueued == 0 || old(queued) < maxQueued;
              && (fate.Delivered? <==> !held && answer.Sent?)
              && (fate.Discarded? <==> held && policy.Drop?)
              && (fate.Waiting? <==> held && policy.Queue? && room)
              && (fate.Reported? <==> (!held && answer.Error?) || (held && (policy.Fail? || (policy.Queue? && !room))))
      ensures log.sent == old(log).sent + if fate.Delivered? then [e] else []
      ensures log.failed == old(log).failed + if fate.Reported? then [e] else []
      ensures log.lost == old(log).lost + if fate.Discarded? then [e] else []
      ensures requests == if fate.Delivered? then Awaiting(old(requests), e, sender) else old(requests)
      ensures outbound == if fate.Waiting?
                          then old(outbound)[e.peer := QueueOf(old(outbound), e.peer) + [Held(e, sender, deadline)]]
                          else old(outbound)
    {
      var behind := e.peer in outbound && outbound[e.peer] != [];
      if !behind && answer.Sent? {
        Deliver(e, sender);
        return Delivered;
      }
      if !behind && answer.Error? {
        Report(e);
        return Reported;
      }
      match policy {
        case Drop =>
          Discard(e);
          return Discarded;
        case Fail =>
          Report(e);
          return Reported;
        case Queue =>
          if maxQueued > 0 && queued >= maxQueued {
            Report(e);
            return Reported;
          }
          Enqueue(Held(e, sender, deadline));
          return Waiting;
      }
    }

    method Deliver(e: Envelope, sender: Option<nat>)
      requires Valid() && e.serial == |log.passed| && QueueOf(outbound, e.peer) == []
      modifies this`requests, this`log
      ensures Valid() && log == Passed(old(log), e).(sent := old(log).sent + [e])
      ensures requests == Awaiting(old(requests), e, sender)
    {
      SendNow(outbound, log, e);
      AskedGrows(log.sent, e);
      log := Passed(log, e).(sent := log.sent + [e]);
      TrackRequest(e, sender);
      OneEntry(old(requests), requests, e, sender);
    }

    method Discard(e: Envelope)
      requires Valid() && e.serial == |log.passed|
      modifies this`dropped, this`log
      ensures Valid() && log == Passed(old(log), e).(lost := old(log).lost + [e])
    {
      GiveUp(outbound, log, e, true);
      dropped := dropped + 1;
      log := Passed(log, e).(lost := log.lost + [e]);
    }

    method Enqueue(h: Held)
      requires Valid() && h.envelope.serial == |log.passed|
      modifies this`outbound, this`queued, this`log
      ensures Valid() && log == Passed(old(log), h.envelope)
      ensures outbound == old(outbound)[h.envelope.peer := QueueOf(old(outbound), h.envelope.peer) + [h]]
    {
      var p := h.envelope.peer;
      Hold(outbound, log, h);
      TotalUpdate(outbound, p, QueueOf(outbound, p) + [h]);
      outbound := outbound[p := QueueOf(outbound, p) + [h]];
      queued := queued + 1;
      log := Passed(log, h.envelope);
    }

    /** send_error for an envelope that was just passed in. */
    method Report(e: Envelope)
      requires Valid() && e.serial == |log.passed|
      modifies this`log
      ensures Valid() && log == Passed(old(log), e).(failed := old(log).failed + [e])
    {
      GiveUp(outbound, log, e, false);
      log := Passed(log, e).(failed := log.failed + [e]);
    }

    /** One held envelope is timed out, answered by the transport, or stays. */
    method FlushFront(p: Peer, now: Time, answer: Answer) returns (left: bool)
      requires Valid() && p in outbound && outbound[p] != []
      modifies this`outbound, this`queued, this`requests, this`log
      ensures Valid() && (left <==> old(outbound)[p][0].deadline <= now || !answer.Refused?)
      ensures !left ==> outbound == old(outbound) && log == old(log)
      ensures left ==> outbound == old(outbound)[p := old(outbound)[p][1..]]
      ensures var e := old(outbound)[p][0].envelope;
              var sent := old(outbound)[p][0].deadline > now && answer.Sent?;
              && log.passed == old(log).passed && log.lost == old(log).lost
              && log.sent == old(log).sent + (if sent then [e] else [])
              && log.failed == old(log).failed + if left && !sent then [e] else []
      ensures requests == if old(outbound)[p][0].deadline > now && answer.Sent?
                          then Awaiting(old(requests), old(outbound)[p][0].envelope, old(outbound)[p][0].sender)
                          else old(requests)
    {
      var front := outbound[p][0];
      if front.deadline > now && answer.Refused? { return false; }
      var sent := front.deadline > now && answer.Sent?;
      Leave(outbound, log, p, sent);
      TotalUpdate(outbound, p, outbound[p][1..]);
      outbound := outbound[p := outbound[p][1..]];
      queued := queued - 1;
      AskedGrows(log.sent, front.envelope);
      log := Left(log, front.envelope, sent);
      if sent {
        TrackRequest(front.envelope, front.sender);
        OneEntry(old(requests), requests, front.envelope, front.sender);
      }
      return true;
    }

    /** flush_outbound's inner loop, and dropping the queue it emptied. calls numbers the try_sends. */
    method FlushPeer(p: Peer, now: Time, answers: nat -> Answer, from: nat) returns (calls: nat)
      requires Valid() && p in outbound
      modifies this`outbound, this`queued, this`requests, this`log
      ensures Valid() && log.passed == old(log).passed && log.lost == old(log).lost
      ensures outbound.Keys == old(outbound).Keys || outbound.Keys == old(outbound).Keys - {p}
      ensures forall q :: q in outbound && q != p ==> outbound[q] == old(outbound)[q]
      ensures p in outbound ==> Waits(outbound, old(outbound), p, now)
      ensures calls >= from && (p in outbound ==> calls > from && answers(calls - 1).Refused?)
      ensures IsPrefix(old(log).sent, log.sent) && IsPrefix(old(log).failed, log.failed)
    {
      calls := from;
      var going := true;
      while going && outbound[p] != []
        invariant Valid() && log.passed == old(log).passed && log.lost == old(log).lost
        invariant outbound.Keys == old(outbound).Keys && forall q :: q in outbound && q != p ==> outbound[q] == old(outbound)[q]
        invariant IsSuffix(outbound[p], old(outbound)[p])
        invariant IsPrefix(old(log).sent, log.sent) && IsPrefix(old(log).failed, log.failed)
        invariant calls >= from
        invariant !going ==> outbound[p] != [] && outbound[p][0].deadline > now && calls > from && answers(calls - 1).Refused?
        decreases going, |outbound[p]|
      {
        going := FlushFront(p, now, answers(calls));
        calls := calls + 1;
      }
      if outbound[p] == [] {
        Erase(outbound, log, p);
        TotalErase(outbound, p);
        outbound := outbound - {p};
      }
    }

    /** Try every peer's queue, in any order of peers. What is still held for a peer is the end of what
        was held, and its front is not timed out; everything that left was sent or reported. */
    method Flush(now: Time, answers: nat -> Answer) returns (some: bool)
      requires Valid()
      modifies this`outbound, this`queued, this`requests, this`log
      ensures Valid() && log.passed == old(log).passed && log.lost == old(log).lost
      ensures some <==> Total(outbound) > 0
      ensures IsPrefix(old(log).sent, log.sent) && IsPrefix(old(log).failed, log.failed)
      ensures old(queued) > 0 && (forall n :: !answers(n).Refused?) ==> outbound == map[]
      ensures old(queued) == 0 ==> outbound == old(outbound)
      ensures old(queued) > 0 ==> forall p :: p in outbound ==> Waits(outbound, old(outbound), p, now)
    {
      if queued == 0 { return false; }
      var calls, rest := 0, outbound.Keys;
      while rest != {}
        invariant Valid() && log.passed == old(log).passed && log.lost == old(log).lost
        invariant IsPrefix(old(log).sent, log.sent) && IsPrefix(old(log).failed, log.failed)
        invariant (forall n :: !answers(n).Refused?) ==> outbound.Keys == rest
        invariant rest <= outbound.Keys
        invariant forall p :: p in rest ==> p in old(outbound) && outbound[p] == old(outbound)[p]
        invariant forall p :: p in outbound && p !in rest ==> Waits(outbound, old(outbound), p, now)
        decreases |rest|
      {
        var p :| p in rest;
        calls := FlushPeer(p, now, answers, calls);
        rest := rest - {p};
      }
      return queued > 0;
    }

    /** The connection closes: every held envelope is reported, none is kept. */
    method FailAll()
      requires Valid()
      modifies this`outbound, this`queued, this`log
      ensures Valid() && outbound == map[] && queued == 0
      ensures log.passed == old(log).passed && log.sent == old(log).sent && log.lost == old(log).lost
      ensures IsPrefix(old(log).failed, log.failed)
    {
      var reported := ReportQueues(outbound);
      ReportAll(outbound, log, reported);
      log := log.(failed := log.failed + reported);
      outbound := map[];
      queued := 0;
    }
  }

  // ---------------------------------------------------------------- whole lives of a relay

  datatype Op =
    | Send(peer: Peer, correlation: nat, sender: Option<nat>, deadline: Time, answer: Answer)
    | Flush(now: Time, answers: nat -> Answer)
    | FailAll
    | Configure(policy: Policy, maxQueued: nat)

  /** The envelopes that the first n operations pass to send_or_hold. */
  function Submitted(ops: seq<Op>, n: nat): seq<Envelope>
    requires n <= |ops|
  {
    if n == 0 then []
    else
      var before := Submitted(ops, n - 1);
      if ops[n - 1].Send? then before + [Envelope(|before|, ops[n - 1].peer, ops[n - 1].correlation)] else before
  }

  /** The policy in force and the transport's answer when an envelope was passed in. */
  datatype Sending = Sending(policy: Policy, answer: Answer)

  function PolicyAfter(start: Policy, ops: seq<Op>, n: nat): Policy
    requires n <= |ops|
  {
    if n == 0 then start
    else if ops[n - 1].Configure? then ops[n - 1].policy
    else PolicyAfter(start, ops, n - 1)
  }

  /** One for each of Submitted(ops, n). */
  function Sendings(start: Policy, ops: seq<Op>, n: nat): seq<Sending>
    requires n <= |ops|
  {
    if n == 0 then []
    else Sendings(start, ops, n - 1)
         + if ops[n - 1].Send? then [Sending(PolicyAfter(start, ops, n - 1), ops[n - 1].answer)] else []
  }

  /** A refused envelope is dropped under the drop policy, without a report, and reported under the fail
      policy; and only under the drop policy is anything dropped. */
  predicate FollowsPolicy(log: Log, sendings: seq<Sending>) {
    && |sendings| == |log.passed|
    && forall i :: 0 <= i < |sendings| ==>
         && (log.passed[i] in log.lost ==> sendings[i].policy.Drop?)
         && (sendings[i].answer.Refused? && sendings[i].policy.Drop? ==> log.passed[i] in log.lost)
         && (sendings[i].answer.Refused? && sendings[i].policy.Fail? ==> log.passed[i] in log.failed)
  }

  lemma PolicyKept(before: Log, after: Log, sendings: seq<Sending>)
    requires FollowsPolicy(before, sendings) && after.passed == before.passed && after.lost == before.lost
    requires IsPrefix(before.failed, after.failed)
    ensures FollowsPolicy(after, sendings)
  {
    forall i | 0 <= i < |sendings| && before.passed[i] in before.failed
      ensures after.passed[i] in after.failed
    {
      var k :| 0 <= k < |before.failed| && before.failed[k] == before.passed[i];
      assert after.failed[..|before.failed|][k] == after.failed[k];
    }
  }

  lemma PolicyFollowed(before: Log, after: Log, sendings: seq<Sending>, e: Envelope, s: Sending)
    requires FollowsPolicy(before, sendings) && Numbered(after.passed) && after.passed == before.passed + [e]
    requires IsPrefix(before.failed, after.failed)
    requires after.lost == before.lost || (after.lost == before.lost + [e] && s.policy.Drop?)
    requires s.answer.Refused? && s.policy.Drop? ==> e in after.lost
    requires s.answer.Refused? && s.policy.Fail? ==> e in after.failed
    requires e !in before.lost
    ensures FollowsPolicy(after, sendings + [s])
  {
    PolicyKept(before, before.(failed := after.failed), sendings);
    var n := |before.passed|;
    forall i | 0 <= i < n
      ensures after.passed[i] == before.passed[i] && after.passed[i] != e
    {
      assert after.passed[i].serial == i && after.passed[n] == e && after.passed[n].serial == n;
    }
  }

  lemma NowhereYet(o: map<Peer, seq<Held>>, log: Log, e: Envelope)
    requires BooksOk(o, log) && e.serial == |log.passed|
    ensures e !in log.lost && e !in log.failed && e !in log.sent
  {
    assert Balanced(o, log, e);
    assert e !in log.passed;
  }

  method Perform(relay: Relay, op: Op)
    requires relay.Valid()
    modifies relay
    ensures relay.Valid()
    ensures relay.policy == if op.Configure? then op.policy else old(relay.policy)
    ensures IsPrefix(old(relay.log).failed, relay.log.failed)
    ensures !op.Send? ==> relay.log.lost == old(relay.log).lost
    ensures op.Send? ==>
              var e := Envelope(|old(relay.log).passed|, op.peer, op.correlation);
              && (relay.log.lost == old(relay.log).lost || (relay.log.lost == old(relay.log).lost + [e] && relay.policy.Drop?))
              && (op.answer.Refused? && relay.policy.Drop? ==> e in relay.log.lost)
              && (op.answer.Refused? && relay.policy.Fail? ==> e in relay.log.failed)
    ensures relay.log.passed == if op.Send?
                                then old(relay.log).passed + [Envelope(|old(relay.log).passed|, op.peer, op.correlation)]
                                else old(relay.log).passed
  {
    match op {
      case Send(peer, correlation, sender, deadline, answer) =>
        var _ := relay.SendOrHold(Envelope(|relay.log.passed|, peer, correlation), sender, deadline, answer);
      case Flush(now, answers) =>
        var _ := relay.Flush(now, answers);
      case FailAll =>
        relay.FailAll();
      case Configure(policy, maxQueued) =>
        relay.Configure(policy, maxQueued);
    }
  }

  /** Any life of a relay: whatever is sent, whatever the transport answers, however often the queues are
      flushed or failed and the policy changed, each envelope passed in has exactly one fate, the transport
      accepted each peer's envelopes in send order with the held ones behind them, the two counters are
      right, and a reply is awaited only for a request that went out. */
  method Drive(policy: Policy, maxQueued: nat, ops: seq<Op>)
    returns (log: Log, held: map<Peer, seq<Held>>, queued: nat, dropped: nat, requests: map<nat, nat>)
    ensures log.passed == Submitted(ops, |ops|)
    ensures forall e :: e in log.passed ==> OneFate(held, log, e)
    ensures forall p :: Increasing(To(log.sent, p)) && Increasing(Envelopes(QueueOf(held, p)))
                        && AllBefore(To(log.sent, p), Envelopes(QueueOf(held, p)))
    ensures queued == Total(held) && dropped == |log.lost|
    ensures forall c :: c in requests ==> c != 0 && Asked(log.sent, c)
    ensures FollowsPolicy(log, Sendings(policy, ops, |ops|))
  {
    var relay := new Relay(policy, maxQueued);
    for i := 0 to |ops|
      invariant relay.Valid() && fresh(relay)
      invariant relay.log.passed == Submitted(ops, i)
      invariant relay.policy == PolicyAfter(policy, ops, i) && FollowsPolicy(relay.log, Sendings(policy, ops, i))
    {
      ghost var before := relay.log;
      if ops[i].Send? {
        NowhereYet(relay.outbound, before, Envelope(|before.passed|, ops[i].peer, ops[i].correlation));
      }
      Perform(relay, ops[i]);
      if ops[i].Send? {
        PolicyFollowed(before, relay.log, Sendings(policy, ops, i), relay.log.passed[|before.passed|],
                       Sending(relay.policy, ops[i].answer));
      } else {
        PolicyKept(before, relay.log, Sendings(policy, ops, i));
        assert Sendings(policy, ops, i) + [] == Sendings(policy, ops, i);
      }
    }
    log, held, queued, dropped, requests := relay.log, relay.outbound, relay.queued, relay.dropped, relay.requests;
    forall e | e in log.passed
      ensures OneFate(held, log, e)
    {
      ExactlyOneFate(held, log, e);
    }
    forall p
      ensures Increasing(To(log.sent, p)) && Increasing(Envelopes(QueueOf(held, p)))
              && AllBefore(To(log.sent, p), Envelopes(QueueOf(held, p)))
    {
      SentInOrder(held, log, p);
    }
  }

  /** fail_all_outbound's loops: every peer, then every envelope held for it. */
  method ReportQueues(outbound: map<Peer, seq<Held>>) returns (reported: seq<Envelope>)
    requires forall p :: p in outbound ==> AllTo(outbound[p], p)
    ensures Reports(outbound, outbound.Keys, reported)
  {
    reported := [];
    var rest := outbound.Keys;
    while rest != {}
      invariant rest <= outbound.Keys && Reports(outbound, outbound.Keys - rest, reported)
      decreases |rest|
    {
      var p :| p in rest;
      var more := ReportEach(outbound[p]);
      ReportQueue(outbound, outbound.Keys - rest, reported, p);
      assert outbound.Keys - (rest - {p}) == outbound.Keys - rest + {p};
      reported := reported + more;
      rest := rest - {p};
    }
    assert outbound.Keys - {} == outbound.Keys;
  }

  /** send_error for each envelope of one queue. */
  method ReportEach(queue: seq<Held>) returns (reported: seq<Envelope>)
    ensures reported == Envelopes(queue)
  {
    reported := [];
    for i := 0 to |queue|
      invariant reported == Envelopes(queue[..i])
    {
      assert queue[..i + 1] == queue[..i] + [queue[i]];
      EnvelopesAppend(queue[..i], queue[i]);
      reported := reported + [queue[i].envelope];
    }
    assert queue[..|queue|] == queue;
  }

  lemma AskedGrows(sent: seq<Envelope>, e: Envelope)
    ensures forall c :: Asked(sent, c) ==> Asked(sent + [e], c)
    ensures Asked(sent + [e], e.correlation)
  {
    forall c | Asked(sent, c)
      ensures Asked(sent + [e], c)
    {
      var i :| 0 <= i < |sent| && sent[i].correlation == c;
      assert (sent + [e])[i].correlation == c;
    }
    assert (sent + [e])[|sent|] == e;
  }

  /** What send_or_hold does with an envelope. */
  datatype Fate = Delivered | Reported | Discarded | Waiting

  /** A request with this correlation id went out. */
  predicate Asked(sent: seq<Envelope>, c: nat) {
    exists i :: 0 <= i < |sent| && sent[i].correlation == c
  }
}
