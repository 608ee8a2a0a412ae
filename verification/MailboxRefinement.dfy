/** The linked stack does to its chain what MailboxOrder's steps do to the word they read as one value:
    the two models of concurrent pushes agree. msg says which message a node carries. */
module MailboxRefinement {
  import opened Common
  import L = LinkedStack
  import O = MailboxOrder

  function StatusOf(w: L.Word): O.Status {
    match w
    case BlockedTag => O.Blocked
    case ClosedTag => O.Closed
    case _ => O.Open
  }

  function Messages(nodes: seq<L.Node>, msg: L.Node -> O.Msg): seq<O.Msg> {
    if nodes == [] then [] else Messages(nodes[..|nodes| - 1], msg) + [msg(nodes[|nodes| - 1])]
  }

  lemma MessagesAppend(nodes: seq<L.Node>, n: L.Node, msg: L.Node -> O.Msg)
    ensures Messages(nodes + [n], msg) == Messages(nodes, msg) + [msg(n)]
  {
    assert (nodes + [n])[..|nodes|] == nodes;
  }

  /** What MailboxOrder sees of a linked stack. */
  function WordOf(s: L.State, msg: L.Node -> O.Msg): O.Word {
    O.Word(StatusOf(s.word), Messages(L.Backwards(s.chain), msg))
  }

  predicate Exchanges(s: L.State, step: L.Step) {
    step.Run? && !step.spurious && step.t in s.threads
    && s.threads[step.t].Swap? && s.threads[step.t].seen == s.word
  }

  /** Every step of the linked stack is a push, a fetch, a change of tag, or invisible. */
  lemma LinkedStepRefines(nodes: set<L.Node>, s: L.State, s': L.State, step: L.Step, o: O.State, msg: L.Node -> O.Msg)
    requires L.Reachable(nodes, s) && L.NextStep(s, s', step) && o.word == WordOf(s, msg)
    ensures Exchanges(s, step) ==>
              !o.word.status.Closed?
              && WordOf(s', msg) == O.Word(O.Open, o.word.stack + [msg(s.threads[step.t].n)])
    ensures step.Take? ==> WordOf(s', msg) == O.Fetch(o, O.Idle).word
    ensures step.Block? ==> o.word == O.Word(O.Open, []) && WordOf(s', msg) == O.Word(O.Blocked, [])
    ensures step.Unblock? ==> o.word.status.Blocked? && WordOf(s', msg) == o.word.(status := O.Open)
    ensures step.Close? ==> WordOf(s', msg) == O.Word(O.Closed, [])
    ensures !Exchanges(s, step) && !(step.Take? || step.Block? || step.Unblock? || step.Close?) ==> WordOf(s', msg) == o.word
  {
    L.ReachableInv(nodes, s);
    if Exchanges(s, step) {
      ExchangeRefines(s, s', step, msg);
    } else if step.Run? {
      FailedRefines(s, s', step, msg);
    }
  }

  lemma ExchangeRefines(s: L.State, s': L.State, step: L.Step, msg: L.Node -> O.Msg)
    requires L.ThreadInv(s) && L.NextStep(s, s', step) && Exchanges(s, step)
    ensures !s.word.ClosedTag? && s'.word.Top?
    ensures WordOf(s', msg).stack == WordOf(s, msg).stack + [msg(s.threads[step.t].n)]
  {
    var n := s.threads[step.t].n;
    assert ([n] + s.chain)[1..] == s.chain;
    MessagesAppend(L.Backwards(s.chain), n, msg);
  }

  lemma FailedRefines(s: L.State, s': L.State, step: L.Step, msg: L.Node -> O.Msg)
    requires L.NextStep(s, s', step) && step.Run? && !Exchanges(s, step)
    ensures WordOf(s', msg) == WordOf(s, msg)
  {
    assert s'.word == s.word && s'.chain == s.chain;
  }

  /** So a successful exchange is MailboxOrder's push by a producer that publishes this message. */
  lemma ExchangeIsTryPush(nodes: set<L.Node>, s: L.State, s': L.State, step: L.Step, o: O.State, msg: L.Node -> O.Msg)
    requires L.Reachable(nodes, s) && L.NextStep(s, s', step) && Exchanges(s, step) && o.word == WordOf(s, msg)
    requires step.t in o.producers && o.producers[step.t] == O.Publishing(msg(s.threads[step.t].n))
    ensures exists o' :: O.NextStep(o, o', O.TryPush(step.t)) && o'.word == WordOf(s', msg)
  {
    LinkedStepRefines(nodes, s, s', step, o, msg);
    var m := msg(s.threads[step.t].n);
    var o' := o.(word := WordOf(s', msg), producers := o.producers - {step.t}, pushed := o.pushed + [m]);
    assert O.NextStep(o, o', O.TryPush(step.t));
  }
}
