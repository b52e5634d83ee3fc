/** Sending one message to every ready pipe: `drain` yields the ready set in some order and leaves it empty. */
module Broadcast {
  import opened Core
  import opened Contexts

  /** An order in which draining `ready` may yield it. */
  ghost predicate IsDrain(order: seq<EndpointId>, ready: set<EndpointId>) {
    && (forall i, j :: 0 <= i < j < |order| ==> order[i] != order[j])
    && (forall x :: x in order <==> x in ready)
  }

  /** Sends to each in turn, leaving out those without a pipe. */
  function SendEach(c: Ctx, order: seq<EndpointId>, pipes: set<EndpointId>, msg: Message): (r: Ctx)
    ensures r == c.(sent := r.sent)
  {
    if order == [] then c
    else
      var n := |order| - 1;
      var r := SendEach(c, order[..n], pipes, msg);
      if order[n] in pipes then SendTo(r, order[n], msg) else r
  }

  /** `msg`, once to each of `targets`. */
  ghost function Once(targets: set<EndpointId>, msg: Message): (r: multiset<(EndpointId, Message)>) {
    multiset(set e | e in targets :: (e, msg))
  }

  lemma OnceMore(targets: set<EndpointId>, e: EndpointId, msg: Message)
    requires e !in targets
    ensures Once(targets + {e}, msg) == Once(targets, msg) + multiset{(e, msg)}
  {
    assert (set x | x in targets + {e} :: (x, msg)) == (set x | x in targets :: (x, msg)) + {(e, msg)};
  }

  /** A broadcast reaches every ready pipe exactly once and nothing else, in whatever order the set is drained. */
  lemma {:induction false} ReachesEachOnce(c: Ctx, order: seq<EndpointId>, ready: set<EndpointId>, pipes: set<EndpointId>, msg: Message)
    requires IsDrain(order, ready)
    ensures multiset(SendEach(c, order, pipes, msg).sent) == multiset(c.sent) + Once(ready * pipes, msg)
    decreases |order|
  {
    if order == [] {
      assert ready * pipes == {};
      assert Once({}, msg) == multiset{};
    } else {
      var n := |order| - 1;
      var last := order[n];
      var front := order[..n];
      assert order == front + [last];
      assert IsDrain(front, ready - {last});
      ReachesEachOnce(c, front, ready - {last}, pipes, msg);
      if last in pipes {
        OnceMore((ready - {last}) * pipes, last, msg);
        assert (ready - {last}) * pipes + {last} == ready * pipes;
      } else {
        assert (ready - {last}) * pipes == ready * pipes;
      }
    }
  }

  /** The loop of `send_to_all`. */
  method SendToAll(ready: set<EndpointId>, pipes: set<EndpointId>, c: Ctx, msg: Message)
    returns (left: set<EndpointId>, c': Ctx, ghost order: seq<EndpointId>)
    ensures left == {} && IsDrain(order, ready) && c' == SendEach(c, order, pipes, msg)
  {
    left, c', order := ready, c, [];
    while left != {}
      invariant left <= ready && IsDrain(order, ready - left)
      invariant c' == SendEach(c, order, pipes, msg)
    {
      var id :| id in left;
      left := left - {id};
      assert (order + [id])[..|order|] == order;
      order := order + [id];
      if id in pipes {
        c' := SendTo(c', id, msg);
      }
    }
  }

  /** The loop of `send_to_all_except`: the one left out is ready again afterwards. */
  method SendToAllExcept(ready: set<EndpointId>, pipes: set<EndpointId>, c: Ctx, msg: Message, except: EndpointId)
    returns (left: set<EndpointId>, c': Ctx, ghost order: seq<EndpointId>)
    ensures left == {except} && IsDrain(order, ready) && c' == SendEach(c, order, pipes - {except}, msg)
  {
    left, c', order := ready, c, [];
    while left != {}
      invariant left <= ready && IsDrain(order, ready - left)
      invariant c' == SendEach(c, order, pipes - {except}, msg)
    {
      var id :| id in left;
      left := left - {id};
      assert (order + [id])[..|order|] == order;
      order := order + [id];
      if id != except && id in pipes {
        c' := SendTo(c', id, msg);
      }
    }
    left := left + {except};
  }
}
