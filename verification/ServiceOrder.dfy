/** Whole-run laws of the scheduler: bounded waiting and the order in which a backlog is served. */
module ServiceOrder {
  import opened Core
  import opened Scheduling
  import opened SchedulingLaws

  datatype Op = Serve | Ready(id: EndpointId) | NotReady(id: EndpointId)

  function Apply(s: Sched, op: Op): (r: Sched) {
    match op
    case Serve => Pop(s).1
    case Ready(id) => Activate(s, id)
    case NotReady(id) => Deactivate(s, id)
  }

  /** What the pops of a run return. */
  function Served(s: Sched, ops: seq<Op>): (r: seq<EndpointId>)
    decreases |ops|
  {
    if ops == [] then []
    else
      var rest := Served(Apply(s, ops[0]), ops[1..]);
      if ops[0].Serve? && Pop(s).0.Some? then [Pop(s).0.value] + rest else rest
  }

  /** The environment of item `k`: it is not deactivated and nothing of a better priority is activated. */
  predicate LeavesAlone(items: seq<Item>, k: nat, op: Op)
    requires k < |items|
  {
    match op
    case Serve => true
    case Ready(id) => forall j :: 0 <= j < |items| && items[j].value == id ==> items[k].priority <= items[j].priority
    case NotReady(id) => id != items[k].value
  }

  /** `r` has the same members as `s`, in the same slots. */
  ghost predicate SameMembers(s: Sched, r: Sched) {
    && |r.items| == |s.items|
    && forall i :: 0 <= i < |s.items| ==> r.items[i].value == s.items[i].value && r.items[i].priority == s.items[i].priority
  }

  /** Item `k` is active in the best active class. */
  ghost predicate Waiting(s: Sched, k: nat) {
    Valid(s) && k < |s.items| && IsActive(s.items, k) && s.current.Some? && s.current.value.priority == s.items[k].priority
  }

  /** The cursor moves towards a waiting item and never past it. */
  lemma CursorApproaches(s: Sched, k: nat)
    requires Waiting(s, k) && s.current.value.index != k
    ensures var r := Leave(s, s.current.value.index);
            && Waiting(r, k) && SameMembers(s, r)
            && Ahead(|s.items|, r.current.value.index, k) < Ahead(|s.items|, s.current.value.index, k)
  {
    var c := s.current.value;
    var r := Leave(s, c.index);
    LeaveKeeps(s, c.index);
    assert forall i :: IsActive(r.items, i) <==> IsActive(s.items, i) && i != c.index;
    NextCursorIsBest(r.items, c.index, c.priority);
    assert IsActive(r.items, k);
    assert r.current.Some?;
  }

  /** One step of a run either serves the waiting item or keeps it waiting, no further from the cursor. */
  lemma WaitingStep(s: Sched, k: nat, op: Op)
    requires Waiting(s, k) && LeavesAlone(s.items, k, op)
    requires !(op.Serve? && s.current.value.index == k)
    ensures var r := Apply(s, op);
            && Waiting(r, k) && SameMembers(s, r)
            && Ahead(|s.items|, r.current.value.index, k) + (if op.Serve? then 1 else 0)
               <= Ahead(|s.items|, s.current.value.index, k)
  {
    match op
    case Serve =>
      CursorApproaches(s, k);
      assert Pop(s).1 == Leave(s, s.current.value.index);
    case Ready(id) =>
      ActivateKeeps(s, id);
    case NotReady(id) =>
      DeactivateKeeps(s, id);
      var found := IndexOf(s, id);
      if found.Some? && s.items[found.value].active && found.value == s.current.value.index {
        CursorApproaches(s, k);
      }
  }

  /**
   Bounded waiting: whatever else happens, an item that stays active in the best active class
   is returned within (circular distance from the cursor) + 1 pops.
   */
  lemma {:induction false} BoundedWaiting(s: Sched, ops: seq<Op>, k: nat)
    requires Waiting(s, k)
    requires forall op :: op in ops ==> LeavesAlone(s.items, k, op)
    ensures var bound := Ahead(|s.items|, s.current.value.index, k) + 1;
            |Served(s, ops)| >= bound ==> s.items[k].value in Served(s, ops)[..bound]
    decreases |ops|
  {
    if ops == [] {
    } else if ops[0].Serve? && s.current.value.index == k {
      assert Served(s, ops)[0] == s.items[k].value;
    } else {
      WaitingStep(s, k, ops[0]);
      var r := Apply(s, ops[0]);
      forall op | op in ops[1..]
        ensures LeavesAlone(r.items, k, op)
      {
        assert op in ops;
      }
      BoundedWaiting(r, ops[1..], k);
      var rest := Served(r, ops[1..]);
      var bound := Ahead(|s.items|, s.current.value.index, k) + 1;
      var bound' := Ahead(|s.items|, r.current.value.index, k) + 1;
      if |Served(s, ops)| >= bound {
        var at :| 0 <= at < bound' && rest[at] == s.items[k].value;
        assert Served(s, ops)[if ops[0].Serve? then at + 1 else at] == s.items[k].value;
      }
    }
  }

  // ---------------------------------------------------------------- drain

  /** The slots served by popping until nothing is left. */
  ghost function Drain(s: Sched): (r: seq<nat>)
    requires Valid(s)
    decreases ActiveIds(s)
  {
    if s.current.None? then []
    else
      PopKeeps(s);
      [s.current.value.index] + Drain(Pop(s).1)
  }

  /** Position inside a class: going round from the cursor in its class, from the start in any other. */
  ghost function Rank(s: Sched, i: nat): (r: nat)
    requires s.current.Some? && s.current.value.index < |s.items| && i < |s.items|
  {
    if s.items[i].priority == s.current.value.priority then Ahead(|s.items|, s.current.value.index, i) else i
  }

  ghost predicate Before(s: Sched, i: nat, j: nat)
    requires s.current.Some? && s.current.value.index < |s.items| && i < |s.items| && j < |s.items|
  {
    || s.items[i].priority < s.items[j].priority
    || (s.items[i].priority == s.items[j].priority && Rank(s, i) < Rank(s, j))
  }

  /** Serving one item does not change the order of the others, and it came before all of them. */
  lemma PopKeepsOrder(s: Sched)
    requires Valid(s) && s.current.Some?
    ensures var c := s.current.value;
            var r := Pop(s).1;
            && Valid(r) && SameMembers(s, r)
            && (forall i :: IsActive(r.items, i) <==> IsActive(s.items, i) && i != c.index)
            && (forall i :: IsActive(r.items, i) ==> Before(s, c.index, i))
            && (r.current.Some? ==>
                  forall i, j :: IsActive(r.items, i) && IsActive(r.items, j) && Before(r, i, j) ==> Before(s, i, j))
  {
    var c := s.current.value;
    PopKeeps(s);
    var r := Pop(s).1;
    assert forall i :: IsActive(r.items, i) <==> IsActive(s.items, i) && i != c.index;
    NextCursorIsBest(r.items, c.index, c.priority);
  }

  /**
   Drain order: popping with no new activation serves every active item exactly once, by class, going
   round from the cursor inside the first class and from the lowest slot inside the others.
   */
  lemma {:induction false} DrainServesEachOnceInOrder(s: Sched)
    requires Valid(s)
    ensures forall i :: i in Drain(s) <==> IsActive(s.items, i)
    ensures s.current.Some? ==>
              forall a, b :: 0 <= a < b < |Drain(s)| ==>
                Drain(s)[a] < |s.items| && Drain(s)[b] < |s.items| && Before(s, Drain(s)[a], Drain(s)[b])
    decreases ActiveIds(s)
  {
    if s.current.Some? {
      PopKeeps(s);
      PopKeepsOrder(s);
      var r := Pop(s).1;
      DrainServesEachOnceInOrder(r);
      var d := Drain(r);
      assert Drain(s) == [s.current.value.index] + d;
      forall a, b | 0 <= a < b < |Drain(s)|
        ensures Drain(s)[a] < |s.items| && Drain(s)[b] < |s.items| && Before(s, Drain(s)[a], Drain(s)[b])
      {
        assert d[b - 1] in d;
        if a > 0 {
          assert d[a - 1] in d;
          assert Before(r, d[a - 1], d[b - 1]);
        }
      }
    }
  }
}
