/** The scheduler in place: every method is tied to the function of the same name. */
module Priolists {
  import opened Core
  import opened Scheduling

  class Priolist {
    var items: seq<Item>
    var current: Option<Cursor>

    ghost function View(): (s: Sched)
      reads this
    {
      Sched(items, current)
    }

    constructor ()
      ensures View() == EMPTY
    {
      items, current := [], None;
    }

    /** The search loop that every operation goes through. */
    method FindFirst(q: Query, lo: nat, hi: nat) returns (r: Option<nat>)
      requires lo <= hi <= |items|
      ensures r == Find(items, q, lo, hi)
    {
      for i := lo to hi
        invariant Find(items, q, lo, hi) == Find(items, q, i, hi)
      {
        if Matches(q, items[i]) {
          return Some(i);
        }
      }
      return None;
    }

    method ComputeNext(pivot: nat, priority: Priority)
      requires pivot <= |items|
      modifies this`current
      ensures current == NextCursor(items, pivot, priority)
    {
      var found := FindFirst(ActiveIn(priority), pivot, |items|);
      if found.Some? {
        current := Some(Cursor(found.value, priority));
        return;
      }
      found := FindFirst(ActiveIn(priority), 0, pivot);
      if found.Some? {
        current := Some(Cursor(found.value, priority));
        return;
      }
      var p: Priority := (priority + 1) % 256;
      while p <= LOWEST
        invariant items == old(items)
        invariant NextCursor(items, pivot, priority) == FirstInClasses(items, p)
        decreases 256 - p
      {
        found := FindFirst(ActiveIn(p), 0, |items|);
        if found.Some? {
          current := Some(Cursor(found.value, p));
          return;
        }
        p := p + 1;
      }
      current := None;
    }

    method Insert(id: EndpointId, priority: Priority)
      modifies this
      ensures View() == Scheduling.Insert(old(View()), id, priority)
    {
      items := items + [Item(id, priority, false)];
    }

    method Activate(id: EndpointId)
      modifies this
      ensures View() == Scheduling.Activate(old(View()), id)
    {
      var found := FindFirst(ById(id), 0, |items|);
      if found.None? || items[found.value].active {
        return;
      }
      var index := found.value;
      var priority := items[index].priority;
      items := items[index := items[index].(active := true)];
      if current.None? || priority < current.value.priority {
        current := Some(Cursor(index, priority));
      }
    }

    method Deactivate(id: EndpointId)
      modifies this
      ensures View() == Scheduling.Deactivate(old(View()), id)
    {
      var found := FindFirst(ById(id), 0, |items|);
      if found.None? || !items[found.value].active {
        return;
      }
      var index := found.value;
      var priority := items[index].priority;
      items := items[index := items[index].(active := false)];
      if current == Some(Cursor(index, priority)) {
        ComputeNext(index, priority);
      }
    }

    method Peek() returns (ready: bool)
      ensures ready == Scheduling.Peek(View())
    {
      ready := current.Some?;
    }

    /** Past the end of the vector the code panics. */
    method Pop() returns (id: Option<EndpointId>)
      requires InRange(View())
      modifies this
      ensures (id, View()) == Scheduling.Pop(old(View()))
    {
      if current.None? {
        return None;
      }
      var Cursor(index, priority) := current.value;
      current := None;
      items := items[index := items[index].(active := false)];
      ComputeNext(index, priority);
      id := Some(items[index].value);
    }

    method Remove(id: EndpointId)
      modifies this
      ensures View() == Scheduling.Remove(old(View()), id)
    {
      var found := FindFirst(ById(id), 0, |items|);
      if found.None? {
        return;
      }
      var index := found.value;
      var priority := items[index].priority;
      items := items[index := items[|items| - 1]][..|items| - 1];
      if current == Some(Cursor(index, priority)) {
        ComputeNext(index, priority);
      }
    }
  }
}
