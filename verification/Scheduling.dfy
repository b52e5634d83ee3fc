/**
 The endpoint scheduler: a vector of endpoints with a cached cursor, sixteen priority
 classes and a round robin inside each class. The functions give the value of every
 operation; class Priolist does the same work in place.
 */
module Scheduling {
  import opened Core

  type Priority = p: int | 0 <= p < 256

  /** The search for a lower class stops after this one. */
  const LOWEST: Priority := 16

  datatype Item = Item(value: EndpointId, priority: Priority, active: bool)
  datatype Cursor = Cursor(index: nat, priority: Priority)
  datatype Sched = Sched(items: seq<Item>, current: Option<Cursor>)

  /** The two closures that the searches are made with. */
  datatype Query = ById(id: EndpointId) | ActiveIn(priority: Priority)

  predicate Matches(q: Query, x: Item) {
    match q
    case ById(id) => x.value == id
    case ActiveIn(p) => x.active && x.priority == p
  }

  /** The cursor, if any, is inside the vector: on any other scheduler `pop` panics. */
  predicate InRange(s: Sched) {
    s.current.Some? ==> s.current.value.index < |s.items|
  }

  const EMPTY: Sched := Sched([], None)

  /** The first match in `lo..hi`. */
  function Find(items: seq<Item>, q: Query, lo: nat, hi: nat): (r: Option<nat>)
    requires lo <= hi <= |items|
    ensures r.Some? ==> lo <= r.value < hi && Matches(q, items[r.value])
    ensures r.Some? ==> forall k :: lo <= k < r.value ==> !Matches(q, items[k])
    ensures r.None? ==> forall k :: lo <= k < hi ==> !Matches(q, items[k])
    decreases hi - lo
  {
    if lo == hi then None
    else if Matches(q, items[lo]) then Some(lo)
    else Find(items, q, lo + 1, hi)
  }

  /** The lowest active index of the first class in `p..=16` that has one. */
  function FirstInClasses(items: seq<Item>, p: Priority): (r: Option<Cursor>)
    ensures r.Some? ==> r.value.index < |items| && p <= r.value.priority <= LOWEST
    decreases 256 - p
  {
    if p > LOWEST then None
    else
      match Find(items, ActiveIn(p), 0, |items|)
      case Some(i) => Some(Cursor(i, p))
      case None => FirstInClasses(items, p + 1)
  }

  /** Round robin: on from `pivot`, then from the start, then the lower classes. */
  function NextCursor(items: seq<Item>, pivot: nat, p: Priority): (r: Option<Cursor>)
    requires pivot <= |items|
    ensures r.Some? ==> r.value.index < |items|
  {
    match Find(items, ActiveIn(p), pivot, |items|)
    case Some(i) => Some(Cursor(i, p))
    case None =>
      match Find(items, ActiveIn(p), 0, pivot)
      case Some(i) => Some(Cursor(i, p))
      case None => FirstInClasses(items, (p + 1) % 256)
  }

  function IndexOf(s: Sched, id: EndpointId): (r: Option<nat>)
    ensures r.Some? ==> r.value < |s.items| && s.items[r.value].value == id
    ensures r.None? ==> forall k :: 0 <= k < |s.items| ==> s.items[k].value != id
  {
    Find(s.items, ById(id), 0, |s.items|)
  }

  function Insert(s: Sched, id: EndpointId, p: Priority): (r: Sched) {
    s.(items := s.items + [Item(id, p, false)])
  }

  function SetActive(items: seq<Item>, i: nat, active: bool): (r: seq<Item>)
    requires i < |items|
  {
    items[i := items[i].(active := active)]
  }

  function Activate(s: Sched, id: EndpointId): (r: Sched) {
    match IndexOf(s, id)
    case None => s
    case Some(i) =>
      if s.items[i].active then s
      else
        var p := s.items[i].priority;
        Sched(SetActive(s.items, i, true),
              if s.current.Some? && s.current.value.priority <= p then s.current else Some(Cursor(i, p)))
  }

  /** Marks index `i` inactive; the cursor moves on if it was there. */
  function Leave(s: Sched, i: nat): (r: Sched)
    requires i < |s.items|
  {
    var items := SetActive(s.items, i, false);
    var p := s.items[i].priority;
    Sched(items, if s.current == Some(Cursor(i, p)) then NextCursor(items, i, p) else s.current)
  }

  function Deactivate(s: Sched, id: EndpointId): (r: Sched) {
    match IndexOf(s, id)
    case None => s
    case Some(i) => if s.items[i].active then Leave(s, i) else s
  }

  predicate Peek(s: Sched) {
    s.current.Some?
  }

  /** Past the end of the vector there is no value: the code panics there, and whoever pops says when that is. */
  function Pop(s: Sched): (r: (Option<EndpointId>, Sched)) {
    match s.current
    case None => (None, s)
    case Some(c) =>
      if c.index >= |s.items| then (None, s)
      else
        var items := SetActive(s.items, c.index, false);
        (Some(items[c.index].value), Sched(items, NextCursor(items, c.index, c.priority)))
  }

  /** `Vec::swap_remove`: the last element takes the freed slot. */
  function SwapRemove(items: seq<Item>, i: nat): (r: seq<Item>)
    requires i < |items|
    ensures |r| == |items| - 1
  {
    items[i := items[|items| - 1]][..|items| - 1]
  }

  /** Removal as the code does it. The cursor may be left pointing past the end. */
  function Remove(s: Sched, id: EndpointId): (r: Sched) {
    match IndexOf(s, id)
    case None => s
    case Some(i) =>
      var items := SwapRemove(s.items, i);
      var p := s.items[i].priority;
      Sched(items, if s.current == Some(Cursor(i, p)) then NextCursor(items, i, p) else s.current)
  }

  /**
   Removal as the file documents it: only the removed item stops being current.
   A current item that is moved by `swap_remove` is followed to its new slot.
   */
  function RemoveFollowing(s: Sched, id: EndpointId): (r: Sched) {
    match IndexOf(s, id)
    case None => s
    case Some(i) =>
      var items := SwapRemove(s.items, i);
      if s.current.None? then Sched(items, None)
      else if s.current.value.index == i then Sched(items, NextCursor(items, i, s.current.value.priority))
      else if s.current.value.index == |items| then Sched(items, Some(s.current.value.(index := i)))
      else Sched(items, s.current)
  }
}
