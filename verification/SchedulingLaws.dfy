/** What the scheduler's operations keep, when the code as written fails to, and in what order it serves. */
module SchedulingLaws {
  import opened Core
  import opened Scheduling

  predicate IsActive(items: seq<Item>, i: int) {
    0 <= i < |items| && items[i].active
  }

  /** `c` points at an active item and no active item has a better (smaller) priority. */
  ghost predicate Best(items: seq<Item>, c: Cursor) {
    && IsActive(items, c.index)
    && items[c.index].priority == c.priority
    && forall i :: IsActive(items, i) ==> c.priority <= items[i].priority
  }

  /** The cursor is absent exactly when nothing is active, and otherwise is a best active item. */
  ghost predicate CursorOk(s: Sched) {
    match s.current
    case None => forall i :: 0 <= i < |s.items| ==> !IsActive(s.items, i)
    case Some(c) => Best(s.items, c)
  }

  ghost predicate Bounded(s: Sched) {
    forall i :: 0 <= i < |s.items| ==> s.items[i].priority <= LOWEST
  }

  ghost predicate Distinct(s: Sched) {
    forall i, j :: 0 <= i < j < |s.items| ==> s.items[i].value != s.items[j].value
  }

  ghost predicate Valid(s: Sched) {
    CursorOk(s) && Bounded(s) && Distinct(s)
  }

  ghost function Ids(s: Sched): (r: set<EndpointId>) {
    set i | 0 <= i < |s.items| :: s.items[i].value
  }

  ghost function ActiveIds(s: Sched): (r: set<EndpointId>) {
    set i | 0 <= i < |s.items| && s.items[i].active :: s.items[i].value
  }

  // ---------------------------------------------------------------- cursor

  lemma {:induction false} FirstInClassesIsBest(items: seq<Item>, p: Priority)
    requires forall i :: IsActive(items, i) ==> p <= items[i].priority
    ensures var r := FirstInClasses(items, p);
            match r
            case Some(c) => Best(items, c) && forall i :: IsActive(items, i) && items[i].priority == c.priority ==> c.index <= i
            case None => forall i :: IsActive(items, i) ==> items[i].priority > LOWEST
    decreases 256 - p
  {
    if p <= LOWEST {
      var found := Find(items, ActiveIn(p), 0, |items|);
      if found.None? {
        forall i | IsActive(items, i)
          ensures p + 1 <= items[i].priority
        {
          assert !Matches(ActiveIn(p), items[i]);
        }
        FirstInClassesIsBest(items, p + 1);
      } else {
        forall i | IsActive(items, i) && items[i].priority == p
          ensures found.value <= i
        {
          assert Matches(ActiveIn(p), items[i]);
        }
      }
    }
  }

  /** Steps from `from` to `to`, going round a vector of length `n`. */
  function Ahead(n: nat, from: nat, to: nat): (d: nat)
    requires from < n && to < n
    ensures d < n
  {
    if from <= to then to - from else to + n - from
  }

  /**
   The cursor that `compute_next` picks: a best active item, nearest after the pivot in the pivot's
   class and lowest in any other. It finds nothing exactly when every active item is outside both
   the pivot's class and the sixteen classes searched.
   */
  lemma NextCursorIsBest(items: seq<Item>, pivot: nat, p: Priority)
    requires pivot <= |items|
    requires forall i :: IsActive(items, i) ==> p <= items[i].priority
    ensures match NextCursor(items, pivot, p)
            case Some(c) =>
              && Best(items, c)
              && (c.priority == p && pivot < |items| ==>
                    forall i :: IsActive(items, i) && items[i].priority == p ==>
                      Ahead(|items|, pivot, c.index) <= Ahead(|items|, pivot, i))
              && (c.priority != p ==>
                    forall i :: IsActive(items, i) && items[i].priority == c.priority ==> c.index <= i)
            case None => forall i :: IsActive(items, i) ==> items[i].priority > LOWEST && items[i].priority != p
  {
    var after := Find(items, ActiveIn(p), pivot, |items|);
    var before := Find(items, ActiveIn(p), 0, pivot);
    if after.None? && before.None? {
      forall i | IsActive(items, i)
        ensures items[i].priority != p
      {
        assert !Matches(ActiveIn(p), items[i]);
      }
      FirstInClassesIsBest(items, (p + 1) % 256);
    } else {
      forall i | IsActive(items, i) && items[i].priority == p && pivot < |items|
        ensures Ahead(|items|, pivot, NextCursor(items, pivot, p).value.index) <= Ahead(|items|, pivot, i)
      {
        assert Matches(ActiveIn(p), items[i]);
      }
    }
  }

  lemma NextCursorFindsNothingIff(items: seq<Item>, pivot: nat, p: Priority)
    requires pivot <= |items|
    requires forall i :: IsActive(items, i) ==> p <= items[i].priority
    ensures NextCursor(items, pivot, p).None? <==>
            forall i :: IsActive(items, i) ==> items[i].priority > LOWEST && items[i].priority != p
  {
    NextCursorIsBest(items, pivot, p);
  }

  /** Besides the cursor's item nothing is active, or something is in a class that the search looks at. */
  ghost predicate SearchSees(s: Sched)
    requires s.current.Some?
  {
    var c := s.current.value;
    || (forall i :: IsActive(s.items, i) ==> i == c.index)
    || (exists i :: IsActive(s.items, i) && i != c.index && (s.items[i].priority == c.priority || s.items[i].priority <= LOWEST))
  }

  /** Leaving the cursor's item keeps the cursor right if and only if the search can see what is left. */
  lemma PopKeepsCursorIff(s: Sched)
    requires CursorOk(s) && s.current.Some?
    ensures CursorOk(Pop(s).1) <==> SearchSees(s)
  {
    var c := s.current.value;
    var items := SetActive(s.items, c.index, false);
    assert forall i :: IsActive(items, i) <==> IsActive(s.items, i) && i != c.index;
    NextCursorIsBest(items, c.index, c.priority);
    NextCursorFindsNothingIff(items, c.index, c.priority);
    var next := NextCursor(items, c.index, c.priority);
    if next.Some? {
      var second := next.value.index;
      assert IsActive(items, second);
      if s.items[second].priority != c.priority {
        assert next == FirstInClasses(items, (c.priority + 1) % 256);
      }
    }
  }

  /** Deactivating keeps the cursor right, for any priorities, unless it is the cursor's item and the search misses the rest. */
  lemma DeactivateKeepsCursorIff(s: Sched, id: EndpointId)
    requires CursorOk(s)
    ensures CursorOk(Deactivate(s, id)) <==>
            !(s.current.Some? && IndexOf(s, id) == Some(s.current.value.index)) || SearchSees(s)
  {
    var found := IndexOf(s, id);
    if found.Some? && s.items[found.value].active {
      var i := found.value;
      var r := Leave(s, i);
      assert IsActive(s.items, i) && s.current.Some?;
      if s.current.value.index == i {
        PopKeepsCursorIff(s);
        assert r == Pop(s).1;
      } else {
        assert forall k :: IsActive(r.items, k) <==> IsActive(s.items, k) && k != i;
      }
    }
  }

  /** Priority 17 is accepted by `insert` and then lost by the search. */
  lemma PriorityAboveSixteenIsLost()
    ensures var s := Activate(Activate(Insert(Insert(EMPTY, 1, 8), 2, 17), 1), 2);
            CursorOk(s) && !CursorOk(Pop(s).1)
  {
    var s0 := Insert(Insert(EMPTY, 1, 8), 2, 17);
    assert s0.items == [Item(1, 8, false), Item(2, 17, false)];
    assert IndexOf(s0, 1) == Some(0);
    var s1 := Activate(s0, 1);
    assert s1.items == [Item(1, 8, true), Item(2, 17, false)];
    assert s1.items[1].value == 2 && s1.items[0].value != 2;
    assert IndexOf(s1, 2) == Some(1);
    var s := Activate(s1, 2);
    assert s.items == [Item(1, 8, true), Item(2, 17, true)];
    assert s.current == Some(Cursor(0, 8));
    PopKeepsCursorIff(s);
    assert IsActive(s.items, 1);
  }

  // ---------------------------------------------------------------- operations

  lemma IndexOfIsUnique(s: Sched, i: nat)
    requires Distinct(s) && i < |s.items|
    ensures IndexOf(s, s.items[i].value) == Some(i)
  {
    var r := IndexOf(s, s.items[i].value);
    assert Matches(ById(s.items[i].value), s.items[i]);
  }

  lemma ActiveMeansPeek(s: Sched)
    requires CursorOk(s)
    ensures Peek(s) <==> ActiveIds(s) != {}
  {
    if s.current.Some? {
      assert s.items[s.current.value.index].value in ActiveIds(s);
    } else if ActiveIds(s) != {} {
      var x :| x in ActiveIds(s);
      var k :| 0 <= k < |s.items| && s.items[k].active && s.items[k].value == x;
      assert IsActive(s.items, k);
    }
  }

  lemma InsertKeeps(s: Sched, id: EndpointId, p: Priority)
    requires Valid(s) && p <= LOWEST && id !in Ids(s)
    ensures Valid(Insert(s, id, p))
    ensures Ids(Insert(s, id, p)) == Ids(s) + {id}
    ensures ActiveIds(Insert(s, id, p)) == ActiveIds(s)
  {
    var r := Insert(s, id, p);
    assert forall i :: IsActive(r.items, i) <==> IsActive(s.items, i);
    assert forall i :: 0 <= i < |s.items| ==> r.items[i] == s.items[i] && s.items[i].value in Ids(s);
    assert r.items[|s.items|].value == id;
    assert forall x :: x in Ids(s) ==> x in Ids(r);
  }

  /** Flipping one flag changes the active set by exactly that id. */
  lemma SetActiveIds(s: Sched, i: nat, active: bool, c: Option<Cursor>)
    requires Distinct(s) && i < |s.items|
    ensures var r := Sched(SetActive(s.items, i, active), c);
            && Ids(r) == Ids(s)
            && ActiveIds(r) == if active then ActiveIds(s) + {s.items[i].value} else ActiveIds(s) - {s.items[i].value}
  {
    var r := Sched(SetActive(s.items, i, active), c);
    assert forall k :: 0 <= k < |s.items| ==> r.items[k].value == s.items[k].value;
    assert forall k :: 0 <= k < |s.items| && k != i ==> s.items[k].value != s.items[i].value;
    assert r.items[i].active == active;
    forall x
      ensures x in Ids(r) <==> x in Ids(s)
      ensures x in ActiveIds(r) <==> if x == s.items[i].value then active else x in ActiveIds(s)
    {
      if x in Ids(s) {
        var k :| 0 <= k < |s.items| && s.items[k].value == x;
        assert r.items[k].value == x;
      }
    }
  }

  /** ACTIVATE: marks the item; it becomes current only if there was none or a worse one. */
  lemma ActivateKeeps(s: Sched, id: EndpointId)
    requires Valid(s)
    ensures var r := Activate(s, id);
            && Valid(r) && Ids(r) == Ids(s)
            && ActiveIds(r) == ActiveIds(s) + (if id in Ids(s) then {id} else {})
            && (r.current != s.current ==>
                  s.current.None? || r.current.value.priority < s.current.value.priority)
  {
    var found := IndexOf(s, id);
    if found.Some? {
      var i := found.value;
      var r := Activate(s, id);
      assert s.items[i].value in Ids(s);
      if s.items[i].active {
        assert id in ActiveIds(s);
      } else {
        SetActiveIds(s, i, true, r.current);
        assert forall k :: IsActive(r.items, k) <==> IsActive(s.items, k) || k == i;
        assert forall k :: 0 <= k < |s.items| ==> r.items[k].value == s.items[k].value;
      }
    }
  }

  lemma LeaveKeeps(s: Sched, i: nat)
    requires Valid(s) && IsActive(s.items, i)
    ensures var r := Leave(s, i);
            Valid(r) && Ids(r) == Ids(s) && ActiveIds(r) == ActiveIds(s) - {s.items[i].value}
  {
    var r := Leave(s, i);
    SetActiveIds(s, i, false, r.current);
    assert forall k :: IsActive(r.items, k) <==> IsActive(s.items, k) && k != i;
    assert forall k :: 0 <= k < |s.items| ==> r.items[k].value == s.items[k].value && r.items[k].priority == s.items[k].priority;
    if s.current == Some(Cursor(i, s.items[i].priority)) {
      NextCursorIsBest(r.items, i, s.items[i].priority);
    }
  }

  lemma DeactivateKeeps(s: Sched, id: EndpointId)
    requires Valid(s)
    ensures var r := Deactivate(s, id);
            Valid(r) && Ids(r) == Ids(s) && ActiveIds(r) == ActiveIds(s) - {id}
  {
    var found := IndexOf(s, id);
    if found.Some? && s.items[found.value].active {
      LeaveKeeps(s, found.value);
    } else if found.Some? {
      if id in ActiveIds(s) {
        var k :| 0 <= k < |s.items| && s.items[k].active && s.items[k].value == id;
        IndexOfIsUnique(s, k);
      }
    }
  }

  /** NEXT: returns the old current item, a best active one, deactivated; none only if none is active. */
  lemma PopKeeps(s: Sched)
    requires Valid(s)
    ensures var (id, r) := Pop(s);
            && Valid(r) && Ids(r) == Ids(s)
            && (id.None? <==> ActiveIds(s) == {})
            && match id
               case None => r == s
               case Some(x) => x in ActiveIds(s) && ActiveIds(r) == ActiveIds(s) - {x}
  {
    ActiveMeansPeek(s);
    if s.current.Some? {
      var c := s.current.value;
      LeaveKeeps(s, c.index);
      assert Pop(s) == (Some(s.items[c.index].value), Leave(s, c.index));
    }
  }

  // ---------------------------------------------------------------- priorities

  /** The priority that an id was inserted with. */
  ghost function RankIn(s: Sched, id: EndpointId): (p: Priority) {
    match IndexOf(s, id)
    case Some(i) => s.items[i].priority
    case None => 0
  }

  ghost function RanksOf(s: Sched): (r: map<EndpointId, Priority>) {
    map id | id in Ids(s) :: RankIn(s, id)
  }

  lemma RankAt(s: Sched, i: nat)
    requires Distinct(s) && i < |s.items|
    ensures s.items[i].value in RanksOf(s) && RanksOf(s)[s.items[i].value] == s.items[i].priority
  {
    IndexOfIsUnique(s, i);
    assert s.items[i].value in Ids(s);
  }

  lemma InsertRanks(s: Sched, id: EndpointId, p: Priority)
    requires Valid(s) && p <= LOWEST && id !in Ids(s)
    ensures RanksOf(Insert(s, id, p)) == RanksOf(s)[id := p]
  {
    var r := Insert(s, id, p);
    InsertKeeps(s, id, p);
    RankAt(r, |s.items|);
    forall x | x in Ids(s)
      ensures RankIn(r, x) == RankIn(s, x)
    {
      var i :| 0 <= i < |s.items| && s.items[i].value == x;
      RankAt(s, i);
      RankAt(r, i);
    }
  }

  /** Neither activity nor the cursor has to do with priorities. */
  lemma FlagsKeepRanks(s: Sched, r: Sched)
    requires Distinct(s) && |r.items| == |s.items|
    requires forall i :: 0 <= i < |s.items| ==> r.items[i].value == s.items[i].value && r.items[i].priority == s.items[i].priority
    ensures RanksOf(r) == RanksOf(s)
  {
    assert Distinct(r);
    assert Ids(r) == Ids(s) by {
      assert forall i :: 0 <= i < |s.items| ==> s.items[i].value in Ids(s) && r.items[i].value in Ids(r);
    }
    forall id | id in Ids(s)
      ensures RanksOf(r)[id] == RanksOf(s)[id]
    {
      var i :| 0 <= i < |s.items| && s.items[i].value == id;
      RankAt(s, i);
      RankAt(r, i);
    }
  }

  lemma OperationsKeepRanks(s: Sched, id: EndpointId)
    requires Valid(s)
    ensures RanksOf(Activate(s, id)) == RanksOf(s) && RanksOf(Deactivate(s, id)) == RanksOf(s) && RanksOf(Pop(s).1) == RanksOf(s)
  {
    FlagsKeepRanks(s, Activate(s, id));
    FlagsKeepRanks(s, Deactivate(s, id));
    FlagsKeepRanks(s, Pop(s).1);
  }

  /** Where slot `k` comes from when an id is removed. */
  lemma RemainsAt(s: Sched, id: EndpointId, k: nat) returns (from: nat)
    requires k < |RemoveFollowing(s, id).items|
    ensures from < |s.items| && RemoveFollowing(s, id).items[k] == s.items[from]
  {
    from := if IndexOf(s, id) == Some(k) then |s.items| - 1 else k;
  }

  lemma RemoveRanks(s: Sched, id: EndpointId)
    requires Valid(s)
    ensures RanksOf(RemoveFollowing(s, id)) == RanksOf(s) - {id}
  {
    var r := RemoveFollowing(s, id);
    RemoveFollowingKeeps(s, id);
    forall x | x in Ids(r)
      ensures RankIn(r, x) == RankIn(s, x)
    {
      var k :| 0 <= k < |r.items| && r.items[k].value == x;
      var from := RemainsAt(s, id, k);
      RankAt(r, k);
      RankAt(s, from);
    }
  }

  /** Those of `ready` with the best, which is the smallest, priority. */
  ghost function BestOf(ranks: map<EndpointId, Priority>, ready: set<EndpointId>): (r: set<EndpointId>) {
    set x | x in ready && x in ranks && forall y :: y in ready && y in ranks ==> ranks[x] <= ranks[y]
  }

  /** NEXT: what is served is of the best priority among what is active. */
  lemma PopServesBest(s: Sched)
    requires Valid(s)
    ensures Pop(s).0.Some? ==> Pop(s).0.value in BestOf(RanksOf(s), ActiveIds(s))
  {
    if s.current.Some? {
      var c := s.current.value;
      RankAt(s, c.index);
      assert s.items[c.index].value in ActiveIds(s);
      forall y | y in ActiveIds(s)
        ensures RanksOf(s)[s.items[c.index].value] <= RanksOf(s)[y]
      {
        var k :| 0 <= k < |s.items| && s.items[k].active && s.items[k].value == y;
        RankAt(s, k);
        assert IsActive(s.items, k);
      }
    }
  }

  // ---------------------------------------------------------------- removal

  /** The one removal the code gets wrong: the cursor is in the last slot and another item is removed. */
  predicate CursorStranded(s: Sched, id: EndpointId) {
    match (s.current, IndexOf(s, id))
    case (Some(c), Some(i)) => c.index == |s.items| - 1 && c.index != i
    case _ => false
  }

  lemma SwapRemoveIds(s: Sched, i: nat, c: Option<Cursor>)
    requires Distinct(s) && i < |s.items|
    ensures var r := Sched(SwapRemove(s.items, i), c);
            && Distinct(r)
            && Ids(r) == Ids(s) - {s.items[i].value}
            && ActiveIds(r) == ActiveIds(s) - {s.items[i].value}
  {
    var last := |s.items| - 1;
    var r := Sched(SwapRemove(s.items, i), c);
    assert forall k :: 0 <= k < last ==> r.items[k] == if k == i then s.items[last] else s.items[k];
    assert forall k :: 0 <= k < |s.items| && k != i ==> s.items[k].value != s.items[i].value;
    forall x | x != s.items[i].value
      ensures x in Ids(s) ==> x in Ids(r)
      ensures x in ActiveIds(s) ==> x in ActiveIds(r)
    {
      if x in Ids(s) {
        var k :| 0 <= k < |s.items| && s.items[k].value == x && (x in ActiveIds(s) ==> s.items[k].active);
        assert r.items[if k == last then i else k].value == x;
      }
    }
    forall x
      ensures x in Ids(r) ==> x in Ids(s) && x != s.items[i].value
      ensures x in ActiveIds(r) ==> x in ActiveIds(s) && x != s.items[i].value
    {
      if x in Ids(r) {
        var k :| 0 <= k < last && r.items[k].value == x && (x in ActiveIds(r) ==> r.items[k].active);
        assert s.items[if k == i then last else k].value == x;
      }
    }
  }

  /** Where slot `k` of the shortened vector came from, and back. */
  function Came(n: nat, i: nat, k: int): (from: int) {
    if k == i then n - 1 else k
  }

  lemma SwapRemoveActive(items: seq<Item>, i: nat)
    requires i < |items|
    ensures forall k :: IsActive(SwapRemove(items, i), k) ==>
              var from := Came(|items|, i, k);
              IsActive(items, from) && from != i && SwapRemove(items, i)[k] == items[from]
    ensures forall k :: IsActive(items, k) && k != i && k != |items| - 1 ==>
              IsActive(SwapRemove(items, i), k) && SwapRemove(items, i)[k] == items[k]
  {
  }

  /** REMOVE: drops the item and, unless it was the current one, leaves the current item current. */
  lemma RemoveFollowingKeeps(s: Sched, id: EndpointId)
    requires Valid(s)
    ensures var r := RemoveFollowing(s, id);
            && Valid(r) && Ids(r) == Ids(s) - {id} && ActiveIds(r) == ActiveIds(s) - {id}
            && (s.current.Some? && s.items[s.current.value.index].value != id ==>
                  r.current.Some? && r.items[r.current.value.index] == s.items[s.current.value.index])
  {
    var found := IndexOf(s, id);
    if found.Some? {
      var i := found.value;
      var r := RemoveFollowing(s, id);
      SwapRemoveIds(s, i, r.current);
      SwapRemoveActive(s.items, i);
      if s.current.Some? && s.current.value.index == i {
        assert forall k :: IsActive(r.items, k) ==> s.current.value.priority <= r.items[k].priority;
        NextCursorIsBest(r.items, i, s.current.value.priority);
      }
    } else {
      assert id !in Ids(s);
    }
  }

  /** The removed item is the current one. */
  predicate RemovesCurrent(s: Sched, id: EndpointId) {
    s.current.Some? && IndexOf(s, id) == Some(s.current.value.index)
  }

  /** With priorities of at most 16 the search sees everything. */
  lemma BoundedMeansSeen(s: Sched)
    requires Bounded(s) && s.current.Some?
    ensures SearchSees(s)
  {
  }

  /** The slots of the shortened vector that are active are those of the others. */
  lemma OthersSeenIff(s: Sched, i: nat)
    requires CursorOk(s) && s.current.Some? && s.current.value.index == i < |s.items|
    ensures var items := SwapRemove(s.items, i);
            var p := s.current.value.priority;
            SearchSees(s) <==>
            || (forall k :: 0 <= k < |items| ==> !IsActive(items, k))
            || (exists k :: IsActive(items, k) && (items[k].priority == p || items[k].priority <= LOWEST))
  {
    var items, last := SwapRemove(s.items, i), |s.items| - 1;
    SwapRemoveActive(s.items, i);
    forall k | IsActive(s.items, k) && k != i
      ensures IsActive(items, if k == last then i else k) && items[if k == last then i else k] == s.items[k]
    {
    }
  }

  lemma CurrentRemovalIff(s: Sched, i: nat)
    requires CursorOk(s) && s.current.Some? && s.current.value.index == i < |s.items|
    ensures var items := SwapRemove(s.items, i);
            CursorOk(Sched(items, NextCursor(items, i, s.current.value.priority))) <==> SearchSees(s)
  {
    var items, p := SwapRemove(s.items, i), s.current.value.priority;
    SwapRemoveActive(s.items, i);
    OthersSeenIff(s, i);
    NextCursorIsBest(items, i, p);
    NextCursorFindsNothingIff(items, i, p);
    var next := NextCursor(items, i, p);
    if next.Some? {
      assert IsActive(items, next.value.index);
      assert items[next.value.index].priority == p || items[next.value.index].priority <= LOWEST by {
        if next.value.priority != p {
          assert next == FirstInClasses(items, (p + 1) % 256);
        }
      }
    }
  }

  /**
   For any priorities: the code meets its documented removal, and keeps its cursor in range, exactly when the cursor
   is not stranded; it keeps the cursor right exactly when, besides, the search sees what is left of a removed current.
   */
  lemma RemoveKeepsCursorIff(s: Sched, id: EndpointId)
    requires CursorOk(s)
    ensures Remove(s, id) == RemoveFollowing(s, id) <==> !CursorStranded(s, id)
    ensures InRange(Remove(s, id)) <==> !CursorStranded(s, id)
    ensures CursorOk(Remove(s, id)) <==> !CursorStranded(s, id) && (RemovesCurrent(s, id) ==> SearchSees(s))
  {
    var found := IndexOf(s, id);
    if CursorStranded(s, id) {
      assert Remove(s, id).current == s.current;
      assert |Remove(s, id).items| == s.current.value.index;
    } else {
      assert Remove(s, id) == RemoveFollowing(s, id);
      if RemovesCurrent(s, id) {
        CurrentRemovalIff(s, found.value);
      } else if found.Some? {
        SwapRemoveActive(s.items, found.value);
      }
    }
  }

  /** An activation that takes the cursor. */
  predicate TakesCursor(s: Sched, id: EndpointId) {
    var found := IndexOf(s, id);
    && found.Some? && !s.items[found.value].active
    && (s.current.Some? ==> s.items[found.value].priority < s.current.value.priority)
  }

  /**
   When a pop would panic, for any state whatever: a removal makes it so, a removal or deactivation never mends it,
   an insertion mends it for a cursor just past the end and an activation if it takes the cursor.
   */
  lemma OutOfRangeIff(s: Sched, id: EndpointId, p: Priority)
    ensures InRange(Insert(s, id, p)) <==> InRange(s) || s.current.value.index == |s.items|
    ensures InRange(Activate(s, id)) <==> InRange(s) || TakesCursor(s, id)
    ensures InRange(Deactivate(s, id)) <==> InRange(s)
    ensures InRange(Remove(s, id)) <==>
            InRange(s) && match IndexOf(s, id)
                          case None => true
                          case Some(i) =>
                            || s.current == Some(Cursor(i, s.items[i].priority))
                            || (s.current.Some? ==> s.current.value.index < |s.items| - 1)
  {
  }

  lemma FoundAt(items: seq<Item>, c: Option<Cursor>, i: nat, id: EndpointId)
    requires i < |items| && items[i].value == id && (forall k :: 0 <= k < i ==> items[k].value != id)
    ensures IndexOf(Sched(items, c), id) == Some(i)
  {
    assert Matches(ById(id), items[i]);
  }

  lemma StrandingHappens()
    ensures var s := Activate(Insert(Insert(EMPTY, 1, 8), 2, 8), 2);
            Valid(s) && CursorStranded(s, 1)
  {
    var s0 := Insert(EMPTY, 1, 8);
    assert Ids(EMPTY) == {};
    InsertKeeps(EMPTY, 1, 8);
    InsertKeeps(s0, 2, 8);
    var s1 := Insert(s0, 2, 8);
    ActivateKeeps(s1, 2);
    assert s1.items == [Item(1, 8, false), Item(2, 8, false)];
    IndexOfIsUnique(s1, 1);
    IndexOfIsUnique(Activate(s1, 2), 0);
  }

  /** A scheduler with one item. */
  function One(id: EndpointId, p: Priority, active: bool): (s: Sched) {
    Sched([Item(id, p, active)], if active then Some(Cursor(0, p)) else None)
  }

  lemma OneItem(id: EndpointId, p: Priority)
    ensures Insert(EMPTY, id, p) == One(id, p, false)
    ensures Activate(One(id, p, false), id) == One(id, p, true)
    ensures p <= LOWEST ==> Pop(One(id, p, true)) == (Some(id), One(id, p, false))
    ensures RemoveFollowing(One(id, p, false), id) == EMPTY
  {
    var off, on := One(id, p, false), One(id, p, true);
    assert off.items[0].value == id && on.items[0].value == id;
    assert IndexOf(off, id) == Some(0);
    assert SetActive(off.items, 0, true) == on.items && SetActive(on.items, 0, false) == off.items;
    assert SwapRemove(off.items, 0) == [];
    if p <= LOWEST {
      NextCursorIsBest(off.items, 0, p);
      assert forall i :: 0 <= i < |off.items| ==> !IsActive(off.items, i);
      NothingActiveNothingNext(off.items, 0, p);
    }
  }

  lemma NothingActiveNothingNext(items: seq<Item>, pivot: nat, p: Priority)
    requires pivot <= |items| && forall i :: 0 <= i < |items| ==> !IsActive(items, i)
    ensures NextCursor(items, pivot, p) == None
  {
    NextCursorIsBest(items, pivot, p);
  }

  /** The three endpoints of the next run, after the first of four was removed. */
  function Rest(three: bool, two: bool, four: Option<bool>, cursor: nat): (s: Sched) {
    Sched([Item(3, 8, three), Item(2, 8, two)] + (if four.Some? then [Item(4, 8, four.value)] else []), Some(Cursor(cursor, 8)))
  }

  /** The next active slot of the class when the search starts at `pivot` and does not go round. */
  lemma NextInClass(items: seq<Item>, pivot: nat, p: Priority, i: nat)
    requires pivot <= i < |items| && Matches(ActiveIn(p), items[i]) && forall k :: pivot <= k < i ==> !Matches(ActiveIn(p), items[k])
    ensures NextCursor(items, pivot, p) == Some(Cursor(i, p))
  {
  }

  /** The documented removal followed by what comes in the run below. */
  lemma FollowedRun()
    ensures var s := Rest(true, true, None, 0);
            var s1 := Insert(s, 4, 8);
            var s2 := Deactivate(s1, 3);
            var s3 := Activate(s2, 4);
            s1 == Rest(true, true, Some(false), 0) && s2 == Rest(false, true, Some(false), 1)
            && s3 == Rest(false, true, Some(true), 1) && Deactivate(s3, 2) == Rest(false, false, Some(true), 2)
  {
    var s1, s2, s3 := Rest(true, true, Some(false), 0), Rest(false, true, Some(false), 1), Rest(false, true, Some(true), 1);
    assert Insert(Rest(true, true, None, 0), 4, 8) == s1;
    FoundAt(s1.items, s1.current, 0, 3);
    NextInClass(SetActive(s1.items, 0, false), 0, 8, 1);
    assert Deactivate(s1, 3) == s2;
    FoundAt(s2.items, s2.current, 2, 4);
    assert Activate(s2, 4) == s3;
    FoundAt(s3.items, s3.current, 1, 2);
    NextInClass(SetActive(s3.items, 1, false), 1, 8, 2);
  }

  /** The same with the stranded cursor: it is wrong in between and right in the end. */
  lemma StrandedRun()
    ensures var s := Rest(true, true, None, 2);
            var s1 := Insert(s, 4, 8);
            var s2 := Deactivate(s1, 3);
            var s3 := Activate(s2, 4);
            s1 == Rest(true, true, Some(false), 2) && s2 == Rest(false, true, Some(false), 2)
            && s3 == Rest(false, true, Some(true), 2) && Deactivate(s3, 2) == Rest(false, false, Some(true), 2)
  {
    var s1, s2, s3 := Rest(true, true, Some(false), 2), Rest(false, true, Some(false), 2), Rest(false, true, Some(true), 2);
    assert Insert(Rest(true, true, None, 2), 4, 8) == s1;
    FoundAt(s1.items, s1.current, 0, 3);
    assert Deactivate(s1, 3) == s2;
    FoundAt(s2.items, s2.current, 2, 4);
    assert Activate(s2, 4) == s3;
    FoundAt(s3.items, s3.current, 1, 2);
  }
}
