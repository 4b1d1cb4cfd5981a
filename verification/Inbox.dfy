/** The bounded, duplicate-aware inbox (infrastructure/inbox.py). */
module Inbox {
  import opened Options

  /** A correlation id given by its parts; `NoId` is the missing one. */
  datatype CorrelationId = NoId | Id(kind: string, subGame: int, step: int)

  datatype Item<K, M> = Item(key: K, message: M)

  /** The inbox as a value: the queue and the two memories of what was ever accepted. A capacity of
      zero or less means unbounded, as for the library queue. */
  datatype State<!K(==), M(==)> = State(queue: seq<Item<K, M>>, capacity: int,
                                        byKey: map<K, M>, byCorrelation: map<CorrelationId, M>) {
    predicate Full() {
      0 < capacity <= |queue|
    }

    predicate IsReplay(key: K, m: M) {
      key in byKey && byKey[key] == m
    }

    predicate IsConflict(key: K, m: M) {
      key in byKey && byKey[key] != m
    }

    predicate CorrelationConflict(id: CorrelationId, m: M) {
      id in byCorrelation && byCorrelation[id] != m
    }

    /** None when the queue is full. */
    function Enqueue(key: K, m: M, id: CorrelationId): Option<State<K, M>> {
      if Full() then None
      else Some(State(queue + [Item(key, m)], capacity, byKey[key := m],
                      if id.NoId? then byCorrelation else byCorrelation[id := m]))
    }

    /** Remove the first queued message that satisfies `p`. */
    function Pop(p: M -> bool): (State<K, M>, Option<M>) {
      var i := FirstMatch(queue, p);
      if i == |queue| then (this, None)
      else (this.(queue := queue[..i] + queue[i + 1..]), Some(queue[i].message))
    }
  }

  function FirstMatch<K, M>(queue: seq<Item<K, M>>, p: M -> bool): (i: nat)
    ensures i <= |queue|
    ensures i < |queue| ==> p(queue[i].message)
    ensures forall j :: 0 <= j < i ==> !p(queue[j].message)
  {
    if queue == [] || p(queue[0].message) then 0
    else
      var rest := FirstMatch(queue[1..], p);
      assert forall j :: 1 <= j < 1 + rest ==> queue[j] == queue[1..][j - 1];
      1 + rest
  }

  /** `pop_matching` answers None exactly when nothing matches; otherwise it removes the first match
      and nothing else, and every other item keeps its place in the order. */
  lemma PopRemovesFirstMatch<K, M>(s: State<K, M>, p: M -> bool)
    ensures s.Pop(p).1.None? <==> forall j :: 0 <= j < |s.queue| ==> !p(s.queue[j].message)
    ensures s.Pop(p).1.None? ==> s.Pop(p).0 == s
    ensures s.Pop(p).1.Some? ==>
              exists i :: && 0 <= i < |s.queue| && s.Pop(p).1 == Some(s.queue[i].message) && p(s.queue[i].message)
                          && (forall j :: 0 <= j < i ==> !p(s.queue[j].message))
                          && s.Pop(p).0 == s.(queue := s.queue[..i] + s.queue[i + 1..])
  {
    var i := FirstMatch(s.queue, p);
    if i < |s.queue| {
      assert p(s.queue[i].message);
    }
  }

  class BoundedInbox<!K(==), M(==)> {
    const capacity: int
    var queue: seq<Item<K, M>>
    var byKey: map<K, M>
    var byCorrelation: map<CorrelationId, M>

    function View(): State<K, M>
      reads this
    {
      State(queue, capacity, byKey, byCorrelation)
    }

    constructor (capacity: int)
      ensures View() == State([], capacity, map[], map[])
    {
      this.capacity := capacity;
      queue, byKey, byCorrelation := [], map[], map[];
    }

    method Enqueue(key: K, m: M, id: CorrelationId) returns (ok: bool)
      modifies this
      ensures ok == !old(View()).Full()
      ensures View() == if ok then old(View()).Enqueue(key, m, id).value else old(View())
    {
      ok := !(0 < capacity <= |queue|);
      if ok {
        queue := queue + [Item(key, m)];
        byKey := byKey[key := m];
        if id != NoId {
          byCorrelation := byCorrelation[id := m];
        }
      }
    }

    method Drain() returns (items: seq<Item<K, M>>)
      modifies this
      ensures items == old(queue)
      ensures View() == old(View()).(queue := [])
    {
      items := [];
      while queue != []
        invariant items + queue == old(queue)
        invariant byKey == old(byKey) && byCorrelation == old(byCorrelation)
        decreases |queue|
      {
        items := items + [queue[0]];
        queue := queue[1..];
      }
    }

    /** Drain, then put every item but the first match back in order. */
    method PopMatching(p: M -> bool) returns (found: Option<M>)
      modifies this
      ensures (View(), found) == old(View()).Pop(p)
    {
      var items := Drain();
      ghost var first := FirstMatch(items, p);
      found := None;
      for i := 0 to |items|
        invariant byKey == old(byKey) && byCorrelation == old(byCorrelation)
        invariant i <= first ==> found == None && queue == items[..i]
        invariant i > first ==> first < |items| && found == Some(items[first].message)
        invariant i > first ==> queue == items[..first] + items[first + 1..i]
      {
        if found.None? && p(items[i].message) {
          found := Some(items[i].message);
          continue;
        }
        queue := queue + [items[i]];
      }
      assert items[..|items|] == items;
      assert first < |items| ==> items[first + 1..|items|] == items[first + 1..];
    }
  }
}
