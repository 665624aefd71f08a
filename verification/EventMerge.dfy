/** Merging replayed and live events on the client: one event per id, in sequence order. */
module EventMerge {
  import opened Wrappers
  import opened EventBus
  import opened EventResume

  /** Where a map keyed by event id already holds this id. */
  function IndexOf(events: seq<Event>, id: string): (r: Option<nat>)
    ensures r.Some? ==> r.value < |events| && events[r.value].id == id
    ensures r.None? ==> id !in IdsOf(events)
  {
    if events == [] then None
    else
      var last := |events| - 1;
      assert events == events[..last] + [events[last]];
      match IndexOf(events[..last], id)
      case Some(i) => Some(i)
      case None => if events[last].id == id then Some(last) else None
  }

  /** A later event with a known id replaces the value and keeps its place. */
  function Put(events: seq<Event>, e: Event): seq<Event> {
    match IndexOf(events, e.id)
    case Some(i) => events[i := e]
    case None => events + [e]
  }

  function Collected(events: seq<Event>): seq<Event> {
    if events == [] then []
    else Put(Collected(events[..|events| - 1]), events[|events| - 1])
  }

  predicate InOrder(events: seq<Event>) {
    forall i, j :: 0 <= i < j < |events| ==> events[i].sequence <= events[j].sequence
  }

  /** Insertion behind every event that does not come later, as a stable sort leaves equal sequences. */
  function Insert(events: seq<Event>, e: Event): (r: seq<Event>)
    requires InOrder(events)
    ensures InOrder(r) && multiset(r) == multiset(events) + multiset{e}
  {
    if events == [] || events[|events| - 1].sequence <= e.sequence then events + [e]
    else
      var init, last := events[..|events| - 1], events[|events| - 1];
      assert events == init + [last];
      var rest := Insert(init, e);
      InsertedBefore(init, e, rest, last);
      rest + [last]
  }

  lemma InsertedBefore(init: seq<Event>, e: Event, rest: seq<Event>, last: Event)
    requires InOrder(init + [last]) && e.sequence <= last.sequence
    requires InOrder(rest) && multiset(rest) == multiset(init) + multiset{e}
    ensures InOrder(rest + [last])
    ensures multiset(rest + [last]) == multiset(init + [last]) + multiset{e}
  {
    forall k | 0 <= k < |rest| ensures rest[k].sequence <= last.sequence {
      assert rest[k] in multiset(rest);
      if rest[k] != e {
        var j :| 0 <= j < |init| && init[j] == rest[k];
        assert (init + [last])[j] == rest[k] && (init + [last])[|init|] == last;
      }
    }
  }

  function SortedBySequence(events: seq<Event>): (r: seq<Event>)
    ensures InOrder(r) && multiset(r) == multiset(events)
  {
    if events == [] then []
    else
      var init, last := events[..|events| - 1], events[|events| - 1];
      assert events == init + [last];
      Insert(SortedBySequence(init), last)
  }

  function MergeEvents(previous: seq<Event>, incoming: seq<Event>): seq<Event> {
    SortedBySequence(Collected(previous + incoming))
  }

  // ---- One event per id ----

  lemma PutKeepsDistinct(events: seq<Event>, e: Event)
    requires DistinctIds(events)
    ensures DistinctIds(Put(events, e)) && IdsOf(Put(events, e)) == IdsOf(events) + {e.id}
    ensures e in Put(events, e)
    ensures forall x :: x in events && x.id != e.id ==> x in Put(events, e)
  {
    match IndexOf(events, e.id)
    case None =>
      assert IdsOf(events + [e]) == IdsOf(events) + {e.id};
      DistinctAppend(events, e);
    case Some(i) =>
      var updated := events[i := e];
      assert updated[i] == e;
      forall id | id in IdsOf(events) ensures id in IdsOf(updated) {
        var k :| 0 <= k < |events| && events[k].id == id;
        assert updated[k].id == id && updated[k] in updated;
      }
      forall x | x in events && x.id != e.id ensures x in updated {
        var k :| 0 <= k < |events| && events[k] == x;
        assert updated[k] == x;
      }
  }

  /** The last event of each id is the one that stays. */
  lemma {:induction false} CollectedKeepsLatest(events: seq<Event>)
    ensures DistinctIds(Collected(events)) && IdsOf(Collected(events)) == IdsOf(events)
    ensures forall k :: 0 <= k < |events| && (forall j :: k < j < |events| ==> events[j].id != events[k].id) ==>
              events[k] in Collected(events)
  {
    if events != [] {
      var init, last := events[..|events| - 1], events[|events| - 1];
      assert events == init + [last];
      assert IdsOf(events) == IdsOf(init) + {last.id};
      CollectedKeepsLatest(init);
      PutKeepsDistinct(Collected(init), last);
      forall k | 0 <= k < |events| && (forall j :: k < j < |events| ==> events[j].id != events[k].id)
        ensures events[k] in Collected(events)
      {
        if k < |init| {
          assert events[|init|].id != events[k].id;
          assert forall j :: k < j < |init| ==> init[j].id != init[k].id;
          assert init[k] in Collected(init);
        }
      }
    }
  }

  lemma SameMultisetSameIds(s: seq<Event>, t: seq<Event>)
    requires multiset(s) == multiset(t) && DistinctIds(s)
    ensures IdsOf(s) == IdsOf(t) && forall e :: e in s <==> e in t
    ensures DistinctIds(t)
  {
    assert forall e :: e in s <==> e in multiset(s);
    assert forall e :: e in t <==> e in multiset(t);
    forall i, j | 0 <= i < j < |t| ensures t[i].id != t[j].id {
      if t[i].id == t[j].id {
        assert t[i] in s && t[j] in s;
        TwiceInMultiset(t, i, j);
        OnceInMultiset(s, t[i]);
      }
    }
  }

  lemma TwiceInMultiset(t: seq<Event>, i: nat, j: nat)
    requires i < j < |t|
    ensures t[i] == t[j] ==> multiset(t)[t[i]] >= 2
  {
    assert t == t[..j] + t[j..];
    assert t[..j][i] == t[i] && t[j..][0] == t[j];
    assert multiset(t) == multiset(t[..j]) + multiset(t[j..]);
  }

  lemma {:induction false} OnceInMultiset(s: seq<Event>, e: Event)
    requires DistinctIds(s)
    ensures multiset(s)[e] <= 1
  {
    if s != [] {
      var init, last := s[..|s| - 1], s[|s| - 1];
      assert s == init + [last];
      OnceInMultiset(init, e);
      assert last == e ==> e !in init;
    }
  }

  /** Merging gives every id of either list once, in sequence order, with the incoming value where both have it. */
  lemma {:induction false} MergedOnceInOrder(previous: seq<Event>, incoming: seq<Event>)
    ensures var merged := MergeEvents(previous, incoming);
            && InOrder(merged) && DistinctIds(merged)
            && IdsOf(merged) == IdsOf(previous) + IdsOf(incoming)
            && (DistinctIds(incoming) ==> forall e :: e in incoming ==> e in merged)
  {
    var both := previous + incoming;
    CollectedKeepsLatest(both);
    SameMultisetSameIds(Collected(both), MergeEvents(previous, incoming));
    assert IdsOf(both) == IdsOf(previous) + IdsOf(incoming);
    if DistinctIds(incoming) {
      forall e | e in incoming ensures e in Collected(both) {
        var k :| 0 <= k < |incoming| && incoming[k] == e;
        assert both[|previous| + k] == e;
        assert forall j :: |previous| + k < j < |both| ==> both[j] == incoming[j - |previous|];
      }
    }
  }

  // ---- Replays merge into the same prefix ----

  lemma {:induction false} SortedStays(events: seq<Event>)
    requires InOrder(events)
    ensures SortedBySequence(events) == events
  {
    if events != [] {
      var init, last := events[..|events| - 1], events[|events| - 1];
      assert InOrder(init) && events == init + [last];
      SortedStays(init);
      hide SortedBySequence, InOrder;
      SortedSnoc(init, last);
      InsertedLast(init, last);
    }
  }

  lemma SortedSnoc(events: seq<Event>, e: Event)
    ensures SortedBySequence(events + [e]) == Insert(SortedBySequence(events), e)
  {
    assert (events + [e])[..|events|] == events;
  }

  lemma InsertedLast(events: seq<Event>, e: Event)
    requires InOrder(events) && InOrder(events + [e])
    ensures Insert(events, e) == events + [e]
  {
    if events != [] {
      assert (events + [e])[|events| - 1] == events[|events| - 1] && (events + [e])[|events|] == e;
    }
  }

  lemma {:induction false} DistinctStays(events: seq<Event>)
    requires DistinctIds(events)
    ensures Collected(events) == events
  {
    if events != [] {
      var init, last := events[..|events| - 1], events[|events| - 1];
      DistinctStays(init);
      IndexOfAbsent(init, last.id);
    }
  }

  lemma IndexOfAbsent(events: seq<Event>, id: string)
    requires forall i :: 0 <= i < |events| ==> events[i].id != id
    ensures IndexOf(events, id) == None
  {
  }

  lemma IndexOfOnly(events: seq<Event>, k: nat)
    requires DistinctIds(events) && k < |events|
    ensures IndexOf(events, events[k].id) == Some(k)
  {
    assert events[k] in events;
    assert events[k].id in IdsOf(events);
  }

  lemma CollectedSnoc(events: seq<Event>, e: Event)
    ensures Collected(events + [e]) == Put(Collected(events), e)
  {
    assert (events + [e])[..|events|] == events;
  }

  lemma {:induction false} CollectedReplay(held: seq<Event>, log: seq<Event>, a: nat, b: nat, c: nat)
    requires DistinctIds(log) && b <= a <= |log| && b <= c <= |log| && Collected(held) == log[..a]
    ensures Collected(held + log[b..c]) == log[..if a > c then a else c]
    decreases c
  {
    hide Collected, Put, DistinctIds;
    if c == b {
      assert held + log[b..c] == held;
    } else {
      var before := held + log[b..c - 1];
      CollectedReplay(held, log, a, b, c - 1);
      assert held + log[b..c] == before + [log[c - 1]];
      CollectedSnoc(before, log[c - 1]);
      PutInLog(log, if a > c - 1 then a else c - 1, c - 1);
    }
  }

  lemma PutInLog(log: seq<Event>, n: nat, k: nat)
    requires DistinctIds(log) && k <= n <= |log| && k < |log|
    ensures Put(log[..n], log[k]) == log[..if k < n then n else n + 1]
  {
    if k < n {
      IndexOfOnly(log[..n], k);
      assert log[..n][k := log[k]] == log[..n];
    } else {
      IndexOfAbsent(log[..n], log[k].id);
    }
  }

  /**
   * A replay that starts anywhere at or before what the client has merges into a longer prefix of the log: no
   * gap and no duplicate, even when the server repeats events the client already has.
   */
  lemma {:induction false} ReplayMergesIntoPrefix(log: seq<Event>, a: nat, b: nat, c: nat)
    requires IsLog(log) && DistinctIds(log) && b <= a <= |log| && b <= c <= |log|
    ensures MergeEvents(log[..a], log[b..c]) == log[..if a > c then a else c]
  {
    DistinctStays(log[..a]);
    CollectedReplay(log[..a], log, a, b, c);
    SortedStays(log[..if a > c then a else c]);
  }
}
