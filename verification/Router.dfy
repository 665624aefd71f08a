/** Model routing: weighted order within priority tiers, and failover along that order. */
module Router {
  import opened Wrappers
  import opened WeightedFairness

  datatype Candidate = Candidate(id: string, publicName: string, priority: nat, weight: nat)

  /** The key of one tier's counters: a workspace, and an alias with a priority. */
  datatype TierKey = TierKey(workspaceId: string, alias: string, priority: nat)

  type Table = map<TierKey, map<string, int>>

  ghost predicate DistinctCandidates(candidates: seq<Candidate>) {
    forall i, j :: 0 <= i < j < |candidates| ==> candidates[i].id != candidates[j].id
  }

  function Ids(candidates: seq<Candidate>): set<string> {
    set c | c in candidates :: c.id
  }

  function Weights(tier: seq<Candidate>): (w: seq<int>)
    ensures |w| == |tier|
  {
    seq(|tier|, i requires 0 <= i < |tier| => tier[i].weight)
  }

  function CounterOf(counters: map<string, int>, id: string): int {
    if id in counters then counters[id] else 0
  }

  function CountersOf(counters: map<string, int>, tier: seq<Candidate>): (c: seq<int>)
    ensures |c| == |tier|
  {
    seq(|tier|, i requires 0 <= i < |tier| => CounterOf(counters, tier[i].id))
  }

  function Held(table: Table, key: TierKey): map<string, int> {
    if key in table then table[key] else map[]
  }

  // ---- The order of the remaining routes ----

  /** Strings in the order of their characters, as ids compare. */
  predicate AtMost(a: string, b: string) {
    a == "" || (b != "" && (a[0] < b[0] || (a[0] == b[0] && AtMost(a[1..], b[1..]))))
  }

  lemma {:induction false} AtMostIsTotal(a: string, b: string)
    ensures AtMost(a, b) || AtMost(b, a)
  {
    if a != "" && b != "" && a[0] == b[0] {
      AtMostIsTotal(a[1..], b[1..]);
    }
  }

  /** Heavier routes first, equal weights by id. */
  predicate Before(a: Candidate, b: Candidate) {
    a.weight > b.weight || (a.weight == b.weight && AtMost(a.id, b.id))
  }

  predicate IsSorted(s: seq<Candidate>) {
    forall i :: 0 < i < |s| ==> Before(s[i - 1], s[i])
  }

  function Insert(x: Candidate, s: seq<Candidate>): (r: seq<Candidate>)
    requires IsSorted(s)
    ensures IsSorted(r) && multiset(r) == multiset(s) + multiset{x}
    ensures r[0] == x || (s != [] && r[0] == s[0])
  {
    if s == [] || Before(x, s[0]) then
      assert multiset([x] + s) == multiset(s) + multiset{x};
      [x] + s
    else
      AtMostIsTotal(x.id, s[0].id);
      assert s == [s[0]] + s[1..];
      var rest := Insert(x, s[1..]);
      assert multiset([s[0]] + rest) == multiset{s[0]} + multiset(rest);
      [s[0]] + rest
  }

  function ByWeight(s: seq<Candidate>): (r: seq<Candidate>)
    ensures IsSorted(r) && multiset(r) == multiset(s)
  {
    if s == [] then []
    else
      assert s == [s[0]] + s[1..];
      Insert(s[0], ByWeight(s[1..]))
  }

  // ---- Tiers ----

  function Tier(candidates: seq<Candidate>, priority: nat): (tier: seq<Candidate>)
    ensures forall c :: c in tier <==> c in candidates && c.priority == priority
  {
    if candidates == [] then []
    else
      var rest := Tier(candidates[1..], priority);
      if candidates[0].priority == priority then [candidates[0]] + rest else rest
  }

  lemma {:induction false} TierIsDistinct(candidates: seq<Candidate>, priority: nat)
    requires DistinctCandidates(candidates)
    ensures DistinctCandidates(Tier(candidates, priority))
  {
    if candidates != [] {
      TierIsDistinct(candidates[1..], priority);
      assert forall c :: c in Tier(candidates[1..], priority) ==> c in candidates[1..] && c.id != candidates[0].id;
    }
  }

  function Without(tier: seq<Candidate>, id: string): (r: seq<Candidate>)
    ensures forall c :: c in r <==> c in tier && c.id != id
  {
    if tier == [] then []
    else if tier[0].id == id then Without(tier[1..], id)
    else [tier[0]] + Without(tier[1..], id)
  }

  lemma {:induction false} WithoutAbsent(tier: seq<Candidate>, id: string)
    requires forall c :: c in tier ==> c.id != id
    ensures Without(tier, id) == tier
  {
    if tier != [] {
      WithoutAbsent(tier[1..], id);
      assert tier == [tier[0]] + tier[1..];
    }
  }

  lemma {:induction false} WithoutOne(tier: seq<Candidate>, k: nat)
    requires DistinctCandidates(tier) && k < |tier|
    ensures multiset(tier) == multiset(Without(tier, tier[k].id)) + multiset{tier[k]}
  {
    assert tier == [tier[0]] + tier[1..];
    if k == 0 {
      WithoutAbsent(tier[1..], tier[0].id);
    } else {
      WithoutOne(tier[1..], k - 1);
      var rest := Without(tier[1..], tier[k].id);
      assert multiset([tier[0]] + rest) == multiset{tier[0]} + multiset(rest);
    }
  }

  /** The selected route first, the others by weight. */
  function TierOrder(counters: map<string, int>, tier: seq<Candidate>): (r: seq<Candidate>)
    requires tier != []
    ensures r != []
  {
    var selected := tier[Pick(Weights(tier), CountersOf(counters, tier))];
    [selected] + ByWeight(Without(tier, selected.id))
  }

  lemma TierOrderIsPermutation(counters: map<string, int>, tier: seq<Candidate>)
    requires tier != [] && DistinctCandidates(tier)
    ensures multiset(TierOrder(counters, tier)) == multiset(tier)
  {
    var k := Pick(Weights(tier), CountersOf(counters, tier));
    WithoutOne(tier, k);
    var rest := ByWeight(Without(tier, tier[k].id));
    assert multiset([tier[k]] + rest) == multiset{tier[k]} + multiset(rest);
  }

  // ---- Priorities, lowest number first ----

  predicate Ascending(s: seq<nat>) {
    forall i, j :: 0 <= i < j < |s| ==> s[i] < s[j]
  }

  lemma AscendingCons(x: nat, rest: seq<nat>)
    requires Ascending(rest) && forall k :: 0 <= k < |rest| ==> x < rest[k]
    ensures Ascending([x] + rest)
  {
  }

  function InsertPriority(p: nat, s: seq<nat>): (r: seq<nat>)
    requires Ascending(s)
    ensures Ascending(r) && (forall q :: q in r <==> q == p || q in s)
  {
    if s == [] then [p]
    else if p < s[0] then [p] + s
    else if p == s[0] then s
    else
      var rest := InsertPriority(p, s[1..]);
      forall k | 0 <= k < |rest| ensures s[0] < rest[k] {
        assert rest[k] in rest;
      }
      AscendingCons(s[0], rest);
      [s[0]] + rest
  }

  function Priorities(candidates: seq<Candidate>): (r: seq<nat>)
    ensures Ascending(r)
    ensures forall q :: q in r <==> exists c :: c in candidates && c.priority == q
  {
    if candidates == [] then []
    else
      var rest := Priorities(candidates[1..]);
      assert forall c :: c in candidates <==> c == candidates[0] || c in candidates[1..];
      InsertPriority(candidates[0].priority, rest)
  }

  /** The whole order: tier after tier, each with its own counters. */
  function Order(table: Table, workspaceId: string, alias: string, candidates: seq<Candidate>, ps: seq<nat>): seq<Candidate>
    requires forall p :: p in ps ==> Tier(candidates, p) != []
  {
    if ps == [] then []
    else
      var last := |ps| - 1;
      Order(table, workspaceId, alias, candidates, ps[..last])
      + TierOrder(Held(table, TierKey(workspaceId, alias, ps[last])), Tier(candidates, ps[last]))
  }

  /** The candidates whose priority is one of `ps`. */
  function Among(candidates: seq<Candidate>, ps: seq<nat>): (r: seq<Candidate>)
    ensures forall c :: c in r <==> c in candidates && c.priority in ps
  {
    if candidates == [] then []
    else
      var rest := Among(candidates[1..], ps);
      if candidates[0].priority in ps then [candidates[0]] + rest else rest
  }

  lemma {:induction false} AmongAll(candidates: seq<Candidate>, ps: seq<nat>)
    requires forall c :: c in candidates ==> c.priority in ps
    ensures Among(candidates, ps) == candidates
  {
    if candidates != [] {
      AmongAll(candidates[1..], ps);
      assert candidates == [candidates[0]] + candidates[1..];
    }
  }

  lemma {:induction false} AmongNone(candidates: seq<Candidate>)
    ensures Among(candidates, []) == []
  {
    if candidates != [] {
      AmongNone(candidates[1..]);
    }
  }

  lemma {:induction false} AmongOneMore(candidates: seq<Candidate>, ps: seq<nat>, p: nat)
    requires p !in ps
    ensures multiset(Among(candidates, ps + [p])) == multiset(Among(candidates, ps)) + multiset(Tier(candidates, p))
  {
    if candidates != [] {
      AmongOneMore(candidates[1..], ps, p);
      var c := candidates[0];
      var grown, kept, tier := Among(candidates[1..], ps + [p]), Among(candidates[1..], ps), Tier(candidates[1..], p);
      assert multiset([c] + grown) == multiset{c} + multiset(grown);
      assert multiset([c] + kept) == multiset{c} + multiset(kept);
      assert multiset([c] + tier) == multiset{c} + multiset(tier);
    }
  }

  predicate ByPriority(s: seq<Candidate>) {
    forall i, j :: 0 <= i < j < |s| ==> s[i].priority <= s[j].priority
  }

  lemma ByPriorityAppend(s: seq<Candidate>, t: seq<Candidate>, p: nat)
    requires ByPriority(s) && (forall c :: c in s ==> c.priority <= p) && (forall c :: c in t ==> c.priority == p)
    ensures ByPriority(s + t)
  {
  }

  lemma SamePriority(counters: map<string, int>, candidates: seq<Candidate>, p: nat)
    requires DistinctCandidates(candidates) && Tier(candidates, p) != []
    ensures multiset(TierOrder(counters, Tier(candidates, p))) == multiset(Tier(candidates, p))
    ensures forall c :: c in TierOrder(counters, Tier(candidates, p)) ==> c.priority == p
  {
    var tier := Tier(candidates, p);
    TierIsDistinct(candidates, p);
    TierOrderIsPermutation(counters, tier);
    forall c | c in TierOrder(counters, tier) ensures c.priority == p {
      assert c in multiset(TierOrder(counters, tier));
      assert c in tier;
    }
  }

  /** Tier after tier the order holds exactly the candidates of those tiers, lower priorities first. */
  lemma {:induction false} OrderOfTiers(
    table: Table, workspaceId: string, alias: string, candidates: seq<Candidate>, ps: seq<nat>)
    requires DistinctCandidates(candidates) && Ascending(ps) && forall p :: p in ps ==> Tier(candidates, p) != []
    ensures multiset(Order(table, workspaceId, alias, candidates, ps)) == multiset(Among(candidates, ps))
    ensures ByPriority(Order(table, workspaceId, alias, candidates, ps))
    ensures forall c :: c in Order(table, workspaceId, alias, candidates, ps) ==> c.priority in ps
  {
    hide DistinctCandidates, TierOrder, Tier, Among, ByPriority;
    if ps == [] {
      AmongNone(candidates);
      ByPriorityEmpty();
    } else {
      var last := |ps| - 1;
      var init, p := ps[..last], ps[last];
      assert ps == init + [p] && p !in init;
      OrderOfTiers(table, workspaceId, alias, candidates, init);
      var counters := Held(table, TierKey(workspaceId, alias, p));
      SamePriority(counters, candidates, p);
      AmongOneMore(candidates, init, p);
      var before := Order(table, workspaceId, alias, candidates, init);
      assert forall c :: c in before ==> c.priority <= p;
      ByPriorityAppend(before, TierOrder(counters, Tier(candidates, p)), p);
    }
  }

  lemma ByPriorityEmpty()
    ensures ByPriority([])
  {
  }

  /** Every candidate is ordered once, the lowest priority number first; nothing else is. */
  lemma {:induction false} OrderIsPermutation(table: Table, workspaceId: string, alias: string, candidates: seq<Candidate>)
    requires DistinctCandidates(candidates)
    ensures forall p :: p in Priorities(candidates) ==> Tier(candidates, p) != []
    ensures var ordered := Order(table, workspaceId, alias, candidates, Priorities(candidates));
            multiset(ordered) == multiset(candidates) && ByPriority(ordered)
  {
    forall p | p in Priorities(candidates) ensures Tier(candidates, p) != [] {
      var c :| c in candidates && c.priority == p;
      assert c in Tier(candidates, p);
    }
    OrderOfTiers(table, workspaceId, alias, candidates, Priorities(candidates));
    AmongAll(candidates, Priorities(candidates));
  }

  // ---- What the order means within a tier ----

  lemma {:induction false} AtMostIsTransitive(a: string, b: string, c: string)
    requires AtMost(a, b) && AtMost(b, c)
    ensures AtMost(a, c)
  {
    if a != "" && a[0] == b[0] == c[0] {
      AtMostIsTransitive(a[1..], b[1..], c[1..]);
    }
  }

  /** The first character in which the strings differ, with the smaller one in the first string. */
  predicate DiffersAt(a: string, b: string, i: nat) {
    i < |a| && i < |b| && a[..i] == b[..i] && a[i] < b[i]
  }

  lemma DifferenceShifts(a: string, b: string)
    requires a != "" && b != "" && a[0] == b[0]
    ensures (exists i: nat :: DiffersAt(a, b, i)) <==> exists i: nat :: DiffersAt(a[1..], b[1..], i)
  {
    if i: nat :| DiffersAt(a, b, i) {
      assert a[1..][..i - 1] == a[..i][1..] && b[1..][..i - 1] == b[..i][1..];
      assert DiffersAt(a[1..], b[1..], i - 1);
    }
    if i: nat :| DiffersAt(a[1..], b[1..], i) {
      assert a[..i + 1] == [a[0]] + a[1..][..i] && b[..i + 1] == [b[0]] + b[1..][..i];
      assert DiffersAt(a, b, i + 1);
    }
  }

  lemma PrefixesShareTheFirst(a: string, b: string)
    requires a != "" && b != ""
    ensures forall i: nat :: 0 < i <= |a| && i <= |b| && a[..i] == b[..i] ==> a[0] == b[0]
  {
    forall i: nat | 0 < i <= |a| && i <= |b| && a[..i] == b[..i] ensures a[0] == b[0] {
      assert a[..i][0] == a[0] && b[..i][0] == b[0];
    }
  }

  lemma DiffersAtOnce(a: string, b: string)
    requires a != "" && b != "" && a[0] != b[0]
    ensures (exists i: nat :: DiffersAt(a, b, i)) <==> a[0] < b[0]
    ensures !(a <= b)
  {
    assert a[..0] == b[..0] && (a[0] < b[0] ==> DiffersAt(a, b, 0));
    PrefixesShareTheFirst(a, b);
  }

  lemma PrefixShifts(a: string, b: string)
    requires a != "" && b != "" && a[0] == b[0]
    ensures a <= b <==> a[1..] <= b[1..]
  {
    assert a == [a[0]] + a[1..] && b == [b[0]] + b[1..];
  }

  /** Ids compare as strings do: a prefix comes first, and otherwise the first different character decides. */
  lemma {:induction false} AtMostIff(a: string, b: string)
    ensures AtMost(a, b) <==> a <= b || exists i: nat :: DiffersAt(a, b, i)
  {
    if a != "" && b != "" {
      hide DiffersAt;
      if a[0] == b[0] {
        AtMostIff(a[1..], b[1..]);
        DifferenceShifts(a, b);
        PrefixShifts(a, b);
      } else {
        DiffersAtOnce(a, b);
      }
    }
  }

  lemma {:induction false} SortedPairs(s: seq<Candidate>, i: nat, j: nat)
    requires IsSorted(s) && i < j < |s|
    ensures Before(s[i], s[j])
    decreases j
  {
    if i < j - 1 {
      SortedPairs(s, i, j - 1);
      if AtMost(s[i].id, s[j - 1].id) && AtMost(s[j - 1].id, s[j].id) {
        AtMostIsTransitive(s[i].id, s[j - 1].id, s[j].id);
      }
    }
  }

  lemma TierIsHeavierFirst(counters: map<string, int>, tier: seq<Candidate>, i: nat, j: nat)
    requires tier != [] && 0 < i < j < |TierOrder(counters, tier)|
    ensures Before(TierOrder(counters, tier)[i], TierOrder(counters, tier)[j])
  {
    hide Pick, Weights, CountersOf, Before, IsSorted, ByWeight, Without;
    var selected := tier[Pick(Weights(tier), CountersOf(counters, tier))];
    var rest := ByWeight(Without(tier, selected.id));
    SortedPairs(rest, i - 1, j - 1);
    assert ([selected] + rest)[i] == rest[i - 1] && ([selected] + rest)[j] == rest[j - 1];
  }

  lemma SameTier(before: seq<Candidate>, here: seq<Candidate>, p: nat, h: nat, j: nat)
    requires (forall c :: c in before ==> c.priority != p) && (forall c :: c in here ==> c.priority == p)
    requires h < j < |before + here| && |before| <= j && (before + here)[h].priority == (before + here)[j].priority
    ensures |before| <= h
  {
    assert here[j - |before|] in here;
    forall k | 0 <= k < |before| ensures (before + here)[k].priority != p {
      assert before[k] in before;
    }
  }

  lemma {:induction false} HeavierAmong(
    table: Table, workspaceId: string, alias: string, candidates: seq<Candidate>, ps: seq<nat>, h: nat, i: nat, j: nat)
    requires DistinctCandidates(candidates) && Ascending(ps) && forall p :: p in ps ==> Tier(candidates, p) != []
    requires var ordered := Order(table, workspaceId, alias, candidates, ps);
             h < i < j < |ordered| && ordered[h].priority == ordered[i].priority == ordered[j].priority
    ensures var ordered := Order(table, workspaceId, alias, candidates, ps); Before(ordered[i], ordered[j])
    decreases |ps|
  {
    hide DistinctCandidates, TierOrder, Tier, Before, ByPriority;
    var last := |ps| - 1;
    var init, p := ps[..last], ps[last];
    assert ps == init + [p] && p !in init;
    OrderOfTiers(table, workspaceId, alias, candidates, init);
    var before := Order(table, workspaceId, alias, candidates, init);
    var counters := Held(table, TierKey(workspaceId, alias, p));
    SamePriority(counters, candidates, p);
    var here := TierOrder(counters, Tier(candidates, p));
    if j < |before| {
      HeavierAmong(table, workspaceId, alias, candidates, init, h, i, j);
    } else {
      SameTier(before, here, p, h, j);
      TierIsHeavierFirst(counters, Tier(candidates, p), i - |before|, j - |before|);
    }
  }

  /** Behind the selected route of its priority every route is at least as heavy as those after it, equals by id. */
  lemma {:induction false} HeavierFirst(
    table: Table, workspaceId: string, alias: string, candidates: seq<Candidate>, h: nat, i: nat, j: nat)
    requires DistinctCandidates(candidates) && forall p :: p in Priorities(candidates) ==> Tier(candidates, p) != []
    requires var ordered := Order(table, workspaceId, alias, candidates, Priorities(candidates));
             h < i < j < |ordered| && ordered[h].priority == ordered[i].priority == ordered[j].priority
    ensures var ordered := Order(table, workspaceId, alias, candidates, Priorities(candidates));
            ordered[i].weight > ordered[j].weight
            || (ordered[i].weight == ordered[j].weight && AtMost(ordered[i].id, ordered[j].id))
  {
    HeavierAmong(table, workspaceId, alias, candidates, Priorities(candidates), h, i, j);
  }

  lemma TierStarts(before: seq<Candidate>, here: seq<Candidate>, p: nat, h: nat)
    requires forall c :: c in here ==> c.priority == p
    requires |before| <= h < |before + here|
    requires h > 0 ==> (before + here)[h - 1].priority != (before + here)[h].priority
    ensures h == |before| && (before + here)[h] == here[0] && here[0].priority == p
  {
    forall i | |before| <= i < |before + here| ensures (before + here)[i].priority == p {
      assert here[i - |before|] in here;
    }
  }

  /** The route is the one selected from the counters of its own tier. */
  predicate IsSelected(table: Table, workspaceId: string, alias: string, candidates: seq<Candidate>, c: Candidate) {
    var tier, counters := Tier(candidates, c.priority), Held(table, TierKey(workspaceId, alias, c.priority));
    tier != [] && c == tier[Pick(Weights(tier), CountersOf(counters, tier))]
  }

  lemma TierStartsSelected(table: Table, workspaceId: string, alias: string, candidates: seq<Candidate>, p: nat)
    requires Tier(candidates, p) != []
    ensures var here := TierOrder(Held(table, TierKey(workspaceId, alias, p)), Tier(candidates, p));
            here[0].priority == p ==> IsSelected(table, workspaceId, alias, candidates, here[0])
  {
    hide Pick, Weights, CountersOf, ByWeight, Without;
  }

  lemma {:induction false} SelectedAmong(
    table: Table, workspaceId: string, alias: string, candidates: seq<Candidate>, ps: seq<nat>, h: nat)
    requires DistinctCandidates(candidates) && Ascending(ps) && forall p :: p in ps ==> Tier(candidates, p) != []
    requires var ordered := Order(table, workspaceId, alias, candidates, ps);
             h < |ordered| && (h > 0 ==> ordered[h - 1].priority != ordered[h].priority)
    ensures var ordered := Order(table, workspaceId, alias, candidates, ps);
            IsSelected(table, workspaceId, alias, candidates, ordered[h])
    decreases |ps|
  {
    hide DistinctCandidates, Tier, TierOrder, IsSelected, ByPriority;
    var last := |ps| - 1;
    var init, p := ps[..last], ps[last];
    assert ps == init + [p] && p !in init;
    OrderOfTiers(table, workspaceId, alias, candidates, init);
    var before := Order(table, workspaceId, alias, candidates, init);
    var counters := Held(table, TierKey(workspaceId, alias, p));
    SamePriority(counters, candidates, p);
    var here := TierOrder(counters, Tier(candidates, p));
    if h < |before| {
      SelectedAmong(table, workspaceId, alias, candidates, init, h);
    } else {
      TierStarts(before, here, p, h);
      TierStartsSelected(table, workspaceId, alias, candidates, p);
    }
  }

  /** The first route of each priority is the one the smooth round-robin selects from that tier's counters. */
  lemma {:induction false} SelectedComesFirst(
    table: Table, workspaceId: string, alias: string, candidates: seq<Candidate>, h: nat)
    requires DistinctCandidates(candidates) && forall p :: p in Priorities(candidates) ==> Tier(candidates, p) != []
    requires var ordered := Order(table, workspaceId, alias, candidates, Priorities(candidates));
             h < |ordered| && (h > 0 ==> ordered[h - 1].priority != ordered[h].priority)
    ensures var ordered := Order(table, workspaceId, alias, candidates, Priorities(candidates));
            var tier := Tier(candidates, ordered[h].priority);
            var counters := Held(table, TierKey(workspaceId, alias, ordered[h].priority));
            tier != [] && ordered[h] == tier[Pick(Weights(tier), CountersOf(counters, tier))]
  {
    SelectedAmong(table, workspaceId, alias, candidates, Priorities(candidates), h);
  }

  // ---- Failover ----

  datatype Response =
    | Succeeds
    | Fails(retryable: bool)
    | Breaks
    | Unregistered

  datatype Availability = Available | Degraded | Unavailable

  /** What an attempt on a route records about its health. */
  function HealthAfter(response: Response): Availability {
    match response
    case Succeeds => Available
    case Fails(retryable) => if retryable then Degraded else Unavailable
    case Breaks => Degraded
    case Unregistered => Unavailable
  }

  ghost predicate FirstToSucceed(ordered: seq<Candidate>, respond: Candidate -> Response, k: nat) {
    && k <= |ordered|
    && (forall i :: 0 <= i < k ==> !respond(ordered[i]).Succeeds?)
    && (k < |ordered| ==> respond(ordered[k]).Succeeds?)
  }

  type HealthTable = map<string, Availability>

  /** The health table after each of these routes has been tried. */
  function Recorded(health: HealthTable, tried: seq<Candidate>, respond: Candidate -> Response): HealthTable {
    if tried == [] then health
    else
      var last := tried[|tried| - 1];
      Recorded(health, tried[..|tried| - 1], respond)[last.id := HealthAfter(respond(last))]
  }

  /**
   * A tried route is available after a success, degraded after a retryable failure or a break, and unavailable after
   * any other failure or without a client; no other route's health changes.
   */
  lemma {:induction false} OnlyTriedRoutesChange(
    health: HealthTable, tried: seq<Candidate>, respond: Candidate -> Response, id: string)
    requires DistinctCandidates(tried)
    ensures forall i :: 0 <= i < |tried| && tried[i].id == id ==>
              && id in Recorded(health, tried, respond)
              && Recorded(health, tried, respond)[id]
                 == match respond(tried[i])
                    case Succeeds => Available
                    case Breaks => Degraded
                    case Unregistered => Unavailable
                    case Fails(retryable) => if retryable then Degraded else Unavailable
    ensures id !in Ids(tried) ==>
              (if id in health then id in Recorded(health, tried, respond) && Recorded(health, tried, respond)[id] == health[id]
               else id !in Recorded(health, tried, respond))
  {
    if tried != [] {
      var init, last := tried[..|tried| - 1], tried[|tried| - 1];
      OnlyTriedRoutesChange(health, init, respond, id);
      assert last in tried && Ids(init) <= Ids(tried);
      assert forall i :: 0 <= i < |init| ==> init[i] == tried[i];
    }
  }

  /** Some route succeeds exactly when some candidate would: failing over never loses one. */
  lemma {:induction false} FailoverFindsASuccess(
    candidates: seq<Candidate>, ordered: seq<Candidate>, respond: Candidate -> Response, k: nat)
    requires multiset(ordered) == multiset(candidates) && FirstToSucceed(ordered, respond, k)
    ensures k < |ordered| <==> exists c :: c in candidates && respond(c).Succeeds?
  {
    if k < |ordered| {
      assert ordered[k] in multiset(ordered);
      assert ordered[k] in candidates;
    } else {
      forall c | c in candidates ensures !respond(c).Succeeds? {
        assert c in multiset(candidates);
        assert c in ordered;
      }
    }
  }

  /** What the documented rule would stop at: a success, or a failure that is not retryable. */
  predicate Stops(response: Response) {
    response.Succeeds? || NotRetryable(response)
  }

  predicate NotRetryable(response: Response) {
    response.Unregistered? || (response.Fails? && !response.retryable)
  }

  /** The documented rule: fail over on retryable failures only. None is the error of the route it stops at. */
  function DocumentedRoute(ordered: seq<Candidate>, respond: Candidate -> Response): Option<Candidate> {
    if ordered == [] then None
    else if respond(ordered[0]).Succeeds? then Some(ordered[0])
    else if NotRetryable(respond(ordered[0])) then None
    else DocumentedRoute(ordered[1..], respond)
  }

  function RouteAt(ordered: seq<Candidate>, k: nat): Option<Candidate> {
    if k < |ordered| then Some(ordered[k]) else None
  }

  /** The documented rule from route j on, when only retryable failures lie between j and k. */
  lemma {:induction false} DocumentedFrom(ordered: seq<Candidate>, respond: Candidate -> Response, j: nat, k: nat)
    requires j <= k <= |ordered| && forall i :: j <= i < k ==> !Stops(respond(ordered[i]))
    ensures DocumentedRoute(ordered[j..], respond) == DocumentedRoute(ordered[k..], respond)
    decreases k - j
  {
    if j < k {
      assert ordered[j..][0] == ordered[j] && ordered[j..][1..] == ordered[j + 1..];
      DocumentedFrom(ordered, respond, j + 1, k);
    }
  }

  /** The first route in a stretch that is not retryable, if there is one. */
  function FirstNotRetryable(ordered: seq<Candidate>, respond: Candidate -> Response, k: nat): (j: nat)
    requires k <= |ordered|
    ensures j <= k && (forall i :: 0 <= i < j ==> !NotRetryable(respond(ordered[i])))
    ensures j < k ==> NotRetryable(respond(ordered[j]))
  {
    if k == 0 then 0
    else
      var j := FirstNotRetryable(ordered, respond, k - 1);
      if j < k - 1 || NotRetryable(respond(ordered[k - 1])) then j else k
  }

  /**
   * The code and its documentation choose the same route exactly when no route succeeds or none before the first
   * success failed in a way that is not retryable; otherwise the code goes on where the rule would give up.
   */
  lemma {:induction false} FailoverFollowsTheRuleIff(ordered: seq<Candidate>, respond: Candidate -> Response, k: nat)
    requires FirstToSucceed(ordered, respond, k)
    ensures DocumentedRoute(ordered, respond) == RouteAt(ordered, k)
       <==> k == |ordered| || forall i :: 0 <= i < k ==> !NotRetryable(respond(ordered[i]))
  {
    var j := FirstNotRetryable(ordered, respond, k);
    DocumentedFrom(ordered, respond, 0, j);
    assert ordered[0..] == ordered;
    if j < |ordered| {
      assert ordered[j..][0] == ordered[j];
    }
  }

  /** A route without a client, or with an inactive credential, is passed over although that is not retryable. */
  lemma {:induction false} GoesOnAfterANonRetryableFailure(a: Candidate, b: Candidate, failure: Response)
    requires a != b && NotRetryable(failure)
    ensures var respond := (c: Candidate) => if c == a then failure else Succeeds;
            FirstToSucceed([a, b], respond, 1) && DocumentedRoute([a, b], respond) == None
  {
  }

  class ModelRouter {
    var weights: Table
    var health: HealthTable

    constructor ()
      ensures weights == map[] && health == map[]
    {
      weights, health := map[], map[];
    }

    /** Counters of routes that left the tier are dropped one by one. */
    static method ForgetStale(current: map<string, int>, activeIds: set<string>) returns (kept: map<string, int>)
      ensures kept.Keys == current.Keys * activeIds
      ensures forall id :: id in kept ==> kept[id] == current[id]
    {
      kept := current;
      var stale := current.Keys - activeIds;
      while stale != {}
        invariant stale <= kept.Keys <= current.Keys && stale !! activeIds
        invariant kept.Keys - stale == current.Keys * activeIds
        invariant forall id :: id in kept ==> kept[id] == current[id]
        decreases |stale|
      {
        var id :| id in stale;
        kept := kept - {id};
        stale := stale - {id};
      }
    }

    static method AddWeights(current: map<string, int>, tier: seq<Candidate>)
      returns (bumped: map<string, int>, total: int)
      requires DistinctCandidates(tier) && current.Keys <= Ids(tier)
      ensures total == Sum(Weights(tier)) && bumped.Keys == Ids(tier)
      ensures forall j :: 0 <= j < |tier| ==> bumped[tier[j].id] == CounterOf(current, tier[j].id) + tier[j].weight
    {
      bumped, total := current, 0;
      for i := 0 to |tier|
        invariant total == Sum(Weights(tier)[..i])
        invariant current.Keys <= bumped.Keys <= Ids(tier)
        invariant forall j :: 0 <= j < i ==>
                    tier[j].id in bumped && bumped[tier[j].id] == CounterOf(current, tier[j].id) + tier[j].weight
        invariant forall j :: i <= j < |tier| ==> CounterOf(bumped, tier[j].id) == CounterOf(current, tier[j].id)
      {
        total := total + tier[i].weight;
        SumSnoc(Weights(tier), i);
        bumped := bumped[tier[i].id := CounterOf(bumped, tier[i].id) + tier[i].weight];
      }
      assert Weights(tier)[..|tier|] == Weights(tier);
    }

    /** One smooth weighted round-robin choice: forget absent routes, add weights, pick, take the total back. */
    method SelectRoute(key: TierKey, tier: seq<Candidate>) returns (k: nat)
      requires tier != [] && DistinctCandidates(tier)
      modifies `weights
      ensures k < |tier| && k == Pick(Weights(tier), CountersOf(Held(old(weights), key), tier))
      ensures key in weights && weights[key].Keys == Ids(tier)
      ensures CountersOf(weights[key], tier) == Tick(Weights(tier), CountersOf(Held(old(weights), key), tier))
      ensures forall other :: other != key ==> Held(weights, other) == Held(old(weights), other)
    {
      hide Sum, FirstMax, Bumped, CountersOf;
      var current := ForgetStale(Held(weights, key), Ids(tier));
      var bumped, total := AddWeights(current, tier);
      ghost var before := CountersOf(Held(weights, key), tier);
      BumpedCounters(Held(weights, key), bumped, tier);
      k := FirstMax(CountersOf(bumped, tier));
      TakenBack(bumped, tier, k, total);
      assert tier[k].id in bumped;
      weights := weights[key := bumped[tier[k].id := bumped[tier[k].id] - total]];
    }

    method WeightedOrder(workspaceId: string, alias: string, candidates: seq<Candidate>) returns (ordered: seq<Candidate>)
      requires DistinctCandidates(candidates)
      modifies `weights
      ensures forall p :: p in Priorities(candidates) ==> Tier(candidates, p) != []
      ensures ordered == Order(old(weights), workspaceId, alias, candidates, Priorities(candidates))
      ensures multiset(ordered) == multiset(candidates) && ByPriority(ordered)
    {
      hide DistinctCandidates, ByPriority, CountersOf, Order, Tick, Pick, TierOrder;
      var ps := Priorities(candidates);
      OrderIsPermutation(weights, workspaceId, alias, candidates);
      ordered := [];
      OrderEmpty(weights, workspaceId, alias, candidates);
      for i := 0 to |ps|
        invariant ordered == Order(old(weights), workspaceId, alias, candidates, ps[..i])
        invariant forall j :: i <= j < |ps| ==>
                    var key := TierKey(workspaceId, alias, ps[j]); Held(weights, key) == Held(old(weights), key)
      {
        var tier := Tier(candidates, ps[i]);
        TierIsDistinct(candidates, ps[i]);
        var key := TierKey(workspaceId, alias, ps[i]);
        var k := SelectRoute(key, tier);
        TierOrderOf(Held(old(weights), key), tier, k);
        OrderSnoc(old(weights), workspaceId, alias, candidates, ps, i);
        ordered := ordered + ([tier[k]] + ByWeight(Without(tier, tier[k].id)));
      }
      assert ps[..|ps|] == ps;
    }

    method TryInOrder(ordered: seq<Candidate>, respond: Candidate -> Response) returns (k: nat)
      modifies `health
      ensures FirstToSucceed(ordered, respond, k)
      ensures health == Recorded(old(health), ordered[..if k < |ordered| then k + 1 else k], respond)
    {
      k := 0;
      while k < |ordered|
        invariant k <= |ordered|
        invariant forall i :: 0 <= i < k ==> !respond(ordered[i]).Succeeds?
        invariant health == Recorded(old(health), ordered[..k], respond)
      {
        var response := respond(ordered[k]);
        health := health[ordered[k].id := HealthAfter(response)];
        assert ordered[..k + 1][..k] == ordered[..k];
        if response.Succeeds? {
          return;
        }
        k := k + 1;
      }
    }

    /** Tries the routes in order until one succeeds, whatever kind of failure came before it. */
    method Complete(workspaceId: string, requested: Option<string>, candidates: seq<Candidate>, respond: Candidate -> Response)
      returns (route: Option<Candidate>)
      requires candidates != [] && DistinctCandidates(candidates)
      modifies this
      ensures forall p :: p in Priorities(candidates) ==> Tier(candidates, p) != []
      ensures var alias := if requested.Some? then requested.value else candidates[0].publicName;
              var ordered := Order(old(weights), workspaceId, alias, candidates, Priorities(candidates));
              exists k: nat ::
                && FirstToSucceed(ordered, respond, k)
                && route == (if k < |ordered| then Some(ordered[k]) else None)
                && health == Recorded(old(health), ordered[..if k < |ordered| then k + 1 else k], respond)
      ensures route.Some? <==> exists c :: c in candidates && respond(c).Succeeds?
    {
      var alias := if requested.Some? then requested.value else candidates[0].publicName;
      var ordered := WeightedOrder(workspaceId, alias, candidates);
      var k := TryInOrder(ordered, respond);
      FailoverFindsASuccess(candidates, ordered, respond, k);
      route := if k < |ordered| then Some(ordered[k]) else None;
    }
  }

  /** A tier routed n times from an empty router picks what the fairness theorems speak about. */
  method RouteRepeatedly(router: ModelRouter, key: TierKey, tier: seq<Candidate>, n: nat) returns (picks: seq<nat>)
    requires tier != [] && DistinctCandidates(tier) && key !in router.weights
    modifies router`weights
    ensures |picks| == n && forall i :: 0 <= i < n ==> picks[i] == Chosen(Weights(tier), i)
    ensures CountersOf(Held(router.weights, key), tier) == WeightedFairness.Counters(Weights(tier), n)
  {
    picks := [];
    hide *;
    NoCountersYet(router.weights, key, tier);
    for i := 0 to n
      invariant |picks| == i && forall j :: 0 <= j < i ==> picks[j] == Chosen(Weights(tier), j)
      invariant CountersOf(Held(router.weights, key), tier) == WeightedFairness.Counters(Weights(tier), i)
    {
      var k := router.SelectRoute(key, tier);
      HeldPresent(router.weights, key);
      OneMoreChoice(Weights(tier), i, k, CountersOf(Held(router.weights, key), tier));
      picks := picks + [k];
    }
  }

  lemma NoCountersYet(table: Table, key: TierKey, tier: seq<Candidate>)
    requires tier != [] && key !in table
    ensures CountersOf(Held(table, key), tier) == WeightedFairness.Counters(Weights(tier), 0)
  {
  }

  lemma OneMoreChoice(weights: seq<int>, n: nat, k: nat, after: seq<int>)
    requires weights != [] && k == Pick(weights, WeightedFairness.Counters(weights, n))
    requires after == Tick(weights, WeightedFairness.Counters(weights, n))
    ensures k == Chosen(weights, n) && after == WeightedFairness.Counters(weights, n + 1)
  {
    NextCounters(weights, n + 1);
  }

  lemma HeldPresent(table: Table, key: TierKey)
    requires key in table
    ensures Held(table, key) == table[key]
  {
  }

  lemma OrderEmpty(table: Table, workspaceId: string, alias: string, candidates: seq<Candidate>)
    ensures Order(table, workspaceId, alias, candidates, []) == []
  {
  }

  lemma OrderSnoc(table: Table, workspaceId: string, alias: string, candidates: seq<Candidate>, ps: seq<nat>, i: nat)
    requires i < |ps| && forall p :: p in ps ==> Tier(candidates, p) != []
    ensures Order(table, workspaceId, alias, candidates, ps[..i + 1])
         == Order(table, workspaceId, alias, candidates, ps[..i])
            + TierOrder(Held(table, TierKey(workspaceId, alias, ps[i])), Tier(candidates, ps[i]))
  {
    assert ps[..i + 1][..i] == ps[..i];
  }

  lemma TierOrderOf(counters: map<string, int>, tier: seq<Candidate>, k: nat)
    requires tier != [] && k < |tier| && k == Pick(Weights(tier), CountersOf(counters, tier))
    ensures TierOrder(counters, tier) == [tier[k]] + ByWeight(Without(tier, tier[k].id))
  {
  }

  lemma BumpedCounters(held: map<string, int>, bumped: map<string, int>, tier: seq<Candidate>)
    requires bumped.Keys == Ids(tier) && forall c :: c in tier ==> c.id in bumped
    requires forall j :: 0 <= j < |tier| ==> bumped[tier[j].id] == CounterOf(held, tier[j].id) + tier[j].weight
    ensures CountersOf(bumped, tier) == Bumped(Weights(tier), CountersOf(held, tier))
  {
  }

  lemma TakenBack(bumped: map<string, int>, tier: seq<Candidate>, k: nat, total: int)
    requires DistinctCandidates(tier) && k < |tier| && bumped.Keys == Ids(tier)
    requires forall c :: c in tier ==> c.id in bumped
    ensures var b := CountersOf(bumped, tier);
            CountersOf(bumped[tier[k].id := bumped[tier[k].id] - total], tier) == b[k := b[k] - total]
  {
  }

  lemma {:induction false} SumSnoc(s: seq<int>, i: nat)
    requires i < |s|
    ensures Sum(s[..i + 1]) == Sum(s[..i]) + s[i]
  {
    if i == 0 {
      assert s[..1] == [s[0]] + s[..0];
    } else {
      SumSnoc(s[1..], i - 1);
      assert s[..i + 1][1..] == s[1..][..i] && s[..i][1..] == s[1..][..i - 1];
    }
  }
}
