/** The week of day plans that plan_week builds and re-plans: total costs,
    the stable dearest-first sort, the initial rotation and the re-planning
    rounds that regenerate the dearest days with a cheap hint. make_day is an
    oracle here, so every property holds for any day maker. */
module Week {
  import opened Recipes

  const PROTEIN_ROTATION_DEFAULT: seq<string> := ["鶏むね肉", "豚肉", "豆腐", "鮭", "鶏もも肉", "卵", "さば"]
  const PROTEIN_ROTATION_CHEAP: seq<string> := ["鶏むね肉", "豆腐", "卵", "豚肉", "もやし入り", "鶏むね肉", "豆腐"]

  /** FEATURES["WEEK_REPLAN_ATTEMPTS"]. */
  const WEEK_REPLAN_ATTEMPTS: nat := 2

  /** make_day as the week planner sees it: for a protein hint, the cheap flag
      and the number of the call, a day with index 0. The application's day
      maker is Planner.MakeDay, specified by Planner.DayFor. */
  type DayMaker = (string, bool, nat) -> DayPlan

  // ------------------------------------------------------------------
  // Costs, day indices and the sort
  // ------------------------------------------------------------------

  /** sum(p.est_cost for p in plans). */
  function TotalCost(plans: seq<DayPlan>): int
  {
    if plans == [] then 0 else plans[0].estCost + TotalCost(plans[1..])
  }

  lemma {:induction false} TotalCostAppend(a: seq<DayPlan>, b: seq<DayPlan>)
    ensures TotalCost(a + b) == TotalCost(a) + TotalCost(b)
  {
    if a == [] {
      assert a + b == b;
    } else {
      assert (a + b)[1..] == a[1..] + b;
      TotalCostAppend(a[1..], b);
    }
  }

  /** Replacing one day changes the total by the difference of the two costs. */
  lemma {:induction false} TotalCostReplace(plans: seq<DayPlan>, j: nat, d: DayPlan)
    requires j < |plans|
    ensures TotalCost(plans[j := d]) == TotalCost(plans) - plans[j].estCost + d.estCost
  {
    if j > 0 {
      assert plans[j := d][1..] == plans[1..][j - 1 := d];
      TotalCostReplace(plans[1..], j - 1, d);
    }
  }

  /** The day indices the plans carry. */
  function IndexSet(plans: seq<DayPlan>): set<int>
  {
    if plans == [] then {} else {plans[0].dayIndex} + IndexSet(plans[1..])
  }

  /** An index is carried exactly when some day has it. */
  lemma {:induction false} IndexSetMembers(plans: seq<DayPlan>)
    ensures forall x :: x in IndexSet(plans) <==> exists p :: p in plans && p.dayIndex == x
  {
    if plans != [] {
      IndexSetMembers(plans[1..]);
      forall x ensures x in IndexSet(plans) <==> exists p :: p in plans && p.dayIndex == x {
        if x in IndexSet(plans[1..]) {
          var p :| p in plans[1..] && p.dayIndex == x;
          assert p in plans;
        }
        if exists p :: p in plans && p.dayIndex == x {
          var p :| p in plans && p.dayIndex == x;
          if p != plans[0] {
            var k :| 0 <= k < |plans| && plans[k] == p;
            assert plans[1..][k - 1] == p;
          }
        }
      }
    }
  }

  predicate NonIncreasing(plans: seq<DayPlan>)
  {
    forall i, j :: 0 <= i < j < |plans| ==> plans[i].estCost >= plans[j].estCost
  }

  /** Inserts d after every day that costs at least as much. */
  function InsertByCost(d: DayPlan, s: seq<DayPlan>): (r: seq<DayPlan>)
    ensures |r| == |s| + 1
  {
    if s == [] then [d]
    else if s[0].estCost >= d.estCost then [s[0]] + InsertByCost(d, s[1..])
    else [d] + s
  }

  /** Insertion adds exactly d, puts d or the old first day in front, and adds d's cost to the total. */
  lemma {:induction false} InsertByCostAdds(d: DayPlan, s: seq<DayPlan>)
    ensures multiset(InsertByCost(d, s)) == multiset(s) + multiset{d}
    ensures InsertByCost(d, s)[0] == d || (s != [] && InsertByCost(d, s)[0] == s[0])
    ensures TotalCost(InsertByCost(d, s)) == TotalCost(s) + d.estCost
  {
    var r := InsertByCost(d, s);
    if s != [] {
      if s[0].estCost >= d.estCost {
        InsertByCostAdds(d, s[1..]);
        assert s == [s[0]] + s[1..];
        assert r[1..] == InsertByCost(d, s[1..]);
      } else {
        assert r[1..] == s;
      }
    }
  }

  /** Insertion keeps a dearest-first order. */
  lemma {:induction false} InsertByCostSorted(d: DayPlan, s: seq<DayPlan>)
    requires NonIncreasing(s)
    ensures NonIncreasing(InsertByCost(d, s))
  {
    var r := InsertByCost(d, s);
    if s != [] && s[0].estCost >= d.estCost {
      var t := InsertByCost(d, s[1..]);
      NonIncreasingTail(s);
      InsertByCostSorted(d, s[1..]);
      forall k | 0 <= k < |s[1..]| ensures s[1..][k].estCost <= s[0].estCost {
        assert s[1..][k] == s[k + 1];
      }
      InsertByCostBounded(d, s[1..], s[0].estCost);
      assert r[1..] == t;
      forall j | 0 < j < |r| ensures r[0].estCost >= r[j].estCost {
        assert r[j] == t[j - 1];
      }
      SortedCons(r);
    } else if s != [] {
      assert r[1..] == s;
      SortedCons(r);
    }
  }

  /** Inserting a day no dearer than a bound into days no dearer than it
      keeps every day under the bound. */
  lemma {:induction false} InsertByCostBounded(d: DayPlan, s: seq<DayPlan>, c: int)
    requires d.estCost <= c && forall k :: 0 <= k < |s| ==> s[k].estCost <= c
    ensures forall k :: 0 <= k < |s| + 1 ==> InsertByCost(d, s)[k].estCost <= c
  {
    var r := InsertByCost(d, s);
    if s != [] && s[0].estCost >= d.estCost {
      var t := InsertByCost(d, s[1..]);
      forall k | 0 <= k < |s[1..]| ensures s[1..][k].estCost <= c {
        assert s[1..][k] == s[k + 1];
      }
      InsertByCostBounded(d, s[1..], c);
      forall k | 0 <= k < |r| ensures r[k].estCost <= c {
        if k > 0 {
          assert r[k] == t[k - 1];
        }
      }
    } else if s != [] {
      forall k | 0 <= k < |r| ensures r[k].estCost <= c {
        if k > 0 {
          assert r[k] == s[k - 1];
        }
      }
    }
  }

  lemma SortedCons(r: seq<DayPlan>)
    requires r != [] && NonIncreasing(r[1..])
    requires forall j :: 0 < j < |r| ==> r[0].estCost >= r[j].estCost
    ensures NonIncreasing(r)
  {
    forall i, j | 0 <= i < j < |r| ensures r[i].estCost >= r[j].estCost {
      if i > 0 {
        assert r[i] == r[1..][i - 1] && r[j] == r[1..][j - 1];
      }
    }
  }

  /** The days of the given cost, in their order. */
  function WithCost(s: seq<DayPlan>, c: int): seq<DayPlan>
  {
    if s == [] then [] else (if s[0].estCost == c then [s[0]] else []) + WithCost(s[1..], c)
  }

  lemma {:induction false} WithCostAppend(a: seq<DayPlan>, b: seq<DayPlan>, c: int)
    ensures WithCost(a + b, c) == WithCost(a, c) + WithCost(b, c)
  {
    if a == [] {
      assert a + b == b;
    } else {
      var h := if a[0].estCost == c then [a[0]] else [];
      assert (a + b)[0] == a[0];
      assert (a + b)[1..] == a[1..] + b;
      assert WithCost(a + b, c) == h + WithCost(a[1..] + b, c);
      WithCostAppend(a[1..], b, c);
      assert h + (WithCost(a[1..], c) + WithCost(b, c)) == (h + WithCost(a[1..], c)) + WithCost(b, c);
    }
  }

  lemma NonIncreasingTail(s: seq<DayPlan>)
    requires s != [] && NonIncreasing(s)
    ensures NonIncreasing(s[1..])
  {
    forall i, j | 0 <= i < j < |s[1..]| ensures s[1..][i].estCost >= s[1..][j].estCost {
      assert s[1..][i] == s[i + 1] && s[1..][j] == s[j + 1];
    }
  }

  /** A dearest-first week has no day of a cost above its first day's. */
  lemma {:induction false} WithCostAbove(s: seq<DayPlan>, c: int)
    requires NonIncreasing(s) && (s != [] ==> s[0].estCost < c)
    ensures WithCost(s, c) == []
  {
    if s != [] {
      if |s| > 1 {
        assert s[1..][0] == s[1];
      }
      WithCostAbove(s[1..], c);
    }
  }

  /** Insertion into a dearest-first week puts the day after every day of its own cost. */
  lemma {:induction false} InsertByCostStable(d: DayPlan, s: seq<DayPlan>, c: int)
    requires NonIncreasing(s)
    ensures WithCost(InsertByCost(d, s), c) == WithCost(s, c) + (if d.estCost == c then [d] else [])
  {
    var r := InsertByCost(d, s);
    var tail := if d.estCost == c then [d] else [];
    if s == [] {
      assert r == [d];
      assert r[1..] == [];
      assert WithCost(r, c) == tail + WithCost([], c);
    } else if s[0].estCost >= d.estCost {
      var h := if s[0].estCost == c then [s[0]] else [];
      assert r[0] == s[0];
      assert r[1..] == InsertByCost(d, s[1..]);
      assert WithCost(r, c) == h + WithCost(InsertByCost(d, s[1..]), c);
      NonIncreasingTail(s);
      InsertByCostStable(d, s[1..], c);
      assert h + (WithCost(s[1..], c) + tail) == (h + WithCost(s[1..], c)) + tail;
    } else {
      assert r[0] == d;
      assert r[1..] == s;
      assert WithCost(r, c) == tail + WithCost(s, c);
      if d.estCost == c {
        WithCostAbove(s, c);
      }
    }
  }

  /** One insertion step of the sort keeps the order among days of each cost. */
  lemma SortStepStable(init: seq<DayPlan>, sorted: seq<DayPlan>, d: DayPlan)
    requires NonIncreasing(sorted)
    requires forall c :: WithCost(sorted, c) == WithCost(init, c)
    ensures forall c :: WithCost(InsertByCost(d, sorted), c) == WithCost(init + [d], c)
  {
    forall c ensures WithCost(InsertByCost(d, sorted), c) == WithCost(init + [d], c) {
      InsertByCostStable(d, sorted, c);
      WithCostAppend(init, [d], c);
      assert [d][1..] == [];
    }
  }

  /** plans.sort(key=est_cost, reverse=True): a stable sort, dearest first.
      Python's sort is stable, so days of equal cost keep their order. */
  function SortByCostDesc(s: seq<DayPlan>): (r: seq<DayPlan>)
    ensures |r| == |s|
    ensures TotalCost(r) == TotalCost(s)
  {
    if s == [] then []
    else
      var init := s[..|s| - 1];
      assert s == init + [s[|s| - 1]];
      TotalCostAppend(init, [s[|s| - 1]]);
      InsertByCostAdds(s[|s| - 1], SortByCostDesc(init));
      InsertByCost(s[|s| - 1], SortByCostDesc(init))
  }

  /** The sort is a permutation of its input into dearest-first order. */
  lemma {:induction false} SortByCostDescSpec(s: seq<DayPlan>)
    ensures multiset(SortByCostDesc(s)) == multiset(s)
    ensures NonIncreasing(SortByCostDesc(s))
  {
    if s != [] {
      var init := s[..|s| - 1];
      assert s == init + [s[|s| - 1]];
      SortByCostDescSpec(init);
      InsertByCostAdds(s[|s| - 1], SortByCostDesc(init));
      InsertByCostSorted(s[|s| - 1], SortByCostDesc(init));
    }
  }

  /** The sort is stable, like Python's sort with reverse=True: the days of
      any one cost keep their relative order. */
  lemma {:induction false} SortByCostDescStable(s: seq<DayPlan>)
    ensures forall c :: WithCost(SortByCostDesc(s), c) == WithCost(s, c)
  {
    if s != [] {
      var init := s[..|s| - 1];
      assert s == init + [s[|s| - 1]];
      SortByCostDescStable(init);
      SortByCostDescSpec(init);
      SortStepStable(init, SortByCostDesc(init), s[|s| - 1]);
    }
  }

  /** Reordering keeps the day indices. */
  lemma SameElementsSameIndices(a: seq<DayPlan>, b: seq<DayPlan>)
    requires multiset(a) == multiset(b)
    ensures IndexSet(a) == IndexSet(b)
  {
    IndexSetMembers(a);
    IndexSetMembers(b);
    forall p ensures p in a <==> p in b {
      assert p in a <==> p in multiset(a);
    }
    forall x ensures x in IndexSet(a) <==> x in IndexSet(b) {
      if x in IndexSet(a) {
        var p :| p in a && p.dayIndex == x;
        assert p in b;
      }
      if x in IndexSet(b) {
        var p :| p in b && p.dayIndex == x;
        assert p in a;
      }
    }
  }

  /** Reordering keeps every day no dearer than initially. */
  lemma SameElementsNoDearer(a: seq<DayPlan>, b: seq<DayPlan>, initial: seq<DayPlan>)
    requires multiset(a) == multiset(b) && NoDearerThan(b, initial)
    ensures NoDearerThan(a, initial)
  {
    NoDearerThanEvery(a, initial);
    NoDearerThanEvery(b, initial);
    forall p | p in a ensures p in b {
      assert p in multiset(a);
    }
  }

  /** Replacing a day by one with the same index keeps the day indices. */
  lemma ReplaceKeepsIndices(plans: seq<DayPlan>, j: nat, d: DayPlan)
    requires j < |plans| && d.dayIndex == plans[j].dayIndex
    ensures IndexSet(plans[j := d]) == IndexSet(plans)
  {
    var q := plans[j := d];
    IndexSetMembers(q);
    IndexSetMembers(plans);
    forall x | x in IndexSet(q) ensures x in IndexSet(plans) {
      var p :| p in q && p.dayIndex == x;
      var k :| 0 <= k < |q| && q[k] == p;
      assert plans[k] in plans;
      if k == j {
        assert plans[j].dayIndex == x;
      } else {
        assert plans[k] == p;
      }
    }
    forall x | x in IndexSet(plans) ensures x in IndexSet(q) {
      var p :| p in plans && p.dayIndex == x;
      var k :| 0 <= k < |plans| && plans[k] == p;
      assert q[k] in q;
    }
  }

  lemma AppendIndex(plans: seq<DayPlan>, d: DayPlan)
    ensures IndexSet(plans + [d]) == IndexSet(plans) + {d.dayIndex}
  {
    IndexSetMembers(plans + [d]);
    IndexSetMembers(plans);
    forall x ensures x in IndexSet(plans + [d]) <==> x in IndexSet(plans) || x == d.dayIndex {
      if x in IndexSet(plans + [d]) {
        var p :| p in plans + [d] && p.dayIndex == x;
        assert p in plans || p == d;
      }
      if x in IndexSet(plans) {
        var p :| p in plans && p.dayIndex == x;
        assert p in plans + [d];
      }
      if x == d.dayIndex {
        assert d in plans + [d];
      }
    }
  }

  /** Every day of plans has a day of the same index in initial that costs at least as much. */
  predicate NoDearerThan(plans: seq<DayPlan>, initial: seq<DayPlan>)
  {
    plans == [] || (NotDearer(plans[0], initial) && NoDearerThan(plans[1..], initial))
  }

  /** Some day of initial has p's index and costs at least as much as p. */
  predicate NotDearer(p: DayPlan, initial: seq<DayPlan>)
  {
    exists q :: q in initial && q.dayIndex == p.dayIndex && p.estCost <= q.estCost
  }

  /** NoDearerThan holds exactly when it holds of every day. */
  lemma {:induction false} NoDearerThanEvery(plans: seq<DayPlan>, initial: seq<DayPlan>)
    ensures NoDearerThan(plans, initial) <==> forall p :: p in plans ==> NotDearer(p, initial)
  {
    if plans != [] {
      NoDearerThanEvery(plans[1..], initial);
      assert forall p :: p in plans <==> p == plans[0] || p in plans[1..];
    }
  }

  /** The set {1, ..., n}. */
  function DayRange(n: int): (r: set<int>)
    ensures forall d :: d in r <==> 1 <= d <= n
    decreases n
  {
    if n <= 0 then {} else DayRange(n - 1) + {n}
  }

  // ------------------------------------------------------------------
  // The initial week
  // ------------------------------------------------------------------

  /** The first n days: day i+1 is made from the i-th hint of the rotation, not cheap, on call i. */
  function InitialPlans(makeDay: DayMaker, rotation: seq<string>, n: nat): (r: seq<DayPlan>)
    requires rotation != []
    ensures |r| == n
  {
    if n == 0 then []
    else
      InitialPlans(makeDay, rotation, n - 1) + [InitialDay(makeDay, rotation, n - 1)]
  }

  /** Day i+1 of the initial week: made from the i-th hint of the rotation, not cheap, on call i. */
  function InitialDay(makeDay: DayMaker, rotation: seq<string>, i: nat): (d: DayPlan)
    requires rotation != []
    ensures d.dayIndex == i + 1
  {
    makeDay(rotation[i % |rotation|], false, i).(dayIndex := i + 1)
  }

  lemma {:induction false} InitialIndices(makeDay: DayMaker, rotation: seq<string>, n: nat)
    requires rotation != []
    ensures IndexSet(InitialPlans(makeDay, rotation, n)) == DayRange(n)
  {
    if n > 0 {
      InitialIndices(makeDay, rotation, n - 1);
      AppendIndex(InitialPlans(makeDay, rotation, n - 1), InitialDay(makeDay, rotation, n - 1));
    }
  }

  lemma NoDearerThanSelf(plans: seq<DayPlan>)
    ensures NoDearerThan(plans, plans)
  {
    NoDearerThanEvery(plans, plans);
    forall p | p in plans ensures NotDearer(p, plans) {
    }
  }

  /** The first loop of plan_week: day i+1 from the i-th rotation hint. */
  method InitialWeek(makeDay: DayMaker, rotation: seq<string>, n: nat) returns (plans: seq<DayPlan>)
    requires rotation != []
    ensures plans == InitialPlans(makeDay, rotation, n)
  {
    plans := [];
    for i := 0 to n
      invariant plans == InitialPlans(makeDay, rotation, i)
    {
      var hint := rotation[i % |rotation|];
      var dp := makeDay(hint, false, i);
      dp := dp.(dayIndex := i + 1);
      plans := plans + [dp];
    }
  }

  // ------------------------------------------------------------------
  // Re-planning towards the budget
  // ------------------------------------------------------------------

  /** The day regenerated for day index i on generator call number call: the
      cheap rotation's hint for that index, the cheap flag, and index i. */
  function CheapDay(makeDay: DayMaker, i: int, call: nat): (d: DayPlan)
    ensures d.dayIndex == i
  {
    makeDay(PROTEIN_ROTATION_CHEAP[(i - 1) % |PROTEIN_ROTATION_CHEAP|], true, call).(dayIndex := i)
  }

  /** The day a round keeps in place of day: its regeneration when strictly cheaper. */
  function KeepCheaper(makeDay: DayMaker, day: DayPlan, call: nat): DayPlan
  {
    var d := CheapDay(makeDay, day.dayIndex, call);
    if d.estCost < day.estCost then d else day
  }

  /** Whether position k of the sorted week gets replaced in a round starting at call. */
  predicate Improves(makeDay: DayMaker, sorted: seq<DayPlan>, call: nat, k: nat)
    requires k < |sorted|
  {
    CheapDay(makeDay, sorted[k].dayIndex, call + k).estCost < sorted[k].estCost
  }

  /** The inner loop of a round after its first j positions, over the sorted
      week: the week so far and whether a day was replaced. Position k is
      regenerated on call number call + k. */
  function RoundPrefix(makeDay: DayMaker, sorted: seq<DayPlan>, call: nat, j: nat): (r: (seq<DayPlan>, bool))
    requires j <= |sorted|
    ensures |r.0| == |sorted|
    ensures forall k :: j <= k < |sorted| ==> r.0[k] == sorted[k]
  {
    if j == 0 then (sorted, false)
    else
      var prev := RoundPrefix(makeDay, sorted, call, j - 1);
      var d := CheapDay(makeDay, sorted[j - 1].dayIndex, call + j - 1);
      if d.estCost < sorted[j - 1].estCost then (prev.0[j - 1 := d], true) else prev
  }

  /** The number of days a round regenerates: min(2, len(plans)). */
  function RoundSize(week: seq<DayPlan>): (m: nat)
    ensures m <= |week| && m <= 2
  {
    if 2 <= |week| then 2 else |week|
  }

  /** One re-planning round from generator call number call: the week sorted
      dearest first, its first RoundSize days regenerated, whether one was
      replaced, and the next call number. */
  function RoundOf(makeDay: DayMaker, week: seq<DayPlan>, call: nat): (seq<DayPlan>, bool, nat)
  {
    var sorted := SortByCostDesc(week);
    var r := RoundPrefix(makeDay, sorted, call, RoundSize(week));
    (r.0, r.1, call + RoundSize(week))
  }

  /** After j positions each of them holds the cheaper of the sorted day and
      its regeneration, and a replacement was reported exactly when one of
      them improved. */
  lemma {:induction false} RoundPrefixSpec(makeDay: DayMaker, sorted: seq<DayPlan>, call: nat, j: nat)
    requires j <= |sorted|
    ensures forall k :: 0 <= k < j ==> RoundPrefix(makeDay, sorted, call, j).0[k] == KeepCheaper(makeDay, sorted[k], call + k)
    ensures RoundPrefix(makeDay, sorted, call, j).1 <==> exists k :: 0 <= k < j && Improves(makeDay, sorted, call, k)
  {
    if j > 0 {
      RoundPrefixSpec(makeDay, sorted, call, j - 1);
      var prev := RoundPrefix(makeDay, sorted, call, j - 1);
      assert prev.0[j - 1] == sorted[j - 1];
      if Improves(makeDay, sorted, call, j - 1) {
        assert RoundPrefix(makeDay, sorted, call, j).1;
      } else {
        assert RoundPrefix(makeDay, sorted, call, j) == prev;
      }
    }
  }

  /** After j positions the days keep their indices. */
  lemma {:induction false} RoundPrefixIndices(makeDay: DayMaker, sorted: seq<DayPlan>, call: nat, j: nat)
    requires j <= |sorted|
    ensures IndexSet(RoundPrefix(makeDay, sorted, call, j).0) == IndexSet(sorted)
  {
    if j > 0 {
      RoundPrefixIndices(makeDay, sorted, call, j - 1);
      var prev := RoundPrefix(makeDay, sorted, call, j - 1).0;
      var d := CheapDay(makeDay, sorted[j - 1].dayIndex, call + j - 1);
      if d.estCost < sorted[j - 1].estCost {
        ReplaceKeepsIndices(prev, j - 1, d);
      }
    }
  }

  /** After j positions no day is dearer than the day of its index in the sorted week. */
  lemma {:induction false} RoundPrefixNoDearer(makeDay: DayMaker, sorted: seq<DayPlan>, call: nat, j: nat)
    requires j <= |sorted|
    ensures NoDearerThan(RoundPrefix(makeDay, sorted, call, j).0, sorted)
  {
    if j == 0 {
      NoDearerThanSelf(sorted);
    } else {
      RoundPrefixNoDearer(makeDay, sorted, call, j - 1);
      var prev := RoundPrefix(makeDay, sorted, call, j - 1).0;
      var d := CheapDay(makeDay, sorted[j - 1].dayIndex, call + j - 1);
      if d.estCost < sorted[j - 1].estCost {
        ReplaceStaysCheap(prev, sorted, j - 1, d);
      }
    }
  }

  /** After j positions the total has fallen exactly when a day was replaced,
      and with no replacement the week is the sorted week. */
  lemma {:induction false} RoundPrefixTotal(makeDay: DayMaker, sorted: seq<DayPlan>, call: nat, j: nat)
    requires j <= |sorted|
    ensures var r := RoundPrefix(makeDay, sorted, call, j);
      && TotalCost(r.0) <= TotalCost(sorted)
      && (r.1 ==> TotalCost(r.0) < TotalCost(sorted))
      && (!r.1 ==> r.0 == sorted)
  {
    if j > 0 {
      RoundPrefixTotal(makeDay, sorted, call, j - 1);
      var prev := RoundPrefix(makeDay, sorted, call, j - 1).0;
      var d := CheapDay(makeDay, sorted[j - 1].dayIndex, call + j - 1);
      if d.estCost < sorted[j - 1].estCost {
        TotalCostReplace(prev, j - 1, d);
      }
    }
  }

  /** What a round computes: the week sorted dearest first (stably), each of
      its first min(2, n) days replaced by its cheap regeneration exactly when
      that is strictly cheaper, the rest as sorted; a change is reported
      exactly when a day was replaced; the round uses one call per
      regenerated day. */
  lemma RoundOfSpec(makeDay: DayMaker, week: seq<DayPlan>, call: nat)
    ensures var sorted := SortByCostDesc(week);
      var r := RoundOf(makeDay, week, call);
      && |r.0| == |week|
      && (forall k :: 0 <= k < RoundSize(week) ==> r.0[k] == KeepCheaper(makeDay, sorted[k], call + k))
      && (forall k :: RoundSize(week) <= k < |week| ==> r.0[k] == sorted[k])
      && (r.1 <==> exists k :: 0 <= k < RoundSize(week) && Improves(makeDay, sorted, call, k))
      && r.2 == call + RoundSize(week)
  {
    RoundPrefixSpec(makeDay, SortByCostDesc(week), call, RoundSize(week));
  }

  /** A round keeps the number of days and makes at most two generator calls. */
  lemma RoundOfShape(makeDay: DayMaker, week: seq<DayPlan>, call: nat)
    ensures |RoundOf(makeDay, week, call).0| == |week|
    ensures call <= RoundOf(makeDay, week, call).2 <= call + 2
  {
  }

  /** A round keeps the number of days and their indices. */
  lemma RoundOfIndices(makeDay: DayMaker, week: seq<DayPlan>, call: nat)
    ensures var r := RoundOf(makeDay, week, call);
      |r.0| == |week| && IndexSet(r.0) == IndexSet(week)
  {
    var sorted := SortByCostDesc(week);
    RoundPrefixIndices(makeDay, sorted, call, RoundSize(week));
    SortByCostDescSpec(week);
    SameElementsSameIndices(sorted, week);
  }

  /** A round makes no day dearer than the day of its index before the round. */
  lemma RoundOfNoDearer(makeDay: DayMaker, week: seq<DayPlan>, call: nat)
    ensures NoDearerThan(RoundOf(makeDay, week, call).0, week)
  {
    var sorted := SortByCostDesc(week);
    RoundPrefixNoDearer(makeDay, sorted, call, RoundSize(week));
    NoDearerThanSelf(week);
    SortByCostDescSpec(week);
    SameElementsNoDearer(sorted, week, week);
    NoDearerThanTrans(RoundOf(makeDay, week, call).0, sorted, week);
  }

  /** A round lowers the total exactly when it reports a change, without a
      change leaves the sorted week, and makes at most two generator calls. */
  lemma RoundOfTotal(makeDay: DayMaker, week: seq<DayPlan>, call: nat)
    ensures var r := RoundOf(makeDay, week, call);
      && TotalCost(r.0) <= TotalCost(week)
      && (r.1 ==> TotalCost(r.0) < TotalCost(week))
      && (!r.1 ==> r.0 == SortByCostDesc(week))
      && call <= r.2 <= call + 2
  {
    RoundPrefixTotal(makeDay, SortByCostDesc(week), call, RoundSize(week));
  }

  /** One re-planning round (the body of the attempts loop of plan_week). */
  method ReplanRound(makeDay: DayMaker, week: seq<DayPlan>, call: nat)
    returns (plans: seq<DayPlan>, changed: bool, nextCall: nat)
    ensures (plans, changed, nextCall) == RoundOf(makeDay, week, call)
  {
    var sorted := SortByCostDesc(week);
    plans := sorted;
    changed := false;
    nextCall := call;
    for j := 0 to if 2 <= |plans| then 2 else |plans|
      invariant (plans, changed) == RoundPrefix(makeDay, sorted, call, j)
      invariant nextCall == call + j
    {
      var i := plans[j].dayIndex;
      var cheapProtein := PROTEIN_ROTATION_CHEAP[(i - 1) % |PROTEIN_ROTATION_CHEAP|];
      var newDp := makeDay(cheapProtein, true, nextCall);
      nextCall := nextCall + 1;
      newDp := newDp.(dayIndex := i);
      if newDp.estCost < plans[j].estCost {
        plans := plans[j := newDp];
        changed := true;
      }
    }
  }

  /** Being no dearer than a week that is no dearer than the initial week. */
  lemma NoDearerThanTrans(a: seq<DayPlan>, b: seq<DayPlan>, c: seq<DayPlan>)
    requires NoDearerThan(a, b) && NoDearerThan(b, c)
    ensures NoDearerThan(a, c)
  {
    NoDearerThanEvery(a, b);
    NoDearerThanEvery(b, c);
    NoDearerThanEvery(a, c);
    forall p | p in a ensures NotDearer(p, c) {
      var q1 :| q1 in b && q1.dayIndex == p.dayIndex && p.estCost <= q1.estCost;
      var q2 :| q2 in c && q2.dayIndex == q1.dayIndex && q1.estCost <= q2.estCost;
    }
  }

  /** The re-planning loop with the given number of attempts left, from
      generator call number call: the week, its total and the next call number.
      A round that brings the total within the budget or changes nothing ends
      it; otherwise the next attempt starts from the round's week. The total
      reported is the sum of the costs, and each attempt makes at most two
      generator calls. */
  function ReplanOf(makeDay: DayMaker, week: seq<DayPlan>, budget: int, call: nat, attempts: nat): (res: (seq<DayPlan>, int, nat))
    ensures |res.0| == |week| && res.1 == TotalCost(res.0)
    ensures call <= res.2 <= call + 2 * attempts
    decreases attempts
  {
    if attempts == 0 then (week, TotalCost(week), call)
    else
      var r := RoundOf(makeDay, week, call);
      RoundOfShape(makeDay, week, call);
      if TotalCost(r.0) <= budget || !r.1 then (r.0, TotalCost(r.0), r.2)
      else ReplanOf(makeDay, r.0, budget, r.2, attempts - 1)
  }

  /** Re-planning keeps the day indices. */
  lemma {:induction false} ReplanOfIndices(makeDay: DayMaker, week: seq<DayPlan>, budget: int, call: nat, attempts: nat)
    ensures IndexSet(ReplanOf(makeDay, week, budget, call, attempts).0) == IndexSet(week)
    decreases attempts
  {
    if attempts > 0 {
      var r := RoundOf(makeDay, week, call);
      RoundOfIndices(makeDay, week, call);
      if !(TotalCost(r.0) <= budget || !r.1) {
        ReplanOfIndices(makeDay, r.0, budget, r.2, attempts - 1);
      }
    }
  }

  /** Re-planning makes no day dearer than the day of its index in the
      starting week, and never raises the total. */
  lemma {:induction false} ReplanOfNoDearer(makeDay: DayMaker, week: seq<DayPlan>, budget: int, call: nat, attempts: nat)
    ensures NoDearerThan(ReplanOf(makeDay, week, budget, call, attempts).0, week)
    decreases attempts
  {
    if attempts == 0 {
      NoDearerThanSelf(week);
    } else {
      var r := RoundOf(makeDay, week, call);
      var res := ReplanOf(makeDay, week, budget, call, attempts);
      RoundOfNoDearer(makeDay, week, call);
      if TotalCost(r.0) <= budget || !r.1 {
        assert res.0 == r.0;
      } else {
        var rest := ReplanOf(makeDay, r.0, budget, r.2, attempts - 1);
        assert res == rest;
        ReplanOfNoDearer(makeDay, r.0, budget, r.2, attempts - 1);
        NoDearerThanTrans(rest.0, r.0, week);
      }
    }
  }

  lemma {:induction false} ReplanOfCheaper(makeDay: DayMaker, week: seq<DayPlan>, budget: int, call: nat, attempts: nat)
    ensures TotalCost(ReplanOf(makeDay, week, budget, call, attempts).0) <= TotalCost(week)
    decreases attempts
  {
    var res := ReplanOf(makeDay, week, budget, call, attempts);
    if attempts == 0 {
      assert res.0 == week;
    } else {
      var r := RoundOf(makeDay, week, call);
      RoundOfTotal(makeDay, week, call);
      assert TotalCost(r.0) <= TotalCost(week);
      if TotalCost(r.0) <= budget || !r.1 {
        assert res.0 == r.0;
      } else {
        var rest := ReplanOf(makeDay, r.0, budget, r.2, attempts - 1);
        assert res == rest;
        ReplanOfCheaper(makeDay, r.0, budget, r.2, attempts - 1);
        assert TotalCost(rest.0) <= TotalCost(r.0);
      }
    }
  }

  /** The re-planning loop of plan_week, from a week over the budget: up to
      WEEK_REPLAN_ATTEMPTS rounds, stopping once the total fits or a round
      changes nothing. */
  method Replan(makeDay: DayMaker, week: seq<DayPlan>, budget: int, call: nat)
    returns (plans: seq<DayPlan>, total: int, next: nat)
    ensures (plans, total, next) == ReplanOf(makeDay, week, budget, call, WEEK_REPLAN_ATTEMPTS)
  {
    plans := week;
    total := TotalCost(plans);
    next := call;
    for attempt := 0 to WEEK_REPLAN_ATTEMPTS
      invariant ReplanOf(makeDay, plans, budget, next, WEEK_REPLAN_ATTEMPTS - attempt)
        == ReplanOf(makeDay, week, budget, call, WEEK_REPLAN_ATTEMPTS)
      invariant total == TotalCost(plans)
    {
      var changed;
      plans, changed, next := ReplanRound(makeDay, plans, next);
      total := TotalCost(plans);
      if total <= budget {
        break;
      }
      if !changed {
        break;
      }
    }
  }

  /** The week plan_week returns for n days: the initial week when it fits
      the budget, else the re-planned one, whose generator calls are numbered
      after the n calls of the initial week. */
  function WeekPlanOf(makeDay: DayMaker, rotation: seq<string>, n: nat, budget: int): seq<DayPlan>
    requires rotation != []
  {
    var initial := InitialPlans(makeDay, rotation, n);
    if TotalCost(initial) <= budget then initial
    else ReplanOf(makeDay, initial, budget, n, WEEK_REPLAN_ATTEMPTS).0
  }

  /** The planned week has n days with the indices 1..n. */
  lemma WeekPlanOfIndices(makeDay: DayMaker, rotation: seq<string>, n: nat, budget: int)
    requires rotation != []
    ensures var plans := WeekPlanOf(makeDay, rotation, n, budget);
      |plans| == n && IndexSet(plans) == DayRange(n)
  {
    InitialIndices(makeDay, rotation, n);
    ReplanOfIndices(makeDay, InitialPlans(makeDay, rotation, n), budget, n, WEEK_REPLAN_ATTEMPTS);
  }

  /** No day of the planned week is dearer than the initial day of its index,
      the total is no higher than the initial total, and the week is the
      initial one whenever that fits the budget. */
  lemma WeekPlanOfCheaper(makeDay: DayMaker, rotation: seq<string>, n: nat, budget: int)
    requires rotation != []
    ensures var initial := InitialPlans(makeDay, rotation, n);
      var plans := WeekPlanOf(makeDay, rotation, n, budget);
      && NoDearerThan(plans, initial)
      && TotalCost(plans) <= TotalCost(initial)
      && (TotalCost(initial) <= budget ==> plans == initial)
  {
    var initial := InitialPlans(makeDay, rotation, n);
    NoDearerThanSelf(initial);
    ReplanOfNoDearer(makeDay, initial, budget, n, WEEK_REPLAN_ATTEMPTS);
    ReplanOfCheaper(makeDay, initial, budget, n, WEEK_REPLAN_ATTEMPTS);
  }

  /** A strictly cheaper day with the same index keeps every day no dearer than initially. */
  lemma ReplaceStaysCheap(plans: seq<DayPlan>, initial: seq<DayPlan>, j: nat, d: DayPlan)
    requires j < |plans| && NoDearerThan(plans, initial)
    requires d.dayIndex == plans[j].dayIndex && d.estCost < plans[j].estCost
    ensures NoDearerThan(plans[j := d], initial)
  {
    NoDearerThanEvery(plans, initial);
    NoDearerThanEvery(plans[j := d], initial);
    forall p | p in plans[j := d] ensures NotDearer(p, initial) {
      var k :| 0 <= k < |plans[j := d]| && plans[j := d][k] == p;
      if k == j {
        assert plans[j] in plans;
      } else {
        assert plans[k] in plans;
      }
    }
  }
}
