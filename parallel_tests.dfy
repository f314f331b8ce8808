/** Greedy assignment of timed tests to parallel buckets
    (tests/run-parallel-tests.ts): the timing file is read two lines per test,
    and each test goes to the bucket with the least accumulated time.
    Timings are whole milliseconds; converting the text with `Number` is the
    parameter `toMillis`. */
module ParallelTests {
  import opened JsStrings

  datatype Timing = Timing(realMs: nat, userMs: nat, sysMs: nat)

  datatype TestTiming = TestTiming(name: string, timing: Timing)

  // ----- Reading timing.txt -----

  /** The lines of timing.txt: the trimmed text split at newlines. */
  function TimingLines(text: string): (lines: seq<string>)
    ensures |lines| > 0
    ensures forall i :: 0 <= i < |lines| ==> '\n' !in lines[i]
  {
    SplitJoinsBack(Trim(text), '\n');
    Split(Trim(text), '\n')
  }

  /** Field `n` of a split timing line; a missing field reaches `toMillis` as "". */
  function Field(fields: seq<string>, n: nat): string {
    if n < |fields| then fields[n] else ""
  }

  /** The record one pair of lines describes: the trimmed name, and fields
      0, 2 and 4 of the timing line as real, user and sys time. */
  function PairRecord(nameLine: string, timingLine: string, toMillis: string -> nat): (r: TestTiming)
    ensures |r.name| <= |nameLine|
    ensures r.name == [] || (!IsWhitespace(r.name[0]) && !IsWhitespace(r.name[|r.name| - 1]))
    ensures var fields := Fields(timingLine);
      r.timing == Timing(toMillis(Field(fields, 0)), toMillis(Field(fields, 2)), toMillis(Field(fields, 4)))
  {
    var fields := Fields(timingLine);
    TrimEnds(nameLine);
    TestTiming(Trim(nameLine),
      Timing(toMillis(Field(fields, 0)), toMillis(Field(fields, 2)), toMillis(Field(fields, 4))))
  }

  /** The names of the records. */
  function Names(timings: seq<TestTiming>): set<string> {
    if timings == [] then {} else Names(timings[..|timings| - 1]) + {timings[|timings| - 1].name}
  }

  /** A name is recorded exactly when some record carries it. */
  lemma {:induction false} NamesAreRecordNames(timings: seq<TestTiming>, x: string)
    ensures x in Names(timings) <==> exists k :: 0 <= k < |timings| && timings[k].name == x
  {
    if timings != [] {
      var prefix := timings[..|timings| - 1];
      NamesAreRecordNames(prefix, x);
      if x in Names(prefix) {
        var k :| 0 <= k < |prefix| && prefix[k].name == x;
        assert timings[k].name == x;
      }
      if exists k :: 0 <= k < |timings| && timings[k].name == x {
        var k :| 0 <= k < |timings| && timings[k].name == x;
        if k < |prefix| {
          assert prefix[k].name == x;
        }
      }
    }
  }

  /** The records `parse` makes of the first `n` pairs of lines. */
  function Pairs(lines: seq<string>, n: nat, parse: (string, string) -> TestTiming): (records: seq<TestTiming>)
    requires 2 * n <= |lines|
    ensures |records| == n
  {
    if n == 0 then []
    else Pairs(lines, n - 1, parse) + [parse(lines[2 * n - 2], lines[2 * n - 1])]
  }

  /** Record k comes from lines 2k and 2k + 1. */
  lemma {:induction false} PairsFromLines(lines: seq<string>, n: nat, parse: (string, string) -> TestTiming)
    requires 2 * n <= |lines|
    ensures forall k :: 0 <= k < n ==> Pairs(lines, n, parse)[k] == parse(lines[2 * k], lines[2 * k + 1])
  {
    if n > 0 {
      PairsFromLines(lines, n - 1, parse);
      var prefix := Pairs(lines, n - 1, parse);
      assert Pairs(lines, n, parse)[..n - 1] == prefix;
    }
  }

  /** The loop over the lines, two at a time: one record per pair, every
      name recorded. With an odd number of lines the last read of
      `lines[i + 1]` fails (`ok` is false) after the complete pairs. */
  method ReadPairs(lines: seq<string>, parse: (string, string) -> TestTiming)
    returns (ok: bool, timings: seq<TestTiming>, timedTests: set<string>)
    ensures |lines| == 2 * |timings| + (if ok then 0 else 1)
    ensures timings == Pairs(lines, |timings|, parse)
    ensures ok ==> timedTests == Names(timings)
  {
    timings, timedTests := [], {};
    var i := 0;
    while i < |lines|
      invariant 0 <= i <= |lines| && i == 2 * |timings|
      invariant timings == Pairs(lines, |timings|, parse)
      invariant timedTests == Names(timings)
    {
      if i + 1 >= |lines| {
        return false, timings, timedTests;
      }
      var record := parse(lines[i], lines[i + 1]);
      timings := timings + [record];
      timedTests := timedTests + {record.name};
      i := i + 2;
    }
    ok := true;
  }

  /** The parse of timing.txt: record k is made from lines 2k and 2k + 1. */
  method ParseTimings(text: string, toMillis: string -> nat)
    returns (ok: bool, timings: seq<TestTiming>, timedTests: set<string>)
    ensures var lines := TimingLines(text);
      && |lines| == 2 * |timings| + (if ok then 0 else 1)
      && forall k :: 0 <= k < |timings| ==>
           timings[k] == PairRecord(lines[2 * k], lines[2 * k + 1], toMillis)
    ensures ok ==> timedTests == Names(timings)
  {
    var lines := TimingLines(text);
    var parse := (nameLine, timingLine) => PairRecord(nameLine, timingLine, toMillis);
    ok, timings, timedTests := ReadPairs(lines, parse);
    PairsFromLines(lines, |timings|, parse);
  }

  // ----- argmin -----

  /** The running minimum of `argmin`, which starts at Infinity. */
  datatype Bound = Finite(value: nat) | Infinity

  predicate Below(x: nat, b: Bound) {
    b.Infinity? || x < b.value
  }

  /** `s[i]` is a minimum of `s` and every earlier element is larger. */
  predicate IsFirstMin(s: seq<nat>, i: int) {
    && 0 <= i < |s|
    && (forall j :: 0 <= j < |s| ==> s[i] <= s[j])
    && (forall j :: 0 <= j < i ==> s[i] < s[j])
  }

  /** There is only one first minimum. */
  lemma FirstMinUnique(s: seq<nat>, i: int, k: int)
    requires IsFirstMin(s, i) && IsFirstMin(s, k)
    ensures i == k
  {
    // both are minima, so neither can lie strictly before the other
    assert s[i] <= s[k] && s[k] <= s[i];
  }

  /** The first minimum of a non-empty sequence, as `argmin` computes it. */
  function FirstMinIndex(s: seq<nat>): (i: nat)
    requires |s| > 0
    ensures i < |s|
  {
    if |s| == 1 then 0
    else
      var k := FirstMinIndex(s[..|s| - 1]);
      if s[|s| - 1] < s[k] then |s| - 1 else k
  }

  lemma {:induction false} FirstMinIndexIsFirstMin(s: seq<nat>)
    requires |s| > 0
    ensures IsFirstMin(s, FirstMinIndex(s))
  {
    if |s| > 1 {
      var init := s[..|s| - 1];
      FirstMinIndexIsFirstMin(init);
      assert forall j :: 0 <= j < |init| ==> init[j] == s[j];
    }
  }

  /** -1 for an empty array, otherwise the first index holding the minimum
      (the comparison is strict, so ties keep the earlier index). */
  method Argmin(a: array<nat>) returns (best: int)
    ensures a.Length == 0 ==> best == -1
    ensures a.Length > 0 ==> IsFirstMin(a[..], best)
  {
    best := -1;
    var bestValue := Infinity;
    for i := 0 to a.Length
      invariant i == 0 ==> best == -1 && bestValue == Infinity
      invariant i > 0 ==> IsFirstMin(a[..i], best) && bestValue == Finite(a[best])
    {
      if Below(a[i], bestValue) {
        best := i;
        bestValue := Finite(a[i]);
      }
    }
    assert a[..a.Length] == a[..];
  }

  // ----- The schedule as a value -----

  /** The buckets, their loads, and the bucket each test went to, in input order. */
  datatype Plan = Plan(buckets: seq<seq<TestTiming>>, loads: seq<nat>, choices: seq<nat>)

  /** `n` empty buckets, every load 0. */
  function InitialPlan(n: nat): (p: Plan)
    ensures |p.buckets| == n && |p.loads| == n && p.choices == []
    ensures forall i :: 0 <= i < n ==> p.buckets[i] == [] && p.loads[i] == 0
  {
    Plan(seq(n, _ => []), seq(n, _ => 0), [])
  }

  /** One greedy step: `t` joins the first least-loaded bucket, whose load
      grows by `t`'s real time. */
  function Step(p: Plan, t: TestTiming): Plan
    requires |p.buckets| == |p.loads| > 0
  {
    var ix := FirstMinIndex(p.loads);
    Plan(p.buckets[ix := p.buckets[ix] + [t]],
         p.loads[ix := p.loads[ix] + t.timing.realMs],
         p.choices + [ix])
  }

  /** A step records its choice after the earlier ones; the chosen bucket is
      the first least-loaded one, it alone gains `t` and its real time, and
      every other bucket and load stays as it was. */
  lemma StepIsGreedy(p: Plan, t: TestTiming)
    requires |p.buckets| == |p.loads| > 0
    ensures var r := Step(p, t);
      && |r.choices| == |p.choices| + 1 && r.choices[..|p.choices|] == p.choices
      && var ix := r.choices[|p.choices|];
      && IsFirstMin(p.loads, ix)
      && |r.buckets| == |p.buckets| && |r.loads| == |p.loads|
      && r.buckets[ix] == p.buckets[ix] + [t]
      && r.loads[ix] == p.loads[ix] + t.timing.realMs
      && (forall j :: 0 <= j < |p.buckets| && j != ix ==> r.buckets[j] == p.buckets[j] && r.loads[j] == p.loads[j])
  {
    FirstMinIndexIsFirstMin(p.loads);
  }

  /** The schedule the script builds for `ts` over `n` buckets. With no bucket
      at all only an empty list can be scheduled. */
  function PlanFor(ts: seq<TestTiming>, n: nat): (p: Plan)
    requires n > 0 || ts == []
    ensures |p.buckets| == n && |p.loads| == n && |p.choices| == |ts|
    decreases |ts|
  {
    if ts == [] then InitialPlan(n) else Step(PlanFor(ts[..|ts| - 1], n), ts[|ts| - 1])
  }

  function TotalReal(ts: seq<TestTiming>): nat {
    if ts == [] then 0 else TotalReal(ts[..|ts| - 1]) + ts[|ts| - 1].timing.realMs
  }

  function Sum(s: seq<nat>): nat {
    if s == [] then 0 else Sum(s[..|s| - 1]) + s[|s| - 1]
  }

  /** The tests sent to bucket `b`, in input order. */
  function Pick(ts: seq<TestTiming>, choices: seq<nat>, b: nat): seq<TestTiming>
    requires |choices| == |ts|
  {
    if ts == [] then []
    else Pick(ts[..|ts| - 1], choices[..|ts| - 1], b)
         + (if choices[|ts| - 1] == b then [ts[|ts| - 1]] else [])
  }

  function Flatten(bs: seq<seq<TestTiming>>): seq<TestTiming> {
    if bs == [] then [] else bs[0] + Flatten(bs[1..])
  }

  lemma {:induction false} SumUpdate(s: seq<nat>, i: nat, x: nat)
    requires i < |s|
    ensures Sum(s[i := s[i] + x]) == Sum(s) + x
  {
    var u := s[i := s[i] + x];
    if i < |s| - 1 {
      assert u[..|u| - 1] == s[..|s| - 1][i := s[i] + x];
      SumUpdate(s[..|s| - 1], i, x);
    } else {
      assert u[..|u| - 1] == s[..|s| - 1];
    }
  }

  lemma {:induction false} FlattenUpdate(bs: seq<seq<TestTiming>>, i: nat, t: TestTiming)
    requires i < |bs|
    ensures multiset(Flatten(bs[i := bs[i] + [t]])) == multiset(Flatten(bs)) + multiset{t}
  {
    var u := bs[i := bs[i] + [t]];
    if i > 0 {
      assert u[1..] == bs[1..][i - 1 := bs[i] + [t]];
      FlattenUpdate(bs[1..], i - 1, t);
    } else {
      assert u[1..] == bs[1..];
    }
  }

  lemma {:induction false} FlattenEmpties(bs: seq<seq<TestTiming>>)
    requires forall k :: 0 <= k < |bs| ==> bs[k] == []
    ensures Flatten(bs) == []
  {
    if bs != [] {
      FlattenEmpties(bs[1..]);
    }
  }

  lemma {:induction false} SumZeros(s: seq<nat>)
    requires forall k :: 0 <= k < |s| ==> s[k] == 0
    ensures Sum(s) == 0
  {
    if s != [] {
      SumZeros(s[..|s| - 1]);
    }
  }

  lemma MultisetOfSnoc(ts: seq<TestTiming>)
    requires ts != []
    ensures multiset(ts) == multiset(ts[..|ts| - 1]) + multiset{ts[|ts| - 1]}
  {
    assert ts == ts[..|ts| - 1] + [ts[|ts| - 1]];
  }

  // ----- What the schedule satisfies -----

  /** Every bucket's load is the total real time of the tests in it. */
  lemma {:induction false} PlanLoadsAreBucketTimes(ts: seq<TestTiming>, n: nat)
    requires n > 0 || ts == []
    ensures forall b :: 0 <= b < n ==> PlanFor(ts, n).loads[b] == TotalReal(PlanFor(ts, n).buckets[b])
  {
    if ts != [] {
      var prefix := ts[..|ts| - 1];
      var t := ts[|ts| - 1];
      PlanLoadsAreBucketTimes(prefix, n);
      var p := PlanFor(prefix, n);
      var ix := FirstMinIndex(p.loads);
      assert (p.buckets[ix] + [t])[..|p.buckets[ix]|] == p.buckets[ix];
    }
  }

  /** Bucket `b` holds exactly the tests whose choice is `b`, in input order;
      so every test sits in exactly one bucket. */
  lemma {:induction false} PlanBucketsFollowChoices(ts: seq<TestTiming>, n: nat)
    requires n > 0 || ts == []
    ensures forall b :: 0 <= b < n ==> PlanFor(ts, n).buckets[b] == Pick(ts, PlanFor(ts, n).choices, b)
  {
    if ts != [] {
      var prefix := ts[..|ts| - 1];
      PlanBucketsFollowChoices(prefix, n);
      var p := PlanFor(prefix, n);
      assert PlanFor(ts, n).choices[..|ts| - 1] == p.choices;
    }
  }

  /** The test at position `k` went to the first least-loaded bucket of the
      schedule built from the tests before it. */
  lemma {:induction false} PlanChoicesAreGreedy(ts: seq<TestTiming>, n: nat)
    requires n > 0
    ensures forall k :: 0 <= k < |ts| ==> IsFirstMin(PlanFor(ts[..k], n).loads, PlanFor(ts, n).choices[k])
  {
    if ts != [] {
      var prefix := ts[..|ts| - 1];
      PlanChoicesAreGreedy(prefix, n);
      forall k | 0 <= k < |ts|
        ensures IsFirstMin(PlanFor(ts[..k], n).loads, PlanFor(ts, n).choices[k])
      {
        if k < |ts| - 1 {
          assert ts[..k] == prefix[..k];
        } else {
          assert ts[..k] == prefix;
          FirstMinIndexIsFirstMin(PlanFor(prefix, n).loads);
        }
      }
    }
  }

  /** The loads add up to the total real time of all tests. */
  lemma {:induction false} PlanTotalLoad(ts: seq<TestTiming>, n: nat)
    requires n > 0 || ts == []
    ensures Sum(PlanFor(ts, n).loads) == TotalReal(ts)
  {
    if ts == [] {
      SumZeros(InitialPlan(n).loads);
    } else {
      var prefix := ts[..|ts| - 1];
      PlanTotalLoad(prefix, n);
      var p := PlanFor(prefix, n);
      var t := ts[|ts| - 1];
      var ix := FirstMinIndex(p.loads);
      assert PlanFor(ts, n).loads == p.loads[ix := p.loads[ix] + t.timing.realMs];
      SumUpdate(p.loads, ix, t.timing.realMs);
      assert TotalReal(ts) == TotalReal(prefix) + t.timing.realMs;
    }
  }

  /** Together the buckets hold the input tests, each as often as it occurs. */
  lemma {:induction false} PlanIsPartition(ts: seq<TestTiming>, n: nat)
    requires n > 0 || ts == []
    ensures multiset(Flatten(PlanFor(ts, n).buckets)) == multiset(ts)
  {
    if ts == [] {
      FlattenEmpties(InitialPlan(n).buckets);
    } else {
      var prefix := ts[..|ts| - 1];
      PlanIsPartition(prefix, n);
      var t := ts[|ts| - 1];
      var p := PlanFor(prefix, n);
      var ix := FirstMinIndex(p.loads);
      assert PlanFor(ts, n).buckets == p.buckets[ix := p.buckets[ix] + [t]];
      FlattenUpdate(p.buckets, ix, t);
      MultisetOfSnoc(ts);
    }
  }

  /** Scheduling one more test is one more greedy step. */
  lemma PlanForExtends(ts: seq<TestTiming>, i: nat, n: nat)
    requires i < |ts| && n > 0
    ensures PlanFor(ts[..i + 1], n) == Step(PlanFor(ts[..i], n), ts[i])
  {
    assert ts[..i + 1][..i] == ts[..i];
  }

  // ----- The script's arrays -----

  /** `nBuckets` empty buckets and a load array filled with 0. */
  method InitBuckets(nBuckets: nat) returns (buckets: array<seq<TestTiming>>, sizes: array<nat>)
    ensures fresh(buckets) && fresh(sizes)
    ensures buckets[..] == InitialPlan(nBuckets).buckets && sizes[..] == InitialPlan(nBuckets).loads
  {
    buckets := new seq<TestTiming>[nBuckets](_ => []);
    sizes := new nat[nBuckets](_ => 0);
  }

  /** One pass of the assignment loop: with the arrays holding `plan`, the
      test joins the bucket `argmin` picks, which is one greedy step on
      `plan`. With no bucket, `argmin` gives -1, the push fails, and nothing
      changes. */
  method AssignNext(buckets: array<seq<TestTiming>>, sizes: array<nat>, t: TestTiming, ghost plan: Plan)
    returns (ix: int)
    requires buckets.Length == sizes.Length
    requires buckets[..] == plan.buckets && sizes[..] == plan.loads
    modifies buckets, sizes
    ensures sizes.Length == 0 ==> ix == -1 && unchanged(buckets, sizes)
    ensures sizes.Length > 0 ==> && ix == FirstMinIndex(plan.loads)
                                 && buckets[..] == Step(plan, t).buckets
                                 && sizes[..] == Step(plan, t).loads
  {
    ix := Argmin(sizes);
    if ix == -1 {
      return;
    }
    FirstMinIndexIsFirstMin(sizes[..]);
    FirstMinUnique(sizes[..], ix, FirstMinIndex(sizes[..]));
    buckets[ix] := buckets[ix] + [t];
    sizes[ix] := sizes[ix] + t.timing.realMs;
  }

  /** Builds the buckets and their loads for the parsed timings. It fails
      exactly when there are tests but no bucket. */
  method Distribute(timings: seq<TestTiming>, nBuckets: nat)
    returns (ok: bool, buckets: array<seq<TestTiming>>, sizes: array<nat>)
    ensures ok <==> nBuckets > 0 || timings == []
    ensures buckets.Length == nBuckets && sizes.Length == nBuckets
    ensures ok ==> buckets[..] == PlanFor(timings, nBuckets).buckets
    ensures ok ==> sizes[..] == PlanFor(timings, nBuckets).loads
  {
    buckets, sizes := InitBuckets(nBuckets);
    ghost var plan := InitialPlan(nBuckets);
    var i := 0;
    while i < |timings|
      invariant 0 <= i <= |timings|
      invariant buckets.Length == nBuckets && sizes.Length == nBuckets
      invariant nBuckets > 0 || i == 0
      invariant plan == PlanFor(timings[..i], nBuckets)
      invariant buckets[..] == plan.buckets && sizes[..] == plan.loads
    {
      var ix := AssignNext(buckets, sizes, timings[i], plan);
      if ix == -1 {
        return false, buckets, sizes;
      }
      PlanForExtends(timings, i, nBuckets);
      plan := Step(plan, timings[i]);
      i := i + 1;
    }
    assert timings[..i] == timings;
    ok := true;
  }
}
