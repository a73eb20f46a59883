/**
 The status figures of the dashboard: how many apps are deployed, failed
 and in progress, the three-slice chart built from them, and the colours
 the chart gives its slices.
 */
module Dashboard {
  import opened Types

  /** Number of apps whose status is one of `statuses`. */
  function CountIn(apps: seq<IntuneApp>, statuses: set<AppStatus>): (n: nat)
    ensures n <= |apps|
  {
    if |apps| == 0 then 0
    else (if apps[0].status in statuses then 1 else 0) + CountIn(apps[1..], statuses)
  }

  /** A count is zero exactly when no app has one of the statuses, and is
      the whole registry exactly when every app has one. */
  lemma {:induction false} CountInExtremes(apps: seq<IntuneApp>, statuses: set<AppStatus>)
    ensures CountIn(apps, statuses) == 0 <==> forall i :: 0 <= i < |apps| ==> apps[i].status !in statuses
    ensures CountIn(apps, statuses) == |apps| <==> forall i :: 0 <= i < |apps| ==> apps[i].status in statuses
  {
    if |apps| > 0 {
      CountInExtremes(apps[1..], statuses);
      assert forall i :: 1 <= i < |apps| ==> apps[i] == apps[1..][i - 1];
    }
  }

  const Processing: set<AppStatus> := {PACKAGING, UPLOADING}

  /** `successCount`: the number of SUCCESS apps. */
  function SuccessCount(apps: seq<IntuneApp>): (n: nat)
    ensures n == multiset(Statuses(apps))[AppStatus.SUCCESS]
  {
    CountIsMultiplicity(apps, AppStatus.SUCCESS);
    CountIn(apps, {AppStatus.SUCCESS})
  }

  /** `errorCount`: the number of ERROR apps. */
  function ErrorCount(apps: seq<IntuneApp>): (n: nat)
    ensures n == multiset(Statuses(apps))[AppStatus.ERROR]
  {
    CountIsMultiplicity(apps, AppStatus.ERROR);
    CountIn(apps, {AppStatus.ERROR})
  }

  /** `processingCount`: the number of PACKAGING apps plus the number of
      UPLOADING apps. */
  function ProcessingCount(apps: seq<IntuneApp>): (n: nat)
    ensures n == multiset(Statuses(apps))[PACKAGING] + multiset(Statuses(apps))[UPLOADING]
  {
    CountIsMultiplicity(apps, PACKAGING);
    CountIsMultiplicity(apps, UPLOADING);
    CountInUnion(apps, {PACKAGING}, {UPLOADING});
    assert {PACKAGING} + {UPLOADING} == Processing;
    CountIn(apps, Processing)
  }

  /** The number of IDLE apps, which the dashboard does not show. */
  function IdleCount(apps: seq<IntuneApp>): (n: nat)
    ensures n == multiset(Statuses(apps))[IDLE]
  {
    CountIsMultiplicity(apps, IDLE);
    CountIn(apps, {IDLE})
  }

  lemma {:induction false} CountInAppend(a: seq<IntuneApp>, b: seq<IntuneApp>, statuses: set<AppStatus>)
    ensures CountIn(a + b, statuses) == CountIn(a, statuses) + CountIn(b, statuses)
  {
    if |a| > 0 {
      assert (a + b)[1..] == a[1..] + b;
      CountInAppend(a[1..], b, statuses);
    } else {
      assert a + b == b;
    }
  }

  /** Counting over two disjoint sets of statuses is counting over their
      union. */
  lemma {:induction false} CountInUnion(apps: seq<IntuneApp>, s1: set<AppStatus>, s2: set<AppStatus>)
    requires s1 !! s2
    ensures CountIn(apps, s1) + CountIn(apps, s2) == CountIn(apps, s1 + s2)
  {
    if |apps| > 0 {
      CountInUnion(apps[1..], s1, s2);
    }
  }

  /** A count is the multiplicity of its status in the registry's statuses:
      `SuccessCount` is the number of SUCCESS apps, and so on. */
  lemma {:induction false} CountIsMultiplicity(apps: seq<IntuneApp>, s: AppStatus)
    ensures CountIn(apps, {s}) == multiset(Statuses(apps))[s]
  {
    if |apps| > 0 {
      CountIsMultiplicity(apps[1..], s);
      assert Statuses(apps) == [apps[0].status] + Statuses(apps[1..]);
    } else {
      assert Statuses(apps) == [];
    }
  }

  /** The three displayed counts and the IDLE apps partition the registry,
      so none of the displayed counts exceeds the total shown. */
  lemma {:induction false} CountsPartition(apps: seq<IntuneApp>)
    ensures SuccessCount(apps) + ErrorCount(apps) + ProcessingCount(apps) + IdleCount(apps) == |apps|
    ensures SuccessCount(apps) + ErrorCount(apps) + ProcessingCount(apps) <= |apps|
  {
    if |apps| > 0 {
      CountsPartition(apps[1..]);
      var st := apps[0].status;
      assert st == IDLE || st in Processing || st == AppStatus.SUCCESS || st == AppStatus.ERROR;
    }
  }

  /** Two registries with the same statuses in the same order show the same
      counts, whatever their other fields. */
  lemma {:induction false} CountsDependOnStatusesOnly(a: seq<IntuneApp>, b: seq<IntuneApp>, statuses: set<AppStatus>)
    requires Statuses(a) == Statuses(b)
    ensures CountIn(a, statuses) == CountIn(b, statuses)
  {
    if |a| > 0 {
      assert Statuses(a[1..]) == Statuses(a)[1..];
      assert Statuses(b[1..]) == Statuses(b)[1..];
      CountsDependOnStatusesOnly(a[1..], b[1..], statuses);
    }
  }

  /** Removing the app at `j` removes exactly its own contribution. */
  lemma CountInRemove(b: seq<IntuneApp>, j: int, statuses: set<AppStatus>)
    requires 0 <= j < |b|
    ensures CountIn(b, statuses) == (if b[j].status in statuses then 1 else 0) + CountIn(b[..j] + b[j + 1..], statuses)
  {
    var after := [b[j]] + b[j + 1..];
    assert b == b[..j] + after;
    CountInAppend(b[..j], after, statuses);
    assert after[1..] == b[j + 1..];
    CountInAppend(b[..j], b[j + 1..], statuses);
  }

  /** Taking the first app of `a` and its counterpart at `j` in `b` out of
      two equal multisets leaves equal multisets. */
  lemma MultisetRemoveMatching(a: seq<IntuneApp>, b: seq<IntuneApp>, j: int)
    requires multiset(a) == multiset(b)
    requires |a| > 0 && 0 <= j < |b| && b[j] == a[0]
    ensures multiset(a[1..]) == multiset(b[..j] + b[j + 1..])
  {
    assert a == [a[0]] + a[1..];
    assert multiset(a) == multiset{a[0]} + multiset(a[1..]);
    assert b == b[..j] + [b[j]] + b[j + 1..];
    assert multiset(b) == multiset(b[..j]) + multiset{b[j]} + multiset(b[j + 1..]);
    assert multiset(b[..j] + b[j + 1..]) == multiset(b[..j]) + multiset(b[j + 1..]);
    assert multiset(a[1..]) == multiset(a) - multiset{a[0]};
    assert multiset(b[..j] + b[j + 1..]) == multiset(b) - multiset{b[j]};
  }

  lemma MemberIndex(b: seq<IntuneApp>, x: IntuneApp) returns (j: int)
    requires x in multiset(b)
    ensures 0 <= j < |b| && b[j] == x
  {
    assert x in b;
    j :| 0 <= j < |b| && b[j] == x;
  }

  /** Reordering the registry leaves every count unchanged. */
  lemma {:induction false} CountsPermutationInvariant(a: seq<IntuneApp>, b: seq<IntuneApp>, statuses: set<AppStatus>)
    requires multiset(a) == multiset(b)
    ensures CountIn(a, statuses) == CountIn(b, statuses)
    decreases |a|
  {
    if |a| > 0 {
      var j := MemberIndex(b, a[0]);
      MultisetRemoveMatching(a, b, j);
      CountsPermutationInvariant(a[1..], b[..j] + b[j + 1..], statuses);
      CountInRemove(b, j, statuses);
    } else {
      assert b == [];
    }
  }

  /** One slice of the status chart. */
  datatype Slice = Slice(name: string, value: nat)

  /** The chart data: Deployed, Processing and Failed, in that order, with
      the numbers of SUCCESS apps, of PACKAGING or UPLOADING apps, and of
      ERROR apps. */
  function ChartData(apps: seq<IntuneApp>): (r: seq<Slice>)
    ensures |r| == 3
    ensures r[0].name == "Deployed" && r[1].name == "Processing" && r[2].name == "Failed"
    ensures r[0].value == multiset(Statuses(apps))[AppStatus.SUCCESS]
    ensures r[1].value == multiset(Statuses(apps))[PACKAGING] + multiset(Statuses(apps))[UPLOADING]
    ensures r[2].value == multiset(Statuses(apps))[AppStatus.ERROR]
    ensures r[0].value + r[1].value + r[2].value <= |apps|
  {
    CountsPartition(apps);
    [Slice("Deployed", SuccessCount(apps)), Slice("Processing", ProcessingCount(apps)), Slice("Failed", ErrorCount(apps))]
  }

  /** The chart palette. */
  const Colors: seq<string> := ["#10b981", "#3b82f6", "#ef4444", "#f59e0b"]

  /** Colour of the slice at `index`, cycling through the palette. */
  function SliceColor(index: nat): (c: string)
    ensures c in Colors
    ensures index < |Colors| ==> c == Colors[index]
  {
    Colors[index % |Colors|]
  }

  /** Every slice of the chart takes its own palette entry, the same one its
      legend swatch shows, and no two slices share a colour. */
  lemma SliceColorsMatchLegend(apps: seq<IntuneApp>)
    ensures forall i :: 0 <= i < |ChartData(apps)| ==> i % |Colors| == i && SliceColor(i) == Colors[i]
    ensures forall i, j :: 0 <= i < j < |ChartData(apps)| ==> SliceColor(i) != SliceColor(j)
  {
  }
}
