/** The data behind the three bar charts of src/ui/chart.rs: the applications are counted
    per label in a hash map, the (label, count) pairs are collected in the map's own order
    and sorted by count (descending) then label (ascending); the resume-version chart keeps
    the first ten, and the status chart instead reads the four status counts in the fixed
    `Status::all()` order. Drawing the bars is not modelled. */
module ChartData {
  import opened Text
  import Models
  import AppSpec

  /** A bar: its label and how many applications it counts. */
  type Entry = (string, nat)

  // ---------------------------------------------------------------------------------
  // Counting.

  /** How many times `v` occurs in `s`. */
  function Count<T(==)>(s: seq<T>, v: T): (n: nat)
    ensures n <= |s|
    ensures n > 0 <==> v in s
  {
    if |s| == 0 then 0
    else
      assert s == s[..|s| - 1] + [s[|s| - 1]];
      Count(s[..|s| - 1], v) + (if s[|s| - 1] == v then 1 else 0)
  }

  lemma CountSnoc<T>(s: seq<T>, x: T, v: T)
    ensures Count(s + [x], v) == Count(s, v) + (if x == v then 1 else 0)
  {
    assert (s + [x])[..|s|] == s;
  }

  /** The label of every application, in list order. */
  function Labels<T>(apps: seq<Models.Application>, labelOf: Models.Application -> T): (ls: seq<T>)
    ensures |ls| == |apps|
    ensures forall i :: 0 <= i < |apps| ==> ls[i] == labelOf(apps[i])
  {
    seq(|apps|, i requires 0 <= i < |apps| => labelOf(apps[i]))
  }

  /** The resume-version chart's label: the version, or "None" when it is empty. */
  function ResumeLabel(a: Models.Application): string {
    if a.resumeVersion == [] then "None" else a.resumeVersion
  }

  function Version(a: Models.Application): string {
    a.resumeVersion
  }

  function PlatformLabel(a: Models.Application): string {
    Models.PlatformAsStr(a.platform)
  }

  function StatusOf(a: Models.Application): Models.Status {
    a.status
  }

  function StatusLabel(a: Models.Application): string {
    Models.StatusAsStr(a.status)
  }

  /** The loop that fills the `HashMap<String, u64>`: one `entry(label).or_insert(0) += 1`
      per application. The map holds exactly the labels that occur, each with its count. */
  method Tally(apps: seq<Models.Application>, labelOf: Models.Application -> string)
    returns (counts: map<string, nat>)
    ensures forall l :: l in counts <==> l in Labels(apps, labelOf)
    ensures forall l :: l in counts ==> counts[l] == Count(Labels(apps, labelOf), l)
  {
    ghost var all := Labels(apps, labelOf);
    counts := map[];
    var i := 0;
    while i < |apps|
      invariant 0 <= i <= |apps|
      invariant forall l :: l in counts <==> l in all[..i]
      invariant forall l :: l in counts ==> counts[l] == Count(all[..i], l)
    {
      var l := labelOf(apps[i]);
      var c := if l in counts then counts[l] else 0;
      counts := counts[l := c + 1];
      assert all[..i + 1] == all[..i] + [l];
      assert all[..i + 1][..i] == all[..i];
      i := i + 1;
    }
    assert all[..|apps|] == all;
  }

  // ---------------------------------------------------------------------------------
  // Collecting and ranking.

  predicate DistinctLabels(data: seq<Entry>) {
    forall i, j :: 0 <= i < j < |data| ==> data[i].0 != data[j].0
  }

  /** `counts.into_iter().collect()`: every pair of the map once, in an order the hash map
      chooses and the model leaves open. */
  method Entries(counts: map<string, nat>) returns (data: seq<Entry>)
    ensures forall e :: e in data <==> e.0 in counts && e.1 == counts[e.0]
    ensures DistinctLabels(data)
    ensures |data| == |counts.Keys|
  {
    data := [];
    var rest := counts.Keys;
    while rest != {}
      invariant rest <= counts.Keys
      invariant forall e :: e in data <==> e.0 in counts && e.0 !in rest && e.1 == counts[e.0]
      invariant forall i :: 0 <= i < |data| ==> data[i].0 !in rest
      invariant DistinctLabels(data)
      invariant |data| + |rest| == |counts.Keys|
      decreases |rest|
    {
      var k :| k in rest;
      data := data + [(k, counts[k])];
      rest := rest - {k};
    }
  }

  /** The comparator `b.1.cmp(&a.1).then_with(|| a.0.cmp(&b.0))` answering Less: `a` has
      the larger count, or the same count and the smaller label. */
  predicate Before(a: Entry, b: Entry) {
    a.1 > b.1 || (a.1 == b.1 && Less(a.0, b.0))
  }

  predicate Ranked(data: seq<Entry>) {
    forall i, j :: 0 <= i < j < |data| ==> Before(data[i], data[j])
  }

  lemma BeforeTransitive(a: Entry, b: Entry, c: Entry)
    requires Before(a, b) && Before(b, c)
    ensures Before(a, c)
  {
    if a.1 == b.1 && b.1 == c.1 {
      LessTransitive(a.0, b.0, c.0);
    }
  }

  lemma BeforeAsymmetric(a: Entry, b: Entry)
    requires Before(a, b)
    ensures !Before(b, a)
  {
    if a.1 == b.1 && Less(b.0, a.0) {
      LessTransitive(a.0, b.0, a.0);
      LessIrreflexive(a.0);
    }
  }

  /** Two bars with different labels are always ordered one way or the other. */
  lemma BeforeTotal(a: Entry, b: Entry)
    requires a.0 != b.0
    ensures Before(a, b) || Before(b, a)
  {
    LessTotal(a.0, b.0);
  }

  /** A ranked sequence with a head placed before everything in it is still ranked. */
  lemma RankedCons(h: Entry, t: seq<Entry>)
    requires Ranked(t) && forall x :: x in t ==> Before(h, x)
    ensures Ranked([h] + t)
  {
    var r := [h] + t;
    forall i, j | 0 <= i < j < |r|
      ensures Before(r[i], r[j])
    {
      if i > 0 {
        assert r[i] == t[i - 1] && r[j] == t[j - 1];
      } else {
        assert r[j] == t[j - 1];
      }
    }
  }

  /** Places `e` into a ranked sequence; one step of the sort. */
  function Insert(s: seq<Entry>, e: Entry): (r: seq<Entry>)
    requires Ranked(s)
    requires forall x :: x in s ==> x.0 != e.0
    ensures Ranked(r)
    ensures multiset(r) == multiset(s) + multiset{e}
  {
    if |s| == 0 then [e]
    else if Before(e, s[0]) then
      InsertFront(s, e);
      [e] + s
    else
      BeforeTotal(e, s[0]);
      var t := Insert(s[1..], e);
      InsertBehind(s, e, t);
      [s[0]] + t
  }

  lemma InsertFront(s: seq<Entry>, e: Entry)
    requires Ranked(s) && |s| > 0 && Before(e, s[0])
    ensures Ranked([e] + s)
  {
    forall x | x in s
      ensures Before(e, x)
    {
      if x != s[0] {
        var j :| 0 <= j < |s| && s[j] == x;
        BeforeTransitive(e, s[0], x);
      }
    }
    RankedCons(e, s);
  }

  lemma InsertBehind(s: seq<Entry>, e: Entry, t: seq<Entry>)
    requires Ranked(s) && |s| > 0 && Before(s[0], e)
    requires Ranked(t) && multiset(t) == multiset(s[1..]) + multiset{e}
    ensures Ranked([s[0]] + t)
    ensures multiset([s[0]] + t) == multiset(s) + multiset{e}
  {
    assert s == [s[0]] + s[1..];
    forall x | x in t
      ensures Before(s[0], x)
    {
      assert x in multiset(t);
      if x != e {
        assert x in multiset(s[1..]);
        var j :| 0 <= j < |s[1..]| && s[1..][j] == x;
        assert s[j + 1] == x;
      }
    }
    RankedCons(s[0], t);
  }

  /** `data.sort_by(...)`: the pairs rearranged into ranking order. */
  method SortByRank(data: seq<Entry>) returns (sorted: seq<Entry>)
    requires DistinctLabels(data)
    ensures Ranked(sorted)
    ensures multiset(sorted) == multiset(data)
  {
    sorted := [];
    var i := 0;
    while i < |data|
      invariant 0 <= i <= |data|
      invariant Ranked(sorted)
      invariant multiset(sorted) == multiset(data[..i])
    {
      LabelNotYetPlaced(data, i, sorted);
      sorted := Insert(sorted, data[i]);
      assert data[..i + 1] == data[..i] + [data[i]];
      i := i + 1;
    }
    assert data[..|data|] == data;
  }

  /** With distinct labels, the pair at `i` shares its label with none of those before it. */
  lemma LabelNotYetPlaced(data: seq<Entry>, i: nat, placed: seq<Entry>)
    requires DistinctLabels(data) && i < |data|
    requires multiset(placed) == multiset(data[..i])
    ensures forall x :: x in placed ==> x.0 != data[i].0
  {
    forall x | x in placed
      ensures x.0 != data[i].0
    {
      assert x in multiset(data[..i]);
      var j :| 0 <= j < i && data[..i][j] == x;
    }
  }

  /** The ranking order admits one arrangement only: two ranked sequences holding the same
      pairs are equal, so the charts do not depend on the hash map's iteration order. */
  lemma {:induction false} RankedUnique(a: seq<Entry>, b: seq<Entry>)
    requires Ranked(a) && Ranked(b) && multiset(a) == multiset(b)
    ensures a == b
  {
    assert |a| == |multiset(a)| == |multiset(b)| == |b|;
    if |a| > 0 {
      SameHead(a, b);
      assert a == [a[0]] + a[1..] && b == [b[0]] + b[1..];
      assert multiset(a[1..]) == multiset(a) - multiset{a[0]};
      assert multiset(b[1..]) == multiset(b) - multiset{b[0]};
      RankedTail(a);
      RankedTail(b);
      RankedUnique(a[1..], b[1..]);
    }
  }

  /** Both ranked arrangements of the same pairs start with the same pair. */
  lemma SameHead(a: seq<Entry>, b: seq<Entry>)
    requires Ranked(a) && Ranked(b) && multiset(a) == multiset(b) && |a| > 0 && |b| > 0
    ensures a[0] == b[0]
  {
    if a[0] != b[0] {
      assert b[0] in multiset(a);
      var i :| 0 <= i < |a| && a[i] == b[0];
      assert a[0] in multiset(b);
      var j :| 0 <= j < |b| && b[j] == a[0];
      BeforeAsymmetric(a[0], b[0]);
      assert false;
    }
  }

  lemma RankedTail(a: seq<Entry>)
    requires Ranked(a) && |a| > 0
    ensures Ranked(a[1..])
  {
    forall i, j | 0 <= i < j < |a[1..]|
      ensures Before(a[1..][i], a[1..][j])
    {
      assert a[1..][i] == a[i + 1] && a[1..][j] == a[j + 1];
    }
  }

  // ---------------------------------------------------------------------------------
  // The totals.

  function SumCounts(data: seq<Entry>): nat {
    if |data| == 0 then 0 else SumCounts(data[..|data| - 1]) + data[|data| - 1].1
  }

  /** The counts of the labels `ls` in `all`, added up. */
  function SumOver(ls: seq<string>, all: seq<string>): nat {
    if |ls| == 0 then 0 else SumOver(ls[..|ls| - 1], all) + Count(all, ls[|ls| - 1])
  }

  lemma {:induction false} SumOverSnoc(ls: seq<string>, all: seq<string>, x: string)
    ensures SumOver(ls, all + [x]) == SumOver(ls, all) + Count(ls, x)
  {
    assert (all + [x])[..|all|] == all;
    if |ls| > 0 {
      SumOverSnoc(ls[..|ls| - 1], all, x);
    }
  }

  lemma {:induction false} CountDistinct(ls: seq<string>, x: string)
    requires forall i, j :: 0 <= i < j < |ls| ==> ls[i] != ls[j]
    ensures Count(ls, x) == if x in ls then 1 else 0
  {
    if |ls| > 0 {
      var init := ls[..|ls| - 1];
      assert ls == init + [ls[|ls| - 1]];
      CountDistinct(init, x);
      if x == ls[|ls| - 1] {
        assert x !in init by {
          forall i | 0 <= i < |init|
            ensures init[i] != x
          {
            assert init[i] == ls[i];
          }
        }
      }
    }
  }

  /** Over a list of distinct labels that covers every label of `all`, the counts add up to
      the length of `all`. */
  lemma {:induction false} SumOverCovering(ls: seq<string>, all: seq<string>)
    requires forall i, j :: 0 <= i < j < |ls| ==> ls[i] != ls[j]
    requires forall x :: x in all ==> x in ls
    ensures SumOver(ls, all) == |all|
  {
    if |all| == 0 {
      SumOverEmpty(ls, all);
    } else {
      var init := all[..|all| - 1];
      var x := all[|all| - 1];
      assert all == init + [x];
      SumOverCovering(ls, init);
      SumOverSnoc(ls, init, x);
      CountDistinct(ls, x);
    }
  }

  lemma {:induction false} SumOverEmpty(ls: seq<string>, all: seq<string>)
    requires |all| == 0
    ensures SumOver(ls, all) == 0
  {
    if |ls| > 0 {
      SumOverEmpty(ls[..|ls| - 1], all);
    }
  }

  lemma {:induction false} SumCountsIsSumOver(data: seq<Entry>, all: seq<string>)
    requires forall i :: 0 <= i < |data| ==> data[i].1 == Count(all, data[i].0)
    ensures SumCounts(data) == SumOver(seq(|data|, i requires 0 <= i < |data| => data[i].0), all)
  {
    if |data| > 0 {
      var init := data[..|data| - 1];
      SumCountsIsSumOver(init, all);
      var ls := seq(|data|, i requires 0 <= i < |data| => data[i].0);
      assert ls[..|ls| - 1] == seq(|init|, i requires 0 <= i < |init| => init[i].0);
    }
  }

  /** The counts of a tally (one pair per label that occurs, holding that label's count)
      add up to the number of labels counted. */
  lemma TallySum(data: seq<Entry>, all: seq<string>)
    requires DistinctLabels(data)
    requires forall e :: e in data <==> e.0 in all && e.1 == Count(all, e.0)
    ensures SumCounts(data) == |all|
  {
    var ls := seq(|data|, i requires 0 <= i < |data| => data[i].0);
    forall i | 0 <= i < |data|
      ensures data[i].1 == Count(all, data[i].0)
    {
      assert data[i] in data;
    }
    SumCountsIsSumOver(data, all);
    forall x | x in all
      ensures x in ls
    {
      assert (x, Count(all, x)) in data;
      var k :| 0 <= k < |data| && data[k] == (x, Count(all, x));
      assert ls[k] == x;
    }
    SumOverCovering(ls, all);
  }

  // ---------------------------------------------------------------------------------
  // The three charts.

  /** Counting, collecting and sorting, shared by the resume-version and platform charts:
      one pair per label that occurs, holding its count, in ranking order; the counts add up
      to the number of applications. */
  method RankedTally(apps: seq<Models.Application>, labelOf: Models.Application -> string)
    returns (data: seq<Entry>)
    ensures forall e :: e in data <==> e.0 in Labels(apps, labelOf) && e.1 == Count(Labels(apps, labelOf), e.0)
    ensures Ranked(data) && DistinctLabels(data)
    ensures forall e :: e in data ==> e.1 >= 1
    ensures SumCounts(data) == |apps|
    ensures data == [] <==> apps == []
  {
    var counts := Tally(apps, labelOf);
    var unsorted := Entries(counts);
    data := SortByRank(unsorted);
    ghost var all := Labels(apps, labelOf);
    forall e | e in data
      ensures e in unsorted
    {
      assert e in multiset(data);
    }
    forall e | e in unsorted
      ensures e in data
    {
      assert e in multiset(unsorted);
    }
    forall i, j | 0 <= i < j < |data|
      ensures data[i].0 != data[j].0
    {
      if data[i].0 == data[j].0 {
        assert data[i] in unsorted && data[j] in unsorted;
        assert data[i] == data[j];
        BeforeAsymmetric(data[i], data[j]);
      }
    }
    TallySum(data, all);
    if apps != [] {
      assert all[0] in counts;
      assert (all[0], counts[all[0]]) in unsorted;
    }
  }

  /** `render_resume_version_chart`'s data: the ranked tally of resume labels, cut to its
      first ten pairs. A label left out ranks after every pair kept, and only when ten are
      kept. */
  method ResumeVersionSeries(apps: seq<Models.Application>) returns (data: seq<Entry>)
    ensures var all := Labels(apps, ResumeLabel);
      && Ranked(data) && DistinctLabels(data) && |data| <= 10
      && (forall e :: e in data ==> e.0 in all && e.1 == Count(all, e.0))
      && (forall l :: l in all && (l, Count(all, l)) !in data ==>
            |data| == 10 && forall e :: e in data ==> Before(e, (l, Count(all, l))))
    ensures data == [] <==> apps == []
  {
    var full := RankedTally(apps, ResumeLabel);
    ghost var all := Labels(apps, ResumeLabel);
    var keep := if |full| < 10 then |full| else 10;
    data := full[..keep];
    forall l | l in all && (l, Count(all, l)) !in data
      ensures |data| == 10 && forall e :: e in data ==> Before(e, (l, Count(all, l)))
    {
      var j :| 0 <= j < |full| && full[j] == (l, Count(all, l));
      assert j >= keep;
      forall e | e in data
        ensures Before(e, (l, Count(all, l)))
      {
        var i :| 0 <= i < keep && data[i] == e;
        assert full[i] == e;
      }
    }
  }

  /** `render_platform_chart`'s data: the ranked tally of platform labels, not cut. */
  method PlatformSeries(apps: seq<Models.Application>) returns (data: seq<Entry>)
    ensures var all := Labels(apps, PlatformLabel);
      && Ranked(data) && DistinctLabels(data)
      && (forall e :: e in data <==> e.0 in all && e.1 == Count(all, e.0))
      && SumCounts(data) == |apps|
    ensures data == [] <==> apps == []
  {
    data := RankedTally(apps, PlatformLabel);
  }

  /** `render_status_chart`'s data: four pairs in `Status::all()` order, each holding the
      number of applications with that status; they are all zero exactly when there are no
      applications. */
  method StatusSeries(apps: seq<Models.Application>) returns (data: seq<Entry>)
    ensures |data| == |Models.AllStatuses()|
    ensures forall k :: 0 <= k < |data| ==>
      data[k] == (Models.StatusAsStr(Models.AllStatuses()[k]), Count(Labels(apps, StatusOf), Models.AllStatuses()[k]))
    ensures (forall k :: 0 <= k < |data| ==> data[k].1 == 0) <==> apps == []
  {
    var counts := Tally(apps, StatusLabel);
    ghost var all := Labels(apps, StatusLabel);
    var statuses := Models.AllStatuses();
    for k := 0 to |statuses|
      invariant forall l :: l in counts ==> counts[l] == Count(all, l)
      invariant forall l :: l in all ==> l in counts
      invariant forall m :: 0 <= m < k ==> Models.StatusAsStr(statuses[m]) in counts
    {
      var l := Models.StatusAsStr(statuses[k]);
      if l !in counts {
        counts := counts[l := 0];
      }
    }
    data := seq(|statuses|, k requires 0 <= k < |statuses| =>
      var l := Models.StatusAsStr(statuses[k]);
      (l, if l in counts then counts[l] else 0));
    forall k | 0 <= k < |data|
      ensures data[k].1 == Count(Labels(apps, StatusOf), statuses[k])
    {
      StatusCount(apps, statuses[k]);
    }
    if apps != [] {
      var st := apps[0].status;
      Models.AllStatusesEnumerates(st, st);
      var k :| 0 <= k < |statuses| && statuses[k] == st;
      assert Labels(apps, StatusOf)[0] == st;
      assert data[k].1 > 0;
    }
  }

  /** Counting status labels counts statuses: `Status::as_str` tells statuses apart. */
  lemma {:induction false} StatusCount(apps: seq<Models.Application>, st: Models.Status)
    ensures Count(Labels(apps, StatusLabel), Models.StatusAsStr(st)) == Count(Labels(apps, StatusOf), st)
  {
    if |apps| > 0 {
      var init := apps[..|apps| - 1];
      StatusCount(init, st);
      assert Labels(apps, StatusLabel)[..|apps| - 1] == Labels(init, StatusLabel);
      assert Labels(apps, StatusOf)[..|apps| - 1] == Labels(init, StatusOf);
      Models.AllStatusesEnumerates(apps[|apps| - 1].status, st);
    }
  }

  /** The four status counts add up to the number of applications. */
  lemma {:induction false} StatusCountsSum(apps: seq<Models.Application>)
    ensures var all := Labels(apps, StatusOf);
      Count(all, Models.Applied) + Count(all, Models.Interview)
        + Count(all, Models.Offer) + Count(all, Models.Rejected) == |apps|
  {
    if |apps| > 0 {
      var init := apps[..|apps| - 1];
      StatusCountsSum(init);
      var x := apps[|apps| - 1].status;
      var before := Labels(init, StatusOf);
      LabelsSnoc(apps, StatusOf);
      CountSnoc(before, x, Models.Applied);
      CountSnoc(before, x, Models.Interview);
      CountSnoc(before, x, Models.Offer);
      CountSnoc(before, x, Models.Rejected);
      match x
      case Applied =>
      case Interview =>
      case Offer =>
      case Rejected =>
    }
  }

  /** The labels of a non-empty list are those of all but its last element, then the last
      element's. */
  lemma LabelsSnoc<T>(apps: seq<Models.Application>, labelOf: Models.Application -> T)
    requires |apps| > 0
    ensures Labels(apps, labelOf) == Labels(apps[..|apps| - 1], labelOf) + [labelOf(apps[|apps| - 1])]
  {
  }

  /** An empty resume version is counted under "None", so it shares its bar with a version
      literally named "None". */
  lemma {:induction false} NoneMergesEmpty(apps: seq<Models.Application>)
    ensures Count(Labels(apps, ResumeLabel), "None")
      == Count(Labels(apps, Version), "") + Count(Labels(apps, Version), "None")
  {
    if |apps| > 0 {
      var init := apps[..|apps| - 1];
      NoneMergesEmpty(init);
      var last := apps[|apps| - 1];
      LabelsSnoc(apps, ResumeLabel);
      LabelsSnoc(apps, Version);
      CountSnoc(Labels(init, ResumeLabel), ResumeLabel(last), "None");
      CountSnoc(Labels(init, Version), Version(last), "");
      CountSnoc(Labels(init, Version), Version(last), "None");
    }
  }

  /** `render_chart`: the data of the chart selected, and whether the "No data available"
      message is shown instead (an empty ranked tally, or four zero status counts). */
  method Aggregate(chart: AppSpec.ChartType, apps: seq<Models.Application>)
    returns (data: seq<Entry>, noData: bool)
    ensures noData <==> apps == []
    ensures chart != AppSpec.ByStatus ==> Ranked(data) && DistinctLabels(data) && (noData <==> data == [])
    ensures chart == AppSpec.ByStatus ==>
      && |data| == |Models.AllStatuses()|
      && forall k :: 0 <= k < |data| ==>
           data[k] == (Models.StatusAsStr(Models.AllStatuses()[k]), Count(Labels(apps, StatusOf), Models.AllStatuses()[k]))
    ensures chart == AppSpec.ByPlatform ==>
      var all := Labels(apps, PlatformLabel);
      && (forall e :: e in data <==> e.0 in all && e.1 == Count(all, e.0))
      && SumCounts(data) == |apps|
    ensures chart == AppSpec.ByResumeVersion ==>
      var all := Labels(apps, ResumeLabel);
      && |data| <= 10
      && (forall e :: e in data ==> e.0 in all && e.1 == Count(all, e.0))
      && (forall l :: l in all && (l, Count(all, l)) !in data ==>
            |data| == 10 && forall e :: e in data ==> Before(e, (l, Count(all, l))))
  {
    match chart
    case ByResumeVersion =>
      data := ResumeVersionSeries(apps);
      noData := data == [];
    case ByPlatform =>
      data := PlatformSeries(apps);
      noData := data == [];
    case ByStatus =>
      data := StatusSeries(apps);
      noData := forall k :: 0 <= k < |data| ==> data[k].1 == 0;
  }
}
