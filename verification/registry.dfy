/** The aggregate read of `catalog/registry.py`: two sources merged round robin, and the validators of
    `catalog/models.py` the result must pass. */
module Registry {
  import opened Common

  datatype Source = MockSupplier | KhoMmo | VietShare

  datatype Mode = MockMode | KhoMmoReadOnly | VietShareReadOnly

  datatype CatalogState = FreshState | StaleState | EmptyState | ErrorState

  datatype Freshness = FreshEvidence | StaleEvidence

  datatype CatalogError = SourceUnavailable | OtherError(name: Text)

  datatype Item = Item(source: Source, mode: Mode, id: Text, rest: Text)

  datatype Response = Response(
    source: Source,
    mode: Mode,
    state: CatalogState,
    freshness: Option<Freshness>,
    error: Option<CatalogError>,
    items: seq<Item>,
    partial: bool,
    omitted: nat)

  datatype Report = Report(
    source: Source,
    mode: Mode,
    state: CatalogState,
    freshness: Option<Freshness>,
    error: Option<CatalogError>,
    count: nat,
    partial: bool,
    omitted: nat)

  datatype AggregateState = CompleteView | PartialView | EmptyView | ErrorView

  datatype Aggregate = Aggregate(
    state: AggregateState,
    items: seq<Item>,
    reports: seq<Report>,
    partial: bool,
    omitted: nat)

  function ModeOf(s: Source): Mode {
    match s
    case MockSupplier => MockMode
    case KhoMmo => KhoMmoReadOnly
    case VietShare => VietShareReadOnly
  }

  predicate IsLive(s: Source) { s != MockSupplier }

  // ---------------------------------------------------------------------------------------------
  // Validators

  /** `CatalogResponse`. */
  predicate ValidResponse(r: Response) {
    && r.mode == ModeOf(r.source)
    && (forall i :: 0 <= i < |r.items| ==> r.items[i].source == r.source && r.items[i].mode == r.mode)
    && (r.partial <==> r.omitted > 0)
    && (r.partial ==> r.state in {FreshState, StaleState})
    && match r.state
       case FreshState => r.items != [] && r.freshness == Some(FreshEvidence) && r.error.None?
       case StaleState => r.items != [] && r.freshness == Some(StaleEvidence) && r.error.Some?
       case EmptyState => r.items == [] && r.freshness == Some(FreshEvidence) && r.error.None?
       case ErrorState => r.items == [] && r.freshness.None? && r.error.Some?
  }

  /** `AggregateSourceReport`. */
  predicate ValidReport(r: Report) {
    && IsLive(r.source)
    && r.mode == ModeOf(r.source)
    && (r.partial <==> r.omitted > 0)
    && (r.partial ==> r.state in {FreshState, StaleState})
    && match r.state
       case ErrorState => r.count == 0 && r.freshness.None? && r.error.Some?
       case EmptyState => r.count == 0 && r.freshness == Some(FreshEvidence) && r.error.None?
       case FreshState => r.count > 0 && r.freshness == Some(FreshEvidence) && r.error.None?
       case StaleState => r.count > 0 && r.freshness == Some(StaleEvidence) && r.error.Some?
  }

  function CountFrom(items: seq<Item>, s: Source): nat {
    if items == [] then 0
    else CountFrom(items[..|items| - 1], s) + (if items[|items| - 1].source == s then 1 else 0)
  }

  function TotalOmitted(reports: seq<Report>): nat {
    if reports == [] then 0 else TotalOmitted(reports[..|reports| - 1]) + reports[|reports| - 1].omitted
  }

  predicate Degraded(reports: seq<Report>) {
    exists i :: 0 <= i < |reports| && (reports[i].partial || reports[i].state in {StaleState, ErrorState})
  }

  function StateFor(items: seq<Item>, reports: seq<Report>): AggregateState {
    if items != [] then if Degraded(reports) then PartialView else CompleteView
    else if forall i :: 0 <= i < |reports| ==> reports[i].state == EmptyState then EmptyView
    else ErrorView
  }

  /** No product appears twice under its source-qualified identity. */
  ghost predicate UniqueItems(items: seq<Item>) {
    forall i, j :: 0 <= i < j < |items| ==> items[i].source != items[j].source || items[i].id != items[j].id
  }

  /** `AggregateCatalogResponse`. */
  ghost predicate ValidAggregate(a: Aggregate) {
    && |a.reports| == 2
    && {a.reports[0].source, a.reports[1].source} == {KhoMmo, VietShare}
    && UniqueItems(a.items)
    && (forall i :: 0 <= i < |a.reports| ==> CountFrom(a.items, a.reports[i].source) == a.reports[i].count)
    && (forall i :: 0 <= i < |a.items| ==> IsLive(a.items[i].source) && a.items[i].mode == ModeOf(a.items[i].source))
    && a.omitted == TotalOmitted(a.reports)
    && a.state == StateFor(a.items, a.reports)
    && (a.partial <==> a.state == PartialView)
  }

  // ---------------------------------------------------------------------------------------------
  // The merge

  function UnavailableReport(s: Source): Report {
    Report(s, ModeOf(s), ErrorState, None, Some(SourceUnavailable), 0, false, 0)
  }

  /** `_report_from_response`; a response that names another source counts as unavailable. */
  function ReportFrom(s: Source, r: Response): Report {
    if r.source != s || r.mode != ModeOf(s) then UnavailableReport(s)
    else Report(s, r.mode, r.state, r.freshness, r.error, |r.items|, r.partial, r.omitted)
  }

  /** What one reader gave: nothing when it raised. */
  function ReportOf(s: Source, result: Option<Response>): Report {
    if result.None? then UnavailableReport(s) else ReportFrom(s, result.value)
  }

  /** The items a source contributes. */
  function Contribution(s: Source, result: Option<Response>): seq<Item> {
    if result.Some? && ReportFrom(s, result.value).state != ErrorState then result.value.items else []
  }

  /** One from each queue in turn, until both are empty. */
  function RoundRobin(a: seq<Item>, b: seq<Item>): (items: seq<Item>)
    ensures |items| == |a| + |b|
    decreases |a| + |b|
  {
    if a == [] && b == [] then []
    else if a == [] then [b[0]] + RoundRobin(a, b[1..])
    else if b == [] then [a[0]] + RoundRobin(a[1..], b)
    else [a[0], b[0]] + RoundRobin(a[1..], b[1..])
  }

  function Merge(s: Source, t: Source, left: Option<Response>, right: Option<Response>): Aggregate {
    var reports := [ReportOf(s, left), ReportOf(t, right)];
    var items := RoundRobin(Contribution(s, left), Contribution(t, right));
    var state := StateFor(items, reports);
    Aggregate(state, items, reports, state == PartialView, TotalOmitted(reports))
  }

  /** One round of the merge over the first `k` queues. */
  function Round(items: seq<Item>, queues: seq<seq<Item>>, k: nat): (r: (seq<Item>, seq<seq<Item>>))
    requires k <= |queues|
    ensures |r.1| == |queues|
    ensures forall j :: k <= j < |queues| ==> r.1[j] == queues[j]
  {
    if k == 0 then (items, queues)
    else
      var (before, rest) := Round(items, queues, k - 1);
      if rest[k - 1] == [] then (before, rest)
      else (before + [rest[k - 1][0]], rest[k - 1 := rest[k - 1][1..]])
  }

  lemma RoundSteps(items: seq<Item>, queues: seq<seq<Item>>)
    requires |queues| == 2
    ensures var (items', queues') := Round(items, queues, 2);
      && queues' == [if queues[0] == [] then [] else queues[0][1..], if queues[1] == [] then [] else queues[1][1..]]
      && items' == items + (if queues[0] == [] then [] else [queues[0][0]]) + (if queues[1] == [] then [] else [queues[1][0]])
  {
    assert Round(items, queues, 0) == (items, queues);
    var (items1, queues1) := Round(items, queues, 1);
    assert queues1 == if queues[0] == [] then queues else queues[0 := queues[0][1..]];
  }

  lemma RoundRobinSteps(a: seq<Item>, b: seq<Item>)
    requires a != [] || b != []
    ensures RoundRobin(a, b) ==
      (if a == [] then [] else [a[0]]) + (if b == [] then [] else [b[0]])
      + RoundRobin(if a == [] then [] else a[1..], if b == [] then [] else b[1..])
  {
  }

  lemma RoundOfTwo(items: seq<Item>, queues: seq<seq<Item>>)
    requires |queues| == 2 && (queues[0] != [] || queues[1] != [])
    ensures var (items', queues') := Round(items, queues, 2);
      && |queues'| == 2
      && items' + RoundRobin(queues'[0], queues'[1]) == items + RoundRobin(queues[0], queues[1])
      && |queues'[0]| + |queues'[1]| < |queues[0]| + |queues[1]|
  {
    hide Round, RoundRobin;
    RoundSteps(items, queues);
    RoundRobinSteps(queues[0], queues[1]);
  }

  /** `while any(queues): for queue in queues: ...` */
  method Drain(first: seq<Item>, second: seq<Item>) returns (items: seq<Item>)
    ensures items == RoundRobin(first, second)
  {
    var queues := [first, second];
    items := [];
    while queues[0] != [] || queues[1] != []
      invariant |queues| == 2
      invariant items + RoundRobin(queues[0], queues[1]) == RoundRobin(first, second)
      decreases |queues[0]| + |queues[1]|
    {
      ghost var before, full := items, queues;
      for k := 0 to 2
        invariant |queues| == 2 && (items, queues) == Round(before, full, k)
      {
        if queues[k] != [] {
          items := items + [queues[k][0]];
          queues := queues[k := queues[k][1..]];
        }
      }
      RoundOfTwo(before, full);
    }
    assert items + [] == items;
  }

  /** The loop that reports each source. */
  method ReadSources(sources: seq<Source>, results: seq<Option<Response>>)
    returns (reports: seq<Report>, queues: seq<seq<Item>>)
    requires |sources| == |results|
    ensures |reports| == |queues| == |sources|
    ensures forall i :: 0 <= i < |sources| ==> reports[i] == ReportOf(sources[i], results[i])
    ensures forall i :: 0 <= i < |sources| ==> queues[i] == Contribution(sources[i], results[i])
  {
    reports, queues := [], [];
    for i := 0 to |sources|
      invariant |reports| == |queues| == i
      invariant forall j :: 0 <= j < i ==> reports[j] == ReportOf(sources[j], results[j])
      invariant forall j :: 0 <= j < i ==> queues[j] == Contribution(sources[j], results[j])
    {
      if results[i].None? {
        reports := reports + [UnavailableReport(sources[i])];
        queues := queues + [[]];
      } else {
        var report := ReportFrom(sources[i], results[i].value);
        reports := reports + [report];
        queues := queues + [if report.state != ErrorState then results[i].value.items else []];
      }
    }
  }

  /** The two sums over the reports. */
  method Summarise(reports: seq<Report>) returns (degraded: bool, omitted: nat)
    ensures degraded == Degraded(reports) && omitted == TotalOmitted(reports)
  {
    degraded, omitted := false, 0;
    for i := 0 to |reports|
      invariant omitted == TotalOmitted(reports[..i])
      invariant degraded <==> Degraded(reports[..i])
    {
      assert reports[..i + 1][..i] == reports[..i];
      DegradedGrows(reports, i);
      omitted := omitted + reports[i].omitted;
      if reports[i].partial || reports[i].state in {StaleState, ErrorState} {
        degraded := true;
      }
    }
    assert reports[..|reports|] == reports;
  }

  /** `read_aggregate` for the two live sources in configured order. */
  method ReadAggregate(sources: seq<Source>, results: seq<Option<Response>>) returns (a: Aggregate)
    requires |sources| == 2 && |results| == 2
    ensures a == Merge(sources[0], sources[1], results[0], results[1])
  {
    var reports, queues := ReadSources(sources, results);
    assert reports == [ReportOf(sources[0], results[0]), ReportOf(sources[1], results[1])];
    var items := Drain(queues[0], queues[1]);
    var degraded, omitted := Summarise(reports);
    var state :=
      if items != [] then if degraded then PartialView else CompleteView
      else if forall i :: 0 <= i < |reports| ==> reports[i].state == EmptyState then EmptyView
      else ErrorView;
    a := Aggregate(state, items, reports, state == PartialView, omitted);
  }

  lemma DegradedGrows(reports: seq<Report>, i: nat)
    requires i < |reports|
    ensures Degraded(reports[..i + 1]) <==>
            Degraded(reports[..i]) || reports[i].partial || reports[i].state in {StaleState, ErrorState}
  {
    forall j | 0 <= j < i ensures reports[..i + 1][j] == reports[..i][j] {
    }
    assert reports[..i + 1][i] == reports[i];
    if Degraded(reports[..i + 1]) {
      var j :| 0 <= j < i + 1 && (reports[..i + 1][j].partial || reports[..i + 1][j].state in {StaleState, ErrorState});
      assert j < i ==> reports[..i][j] == reports[..i + 1][j];
    }
  }

  // ---------------------------------------------------------------------------------------------
  // What the merge keeps

  predicate AllFrom(items: seq<Item>, s: Source) {
    forall i :: 0 <= i < |items| ==> items[i].source == s
  }

  /** The items of one source, in order. */
  function FromSource(items: seq<Item>, s: Source): seq<Item> {
    if items == [] then []
    else (if items[0].source == s then [items[0]] else []) + FromSource(items[1..], s)
  }

  lemma FromCons(first: Item, rest: seq<Item>, s: Source)
    ensures FromSource([first] + rest, s) == (if first.source == s then [first] else []) + FromSource(rest, s)
  {
    assert ([first] + rest)[1..] == rest;
  }

  lemma RoundUnfolds(a: seq<Item>, b: seq<Item>)
    requires a != [] && b != []
    ensures RoundRobin(a, b) == [a[0]] + ([b[0]] + RoundRobin(a[1..], b[1..]))
  {
  }

  /** One source alone comes through as it is. */
  lemma {:induction false} AloneIsItself(items: seq<Item>)
    ensures RoundRobin(items, []) == items && RoundRobin([], items) == items
  {
    if items != [] {
      AloneIsItself(items[1..]);
      assert items == [items[0]] + items[1..];
    }
  }

  lemma {:induction false} AllOfOne(items: seq<Item>, s: Source, t: Source)
    requires s != t && AllFrom(items, s)
    ensures FromSource(items, s) == items && FromSource(items, t) == []
  {
    if items != [] {
      AllOfOne(items[1..], s, t);
      assert items == [items[0]] + items[1..];
    }
  }

  lemma {:induction false} KeepsBothSources(a: seq<Item>, b: seq<Item>, s: Source, t: Source)
    requires s != t && AllFrom(a, s) && AllFrom(b, t)
    ensures FromSource(RoundRobin(a, b), s) == a && FromSource(RoundRobin(a, b), t) == b
    decreases |a|
  {
    hide FromSource, RoundRobin;
    if a == [] {
      AloneIsItself(b);
      AllOfOne(b, t, s);
    } else if b == [] {
      AloneIsItself(a);
      AllOfOne(a, s, t);
    } else {
      KeepsBothSources(a[1..], b[1..], s, t);
      RoundUnfolds(a, b);
      var rest := RoundRobin(a[1..], b[1..]);
      FromCons(b[0], rest, s);
      FromCons(b[0], rest, t);
      FromCons(a[0], [b[0]] + rest, s);
      FromCons(a[0], [b[0]] + rest, t);
      assert a == [a[0]] + a[1..] && b == [b[0]] + b[1..];
    }
  }

  lemma FromNothing(s: Source)
    ensures FromSource([], s) == []
  {
  }

  /** Between the two sources no prefix is unfair: counts differ by at most one until one source has
      nothing left, and the first source is the one ahead. */
  lemma {:induction false} PrefixIsBalanced(a: seq<Item>, b: seq<Item>, s: Source, t: Source, k: nat)
    requires s != t && AllFrom(a, s) && AllFrom(b, t) && k <= |a| + |b|
    ensures var prefix := RoundRobin(a, b)[..k];
      var m, n := CountFrom(prefix, s), CountFrom(prefix, t);
      && m + n == k && m <= |a| && n <= |b|
      && (m < |a| && n < |b| ==> n <= m <= n + 1)
    decreases |a|
  {
    hide CountFrom, RoundRobin;
    if a == [] {
      AloneIsItself(b);
      CountOfOne(b[..k], t, s);
    } else if b == [] {
      AloneIsItself(a);
      CountOfOne(a[..k], s, t);
    } else if k == 0 {
      assert RoundRobin(a, b)[..0] == [];
      CountNothing(s);
      CountNothing(t);
    } else {
      RoundUnfolds(a, b);
      var rest := RoundRobin(a[1..], b[1..]);
      PrefixCons(a[0], [b[0]] + rest, s, t, k);
      if k == 1 {
        assert ([b[0]] + rest)[..0] == [];
        CountNothing(s);
        CountNothing(t);
      } else {
        PrefixIsBalanced(a[1..], b[1..], s, t, k - 2);
        PrefixCons(b[0], rest, s, t, k - 1);
      }
    }
  }

  lemma {:induction false} CountOfOne(items: seq<Item>, s: Source, t: Source)
    requires s != t && AllFrom(items, s)
    ensures CountFrom(items, s) == |items| && CountFrom(items, t) == 0
  {
    if items != [] {
      CountOfOne(items[..|items| - 1], s, t);
    }
  }

  lemma CountNothing(s: Source)
    ensures CountFrom([], s) == 0
  {
  }

  lemma PrefixCons(first: Item, rest: seq<Item>, s: Source, t: Source, k: nat)
    requires 0 < k <= |rest| + 1
    ensures CountFrom(([first] + rest)[..k], s) == (if first.source == s then 1 else 0) + CountFrom(rest[..k - 1], s)
    ensures CountFrom(([first] + rest)[..k], t) == (if first.source == t then 1 else 0) + CountFrom(rest[..k - 1], t)
  {
    assert ([first] + rest)[..k] == [first] + rest[..k - 1];
    CountCons(first, rest[..k - 1], s, t);
  }

  lemma {:induction false} CountCons(first: Item, rest: seq<Item>, s: Source, t: Source)
    ensures CountFrom([first] + rest, s) == (if first.source == s then 1 else 0) + CountFrom(rest, s)
    ensures CountFrom([first] + rest, t) == (if first.source == t then 1 else 0) + CountFrom(rest, t)
  {
    if rest != [] {
      var front := rest[..|rest| - 1];
      CountCons(first, front, s, t);
      assert ([first] + rest)[..|rest|] == [first] + front;
    } else {
      assert ([first] + rest)[..0] == [];
    }
  }

  lemma {:induction false} MergedItemsAreContributed(a: seq<Item>, b: seq<Item>, i: nat)
    requires i < |a| + |b|
    ensures RoundRobin(a, b)[i] in a || RoundRobin(a, b)[i] in b
    decreases |a| + |b|
  {
    if a == [] {
      if i > 0 { MergedItemsAreContributed(a, b[1..], i - 1); }
    } else if b == [] {
      if i > 0 { MergedItemsAreContributed(a[1..], b, i - 1); }
    } else if i > 1 {
      MergedItemsAreContributed(a[1..], b[1..], i - 2);
    }
  }

  lemma {:induction false} UniqueFromBoth(items: seq<Item>, s: Source, t: Source)
    requires s != t && forall i :: 0 <= i < |items| ==> items[i].source == s || items[i].source == t
    ensures UniqueItems(items) <==> UniqueItems(FromSource(items, s)) && UniqueItems(FromSource(items, t))
  {
    hide FromSource, Appears;
    if items == [] {
      FromNothing(s);
      FromNothing(t);
    } else {
      hide UniqueItems;
      var first, rest := items[0], items[1..];
      assert items == [first] + rest;
      UniqueFromBoth(rest, s, t);
      UniqueCons(first, rest);
      FromCons(first, rest, s);
      FromCons(first, rest, t);
      UniqueCons(first, FromSource(rest, first.source));
      InSource(rest, first.source, first);
      assert [] + FromSource(rest, s) == FromSource(rest, s) && [] + FromSource(rest, t) == FromSource(rest, t);
    }
  }

  predicate Appears(item: Item, items: seq<Item>) {
    exists i :: 0 <= i < |items| && items[i].source == item.source && items[i].id == item.id
  }

  lemma UniqueCons(first: Item, rest: seq<Item>)
    ensures UniqueItems([first] + rest) <==> UniqueItems(rest) && !Appears(first, rest)
  {
    var all := [first] + rest;
    if UniqueItems(all) {
      forall i, j | 0 <= i < j < |rest| ensures rest[i].source != rest[j].source || rest[i].id != rest[j].id {
        assert all[i + 1] == rest[i] && all[j + 1] == rest[j];
      }
      forall i | 0 <= i < |rest| ensures rest[i].source != first.source || rest[i].id != first.id {
        assert all[0] == first && all[i + 1] == rest[i];
      }
    }
  }

  lemma {:induction false} InSource(items: seq<Item>, s: Source, item: Item)
    requires item.source == s
    ensures Appears(item, FromSource(items, s)) <==> Appears(item, items)
  {
    if items == [] {
      FromNothing(s);
    } else {
      hide Appears, FromSource;
      InSource(items[1..], s, item);
      assert items == [items[0]] + items[1..];
      FromCons(items[0], items[1..], s);
      AppearsCons(item, items[0], items[1..]);
      AppearsCons(item, items[0], FromSource(items[1..], s));
      assert [] + FromSource(items[1..], s) == FromSource(items[1..], s);
    }
  }

  lemma AppearsCons(item: Item, first: Item, rest: seq<Item>)
    ensures Appears(item, [first] + rest) <==> Appears(item, rest) || (first.source == item.source && first.id == item.id)
  {
    var all := [first] + rest;
    if Appears(item, rest) {
      var i :| 0 <= i < |rest| && rest[i].source == item.source && rest[i].id == item.id;
      assert all[i + 1] == rest[i];
    }
    assert all[0] == first;
    if Appears(item, all) {
      var i :| 0 <= i < |all| && all[i].source == item.source && all[i].id == item.id;
      assert i > 0 ==> all[i] == rest[i - 1];
    }
  }

  /** Both readers' responses pass their own validator, or the reader raised. */
  predicate GoodResult(r: Option<Response>) { r.Some? ==> ValidResponse(r.value) }

  /** The reader came back with a response of this very source. */
  predicate Answers(s: Source, result: Option<Response>) {
    result.Some? && result.value.source == s && result.value.mode == ModeOf(s)
  }

  /** It came back with nothing to hold against it. */
  predicate Clean(s: Source, result: Option<Response>) {
    Answers(s, result) && !result.value.partial && result.value.state in {FreshState, EmptyState}
  }

  /** It came back with items. */
  predicate Supplies(s: Source, result: Option<Response>) { Answers(s, result) && result.value.items != [] }

  /** The items that came back. */
  function Usable(s: Source, result: Option<Response>): seq<Item> {
    if Answers(s, result) then result.value.items else []
  }

  lemma ReportShowsResponse(s: Source, result: Option<Response>)
    requires GoodResult(result)
    ensures var report := ReportOf(s, result);
      if Answers(s, result) then
        && report.source == s && report.mode == ModeOf(s)
        && report.state == result.value.state && report.freshness == result.value.freshness
        && report.error == result.value.error && report.count == |result.value.items|
        && report.partial == result.value.partial && report.omitted == result.value.omitted
        && Contribution(s, result) == result.value.items
      else
        && report == Report(s, ModeOf(s), ErrorState, None, Some(SourceUnavailable), 0, false, 0)
        && Contribution(s, result) == []
  {
  }

  lemma ReportsAreValid(s: Source, r: Option<Response>)
    requires IsLive(s) && GoodResult(r)
    ensures ValidReport(ReportOf(s, r)) && ReportOf(s, r).source == s
    ensures Contribution(s, r) == Usable(s, r) && ReportOf(s, r).count == |Usable(s, r)|
    ensures AllFrom(Usable(s, r), s)
    ensures forall i :: 0 <= i < |Usable(s, r)| ==> Usable(s, r)[i].mode == ModeOf(s)
  {
  }

  /** The merged view of any two read results, failures included, has valid reports, keeps every
      contributed item exactly once in its source's order, and passes the aggregate validator if and
      only if no source lists an id twice. */
  lemma MergePassesItsValidator(s: Source, t: Source, left: Option<Response>, right: Option<Response>)
    requires IsLive(s) && IsLive(t) && s != t && GoodResult(left) && GoodResult(right)
    ensures var a := Merge(s, t, left, right);
      && ValidReport(a.reports[0]) && ValidReport(a.reports[1])
      && FromSource(a.items, s) == Usable(s, left) && FromSource(a.items, t) == Usable(t, right)
      && |a.items| == |Usable(s, left)| + |Usable(t, right)|
      && (ValidAggregate(a) <==> UniqueItems(Usable(s, left)) && UniqueItems(Usable(t, right)))
  {
    hide Contribution, Usable, ReportOf, UniqueItems, FromSource, TotalOmitted, AllFrom, ValidReport, CountFrom, StateFor;
    ReportsAreValid(s, left);
    ReportsAreValid(t, right);
    var l, r := Contribution(s, left), Contribution(t, right);
    MergedItems(l, r, s, t);
  }

  /** What the merged view shows of what was read. Every response of the right source comes through with
      all its items in its own order and is reported as it is; a reader that raised, or a response of
      another source or mode, gives no items and an ERROR report. */
  lemma MergeShowsResponses(s: Source, t: Source, left: Option<Response>, right: Option<Response>)
    requires s != t && GoodResult(left) && GoodResult(right)
    ensures var a := Merge(s, t, left, right);
      && |a.reports| == 2
      && FromSource(a.items, s) == (if Answers(s, left) then left.value.items else [])
      && FromSource(a.items, t) == (if Answers(t, right) then right.value.items else [])
      && a.reports[0] == (if Answers(s, left) then
                            var r := left.value;
                            Report(s, ModeOf(s), r.state, r.freshness, r.error, |r.items|, r.partial, r.omitted)
                          else Report(s, ModeOf(s), ErrorState, None, Some(SourceUnavailable), 0, false, 0))
      && a.reports[1] == (if Answers(t, right) then
                            var r := right.value;
                            Report(t, ModeOf(t), r.state, r.freshness, r.error, |r.items|, r.partial, r.omitted)
                          else Report(t, ModeOf(t), ErrorState, None, Some(SourceUnavailable), 0, false, 0))
  {
    hide RoundRobin, FromSource, ReportOf, Contribution, ValidResponse;
    ReportShowsResponse(s, left);
    ReportShowsResponse(t, right);
    AnswersAreOfSource(s, left);
    AnswersAreOfSource(t, right);
    KeepsBothSources(Contribution(s, left), Contribution(t, right), s, t);
  }

  lemma AnswersAreOfSource(s: Source, result: Option<Response>)
    requires GoodResult(result)
    ensures AllFrom(Contribution(s, result), s)
  {
  }

  /** What the merged view calls itself: complete exactly when there is something to show and both
      sources came back clean, partial exactly when there is something to show and one did not,
      empty exactly when both sources said that they are empty, and an error otherwise. */
  lemma StateShowsResponses(s: Source, t: Source, left: Option<Response>, right: Option<Response>)
    requires GoodResult(left) && GoodResult(right)
    ensures var a := Merge(s, t, left, right);
      var some := Supplies(s, left) || Supplies(t, right);
      var clean := Clean(s, left) && Clean(t, right);
      && (a.items != [] <==> some)
      && (a.state == CompleteView <==> some && clean)
      && (a.state == PartialView <==> some && !clean)
      && (a.state == EmptyView <==> Answers(s, left) && left.value.state == EmptyState
                                    && Answers(t, right) && right.value.state == EmptyState)
      && (a.state == ErrorView <==> !some && !(Answers(s, left) && left.value.state == EmptyState
                                               && Answers(t, right) && right.value.state == EmptyState))
      && (a.partial <==> some && !clean)
      && a.omitted == (if Answers(s, left) then left.value.omitted else 0) + (if Answers(t, right) then right.value.omitted else 0)
  {
    hide RoundRobin, ReportOf, Contribution, ValidResponse;
    ReportShowsResponse(s, left);
    ReportShowsResponse(t, right);
    EmptyHasNoItems(s, left);
    EmptyHasNoItems(t, right);
    var reports := [ReportOf(s, left), ReportOf(t, right)];
    DegradedOfTwo(reports);
    OmittedOfTwo(reports);
  }

  lemma EmptyHasNoItems(s: Source, result: Option<Response>)
    requires GoodResult(result)
    ensures Answers(s, result) && result.value.state == EmptyState ==> result.value.items == []
  {
  }

  lemma DegradedOfTwo(reports: seq<Report>)
    requires |reports| == 2
    ensures Degraded(reports) <==>
      || reports[0].partial || reports[0].state in {StaleState, ErrorState}
      || reports[1].partial || reports[1].state in {StaleState, ErrorState}
  {
  }

  lemma OmittedOfTwo(reports: seq<Report>)
    requires |reports| == 2
    ensures TotalOmitted(reports) == reports[0].omitted + reports[1].omitted
  {
    assert reports[..1][..0] == [];
    assert TotalOmitted(reports[..1]) == TotalOmitted(reports[..1][..0]) + reports[0].omitted;
  }

  /** The merged items, counted and traced back. */
  lemma MergedItems(l: seq<Item>, r: seq<Item>, s: Source, t: Source)
    requires s != t && AllFrom(l, s) && AllFrom(r, t)
    requires forall i :: 0 <= i < |l| ==> l[i].mode == ModeOf(s)
    requires forall i :: 0 <= i < |r| ==> r[i].mode == ModeOf(t)
    ensures var items := RoundRobin(l, r);
      && FromSource(items, s) == l && FromSource(items, t) == r
      && CountFrom(items, s) == |l| && CountFrom(items, t) == |r|
      && (UniqueItems(items) <==> UniqueItems(l) && UniqueItems(r))
      && forall i :: 0 <= i < |items| ==> (items[i].source == s || items[i].source == t) && items[i].mode == ModeOf(items[i].source)
  {
    var items := RoundRobin(l, r);
    KeepsBothSources(l, r, s, t);
    PrefixIsBalanced(l, r, s, t, |items|);
    assert items[..|items|] == items;
    hide UniqueItems, FromSource, RoundRobin, CountFrom;
    forall i | 0 <= i < |items|
      ensures (items[i].source == s || items[i].source == t) && items[i].mode == ModeOf(items[i].source)
    {
      MergedItemsAreContributed(l, r, i);
    }
    UniqueFromBoth(items, s, t);
  }
}
