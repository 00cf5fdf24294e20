/**
 * The status pie chart: how many applications are in each status, one
 * slice per status that occurs, in the order in which the statuses first
 * occur in the list, with the badge label and the status colour.
 */
module StatusChart {
  import opened Database
  import opened Seqs
  import opened Stats

  /** One slice: legend name, application count and fill colour. */
  datatype ChartEntry = ChartEntry(name: string, value: nat, color: string)

  /** `statusColors`: every status has its own colour. */
  function StatusColor(s: Status): (c: string)
    ensures |c| == 7 && c[0] == '#'
  {
    match s
    case Pendiente => "#FCD34D"
    case EnRevision => "#60A5FA"
    case TeContestaron => "#A78BFA"
    case EntrevistaProgramada => "#34D399"
    case Aceptada => "#A4D900"
    case Rechazada => "#F87171"
    case DescartadaPorMi => "#9CA3AF"
  }

  /** No two statuses share a colour or a legend name, so each slice can be told apart. */
  lemma StatusColorsDistinct(a: Status, b: Status)
    requires a != b
    ensures StatusColor(a) != StatusColor(b)
    ensures StatusConfigLabel(a) != StatusConfigLabel(b)
  {
    match a
    case Pendiente =>
    case EnRevision =>
    case TeContestaron =>
    case EntrevistaProgramada =>
    case Aceptada =>
    case Rechazada =>
    case DescartadaPorMi =>
  }

  /** The status of every application, in list order. */
  function StatusesOf(apps: seq<Application>): (r: seq<Status>)
    ensures |r| == |apps|
    ensures forall i :: 0 <= i < |apps| ==> r[i] == apps[i].status
  {
    if apps == [] then [] else StatusesOf(apps[..|apps| - 1]) + [apps[|apps| - 1].status]
  }

  /** Counting a status's occurrences is counting the applications in that status. */
  lemma {:induction false} CountStatusIsOccurrences(apps: seq<Application>, s: Status)
    ensures CountStatus(apps, s) == Occurrences(StatusesOf(apps), s)
  {
    if apps != [] {
      var init := apps[..|apps| - 1];
      CountStatusIsOccurrences(init, s);
      assert StatusesOf(apps)[..|apps| - 1] == StatusesOf(init);
    }
  }

  /** The slice for a status as the `map` builds it. */
  function SliceFor(s: Status, value: nat): (e: ChartEntry)
    ensures e.value == value
  {
    ChartEntry(StatusConfigLabel(s), value, StatusColor(s))
  }

  /** `data.reduce((sum, item) => sum + item.value, 0)`. */
  function SumValues(data: seq<ChartEntry>): nat {
    if data == [] then 0 else SumValues(data[..|data| - 1]) + data[|data| - 1].value
  }

  lemma {:induction false} SumValuesIsSumOccurrences(data: seq<ChartEntry>, keys: seq<Status>, all: seq<Status>)
    requires |data| == |keys|
    requires forall i :: 0 <= i < |keys| ==> data[i].value == Occurrences(all, keys[i])
    ensures SumValues(data) == SumOccurrences(keys, all)
  {
    if data != [] {
      SumValuesIsSumOccurrences(data[..|data| - 1], keys[..|keys| - 1], all);
    }
  }

  /** After `i` statuses: each status seen so far is a key, once, in first-seen order. */
  ghost predicate KeysInv(all: seq<Status>, i: nat, keys: seq<Status>, counts: map<Status, nat>)
    requires i <= |all|
  {
    && Distinct(keys)
    && (forall k :: k in counts <==> k in keys)
    && (forall k :: k in keys <==> k in all[..i])
  }

  /** After `i` statuses: each key holds its count so far. */
  ghost predicate CountsInv(all: seq<Status>, i: nat, counts: map<Status, nat>)
    requires i <= |all|
  {
    forall k :: k in counts ==> counts[k] == Occurrences(all[..i], k)
  }

  lemma KeysStep(all: seq<Status>, i: nat, keys: seq<Status>, counts: map<Status, nat>, c: nat)
    requires i < |all| && KeysInv(all, i, keys, counts)
    ensures var s := all[i];
            KeysInv(all, i + 1, if s in counts then keys else keys + [s], counts[s := c])
  {
    assert all[..i + 1] == all[..i] + [all[i]];
  }

  lemma CountsStep(all: seq<Status>, i: nat, counts: map<Status, nat>)
    requires i < |all| && CountsInv(all, i, counts)
    requires all[i] !in counts ==> Occurrences(all[..i], all[i]) == 0
    ensures var s := all[i];
            CountsInv(all, i + 1, counts[s := (if s in counts then counts[s] else 0) + 1])
  {
    var s := all[i];
    var counts' := counts[s := (if s in counts then counts[s] else 0) + 1];
    forall k | k in counts' ensures counts'[k] == Occurrences(all[..i + 1], k) {
      OccurrencesPrefix(all, i, k);
    }
  }

  /**
   * The `forEach` that fills `statusCounts`, with the order in which its
   * keys were first assigned (the order `Object.entries` lists them in).
   */
  method TallyStatuses(apps: seq<Application>) returns (keys: seq<Status>, counts: map<Status, nat>)
    ensures Distinct(keys)
    ensures forall k :: k in counts <==> k in keys
    ensures forall k :: k in keys <==> k in StatusesOf(apps)
    ensures forall k :: k in counts ==> counts[k] == Occurrences(StatusesOf(apps), k)
  {
    var all := StatusesOf(apps);
    counts, keys := map[], [];
    for i := 0 to |apps|
      invariant KeysInv(all, i, keys, counts)
      invariant CountsInv(all, i, counts)
    {
      var s := apps[i].status;
      var c := if s in counts then counts[s] else 0;
      KeysStep(all, i, keys, counts, c + 1);
      CountsStep(all, i, counts);
      if s !in counts {
        keys := keys + [s];
      }
      counts := counts[s := c + 1];
    }
    assert all[..|apps|] == all;
  }

  /** Some application has status `s` exactly when `s` occurs among the statuses. */
  lemma StatusOccurs(apps: seq<Application>, s: Status)
    ensures s in StatusesOf(apps) <==> exists a :: a in apps && a.status == s
  {
    var all := StatusesOf(apps);
    if s in all {
      var i :| 0 <= i < |all| && all[i] == s;
      assert apps[i] in apps;
    }
  }

  /**
   * `Object.entries(statusCounts).filter(...).map(...)`: the entries in key
   * order, those with a positive count turned into slices.  Every tallied
   * count is positive, so no key is dropped.
   */
  method EntriesOf(keys: seq<Status>, counts: map<Status, nat>) returns (chartData: seq<ChartEntry>)
    requires forall k :: k in keys ==> k in counts && counts[k] > 0
    ensures |chartData| == |keys|
    ensures forall m :: 0 <= m < |keys| ==> chartData[m] == SliceFor(keys[m], counts[keys[m]])
  {
    chartData := [];
    for j := 0 to |keys|
      invariant |chartData| == j
      invariant forall m :: 0 <= m < j ==> chartData[m] == SliceFor(keys[m], counts[keys[m]])
    {
      var k := keys[j];
      if counts[k] > 0 {
        chartData := chartData + [SliceFor(k, counts[k])];
      }
    }
  }

  /** The slices' values add up to the number of applications. */
  lemma SlicesCoverList(apps: seq<Application>, keys: seq<Status>, chartData: seq<ChartEntry>)
    requires Distinct(keys) && |chartData| == |keys|
    requires forall k :: k in keys <==> k in StatusesOf(apps)
    requires forall m :: 0 <= m < |keys| ==> chartData[m].value == Occurrences(StatusesOf(apps), keys[m])
    ensures SumValues(chartData) == |apps|
    ensures chartData == [] <==> apps == []
  {
    var all := StatusesOf(apps);
    SumValuesIsSumOccurrences(chartData, keys, all);
    SumOccurrencesCovers(keys, all);
    if apps != [] {
      assert all[0] in all;
    }
  }

  /**
   * `statusCounts` through `Object.entries`, the `filter` of positive counts
   * and the `map` to slices, then the total.  The slices come back with the
   * status each was built from.
   */
  method StatusChartData(apps: seq<Application>)
    returns (keys: seq<Status>, chartData: seq<ChartEntry>, total: nat)
    ensures |keys| == |chartData| && Distinct(keys)
    ensures forall s :: s in keys <==> exists a :: a in apps && a.status == s
    ensures forall i :: 0 <= i < |keys| ==>
              chartData[i] == ChartEntry(StatusConfigLabel(keys[i]), CountStatus(apps, keys[i]), StatusColor(keys[i]))
    ensures forall i :: 0 <= i < |chartData| ==> chartData[i].value > 0
    ensures total == SumValues(chartData)
    ensures total == |apps|
    ensures chartData == [] <==> apps == []
  {
    var counts;
    keys, counts := TallyStatuses(apps);
    chartData := EntriesOf(keys, counts);
    total := SumValues(chartData);
    SlicesCoverList(apps, keys, chartData);
    forall i | 0 <= i < |keys|
      ensures chartData[i] == ChartEntry(StatusConfigLabel(keys[i]), CountStatus(apps, keys[i]), StatusColor(keys[i]))
    {
      CountStatusIsOccurrences(apps, keys[i]);
    }
    forall s ensures s in keys <==> exists a :: a in apps && a.status == s {
      StatusOccurs(apps, s);
    }
  }
}
