/**
 * The derived views over the cached application list: `getStats`,
 * `getCompanyNames`, `getByStatus` and `getPlatformStats`.  The context
 * provider and the older hook carry identical copies of this code; both use
 * these definitions.  "Now" is a parameter.
 */
module Stats {
  import opened Wrappers
  import opened Dates
  import opened Database
  import opened Seqs
  import opened Text

  // ---------------------------------------------------------------------
  // getStats
  // ---------------------------------------------------------------------

  datatype ApplicationStats = ApplicationStats(
    total: nat,
    pendientes: nat,
    enRevision: nat,
    entrevistas: nat,
    aceptadas: nat,
    rechazadas: nat,
    tasaRespuesta: real,
    thisMonth: nat,
    lastMonth: nat)

  /** The statuses that count as an answer from the company. */
  predicate IsResponse(s: Status) {
    s.EntrevistaProgramada? || s.Aceptada? || s.TeContestaron? || s.Rechazada?
  }

  function HasStatus(s: Status): Application -> bool {
    (a: Application) => a.status == s
  }

  function Responded(): Application -> bool {
    (a: Application) => IsResponse(a.status)
  }

  function DatedIn(ym: YearMonth): Application -> bool {
    (a: Application) => a.applicationDate.year == ym.year && a.applicationDate.month == ym.month
  }

  function CountStatus(apps: seq<Application>, s: Status): nat {
    CountWhere(apps, HasStatus(s))
  }

  /** `responded / total * 100`, and 0 for an empty list. */
  function ResponseRate(responded: nat, total: nat): (rate: real)
    requires responded <= total
    ensures total == 0 ==> rate == 0.0
    ensures total > 0 ==> rate * total as real == responded as real * 100.0
    ensures 0.0 <= rate <= 100.0
    ensures rate == 0.0 <==> responded == 0 || total == 0
    ensures rate == 100.0 <==> total > 0 && responded == total
  {
    if total > 0 then (responded as real / total as real) * 100.0 else 0.0
  }

  /** `getStats()` at the moment `now` (its `getMonth()` and `getFullYear()`). */
  function GetStats(apps: seq<Application>, now: YearMonth): (r: ApplicationStats)
    ensures r.total == |apps|
    ensures r.tasaRespuesta == ResponseRate(CountWhere(apps, Responded()), |apps|)
    ensures r.thisMonth == CountWhere(apps, DatedIn(now))
    ensures r.lastMonth == CountWhere(apps, DatedIn(PreviousMonth(now)))
    ensures r.thisMonth + r.lastMonth <= r.total
    ensures r.pendientes == CountStatus(apps, Pendiente)
    ensures r.enRevision == CountStatus(apps, EnRevision)
    ensures r.entrevistas == CountStatus(apps, EntrevistaProgramada)
    ensures r.aceptadas == CountStatus(apps, Aceptada)
    ensures r.rechazadas == CountStatus(apps, Rechazada)
    ensures r.pendientes + r.enRevision + r.entrevistas + r.aceptadas + r.rechazadas <= r.total
  {
    var last := PreviousMonth(now);
    assert last != now by {
      assert MonthOrdinal(last) != MonthOrdinal(now);
    }
    CountDisjoint(apps, DatedIn(now), DatedIn(last));
    StatusCountsPartition(apps);
    ApplicationStats(
      total := |apps|,
      pendientes := CountStatus(apps, Pendiente),
      enRevision := CountStatus(apps, EnRevision),
      entrevistas := CountStatus(apps, EntrevistaProgramada),
      aceptadas := CountStatus(apps, Aceptada),
      rechazadas := CountStatus(apps, Rechazada),
      tasaRespuesta := ResponseRate(CountWhere(apps, Responded()), |apps|),
      thisMonth := CountWhere(apps, DatedIn(now)),
      lastMonth := CountWhere(apps, DatedIn(last)))
  }

  /** The seven status counts add up to the length of the list. */
  lemma {:induction false} StatusCountsPartition(apps: seq<Application>)
    ensures CountStatus(apps, Pendiente) + CountStatus(apps, EnRevision) + CountStatus(apps, TeContestaron)
          + CountStatus(apps, EntrevistaProgramada) + CountStatus(apps, Rechazada)
          + CountStatus(apps, Aceptada) + CountStatus(apps, DescartadaPorMi) == |apps|
  {
    if apps != [] {
      StatusCountsPartition(apps[..|apps| - 1]);
    }
  }

  /** The responded count is the sum of the counts of the four answered statuses. */
  lemma {:induction false} RespondedIsSumOfAnswered(apps: seq<Application>)
    ensures CountWhere(apps, Responded())
         == CountStatus(apps, EntrevistaProgramada) + CountStatus(apps, Aceptada)
          + CountStatus(apps, TeContestaron) + CountStatus(apps, Rechazada)
  {
    if apps != [] {
      RespondedIsSumOfAnswered(apps[..|apps| - 1]);
    }
  }

  // ---------------------------------------------------------------------
  // getByStatus
  // ---------------------------------------------------------------------

  /** `applications.filter(a => a.status === status)`. */
  function GetByStatus(apps: seq<Application>, s: Status): (r: seq<Application>)
    ensures forall a :: a in r ==> a in apps && a.status == s
    ensures forall a :: a in apps && a.status == s ==> a in r
    ensures |r| == CountStatus(apps, s)
  {
    FilterLength(apps, HasStatus(s));
    Filter(apps, HasStatus(s))
  }

  /** The status view keeps list order: it distributes over concatenation. */
  lemma GetByStatusConcat(a: seq<Application>, b: seq<Application>, s: Status)
    ensures GetByStatus(a + b, s) == GetByStatus(a, s) + GetByStatus(b, s)
  {
    FilterConcat(a, b, HasStatus(s));
  }

  /** A status view holds exactly the rows of that status, in list order, and nothing else. */
  lemma GetByStatusExact(apps: seq<Application>, s: Status)
    ensures (forall i :: 0 <= i < |apps| ==> apps[i].status == s) ==> GetByStatus(apps, s) == apps
    ensures (forall i :: 0 <= i < |apps| ==> apps[i].status != s) ==> GetByStatus(apps, s) == []
  {
    if forall i :: 0 <= i < |apps| ==> apps[i].status == s {
      FilterAll(apps, HasStatus(s));
    }
    if forall i :: 0 <= i < |apps| ==> apps[i].status != s {
      FilterNone(apps, HasStatus(s));
    }
  }

  /** The seven status views together hold exactly as many rows as the list. */
  lemma ByStatusPartition(apps: seq<Application>)
    ensures |GetByStatus(apps, Pendiente)| + |GetByStatus(apps, EnRevision)| + |GetByStatus(apps, TeContestaron)|
          + |GetByStatus(apps, EntrevistaProgramada)| + |GetByStatus(apps, Rechazada)|
          + |GetByStatus(apps, Aceptada)| + |GetByStatus(apps, DescartadaPorMi)| == |apps|
  {
    StatusCountsPartition(apps);
  }

  // ---------------------------------------------------------------------
  // getCompanyNames
  // ---------------------------------------------------------------------

  function CompanyNames(apps: seq<Application>): (names: seq<string>)
    ensures |names| == |apps|
    ensures forall i :: 0 <= i < |apps| ==> names[i] == apps[i].companyName
  {
    seq(|apps|, i requires 0 <= i < |apps| => apps[i].companyName)
  }

  /** Every name comes before every later one in JavaScript's string order, so none repeats. */
  predicate StrictlySorted(s: seq<string>) {
    forall i, j :: 0 <= i < j < |s| ==> LexLess(s[i], s[j])
  }

  function InsertSorted(x: string, s: seq<string>): (r: seq<string>)
    requires StrictlySorted(s)
    ensures StrictlySorted(r)
    ensures forall y :: y in r <==> y in s || y == x
  {
    if s == [] then [x]
    else if x == s[0] then s
    else if LexLess(x, s[0]) then
      assert forall j :: 0 <= j < |s| ==> LexLess(x, s[j]) by {
        forall j | 0 <= j < |s| ensures LexLess(x, s[j]) {
          if j > 0 { LexLessTransitive(x, s[0], s[j]); }
        }
      }
      [x] + s
    else
      LexLessTotal(x, s[0]);
      var rest := InsertSorted(x, s[1..]);
      assert forall y :: y in rest ==> LexLess(s[0], y) by {
        forall y | y in rest ensures LexLess(s[0], y) {
          if y != x {
            var j :| 0 <= j < |s[1..]| && s[1..][j] == y;
            assert s[j + 1] == y;
          }
        }
      }
      [s[0]] + rest
  }

  /** `Array.from(new Set(names)).sort()`. */
  function SortDistinct(names: seq<string>): (r: seq<string>)
    ensures StrictlySorted(r)
    ensures forall y :: y in r <==> y in names
  {
    if names == [] then []
    else InsertSorted(names[|names| - 1], SortDistinct(names[..|names| - 1]))
  }

  /** `getCompanyNames()`: the distinct company names, in sorted order, each once. */
  function GetCompanyNames(apps: seq<Application>): (r: seq<string>)
    ensures StrictlySorted(r)
    ensures forall name :: name in r <==> exists i :: 0 <= i < |apps| && apps[i].companyName == name
  {
    var names := CompanyNames(apps);
    var r := SortDistinct(names);
    assert forall name :: name in names <==> exists i :: 0 <= i < |apps| && apps[i].companyName == name by {
      forall name ensures name in names <==> exists i :: 0 <= i < |apps| && apps[i].companyName == name {
        if name in names {
          var i :| 0 <= i < |names| && names[i] == name;
          assert apps[i].companyName == name;
        }
      }
    }
    r
  }

  /**
   * A strictly sorted list is determined by its elements: whatever order
   * the set was built in, the sorted result is the same.
   */
  lemma {:induction false} StrictlySortedUnique(a: seq<string>, b: seq<string>)
    requires StrictlySorted(a) && StrictlySorted(b)
    requires forall y :: y in a <==> y in b
    ensures a == b
    decreases |a|
  {
    if a != [] {
      assert a[0] in a;
    }
    if b != [] {
      assert b[0] in b;
    }
    if a != [] && b != [] {
      // The least element of each is the least element of the other.
      assert a[0] == b[0] by {
        if a[0] != b[0] {
          var i :| 0 <= i < |a| && a[i] == b[0];
          var j :| 0 <= j < |b| && b[j] == a[0];
          assert LexLess(a[0], b[0]) && LexLess(b[0], a[0]);
          LexLessAsymmetric(a[0], b[0]);
        }
      }
      assert a == [a[0]] + a[1..] && b == [b[0]] + b[1..];
      forall y ensures y in a[1..] <==> y in b[1..] {
        if y in a[1..] {
          var i :| 0 <= i < |a[1..]| && a[1..][i] == y;
          assert a[i + 1] == y && LexLess(a[0], y);
          LexLessIrreflexive(y);
          assert y in b && y != b[0];
        }
        if y in b[1..] {
          var j :| 0 <= j < |b[1..]| && b[1..][j] == y;
          assert b[j + 1] == y && LexLess(b[0], y);
          LexLessIrreflexive(y);
          assert y in a && y != a[0];
        }
      }
      StrictlySortedUnique(a[1..], b[1..]);
    }
  }

  // ---------------------------------------------------------------------
  // getPlatformStats
  // ---------------------------------------------------------------------

  datatype PlatformStat = PlatformStat(platform: string, count: nat, entrevistas: nat, efectividad: real)

  /** The statuses `getPlatformStats` counts as an interview. */
  predicate IsInterview(s: Status) {
    s.EntrevistaProgramada? || s.Aceptada?
  }

  function PlatformsOf(apps: seq<Application>): (r: seq<string>)
    ensures |r| == |apps|
    ensures forall i :: 0 <= i < |apps| ==> r[i] == apps[i].platform
  {
    seq(|apps|, i requires 0 <= i < |apps| => apps[i].platform)
  }

  /** How many applications came through platform `p`. */
  function CountPlatform(apps: seq<Application>, p: string): nat {
    Occurrences(PlatformsOf(apps), p)
  }

  /** How many applications through platform `p` reached an interview or were accepted. */
  function InterviewsOn(apps: seq<Application>, p: string): nat {
    if apps == [] then 0
    else
      var last := apps[|apps| - 1];
      InterviewsOn(apps[..|apps| - 1], p) + (if last.platform == p && IsInterview(last.status) then 1 else 0)
  }

  /** A platform cannot have more interviews than applications. */
  lemma {:induction false} InterviewsBounded(apps: seq<Application>, p: string)
    ensures InterviewsOn(apps, p) <= CountPlatform(apps, p)
  {
    if apps != [] {
      assert PlatformsOf(apps)[..|apps| - 1] == PlatformsOf(apps[..|apps| - 1]);
      InterviewsBounded(apps[..|apps| - 1], p);
    }
  }

  lemma PlatformCountsPrefix(apps: seq<Application>, i: nat, p: string)
    requires i < |apps|
    ensures CountPlatform(apps[..i + 1], p) == CountPlatform(apps[..i], p) + (if apps[i].platform == p then 1 else 0)
    ensures InterviewsOn(apps[..i + 1], p)
         == InterviewsOn(apps[..i], p) + (if apps[i].platform == p && IsInterview(apps[i].status) then 1 else 0)
  {
    assert apps[..i + 1][..i] == apps[..i];
    assert PlatformsOf(apps[..i + 1])[..i] == PlatformsOf(apps[..i]);
  }

  /** `count > 0 ? entrevistas / count * 100 : 0`. */
  function Efectividad(entrevistas: nat, count: nat): (e: real)
    requires entrevistas <= count
    ensures 0.0 <= e <= 100.0
    ensures count == 0 ==> e == 0.0
    ensures count > 0 ==> e * count as real == entrevistas as real * 100.0
  {
    if count > 0 then (entrevistas as real / count as real) * 100.0 else 0.0
  }

  function StatPlatforms(stats: seq<PlatformStat>): (r: seq<string>)
    ensures |r| == |stats|
    ensures forall i :: 0 <= i < |stats| ==> r[i] == stats[i].platform
  {
    seq(|stats|, i requires 0 <= i < |stats| => stats[i].platform)
  }

  function SumCounts(stats: seq<PlatformStat>): nat {
    if stats == [] then 0 else SumCounts(stats[..|stats| - 1]) + stats[|stats| - 1].count
  }

  predicate SortedByCountDesc(stats: seq<PlatformStat>) {
    forall i, j :: 0 <= i < j < |stats| ==> stats[i].count >= stats[j].count
  }

  predicate PlatformsDistinct(stats: seq<PlatformStat>) {
    forall i, j :: 0 <= i < j < |stats| ==> stats[i].platform != stats[j].platform
  }

  /** Places `e` after every entry whose count is at least its own, so equal counts keep their order. */
  function InsertByCount(e: PlatformStat, s: seq<PlatformStat>): (r: seq<PlatformStat>)
    requires SortedByCountDesc(s)
    ensures SortedByCountDesc(r)
    ensures |r| == |s| + 1
    ensures forall x :: x in r <==> x in s || x == e
  {
    if s == [] then [e]
    else if s[0].count >= e.count then
      var rest := InsertByCount(e, s[1..]);
      forall j | 0 <= j < |rest| ensures s[0].count >= rest[j].count {
        assert rest[j] in rest;
        if rest[j] != e {
          var k :| 0 <= k < |s[1..]| && s[1..][k] == rest[j];
          assert s[k + 1] == rest[j];
        }
      }
      assert s == [s[0]] + s[1..];
      [s[0]] + rest
    else
      [e] + s
  }

  /** Inserting an entry adds its count to the total. */
  lemma {:induction false} InsertByCountSum(e: PlatformStat, s: seq<PlatformStat>)
    requires SortedByCountDesc(s)
    ensures SumCounts(InsertByCount(e, s)) == SumCounts(s) + e.count
  {
    if s == [] {
      SumCountsCons(e, []);
    } else if s[0].count >= e.count {
      InsertByCountSum(e, s[1..]);
      assert s == [s[0]] + s[1..];
      SumCountsCons(s[0], s[1..]);
      SumCountsCons(s[0], InsertByCount(e, s[1..]));
    } else {
      SumCountsCons(e, s);
    }
  }

  lemma {:induction false} InsertByCountDistinct(e: PlatformStat, s: seq<PlatformStat>)
    requires SortedByCountDesc(s) && PlatformsDistinct(s)
    requires forall x :: x in s ==> x.platform != e.platform
    ensures PlatformsDistinct(InsertByCount(e, s))
  {
    if s != [] {
      assert s == [s[0]] + s[1..];
      if s[0].count >= e.count {
        assert s[0] in s;
        InsertByCountDistinct(e, s[1..]);
        var rest := InsertByCount(e, s[1..]);
        forall j | 0 <= j < |rest| ensures s[0].platform != rest[j].platform {
          assert rest[j] in rest;
          if rest[j] != e {
            var k :| 0 <= k < |s[1..]| && s[1..][k] == rest[j];
            assert s[k + 1] == rest[j];
          }
        }
      } else {
        forall j | 0 <= j < |s| ensures e.platform != s[j].platform {
          assert s[j] in s;
        }
      }
    }
  }

  lemma {:induction false} SumCountsCons(x: PlatformStat, s: seq<PlatformStat>)
    ensures SumCounts([x] + s) == x.count + SumCounts(s)
    decreases |s|
  {
    if s != [] {
      assert ([x] + s)[..|[x] + s| - 1] == [x] + s[..|s| - 1];
      SumCountsCons(x, s[..|s| - 1]);
    }
  }

  /** `.sort((a, b) => b.count - a.count)`: an insertion sort, stable like `Array.prototype.sort`. */
  function SortByCountDesc(s: seq<PlatformStat>): (r: seq<PlatformStat>)
    ensures SortedByCountDesc(r)
    ensures |r| == |s|
    ensures forall x :: x in r <==> x in s
  {
    if s == [] then []
    else InsertByCount(s[|s| - 1], SortByCountDesc(s[..|s| - 1]))
  }

  /** Sorting keeps the total of the counts. */
  lemma {:induction false} SortByCountDescSum(s: seq<PlatformStat>)
    ensures SumCounts(SortByCountDesc(s)) == SumCounts(s)
  {
    if s != [] {
      SortByCountDescSum(s[..|s| - 1]);
      InsertByCountSum(s[|s| - 1], SortByCountDesc(s[..|s| - 1]));
    }
  }

  /** Sorting entries with distinct platforms keeps them distinct. */
  lemma {:induction false} SortByCountDescDistinct(s: seq<PlatformStat>)
    requires PlatformsDistinct(s)
    ensures PlatformsDistinct(SortByCountDesc(s))
  {
    if s != [] {
      var init, last := s[..|s| - 1], s[|s| - 1];
      SortByCountDescDistinct(init);
      forall x | x in SortByCountDesc(init) ensures x.platform != last.platform {
        var k :| 0 <= k < |init| && init[k] == x;
      }
      InsertByCountDistinct(last, SortByCountDesc(init));
    }
  }

  /** Summing the entry counts sums the occurrence counts of their keys. */
  lemma {:induction false} SumCountsIsSumOccurrences(stats: seq<PlatformStat>, keys: seq<string>, all: seq<string>)
    requires |stats| == |keys|
    requires forall i :: 0 <= i < |keys| ==> stats[i].count == Occurrences(all, keys[i])
    ensures SumCounts(stats) == SumOccurrences(keys, all)
  {
    if stats != [] {
      SumCountsIsSumOccurrences(stats[..|stats| - 1], keys[..|keys| - 1], all);
    }
  }

  /** The keys seen in the first `i` applications, each once, in first-seen order. */
  ghost predicate KeysInv(apps: seq<Application>, i: nat, keys: seq<string>, counts: map<string, nat>)
    requires i <= |apps|
  {
    && (forall k :: k in counts <==> k in keys)
    && (forall k :: k in keys <==> k in PlatformsOf(apps[..i]))
    && Distinct(keys)
  }

  /** Each tallied platform's count over the first `i` applications. */
  ghost predicate CountsInv(apps: seq<Application>, i: nat, counts: map<string, nat>)
    requires i <= |apps|
  {
    forall k :: k in counts ==> counts[k] == CountPlatform(apps[..i], k)
  }

  /** Each tallied platform's interviews over the first `i` applications; a missing key means none. */
  ghost predicate InterviewsInv(apps: seq<Application>, i: nat, counts: map<string, nat>, interviews: map<string, nat>)
    requires i <= |apps|
  {
    && (forall k :: k in interviews ==> k in counts)
    && (forall k :: k in counts ==> InterviewsOn(apps[..i], k) == (if k in interviews then interviews[k] else 0))
  }

  lemma KeysStep(apps: seq<Application>, i: nat, keys: seq<string>, counts: map<string, nat>, c: nat)
    requires i < |apps| && KeysInv(apps, i, keys, counts)
    ensures var p := apps[i].platform;
            KeysInv(apps, i + 1, if p in counts then keys else keys + [p], counts[p := c])
  {
    assert PlatformsOf(apps[..i + 1]) == PlatformsOf(apps[..i]) + [apps[i].platform];
  }

  lemma CountsStep(apps: seq<Application>, i: nat, counts: map<string, nat>)
    requires i < |apps| && CountsInv(apps, i, counts)
    requires apps[i].platform !in counts ==> CountPlatform(apps[..i], apps[i].platform) == 0
    ensures var p := apps[i].platform;
            CountsInv(apps, i + 1, counts[p := (if p in counts then counts[p] else 0) + 1])
  {
    var p := apps[i].platform;
    var counts' := counts[p := (if p in counts then counts[p] else 0) + 1];
    forall k | k in counts' ensures counts'[k] == CountPlatform(apps[..i + 1], k) {
      PlatformCountsPrefix(apps, i, k);
    }
  }

  lemma InterviewsStep(apps: seq<Application>, i: nat, counts: map<string, nat>, interviews: map<string, nat>)
    requires i < |apps| && InterviewsInv(apps, i, counts, interviews)
    requires apps[i].platform !in counts ==> InterviewsOn(apps[..i], apps[i].platform) == 0
    ensures var p := apps[i].platform;
            var e := if p in interviews then interviews[p] else 0;
            InterviewsInv(apps, i + 1, counts[p := (if p in counts then counts[p] else 0) + 1],
                          if IsInterview(apps[i].status) then interviews[p := e + 1] else interviews)
  {
    var p := apps[i].platform;
    var e := if p in interviews then interviews[p] else 0;
    var interviews' := if IsInterview(apps[i].status) then interviews[p := e + 1] else interviews;
    forall k | k in counts[p := (if p in counts then counts[p] else 0) + 1]
      ensures InterviewsOn(apps[..i + 1], k) == (if k in interviews' then interviews'[k] else 0)
    {
      PlatformCountsPrefix(apps, i, k);
    }
  }

  /**
   * The `forEach` of `getPlatformStats`: the two dictionaries it fills, and
   * the order in which their keys were first assigned (the order
   * `Object.entries` lists them in).
   */
  method TallyPlatforms(apps: seq<Application>)
    returns (keys: seq<string>, counts: map<string, nat>, interviews: map<string, nat>)
    ensures Distinct(keys)
    ensures forall k :: k in counts <==> k in keys
    ensures forall k :: k in keys <==> k in PlatformsOf(apps)
    ensures forall k :: k in counts ==> counts[k] == CountPlatform(apps, k)
    ensures forall k :: k in interviews ==> k in counts
    ensures forall k :: k in counts ==> InterviewsOn(apps, k) == (if k in interviews then interviews[k] else 0)
  {
    counts, interviews, keys := map[], map[], [];
    for i := 0 to |apps|
      invariant KeysInv(apps, i, keys, counts)
      invariant CountsInv(apps, i, counts)
      invariant InterviewsInv(apps, i, counts, interviews)
    {
      var p := apps[i].platform;
      var c := if p in counts then counts[p] else 0;
      if p !in counts {
        InterviewsBounded(apps[..i], p);
      }
      KeysStep(apps, i, keys, counts, c + 1);
      CountsStep(apps, i, counts);
      InterviewsStep(apps, i, counts, interviews);
      if p !in counts {
        keys := keys + [p];
      }
      counts := counts[p := c + 1];
      if IsInterview(apps[i].status) {
        var e := if p in interviews then interviews[p] else 0;
        interviews := interviews[p := e + 1];
      }
    }
    assert apps[..|apps|] == apps;
  }

  /** The entry `Object.entries(...).map(...)` builds for one platform. */
  function PlatformEntry(p: string, count: nat, entrevistas: nat): (e: PlatformStat)
    requires entrevistas <= count
    ensures e.platform == p && e.count == count && e.entrevistas == entrevistas
    ensures e.efectividad == Efectividad(entrevistas, count)
  {
    PlatformStat(p, count, entrevistas, Efectividad(entrevistas, count))
  }

  /** An entry that reports platform `e.platform` of `apps` correctly. */
  ghost predicate Reports(apps: seq<Application>, e: PlatformStat) {
    && e.count == CountPlatform(apps, e.platform)
    && e.entrevistas == InterviewsOn(apps, e.platform)
    && e.entrevistas <= e.count
    && e.efectividad == Efectividad(e.entrevistas, e.count)
  }

  /** `Object.entries(platformCounts).map(...)`, one entry per key in key order. */
  function BuildEntries(keys: seq<string>, counts: map<string, nat>, interviews: map<string, nat>)
    : (entries: seq<PlatformStat>)
    requires forall k :: k in keys ==> k in counts
    requires forall k :: k in keys && k in interviews ==> interviews[k] <= counts[k]
    ensures |entries| == |keys|
    ensures forall i :: 0 <= i < |keys| ==> entries[i].platform == keys[i] && entries[i].count == counts[keys[i]]
    ensures forall i :: 0 <= i < |keys| ==>
              && entries[i].entrevistas == (if keys[i] in interviews then interviews[keys[i]] else 0)
              && entries[i].entrevistas <= entries[i].count
              && entries[i].efectividad == Efectividad(entries[i].entrevistas, entries[i].count)
  {
    if keys == [] then []
    else
      var k := keys[|keys| - 1];
      BuildEntries(keys[..|keys| - 1], counts, interviews)
        + [PlatformEntry(k, counts[k], if k in interviews then interviews[k] else 0)]
  }

  /** Each unsorted entry reports its platform correctly. */
  lemma BuildEntriesReport(apps: seq<Application>, keys: seq<string>, counts: map<string, nat>,
                           interviews: map<string, nat>, entries: seq<PlatformStat>)
    requires forall k :: k in keys ==> k in counts
    requires forall k :: k in keys ==> counts[k] == CountPlatform(apps, k)
    requires forall k :: k in keys ==> InterviewsOn(apps, k) == (if k in interviews then interviews[k] else 0)
    requires forall k :: k in keys && k in interviews ==> interviews[k] <= counts[k]
    requires entries == BuildEntries(keys, counts, interviews)
    ensures forall e :: e in entries ==> Reports(apps, e)
  {
    forall e | e in entries ensures Reports(apps, e) {
      var i :| 0 <= i < |entries| && entries[i] == e;
      assert keys[i] in keys;
    }
  }

  /** The unsorted entries name exactly the platforms of `apps`, each once. */
  lemma BuildEntriesPlatforms(apps: seq<Application>, keys: seq<string>, counts: map<string, nat>,
                              interviews: map<string, nat>, entries: seq<PlatformStat>)
    requires Distinct(keys)
    requires forall k :: k in keys ==> k in counts
    requires forall k :: k in keys <==> k in PlatformsOf(apps)
    requires forall k :: k in keys && k in interviews ==> interviews[k] <= counts[k]
    requires entries == BuildEntries(keys, counts, interviews)
    ensures PlatformsDistinct(entries)
    ensures forall p :: p in StatPlatforms(entries) <==> p in PlatformsOf(apps)
  {
    forall p ensures p in StatPlatforms(entries) <==> p in keys {
      if p in keys {
        var i :| 0 <= i < |keys| && keys[i] == p;
        assert StatPlatforms(entries)[i] == p;
      }
    }
  }

  /** The unsorted entries' counts add up to the number of applications. */
  lemma BuildEntriesSum(apps: seq<Application>, keys: seq<string>, counts: map<string, nat>,
                        interviews: map<string, nat>, entries: seq<PlatformStat>)
    requires Distinct(keys)
    requires forall k :: k in keys ==> k in counts
    requires forall k :: k in keys <==> k in PlatformsOf(apps)
    requires forall k :: k in keys ==> counts[k] == CountPlatform(apps, k)
    requires forall k :: k in keys && k in interviews ==> interviews[k] <= counts[k]
    requires entries == BuildEntries(keys, counts, interviews)
    ensures SumCounts(entries) == |apps|
  {
    SumCountsIsSumOccurrences(entries, keys, PlatformsOf(apps));
    SumOccurrencesCovers(keys, PlatformsOf(apps));
  }

  /** Sorting the entries keeps every fact that holds of each entry, of the platform set and of the total. */
  lemma SortKeepsReport(apps: seq<Application>, entries: seq<PlatformStat>, stats: seq<PlatformStat>)
    requires PlatformsDistinct(entries)
    requires forall e :: e in entries ==> Reports(apps, e)
    requires stats == SortByCountDesc(entries)
    ensures PlatformsDistinct(stats)
    ensures forall e :: e in stats ==> Reports(apps, e)
    ensures forall p :: p in StatPlatforms(stats) <==> p in StatPlatforms(entries)
    ensures SumCounts(stats) == SumCounts(entries)
  {
    SortByCountDescDistinct(entries);
    SortByCountDescSum(entries);
    forall p ensures p in StatPlatforms(stats) <==> p in StatPlatforms(entries) {
      if p in StatPlatforms(stats) {
        var i :| 0 <= i < |stats| && stats[i].platform == p;
        assert stats[i] in entries;
        var j :| 0 <= j < |entries| && entries[j] == stats[i];
        assert StatPlatforms(entries)[j] == p;
      }
      if p in StatPlatforms(entries) {
        var i :| 0 <= i < |entries| && entries[i].platform == p;
        assert entries[i] in stats;
        var j :| 0 <= j < |stats| && stats[j] == entries[i];
        assert StatPlatforms(stats)[j] == p;
      }
    }
  }

  /**
   * `getPlatformStats()`: one entry per distinct platform in the list, with
   * how many applications used it and how many of those reached an
   * interview or were accepted, sorted by count, highest first.
   */
  method GetPlatformStats(apps: seq<Application>) returns (stats: seq<PlatformStat>)
    ensures PlatformsDistinct(stats)
    ensures forall p :: p in StatPlatforms(stats) <==> p in PlatformsOf(apps)
    ensures forall e :: e in stats ==>
              && e.count == CountPlatform(apps, e.platform)
              && e.entrevistas == InterviewsOn(apps, e.platform)
              && e.entrevistas <= e.count
              && e.efectividad == Efectividad(e.entrevistas, e.count)
    ensures SortedByCountDesc(stats)
    ensures SumCounts(stats) == |apps|
  {
    var keys, counts, interviews := TallyPlatforms(apps);
    forall k | k in keys && k in interviews ensures interviews[k] <= counts[k] {
      InterviewsBounded(apps, k);
    }
    var entries := BuildEntries(keys, counts, interviews);
    BuildEntriesReport(apps, keys, counts, interviews, entries);
    BuildEntriesPlatforms(apps, keys, counts, interviews, entries);
    BuildEntriesSum(apps, keys, counts, interviews, entries);
    stats := SortByCountDesc(entries);
    SortKeepsReport(apps, entries, stats);
  }
}
