/**
 * The "recent applications" table of the dashboard: a row of status tabs
 * ("todas" or one status) above at most five rows of the cached list.
 */
module ApplicationsTable {
  import opened Wrappers
  import opened Database
  import opened Seqs

  /** At most this many rows are shown. */
  const MaxRows := 5

  /** The active tab: `None` is "todas", `Some(s)` is the tab of status `s`. */
  function InTab(active: Option<Status>): Application -> bool {
    (a: Application) => active.None? || a.status == active.value
  }

  /**
   * The rows the table shows: the applications the active tab lets through,
   * in list order, cut to the first five.
   */
  function TableRows(apps: seq<Application>, active: Option<Status>): (rows: seq<Application>)
    ensures |rows| == Min(MaxRows, |Filter(apps, InTab(active))|)
    ensures |rows| == Min(MaxRows, CountWhere(apps, InTab(active)))
    ensures forall a :: a in rows ==> a in apps
    ensures active.Some? ==> forall a :: a in rows ==> a.status == active.value
    ensures rows == Filter(apps, InTab(active))[..|rows|]
  {
    FilterLength(apps, InTab(active));
    Slice(Filter(apps, InTab(active)), 0, MaxRows)
  }

  /** On the "todas" tab the table shows the first five applications of the list, whatever their status. */
  lemma AllTabShowsFirstRows(apps: seq<Application>)
    ensures TableRows(apps, None) == apps[..Min(MaxRows, |apps|)]
  {
    FilterAll(apps, InTab(None));
    FilterLength(apps, InTab(None));
  }

  /**
   * A status tab shows an application of that status whenever fewer than
   * five earlier applications have it: the rows are the first matches.
   */
  lemma {:induction false} StatusTabShowsFirstMatches(apps: seq<Application>, s: Status, i: nat)
    requires i < |apps| && apps[i].status == s
    requires CountWhere(apps[..i], InTab(Some(s))) < MaxRows
    ensures apps[i] in TableRows(apps, Some(s))
  {
    var p := InTab(Some(s));
    var pre, x, post := apps[..i], apps[i], apps[i + 1..];
    assert apps == pre + [x] + post;
    FilterAround(pre, x, post, p);
    FilterLength(pre, p);
    var k := |Filter(pre, p)|;
    assert Filter(apps, p)[k] == x;
    assert k < |TableRows(apps, Some(s))|;
  }

  /** An element the filter keeps sits right after what the filter keeps before it. */
  lemma FilterAround(pre: seq<Application>, x: Application, post: seq<Application>, p: Application -> bool)
    requires p(x)
    ensures Filter(pre + [x] + post, p) == Filter(pre, p) + [x] + Filter(post, p)
  {
    FilterConcat(pre + [x], post, p);
    FilterConcat(pre, [x], p);
    assert Filter([x], p) == [x] by {
      assert [x][..0] == [];
    }
  }

  /**
   * The message shown when no row passes the tab; the status tabs add
   * "con este estado".
   */
  function EmptyMessage(active: Option<Status>): (text: string)
    ensures |text| >= 21 && text[..21] == "No hay postulaciones "
    ensures active.None? <==> text == "No hay postulaciones "
    ensures active.Some? ==> text[21..] == "con este estado"
  {
    "No hay postulaciones " + (if active.Some? then "con este estado" else "")
  }
}
