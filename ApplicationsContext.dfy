/**
 * The application cache of the dashboard: the provider that owns the list
 * of one wallet's applications, together with its loading flag and error
 * message, and the operations that fetch, create, update, re-status and
 * delete applications.  The backend is not modelled: each operation takes
 * the backend's reply as a parameter and returns the requests it issued,
 * in order, so that "nothing was sent" can be stated.
 */
module ApplicationsContext {
  import opened Wrappers
  import opened Database
  import opened Seqs

  /** A request sent to the backend. */
  datatype Request =
    | SelectRows(wallet: string)
    | InsertRow(row: ApplicationInsert)
    | UpdateRow(id: string, wallet: string, patch: ApplicationUpdate)
    | DeleteRow(id: string, wallet: string)
    | InsertTimelineRow(entry: TimelineInsert)
    | SelectTimelineRows(applicationId: string)

  const WalletNotConnected := "Wallet not connected"
  const FetchFailed := "Error al cargar las postulaciones"

  /** `walletAddress` is truthy: present and not the empty string. */
  predicate Connected(wallet: Option<string>) {
    wallet.Some? && wallet.value != ""
  }

  /** `walletAddress || ""`: the owner filter of updates and deletes. */
  function OwnerFilter(wallet: Option<string>): (w: string)
    ensures Connected(wallet) ==> w == wallet.value
    ensures !Connected(wallet) ==> w == ""
  {
    if wallet.Some? then wallet.value else ""
  }

  /** `notes` is truthy: given and not the empty string. */
  predicate HasNotes(notes: Option<string>) {
    notes.Some? && notes.value != ""
  }

  function Ids(s: seq<Application>): (ids: seq<string>)
    ensures |ids| == |s|
    ensures forall i :: 0 <= i < |s| ==> ids[i] == s[i].id
  {
    seq(|s|, i requires 0 <= i < |s| => s[i].id)
  }

  predicate UniqueIds(s: seq<Application>) {
    forall i, j :: 0 <= i < j < |s| ==> s[i].id != s[j].id
  }

  /** The position of the first application with that id, or `|s|` when there is none. */
  function FirstIndexOf(s: seq<Application>, id: string): (k: nat)
    ensures k <= |s|
    ensures k < |s| ==> s[k].id == id
    ensures forall j :: 0 <= j < k ==> s[j].id != id
  {
    if s == [] then 0
    else if s[0].id == id then 0
    else 1 + FirstIndexOf(s[1..], id)
  }

  /** `s.find(a => a.id === id)`: the first application with that id, if any. */
  function FindById(s: seq<Application>, id: string): (r: Option<Application>)
    ensures r.None? <==> id !in Ids(s)
    ensures r.Some? ==> exists i :: 0 <= i < |s| && s[i] == r.value && r.value.id == id
                                 && forall j :: 0 <= j < i ==> s[j].id != id
  {
    var k := FirstIndexOf(s, id);
    if k < |s| then
      assert Ids(s)[k] == id;
      Some(s[k])
    else
      assert forall j :: 0 <= j < |s| ==> Ids(s)[j] != id;
      None
  }

  /** `s.map(app => app.id === id ? row : app)`. */
  function ReplaceById(s: seq<Application>, id: string, row: Application): (r: seq<Application>)
    ensures |r| == |s|
    ensures forall i :: 0 <= i < |s| ==> r[i] == (if s[i].id == id then row else s[i])
  {
    seq(|s|, i requires 0 <= i < |s| => if s[i].id == id then row else s[i])
  }

  function HasOtherId(id: string): Application -> bool {
    (a: Application) => a.id != id
  }

  /** `s.filter(app => app.id !== id)`. */
  function RemoveById(s: seq<Application>, id: string): (r: seq<Application>)
    ensures forall a :: a in r <==> a in s && a.id != id
    ensures id !in Ids(r)
    ensures |r| == |s| - Occurrences(Ids(s), id)
  {
    var r := Filter(s, HasOtherId(id));
    RemoveByIdLength(s, id);
    forall i | 0 <= i < |r| ensures Ids(r)[i] != id {
      assert r[i] in r;
    }
    r
  }

  lemma {:induction false} RemoveByIdLength(s: seq<Application>, id: string)
    ensures |Filter(s, HasOtherId(id))| == |s| - Occurrences(Ids(s), id)
  {
    if s != [] {
      var init, last := s[..|s| - 1], s[|s| - 1];
      assert Ids(s)[..|s| - 1] == Ids(init);
      assert Ids(s)[|s| - 1] == last.id;
      RemoveByIdLength(init, id);
      assert Filter(s, HasOtherId(id)) == Filter(init, HasOtherId(id)) + (if last.id != id then [last] else []);
    }
  }

  /** Replacing an id that is not cached changes nothing. */
  lemma ReplaceAbsent(s: seq<Application>, id: string, row: Application)
    requires id !in Ids(s)
    ensures ReplaceById(s, id, row) == s
  {
    forall i | 0 <= i < |s| ensures s[i].id != id {
      assert Ids(s)[i] == s[i].id;
    }
  }

  /** Replacing twice with the same row is replacing once. */
  lemma ReplaceIdempotent(s: seq<Application>, id: string, row: Application)
    ensures ReplaceById(ReplaceById(s, id, row), id, row) == ReplaceById(s, id, row)
  {
  }

  /** A returned row that keeps its id keeps the ids of the list, in order. */
  lemma ReplaceKeepsIds(s: seq<Application>, id: string, row: Application)
    requires row.id == id
    ensures Ids(ReplaceById(s, id, row)) == Ids(s)
    ensures UniqueIds(s) ==> UniqueIds(ReplaceById(s, id, row))
  {
  }

  /** Removing an id that is not cached changes nothing. */
  lemma RemoveAbsent(s: seq<Application>, id: string)
    requires id !in Ids(s)
    ensures RemoveById(s, id) == s
  {
    forall i | 0 <= i < |s| ensures HasOtherId(id)(s[i]) {
      assert Ids(s)[i] == s[i].id;
    }
    FilterAll(s, HasOtherId(id));
  }

  /** Removing twice is removing once. */
  lemma RemoveIdempotent(s: seq<Application>, id: string)
    ensures RemoveById(RemoveById(s, id), id) == RemoveById(s, id)
  {
    RemoveAbsent(RemoveById(s, id), id);
  }

  /** Removal keeps the relative order of what it keeps: it distributes over concatenation. */
  lemma RemoveConcat(a: seq<Application>, b: seq<Application>, id: string)
    ensures RemoveById(a + b, id) == RemoveById(a, id) + RemoveById(b, id)
  {
    FilterConcat(a, b, HasOtherId(id));
  }

  /** Deleting a row just created with a fresh id restores the list. */
  lemma CreateThenDelete(s: seq<Application>, row: Application)
    requires row.id !in Ids(s)
    ensures RemoveById([row] + s, row.id) == s
  {
    RemoveConcat([row], s, row.id);
    assert RemoveById([row], row.id) == [] by {
      FilterNone([row], HasOtherId(row.id));
    }
    RemoveAbsent(s, row.id);
    assert [] + s == s;
  }

  /** Removal keeps the ids unique. */
  lemma {:induction false} RemoveKeepsUnique(s: seq<Application>, id: string)
    requires UniqueIds(s)
    ensures UniqueIds(RemoveById(s, id))
  {
    if s != [] {
      var init, last := s[..|s| - 1], s[|s| - 1];
      assert s == init + [last];
      RemoveKeepsUnique(init, id);
      forall a | a in init ensures a.id != last.id {
        var i :| 0 <= i < |init| && init[i] == a;
        assert s[i] == a;
      }
      RemoveConcat(init, [last], id);
      RemoveLastStep(init, last, id);
    }
  }

  lemma RemoveLastStep(init: seq<Application>, last: Application, id: string)
    requires forall a :: a in init ==> a.id != last.id
    requires UniqueIds(RemoveById(init, id))
    ensures UniqueIds(RemoveById(init, id) + RemoveById([last], id))
  {
    var kept := RemoveById(init, id);
    assert RemoveById([last], id) == (if last.id != id then [last] else []);
    if last.id != id {
      UniqueSnoc(kept, last);
    } else {
      assert kept + [] == kept;
    }
  }

  lemma UniqueSnoc(s: seq<Application>, row: Application)
    requires UniqueIds(s)
    requires forall a :: a in s ==> a.id != row.id
    ensures UniqueIds(s + [row])
  {
    forall i, j | 0 <= i < j < |s| + 1 ensures (s + [row])[i].id != (s + [row])[j].id {
      if j == |s| {
        assert s[i] in s;
      }
    }
  }

  /** Prepending a row whose id is fresh keeps the ids unique. */
  lemma PrependKeepsUnique(s: seq<Application>, row: Application)
    requires UniqueIds(s) && row.id !in Ids(s)
    ensures UniqueIds([row] + s)
  {
    forall j | 0 <= j < |s| ensures row.id != s[j].id {
      assert Ids(s)[j] == s[j].id;
    }
  }

  /**
   * The provider: the cached list, whether a fetch is under way, and the
   * fetch error shown to the user.  `walletAddress` is the provider's prop.
   */
  class ApplicationsProvider {
    var applications: seq<Application>
    var loading: bool
    var error: Option<string>
    const walletAddress: Option<string>

    /** The initial state: an empty list, loading, no error. */
    constructor(walletAddress: Option<string>)
      ensures this.walletAddress == walletAddress
      ensures applications == [] && loading && error.None?
    {
      this.walletAddress := walletAddress;
      applications := [];
      loading := true;
      error := None;
    }

    /**
     * `fetchApplications`: without a wallet the list is emptied and nothing
     * is queried; otherwise the list is replaced by the reply's rows (none
     * when the reply has no data), or, when the query fails, the previous
     * list is kept and the error message is set.  Loading ends either way.
     */
    method FetchApplications(reply: Result<Option<seq<Application>>, string>) returns (requests: seq<Request>)
      modifies this
      ensures !loading
      ensures !Connected(walletAddress) ==>
                requests == [] && applications == [] && error == old(error)
      ensures Connected(walletAddress) ==> requests == [SelectRows(walletAddress.value)]
      ensures Connected(walletAddress) && reply.Ok? ==>
                error.None? && applications == (if reply.value.Some? then reply.value.value else [])
      ensures Connected(walletAddress) && reply.Err? ==>
                error == Some(FetchFailed) && applications == old(applications)
    {
      if !Connected(walletAddress) {
        applications := [];
        loading := false;
        return [];
      }
      loading := true;
      error := None;
      requests := [SelectRows(walletAddress.value)];
      match reply {
        case Ok(data) =>
          applications := if data.Some? then data.value else [];
        case Err(_) =>
          error := Some(FetchFailed);
      }
      loading := false;
    }

    /**
     * `createApplication`: refused without a wallet before anything is sent;
     * otherwise the payload is `data` with the provider's wallet written over
     * whatever owner it carried, and the returned row goes to the front of
     * the list.  A failed insert throws and leaves the list as it was.
     */
    method CreateApplication(data: ApplicationInsert, reply: Result<Application, string>)
      returns (requests: seq<Request>, outcome: Result<Application, string>)
      modifies this
      ensures loading == old(loading) && error == old(error)
      ensures !Connected(walletAddress) ==>
                requests == [] && outcome == Err(WalletNotConnected) && applications == old(applications)
      ensures Connected(walletAddress) ==>
                && requests == [InsertRow(data.(walletAddress := walletAddress.value))]
                && requests[0].row.walletAddress == walletAddress.value
                && outcome == reply
      ensures Connected(walletAddress) && reply.Ok? ==> applications == [reply.value] + old(applications)
      ensures reply.Err? ==> applications == old(applications)
    {
      if !Connected(walletAddress) {
        return [], Err(WalletNotConnected);
      }
      requests := [InsertRow(data.(walletAddress := walletAddress.value))];
      match reply {
        case Err(e) =>
          return requests, Err(e);
        case Ok(row) =>
          applications := [row] + applications;
          outcome := Ok(row);
      }
    }

    /**
     * `updateApplication`: sends the patch scoped to the id and the owner; on
     * success every cached element with that id becomes the returned row,
     * on failure it throws and the list is unchanged.
     */
    method UpdateApplication(id: string, data: ApplicationUpdate, reply: Result<Application, string>)
      returns (requests: seq<Request>, outcome: Result<Application, string>)
      modifies this
      ensures loading == old(loading) && error == old(error)
      ensures requests == [UpdateRow(id, OwnerFilter(walletAddress), data)]
      ensures outcome == reply
      ensures reply.Ok? ==> applications == ReplaceById(old(applications), id, reply.value)
      ensures reply.Err? ==> applications == old(applications)
    {
      requests := [UpdateRow(id, OwnerFilter(walletAddress), data)];
      outcome := reply;
      if reply.Ok? {
        applications := ReplaceById(applications, id, reply.value);
      }
    }

    /**
     * `updateStatus`: sends a status-only patch; on success, when notes are
     * given, also records a timeline row whose old status is the cached
     * status of that id (null when the id is not cached) — its reply is not
     * checked — and then replaces the cached element.
     */
    method UpdateStatus(id: string, status: Status, notes: Option<string>, reply: Result<Application, string>)
      returns (requests: seq<Request>, outcome: Result<Application, string>)
      modifies this
      ensures loading == old(loading) && error == old(error)
      ensures outcome == reply
      ensures reply.Err? ==>
                requests == [UpdateRow(id, OwnerFilter(walletAddress), StatusPatch(status))]
                && applications == old(applications)
      ensures reply.Ok? && !HasNotes(notes) ==>
                requests == [UpdateRow(id, OwnerFilter(walletAddress), StatusPatch(status))]
      ensures reply.Ok? && HasNotes(notes) ==>
                requests == [UpdateRow(id, OwnerFilter(walletAddress), StatusPatch(status)),
                             InsertTimelineRow(TimelineInsert(id, OldStatusOf(old(applications), id), status, notes))]
      ensures reply.Ok? ==> applications == ReplaceById(old(applications), id, reply.value)
    {
      var current := FindById(applications, id);
      requests := [UpdateRow(id, OwnerFilter(walletAddress), StatusPatch(status))];
      outcome := reply;
      if reply.Err? {
        return;
      }
      if HasNotes(notes) {
        var oldStatus := if current.Some? then Some(current.value.status) else None;
        requests := requests + [InsertTimelineRow(TimelineInsert(id, oldStatus, status, notes))];
      }
      applications := ReplaceById(applications, id, reply.value);
    }

    /** `deleteApplication`: on success every cached element with that id is dropped. */
    method DeleteApplication(id: string, reply: Result<(), string>)
      returns (requests: seq<Request>, outcome: Result<(), string>)
      modifies this
      ensures loading == old(loading) && error == old(error)
      ensures requests == [DeleteRow(id, OwnerFilter(walletAddress))]
      ensures outcome == reply
      ensures reply.Ok? ==> applications == RemoveById(old(applications), id)
      ensures reply.Err? ==> applications == old(applications)
    {
      requests := [DeleteRow(id, OwnerFilter(walletAddress))];
      outcome := reply;
      if reply.Ok? {
        applications := RemoveById(applications, id);
      }
    }
  }

  /** `currentApp?.status || null`: the cached status of `id`, or null when it is not cached. */
  function OldStatusOf(s: seq<Application>, id: string): (r: Option<Status>)
    ensures r.None? <==> id !in Ids(s)
    ensures r.Some? ==> exists i :: 0 <= i < |s| && s[i].id == id && s[i].status == r.value
  {
    var found := FindById(s, id);
    if found.Some? then Some(found.value.status) else None
  }

  /**
   * `getTimeline`: the reply's rows, or none when the reply has no data; a
   * failed query throws.  It reads no provider state.
   */
  method GetTimeline(applicationId: string, reply: Result<Option<seq<TimelineEntry>>, string>)
    returns (requests: seq<Request>, outcome: Result<seq<TimelineEntry>, string>)
    ensures requests == [SelectTimelineRows(applicationId)]
    ensures reply.Err? ==> outcome == Err(reply.error)
    ensures reply.Ok? && reply.value.Some? ==> outcome == Ok(reply.value.value)
    ensures reply.Ok? && reply.value.None? ==> outcome == Ok([])
  {
    requests := [SelectTimelineRows(applicationId)];
    match reply {
      case Err(e) => outcome := Err(e);
      case Ok(data) => outcome := Ok(if data.Some? then data.value else []);
    }
  }
}
