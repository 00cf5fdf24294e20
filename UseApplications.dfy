/**
 * The older `useApplications` hook: the same cache and the same requests
 * as the provider, except that every successful mutation ends by fetching
 * the whole list again instead of editing the cached list, so the list
 * afterwards is whatever that fetch produced.  Each mutation takes the
 * mutation's reply and the reply of the fetch that follows it.
 */
module UseApplications {
  import opened Wrappers
  import opened Database
  import opened ApplicationsContext

  /** The list a fetch leaves behind. */
  function FetchedList(wallet: Option<string>, previous: seq<Application>,
                       reply: Result<Option<seq<Application>>, string>): seq<Application>
  {
    if !Connected(wallet) then []
    else if reply.Err? then previous
    else if reply.value.Some? then reply.value.value
    else []
  }

  /** The error message a fetch leaves behind. */
  function FetchedError(wallet: Option<string>, previous: Option<string>,
                        reply: Result<Option<seq<Application>>, string>): Option<string>
  {
    if !Connected(wallet) then previous
    else if reply.Err? then Some(FetchFailed)
    else None
  }

  /** The requests a fetch sends: none without a wallet. */
  function FetchRequests(wallet: Option<string>): seq<Request> {
    if Connected(wallet) then [SelectRows(wallet.value)] else []
  }

  /**
   * A successful fetch forgets the previous list entirely: only the wallet
   * and the reply decide what is cached, and an absent wallet always
   * leaves an empty list.
   */
  lemma FetchForgetsPrevious(wallet: Option<string>, a: seq<Application>, b: seq<Application>,
                             reply: Result<Option<seq<Application>>, string>)
    requires !Connected(wallet) || reply.Ok?
    ensures FetchedList(wallet, a, reply) == FetchedList(wallet, b, reply)
    ensures !Connected(wallet) ==> FetchedList(wallet, a, reply) == []
    ensures Connected(wallet) && reply.value.Some? ==> FetchedList(wallet, a, reply) == reply.value.value
  {
  }

  /** A failed fetch keeps the list and reports the failure. */
  lemma FailedFetchKeepsList(wallet: Option<string>, a: seq<Application>, e: Option<string>, msg: string)
    requires Connected(wallet)
    ensures FetchedList(wallet, a, Err(msg)) == a
    ensures FetchedError(wallet, e, Err(msg)) == Some(FetchFailed)
  {
  }

  class ApplicationsHook {
    var applications: seq<Application>
    var loading: bool
    var error: Option<string>
    const walletAddress: Option<string>

    constructor(walletAddress: Option<string>)
      ensures this.walletAddress == walletAddress
      ensures applications == [] && loading && error.None?
    {
      this.walletAddress := walletAddress;
      applications := [];
      loading := true;
      error := None;
    }

    /** `fetchApplications`, identical to the provider's. */
    method FetchApplications(reply: Result<Option<seq<Application>>, string>) returns (requests: seq<Request>)
      modifies this
      ensures !loading
      ensures requests == FetchRequests(walletAddress)
      ensures applications == FetchedList(walletAddress, old(applications), reply)
      ensures error == FetchedError(walletAddress, old(error), reply)
    {
      if !Connected(walletAddress) {
        applications := [];
        loading := false;
        return [];
      }
      loading := true;
      error := None;
      requests := [SelectRows(walletAddress.value)];
      match reply {
        case Ok(data) =>
          applications := if data.Some? then data.value else [];
        case Err(_) =>
          error := Some(FetchFailed);
      }
      loading := false;
    }

    /**
     * `createApplication`: refused without a wallet before anything is sent;
     * a failed insert throws before the refetch; a successful one refetches.
     */
    method CreateApplication(data: ApplicationInsert, reply: Result<Application, string>,
                             fetchReply: Result<Option<seq<Application>>, string>)
      returns (requests: seq<Request>, outcome: Result<Application, string>)
      modifies this
      ensures !Connected(walletAddress) ==>
                && requests == [] && outcome == Err(WalletNotConnected)
                && applications == old(applications) && loading == old(loading) && error == old(error)
      ensures Connected(walletAddress) ==> outcome == reply
      ensures Connected(walletAddress) && reply.Err? ==>
                && requests == [InsertRow(data.(walletAddress := walletAddress.value))]
                && applications == old(applications) && loading == old(loading) && error == old(error)
      ensures Connected(walletAddress) && reply.Ok? ==>
                && requests == [InsertRow(data.(walletAddress := walletAddress.value)), SelectRows(walletAddress.value)]
                && applications == FetchedList(walletAddress, old(applications), fetchReply)
                && error == FetchedError(walletAddress, old(error), fetchReply)
                && !loading
    {
      if !Connected(walletAddress) {
        return [], Err(WalletNotConnected);
      }
      requests := [InsertRow(data.(walletAddress := walletAddress.value))];
      outcome := reply;
      if reply.Ok? {
        var fetched := FetchApplications(fetchReply);
        requests := requests + fetched;
      }
    }

    /** `updateApplication`: a failed update throws before the refetch; a successful one refetches. */
    method UpdateApplication(id: string, data: ApplicationUpdate, reply: Result<Application, string>,
                             fetchReply: Result<Option<seq<Application>>, string>)
      returns (requests: seq<Request>, outcome: Result<Application, string>)
      modifies this
      ensures outcome == reply
      ensures reply.Err? ==>
                && requests == [UpdateRow(id, OwnerFilter(walletAddress), data)]
                && applications == old(applications) && loading == old(loading) && error == old(error)
      ensures reply.Ok? ==>
                && requests == [UpdateRow(id, OwnerFilter(walletAddress), data)] + FetchRequests(walletAddress)
                && applications == FetchedList(walletAddress, old(applications), fetchReply)
                && error == FetchedError(walletAddress, old(error), fetchReply)
                && !loading
    {
      requests := [UpdateRow(id, OwnerFilter(walletAddress), data)];
      outcome := reply;
      if reply.Ok? {
        var fetched := FetchApplications(fetchReply);
        requests := requests + fetched;
      }
    }

    /**
     * `updateStatus`: a status-only patch; on success, with notes, a
     * timeline row whose old status is the cached status of the id (null
     * when it is not cached), then the refetch.
     */
    method UpdateStatus(id: string, status: Status, notes: Option<string>, reply: Result<Application, string>,
                        fetchReply: Result<Option<seq<Application>>, string>)
      returns (requests: seq<Request>, outcome: Result<Application, string>)
      modifies this
      ensures outcome == reply
      ensures reply.Err? ==>
                && requests == [UpdateRow(id, OwnerFilter(walletAddress), StatusPatch(status))]
                && applications == old(applications) && loading == old(loading) && error == old(error)
      ensures reply.Ok? ==>
                && requests == [UpdateRow(id, OwnerFilter(walletAddress), StatusPatch(status))]
                             + (if HasNotes(notes)
                                then [InsertTimelineRow(TimelineInsert(id, OldStatusOf(old(applications), id), status, notes))]
                                else [])
                             + FetchRequests(walletAddress)
                && applications == FetchedList(walletAddress, old(applications), fetchReply)
                && error == FetchedError(walletAddress, old(error), fetchReply)
                && !loading
    {
      requests := [UpdateRow(id, OwnerFilter(walletAddress), StatusPatch(status))];
      outcome := reply;
      if reply.Err? {
        return;
      }
      var timeline: seq<Request> := [];
      if HasNotes(notes) {
        timeline := [InsertTimelineRow(TimelineInsert(id, OldStatusOf(applications, id), status, notes))];
      }
      var fetched := FetchApplications(fetchReply);
      requests := requests + timeline + fetched;
    }

    /** `deleteApplication`: a failed delete throws before the refetch; a successful one refetches. */
    method DeleteApplication(id: string, reply: Result<(), string>,
                             fetchReply: Result<Option<seq<Application>>, string>)
      returns (requests: seq<Request>, outcome: Result<(), string>)
      modifies this
      ensures outcome == reply
      ensures reply.Err? ==>
                && requests == [DeleteRow(id, OwnerFilter(walletAddress))]
                && applications == old(applications) && loading == old(loading) && error == old(error)
      ensures reply.Ok? ==>
                && requests == [DeleteRow(id, OwnerFilter(walletAddress))] + FetchRequests(walletAddress)
                && applications == FetchedList(walletAddress, old(applications), fetchReply)
                && error == FetchedError(walletAddress, old(error), fetchReply)
                && !loading
    {
      requests := [DeleteRow(id, OwnerFilter(walletAddress))];
      outcome := reply;
      if reply.Ok? {
        var fetched := FetchApplications(fetchReply);
        requests := requests + fetched;
      }
    }
  }
}
