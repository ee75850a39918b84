/** The escalated-queries admin page: the list of escalated queries with a
    tab per status, a details dialog, and the status update that writes a
    query back and reloads the list. The requests are inputs; the PUT
    bodies the page sends are recorded. */
module EscalatedQueriesPage {
  import opened Common

  /** A query as the page reads it from the list. */
  datatype PageQuery = PageQuery(queryId: string, timestamp: string, status: string, adminNotes: Option<string>)

  datatype Summary = Summary(pending: int, inProgress: int, resolved: int)

  /** The body of the PUT request. */
  datatype PutBody = PutBody(queryId: string, timestamp: string, status: string, adminNotes: string)

  /** The list request: `queries` and `summary`, each possibly absent, or a
      failure carrying the server's `error`, if any. */
  datatype ListFetch =
    | Listed(queries: Option<seq<PageQuery>>, summary: Option<Summary>)
    | ListFailed(serverError: Option<string>)

  /** The token lookup and PUT: the token lookup throws (no PUT goes out),
      the PUT fails with the server's `error`, if any, or it succeeds. */
  datatype PutResult = TokenFailed | PutFailed(serverError: Option<string>) | PutOk

  const ZeroSummary := Summary(0, 0, 0)
  const LoadError := "Failed to load escalated queries. Please try again."
  const UpdateError := "Failed to update query status. Please try again."

  /** `filterQueries`: the queries shown under a tab. */
  function FilterQueries(queries: seq<PageQuery>, tab: string): seq<PageQuery> {
    if tab == "all" then queries else Filter(queries, (q: PageQuery) => q.status == tab)
  }

  /** The "all" tab shows every query; any other tab shows, in order,
      exactly the queries whose status is the tab, so two different status
      tabs never share a query. */
  lemma FilterQueriesSpec(queries: seq<PageQuery>, tab: string, other: string)
    ensures tab == "all" ==> FilterQueries(queries, tab) == queries
    ensures tab != "all" ==> forall q :: q in FilterQueries(queries, tab) <==> q in queries && q.status == tab
    ensures |FilterQueries(queries, tab)| <= |queries|
    ensures tab != "all" && other != "all" && other != tab ==>
      forall q :: q in FilterQueries(queries, tab) ==> q !in FilterQueries(queries, other)
  {
  }

  /** The chip label: the first "_" becomes a space, then everything is
      upper-cased. */
  function StatusLabel(status: string): string {
    match IndexOf(status, '_')
    case None => Upper(status)
    case Some(i) => Upper(status[..i] + " " + status[i + 1..])
  }

  /** The label is the status upper-cased, except that its first "_", and
      only that one, reads as a space. */
  lemma StatusLabelSpec(status: string)
    ensures |StatusLabel(status)| == |status|
    ensures forall j :: 0 <= j < |status| ==>
      StatusLabel(status)[j] == (if IndexOf(status, '_') == Some(j) then ' ' else UpperChar(status[j]))
  {
    match IndexOf(status, '_')
    case None =>
    case Some(i) =>
      var t := status[..i] + " " + status[i + 1..];
      assert forall j :: 0 <= j < |status| ==> t[j] == (if j == i then ' ' else status[j]);
  }

  /** The three statuses the page knows, and a status with two "_". */
  lemma StatusLabelExamples()
    ensures StatusLabel("in_progress") == "IN PROGRESS" && StatusLabel("pending") == "PENDING"
    ensures StatusLabel("a_b_c") == "A B_C"
  {
    InProgressLabel();
    PendingLabel();
    SecondUnderscoreStays();
  }

  lemma InProgressLabel()
    ensures StatusLabel("in_progress") == "IN PROGRESS"
  {
    assert IndexOf("in_progress", '_') == Some(2);
  }

  lemma PendingLabel()
    ensures StatusLabel("pending") == "PENDING"
  {
    assert IndexOf("pending", '_') == None;
  }

  lemma SecondUnderscoreStays()
    ensures StatusLabel("a_b_c") == "A B_C"
  {
    assert IndexOf("a_b_c", '_') == Some(1);
  }

  class EscalatedQueriesView {
    var queries: seq<PageQuery>
    var filteredQueries: seq<PageQuery>
    var loading: bool
    var error: string
    var selectedQuery: Option<PageQuery>
    var dialogOpen: bool
    var updateStatus: string
    var adminNotes: string
    var updating: bool
    var currentTab: string
    var summary: Summary
    /** The PUT bodies sent so far. */
    var sent: seq<PutBody>

    constructor()
      ensures queries == [] && filteredQueries == [] && loading && error == "" && selectedQuery.None?
      ensures !dialogOpen && updateStatus == "" && adminNotes == "" && !updating && currentTab == "all"
      ensures summary == ZeroSummary && sent == []
    {
      queries := [];
      filteredQueries := [];
      loading := true;
      error := "";
      selectedQuery := None;
      dialogOpen := false;
      updateStatus := "";
      adminNotes := "";
      updating := false;
      currentTab := "all";
      summary := ZeroSummary;
      sent := [];
    }

    /** `fetchQueries`, followed by the filter effect it triggers: a
        response replaces the queries and the summary (zeros when absent);
        a failure keeps them and sets the server's error or the default. */
    method FetchQueries(f: ListFetch)
      modifies this
      ensures f.Listed? ==>
        error == "" && queries == (if f.queries.Some? then f.queries.value else [])
        && summary == (if f.summary.Some? then f.summary.value else ZeroSummary)
      ensures f.ListFailed? ==>
        error == OrElse(f.serverError, LoadError) && queries == old(queries) && summary == old(summary)
      ensures filteredQueries == FilterQueries(queries, currentTab)
      ensures !loading && currentTab == old(currentTab) && selectedQuery == old(selectedQuery)
      ensures dialogOpen == old(dialogOpen) && updateStatus == old(updateStatus) && adminNotes == old(adminNotes)
      ensures updating == old(updating) && sent == old(sent)
    {
      loading := true;
      error := "";
      if f.Listed? {
        queries := if f.queries.Some? then f.queries.value else [];
        summary := if f.summary.Some? then f.summary.value else ZeroSummary;
      } else {
        error := OrElse(f.serverError, LoadError);
      }
      loading := false;
      filteredQueries := FilterQueries(queries, currentTab);
    }

    /** A tab change, followed by the filter effect. */
    method SelectTab(tab: string)
      modifies this
      ensures currentTab == tab && filteredQueries == FilterQueries(queries, tab)
      ensures queries == old(queries) && error == old(error) && selectedQuery == old(selectedQuery)
      ensures dialogOpen == old(dialogOpen) && sent == old(sent) && summary == old(summary)
    {
      currentTab := tab;
      filteredQueries := FilterQueries(queries, currentTab);
    }

    /** `handleViewDetails`: the dialog opens on the query, with its status
        and its notes ("" when it has none) ready to edit. */
    method ViewDetails(q: PageQuery)
      modifies this
      ensures selectedQuery == Some(q) && updateStatus == q.status && adminNotes == OrElse(q.adminNotes, "")
      ensures dialogOpen
      ensures queries == old(queries) && filteredQueries == old(filteredQueries) && error == old(error)
      ensures currentTab == old(currentTab) && sent == old(sent) && summary == old(summary)
    {
      selectedQuery := Some(q);
      updateStatus := q.status;
      adminNotes := if q.adminNotes.Some? && q.adminNotes.value != "" then q.adminNotes.value else "";
      dialogOpen := true;
    }

    /** `handleCloseDialog`: the dialog closes and its selection, status
        and notes are reset. */
    method CloseDialog()
      modifies this
      ensures !dialogOpen && selectedQuery.None? && updateStatus == "" && adminNotes == ""
      ensures queries == old(queries) && filteredQueries == old(filteredQueries) && error == old(error)
      ensures currentTab == old(currentTab) && sent == old(sent) && summary == old(summary)
      ensures loading == old(loading) && updating == old(updating)
    {
      dialogOpen := false;
      selectedQuery := None;
      updateStatus := "";
      adminNotes := "";
    }

    /** `handleUpdateStatus`. Without a selection nothing happens. Otherwise
        the token is looked up; when that throws no PUT goes out and the
        default error is set. Once there is a token the PUT carries the
        selected query's key with the edited status and notes; on success
        the list is reloaded (`reload`) and the dialog closed; on failure
        the server's error or the default is set and the dialog stays open. */
    method UpdateStatus(put: PutResult, reload: ListFetch)
      modifies this
      ensures old(selectedQuery).None? ==>
        selectedQuery == old(selectedQuery) && dialogOpen == old(dialogOpen) && sent == old(sent)
        && queries == old(queries) && error == old(error) && updating == old(updating)
      ensures old(selectedQuery).Some? ==> !updating
      ensures old(selectedQuery).Some? && put.TokenFailed? ==>
        sent == old(sent) && error == UpdateError && dialogOpen == old(dialogOpen)
        && selectedQuery == old(selectedQuery) && queries == old(queries)
      ensures old(selectedQuery).Some? && !put.TokenFailed? ==>
        sent == old(sent) + [PutBody(old(selectedQuery).value.queryId, old(selectedQuery).value.timestamp,
                                     old(updateStatus), old(adminNotes))]
      ensures old(selectedQuery).Some? && put.PutOk? ==>
        !dialogOpen && selectedQuery.None? && updateStatus == "" && adminNotes == ""
        && (reload.Listed? ==> queries == (if reload.queries.Some? then reload.queries.value else []))
        && filteredQueries == FilterQueries(queries, currentTab)
      ensures old(selectedQuery).Some? && put.PutFailed? ==>
        error == OrElse(put.serverError, UpdateError) && dialogOpen == old(dialogOpen)
        && selectedQuery == old(selectedQuery) && queries == old(queries)
      ensures currentTab == old(currentTab)
    {
      if selectedQuery.None? {
        return;
      }
      updating := true;
      var q := selectedQuery.value;
      if put.TokenFailed? {
        error := UpdateError;
      } else {
        sent := sent + [PutBody(q.queryId, q.timestamp, updateStatus, adminNotes)];
        if put.PutOk? {
          FetchQueries(reload);
          CloseDialog();
        } else {
          error := OrElse(put.serverError, UpdateError);
        }
      }
      updating := false;
    }
  }
}
