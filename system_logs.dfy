/** The System Logs Management page. Unlike the other managers it talks to
    the backend through a client that fails on any non-2xx status, it
    re-uses one `fetchLogs` routine that swallows its own failure, its draft
    has no id field to begin with, and its closing and cancelling handlers
    leave the draft and the delete target in place. */
module SystemLogs {
  import opened Text
  import opened Js
  import opened Counting

  const Collection := "/logs/"
  const FetchFailed := "Failed to fetch logs. Please try again later."
  const SaveFailed := "Failed to save log. Please try again."
  const DeleteFailed := "Failed to delete log. Please try again."
  const NotFound := "Log not found. Please try a different ID."

  function EmptyDraft(): Record {
    map["log_message" := Str(""), "log_level" := Str("")]
  }

  /** Every field of the page, as one value. */
  datatype LogsState = LogsState(
    logs: seq<Record>,
    loading: bool,
    error: Option<string>,
    modalOpen: bool,
    draft: Record,
    isSubmitting: bool,
    searchId: string,
    showDeleteConfirm: bool,
    logToDelete: Value)

  function InitialState(): LogsState {
    LogsState([], true, None, false, EmptyDraft(), false, "", false, Null)
  }

  /** What `fetchLogs` leaves behind: the fetched list with the error cleared,
      or the old list with the fetch message; loading over either way. A
      refresh touches nothing but the list, the error and the loading flag. */
  function AfterFetch(s: LogsState, response: Response<seq<Record>>): (t: LogsState)
    ensures t.modalOpen == s.modalOpen && t.draft == s.draft && t.isSubmitting == s.isSubmitting
    ensures t.searchId == s.searchId && t.showDeleteConfirm == s.showDeleteConfirm && t.logToDelete == s.logToDelete
    ensures !t.loading
    ensures response.Ok? <==> t.error.None?
    ensures response.Ok? ==> t.logs == response.data
    ensures !response.Ok? ==> t.logs == s.logs && t.error == Some(FetchFailed)
  {
    if response.Ok? then s.(logs := response.data, error := None, loading := false)
    else s.(error := Some(FetchFailed), loading := false)
  }

  /** The save request: PUT to the log's id when the draft has a truthy
      `log_id`, POST otherwise; the whole draft is the body. */
  function SaveRequest(d: Record): (r: Request)
    ensures r.body == Some(Json(d)) && r.path == Collection
    ensures r.verb == PUT <==> Truthy(Get(d, "log_id"))
    ensures r.verb == PUT ==> r.id == Some(Get(d, "log_id"))
    ensures r.verb != PUT ==> r.verb == POST && r.id == None
  {
    if Truthy(Get(d, "log_id")) then Request(PUT, Collection, Some(Get(d, "log_id")), Some(Json(d)))
    else Request(POST, Collection, None, Some(Json(d)))
  }

  /** A new draft never carries a `log_id`, so it is always POSTed. */
  lemma NewLogIsPosted()
    ensures SaveRequest(EmptyDraft()).verb == POST
  {
  }

  class LogsPanel {
    var logs: seq<Record>
    var loading: bool
    var error: Option<string>
    var modalOpen: bool
    var draft: Record
    var isSubmitting: bool
    var searchId: string
    var showDeleteConfirm: bool
    var logToDelete: Value

    function View(): LogsState
      reads this
    {
      LogsState(logs, loading, error, modalOpen, draft, isSubmitting, searchId, showDeleteConfirm, logToDelete)
    }

    constructor ()
      ensures View() == InitialState()
    {
      logs, loading, error, modalOpen := [], true, None, false;
      draft, isSubmitting, searchId := EmptyDraft(), false, "";
      showDeleteConfirm, logToDelete := false, Null;
    }

    /** `fetchLogs`, also run on mount. */
    method Fetch(response: Response<seq<Record>>) returns (sent: Request)
      modifies this
      ensures sent == GetCollection(Collection)
      ensures View() == AfterFetch(old(View()), response)
    {
      loading := true;
      sent := GetCollection(Collection);
      if response.Ok? {
        logs := response.data;
        error := None;
      } else {
        error := Some(FetchFailed);
      }
      loading := false;
    }

    method InputChange(name: string, value: string)
      modifies this
      ensures View() == old(View()).(draft := old(draft)[name := Str(value)])
    {
      draft := draft[name := Str(value)];
    }

    /** `handleSubmit`: no field is checked here. A rejected save shows its
        message and changes nothing else. An accepted one refreshes the list
        and then closes the modal and empties the draft, whether or not the
        refresh succeeded. */
    method Submit(mutation: Response<()>, refresh: Response<seq<Record>>) returns (sent: seq<Request>)
      modifies this
      ensures !mutation.Ok? ==>
                && sent == [SaveRequest(old(draft))]
                && View() == old(View()).(error := Some(SaveFailed), isSubmitting := false)
      ensures mutation.Ok? ==>
                && sent == [SaveRequest(old(draft)), GetCollection(Collection)]
                && View() == AfterFetch(old(View()), refresh).(modalOpen := false, draft := EmptyDraft(),
                                                                isSubmitting := false)
    {
      isSubmitting := true;
      var write := SaveRequest(draft);
      if !mutation.Ok? {
        sent := [write];
        error := Some(SaveFailed);
      } else {
        var get := Fetch(refresh);
        sent := [write, get];
        modalOpen := false;
        draft := EmptyDraft();
      }
      isSubmitting := false;
    }

    /** The "Add New Log" button. */
    method AddClick()
      modifies this
      ensures View() == old(View()).(draft := EmptyDraft(), modalOpen := true)
    {
      draft := EmptyDraft();
      modalOpen := true;
    }

    /** `handleEdit`: the log itself becomes the draft. */
    method Edit(log: Record)
      modifies this
      ensures View() == old(View()).(draft := log, modalOpen := true)
    {
      draft := log;
      modalOpen := true;
    }

    /** The modal's close button: the draft is kept. */
    method CloseModal()
      modifies this
      ensures View() == old(View()).(modalOpen := false)
    {
      modalOpen := false;
    }

    /** `handleDelete`: arm the dialog. */
    method DeleteClick(logId: Value)
      modifies this
      ensures View() == old(View()).(logToDelete := logId, showDeleteConfirm := true)
    {
      logToDelete := logId;
      showDeleteConfirm := true;
    }

    /** `confirmDelete`: there is no check for a missing target. On success
        the list is refreshed and the dialog closed; on failure the dialog
        stays open with the target kept, so the delete can be retried. */
    method ConfirmDelete(mutation: Response<()>, refresh: Response<seq<Record>>) returns (sent: seq<Request>)
      modifies this
      ensures !mutation.Ok? ==>
                && sent == [Request(DELETE, Collection, Some(old(logToDelete)), None)]
                && View() == old(View()).(error := Some(DeleteFailed))
      ensures mutation.Ok? ==>
                && sent == [Request(DELETE, Collection, Some(old(logToDelete)), None), GetCollection(Collection)]
                && View() == AfterFetch(old(View()), refresh).(showDeleteConfirm := false, logToDelete := Null)
    {
      var delete := Request(DELETE, Collection, Some(logToDelete), None);
      if !mutation.Ok? {
        sent := [delete];
        error := Some(DeleteFailed);
      } else {
        var get := Fetch(refresh);
        sent := [delete, get];
        showDeleteConfirm := false;
        logToDelete := Null;
      }
    }

    /** The dialog's Cancel button: the target is kept. */
    method CancelDelete()
      modifies this
      ensures View() == old(View()).(showDeleteConfirm := false)
    {
      showDeleteConfirm := false;
    }

    method SetSearchId(text: string)
      modifies this
      ensures View() == old(View()).(searchId := text)
    {
      searchId := text;
    }

    /** `handleSearch`: a blank box re-fetches the whole list; otherwise the
        list becomes the one log found, or empty with the not-found message. */
    method Search(response: Response<Record>, refresh: Response<seq<Record>>) returns (sent: seq<Request>)
      modifies this
      ensures Trim(old(searchId)) == "" ==>
                sent == [GetCollection(Collection)] && View() == AfterFetch(old(View()), refresh)
      ensures Trim(old(searchId)) != "" ==> sent == [Request(GET, Collection, Some(Str(old(searchId))), None)]
      ensures Trim(old(searchId)) != "" && response.Ok? ==>
                View() == old(View()).(logs := [response.data], error := None, loading := false)
      ensures Trim(old(searchId)) != "" && !response.Ok? ==>
                View() == old(View()).(logs := [], error := Some(NotFound), loading := false)
    {
      if Trim(searchId) == "" {
        var get := Fetch(refresh);
        sent := [get];
      } else {
        var get := SearchById(response);
        sent := [get];
      }
    }

    /** The search of a non-blank box: one GET of that id; the list becomes
        the log found, or empty with the not-found message. */
    method SearchById(response: Response<Record>) returns (sent: Request)
      modifies this
      ensures sent == Request(GET, Collection, Some(Str(old(searchId))), None)
      ensures response.Ok? ==> View() == old(View()).(logs := [response.data], error := None, loading := false)
      ensures !response.Ok? ==> View() == old(View()).(logs := [], error := Some(NotFound), loading := false)
    {
      loading := true;
      sent := Request(GET, Collection, Some(Str(searchId)), None);
      if response.Ok? {
        logs := [response.data];
        error := None;
      } else {
        error := Some(NotFound);
        logs := [];
      }
      loading := false;
    }
  }

  /** The level values the log form offers and the seeder writes. */
  predicate IsFormLevel(v: Value) {
    v == Str("INFO") || v == Str("WARNING") || v == Str("ERROR") || v == Str("DEBUG")
  }

  predicate LevelsFromForm(rs: seq<Record>) {
    forall r :: r in rs ==> IsFormLevel(Get(r, "log_level"))
  }

  /** The tiles as the page computes them: exact matches of 'Error',
      'Warning' and 'Info'. */
  datatype Summary = Summary(total: nat, errors: nat, warnings: nat, infos: nat)

  function SummaryOf(rs: seq<Record>): (s: Summary)
    ensures s.total == |rs|
    ensures s.errors == CountEq(rs, "log_level", Str("Error"))
    ensures s.warnings == CountEq(rs, "log_level", Str("Warning"))
    ensures s.infos == CountEq(rs, "log_level", Str("Info"))
    ensures s.errors + s.warnings + s.infos <= s.total
  {
    ThreeCountsBounded(rs, "log_level", Str("Error"), Str("Warning"), Str("Info"));
    Summary(|rs|, CountEq(rs, "log_level", Str("Error")), CountEq(rs, "log_level", Str("Warning")),
            CountEq(rs, "log_level", Str("Info")))
  }

  /** As written, the level tiles never count a log whose level came from the
      form or the seeder: they stay at zero however many such logs exist. */
  lemma {:induction false} TilesMissFormLevels(rs: seq<Record>)
    requires LevelsFromForm(rs)
    ensures SummaryOf(rs).errors == 0 && SummaryOf(rs).warnings == 0 && SummaryOf(rs).infos == 0
  {
    if rs != [] {
      var init := rs[..|rs| - 1];
      assert forall r :: r in init ==> r in rs;
      assert rs[|rs| - 1] in rs;
      TilesMissFormLevels(init);
    }
  }

  /** A concrete page: one ERROR log, and the error tile shows 0. */
  lemma ErrorLogNotCounted()
    ensures SummaryOf([map["log_id" := Num(1.0), "log_level" := Str("ERROR")]]).errors == 0
  {
    var rs := [map["log_id" := Num(1.0), "log_level" := Str("ERROR")]];
    assert Get(rs[0], "log_level") == Str("ERROR");
    assert rs[..0] == [];
  }

  /** The tiles as evidently intended: the upper-case levels the form offers. */
  function CorrectedSummaryOf(rs: seq<Record>): (s: Summary)
    ensures s.total == |rs|
    ensures s.errors == CountEq(rs, "log_level", Str("ERROR"))
    ensures s.warnings == CountEq(rs, "log_level", Str("WARNING"))
    ensures s.infos == CountEq(rs, "log_level", Str("INFO"))
    ensures s.errors + s.warnings + s.infos <= s.total
  {
    ThreeCountsBounded(rs, "log_level", Str("ERROR"), Str("WARNING"), Str("INFO"));
    Summary(|rs|, CountEq(rs, "log_level", Str("ERROR")), CountEq(rs, "log_level", Str("WARNING")),
            CountEq(rs, "log_level", Str("INFO")))
  }

  /** With the corrected tiles every form-made log is counted once: the three
      tiles plus the DEBUG logs make up the total. */
  lemma {:induction false} CorrectedTilesCountFormLevels(rs: seq<Record>)
    requires LevelsFromForm(rs)
    ensures var s := CorrectedSummaryOf(rs);
      s.errors + s.warnings + s.infos + CountEq(rs, "log_level", Str("DEBUG")) == s.total
  {
    if rs != [] {
      var init := rs[..|rs| - 1];
      assert forall r :: r in init ==> r in rs;
      assert rs[|rs| - 1] in rs;
      CorrectedTilesCountFormLevels(init);
    }
  }
}
