/** The entity manager that six dashboard pages repeat almost line for line
    (Predictions, Missions, Satellites, Satellite Tracking, Space Debris and
    Ground Stations): a record list with `loading`/`error`, a draft shown in a
    form modal, a two-step delete dialog and a search by id. The pages differ
    only in the entity descriptor `Config`; each page module builds its own. */
module EntityPanel {
  import opened Js
  import opened Counting

  /** What distinguishes one page's manager from another's. */
  datatype Config = Config(
    idField: string,                                // primary key property tested against `null`
    collection: string,                             // POST target; item paths are `${collection}${id}`
    listPath: string,                               // GET issued on mount
    refetchPath: string,                            // GET issued after a successful POST/PUT
    template: Record,                               // the empty draft
    coerce: (string, string, Option<real>) -> Value, // `handleInputChange`: field, raw text, parseFloat(text)
    submittable: Record -> bool,                    // the required-field guard of `handleSubmit`
    body: Record -> Record,                         // the JSON body of POST/PUT
    normalize: seq<Record> -> seq<Record>,          // applied to every fetched list
    editDraft: (Record, string) -> Record,          // `handleEditClick`: record, ISO text of its timestamp
    refetchNoun: string,                            // used in "Failed to re-fetch <noun>: ..."
    notFound: string)                               // search message on a 404

  /** The request `handleSubmit` issues for a draft: POST to the collection
      when the id is `null`, PUT to the item otherwise (an absent id is not
      `null`, so it PUTs to `.../undefined`). */
  function WriteRequest(c: Config, d: Record): (r: Request)
    ensures r.path == c.collection && r.body == Some(c.body(d))
    ensures r.verb == POST <==> Get(d, c.idField) == Null
    ensures r.verb == POST ==> r.id == None
    ensures r.verb != POST ==> r.verb == PUT && r.id == Some(Get(d, c.idField))
  {
    var id := Get(d, c.idField);
    if id == Null then Request(POST, c.collection, None, Some(c.body(d)))
    else Request(PUT, c.collection, Some(id), Some(c.body(d)))
  }

  /** The message a failed search shows: the page's "not found" text for a
      404, the error detail or status text otherwise. */
  function SearchFailureMessage<T>(notFound: string, r: Response<T>): (m: string)
    requires !r.Ok?
    ensures r.HttpError? && r.status == 404 ==> m == notFound
    ensures !(r.HttpError? && r.status == 404) ==> m == FailureMessage(r)
  {
    if r.HttpError? && r.status == 404 then notFound else FailureMessage(r)
  }

  /** Every field of a manager, as one value. */
  datatype PanelState = PanelState(
    records: seq<Record>,
    loading: bool,
    error: Option<string>,
    draft: Record,
    isSubmitting: bool,
    modalOpen: bool,
    showDeleteConfirm: bool,
    deleteTarget: Value,
    searchInput: string,
    searchResult: Option<Record>,
    searching: bool,
    searchError: Option<string>)

  function InitialState(c: Config): PanelState {
    PanelState([], true, None, c.template, false, false, false, Null, "", None, false, None)
  }

  /** What a page renders: the loading text, the full-page error (only when the
      list is empty and no search is running), or the dashboard with its table
      of the first five records. */
  datatype Screen = Loading | LoadError(message: string) | Dashboard(table: seq<Record>)

  function ScreenOf(s: PanelState): (v: Screen)
    ensures s.loading <==> v == Loading
    ensures v.LoadError? <==> !s.loading && s.error.Some? && s.records == [] && !s.searching
    ensures v.Dashboard? ==> v.table == FirstN(s.records, 5) && |v.table| <= 5
  {
    if s.loading then Loading
    else if s.error.Some? && |s.records| == 0 && !s.searching then LoadError(s.error.value)
    else Dashboard(FirstN(s.records, 5))
  }

  class Panel {
    const config: Config
    var records: seq<Record>
    var loading: bool
    var error: Option<string>
    var draft: Record
    var isSubmitting: bool
    var modalOpen: bool
    var showDeleteConfirm: bool
    var deleteTarget: Value
    var searchInput: string
    var searchResult: Option<Record>
    var searching: bool
    var searchError: Option<string>

    function View(): PanelState
      reads this
    {
      PanelState(records, loading, error, draft, isSubmitting, modalOpen, showDeleteConfirm,
                 deleteTarget, searchInput, searchResult, searching, searchError)
    }

    function Screen(): Screen
      reads this
    {
      ScreenOf(View())
    }

    constructor (config: Config)
      ensures this.config == config && View() == InitialState(config)
    {
      this.config := config;
      records, loading, error := [], true, None;
      draft, isSubmitting, modalOpen := config.template, false, false;
      showDeleteConfirm, deleteTarget := false, Null;
      searchInput, searchResult, searching, searchError := "", None, false, None;
    }

    /** The mount effect: GET the list; on success store it (normalised), on
        failure keep the list and record the status; `loading` ends false. */
    method Load(response: Response<seq<Record>>) returns (sent: Request)
      modifies this
      ensures sent == GetCollection(config.listPath)
      ensures View() == if response.Ok?
        then old(View()).(records := config.normalize(response.data), loading := false)
        else old(View()).(error := Some(LoadFailureMessage(response)), loading := false)
    {
      sent := GetCollection(config.listPath);
      if response.Ok? {
        records := config.normalize(response.data);
        loading := false;
      } else {
        error := Some(LoadFailureMessage(response));
        loading := false;
      }
    }

    /** `handleInputChange`: store the field, coerced by the page's rule. */
    method InputChange(name: string, value: string, parsedFloat: Option<real>)
      modifies this
      ensures View() == old(View()).(draft := old(draft)[name := config.coerce(name, value, parsedFloat)])
    {
      draft := draft[name := config.coerce(name, value, parsedFloat)];
    }

    /** `handleSubmit`: an incomplete draft is a silent no-op; otherwise POST or
        PUT, then re-fetch the list. Only when both succeed are the list
        replaced, the draft reset and the modal closed; a failure of either
        records its message and leaves list, draft and modal as they were. */
    method Submit(mutation: Response<()>, refetch: Response<seq<Record>>) returns (sent: seq<Request>)
      modifies this
      ensures !config.submittable(old(draft)) ==> sent == [] && View() == old(View())
      ensures config.submittable(old(draft)) && !mutation.Ok? ==>
                && sent == [WriteRequest(config, old(draft))]
                && View() == old(View()).(error := Some(FailureMessage(mutation)), isSubmitting := false)
      ensures config.submittable(old(draft)) && mutation.Ok? && !refetch.Ok? ==>
                && sent == [WriteRequest(config, old(draft)), GetCollection(config.refetchPath)]
                && View() == old(View()).(error := Some(RefetchFailureMessage(config.refetchNoun, refetch)),
                                          isSubmitting := false)
      ensures config.submittable(old(draft)) && mutation.Ok? && refetch.Ok? ==>
                && sent == [WriteRequest(config, old(draft)), GetCollection(config.refetchPath)]
                && View() == old(View()).(records := config.normalize(refetch.data), draft := config.template,
                                          modalOpen := false, error := None, isSubmitting := false)
    {
      if !config.submittable(draft) {
        return [];
      }
      isSubmitting := true;
      error := None;
      var write := WriteRequest(config, draft);
      if !mutation.Ok? {
        sent := [write];
        error := Some(FailureMessage(mutation));
      } else {
        sent := [write, GetCollection(config.refetchPath)];
        if !refetch.Ok? {
          error := Some(RefetchFailureMessage(config.refetchNoun, refetch));
        } else {
          records := config.normalize(refetch.data);
          draft := config.template;
          modalOpen := false;
        }
      }
      isSubmitting := false;
    }

    /** `handleAddClick`: an empty draft in an open modal. */
    method AddClick()
      modifies this
      ensures View() == old(View()).(draft := config.template, modalOpen := true)
    {
      draft := config.template;
      modalOpen := true;
    }

    /** `handleEditClick`: the page's edit draft for `record` in an open modal.
        `isoTimestamp` is `new Date(record.timestamp).toISOString()`. */
    method EditClick(record: Record, isoTimestamp: string)
      modifies this
      ensures View() == old(View()).(draft := config.editDraft(record, isoTimestamp), modalOpen := true)
    {
      draft := config.editDraft(record, isoTimestamp);
      modalOpen := true;
    }

    /** `handleCloseModal`: close and reset the draft. */
    method CloseModal()
      modifies this
      ensures View() == old(View()).(modalOpen := false, draft := config.template)
    {
      modalOpen := false;
      draft := config.template;
    }

    /** `handleDeleteClick`: arm the dialog with a target. */
    method DeleteClick(id: Value)
      modifies this
      ensures View() == old(View()).(deleteTarget := id, showDeleteConfirm := true)
    {
      deleteTarget := id;
      showDeleteConfirm := true;
    }

    /** `handleConfirmDelete`: with no target nothing happens; otherwise DELETE
        the target, and on success drop exactly the records carrying it (no
        re-fetch); on failure keep the list. The dialog ends hidden and the
        target cleared on both paths. */
    method ConfirmDelete(response: Response<()>) returns (sent: seq<Request>)
      modifies this
      ensures var before := old(View());
        if before.deleteTarget == Null then
          sent == [] && View() == before
        else
          && sent == [Request(DELETE, config.collection, Some(before.deleteTarget), None)]
          && View() == before.(
               records := if response.Ok? then Without(before.records, config.idField, before.deleteTarget)
                          else before.records,
               error := if response.Ok? then None else Some(FailureMessage(response)),
               showDeleteConfirm := false,
               deleteTarget := Null)
    {
      if deleteTarget == Null {
        return [];
      }
      error := None;
      sent := [Request(DELETE, config.collection, Some(deleteTarget), None)];
      if response.Ok? {
        records := Without(records, config.idField, deleteTarget);
      } else {
        error := Some(FailureMessage(response));
      }
      showDeleteConfirm := false;
      deleteTarget := Null;
    }

    /** `handleCancelDelete`: hide the dialog and forget the target. */
    method CancelDelete()
      modifies this
      ensures View() == old(View()).(showDeleteConfirm := false, deleteTarget := Null)
    {
      showDeleteConfirm := false;
      deleteTarget := Null;
    }

    /** The search box's `onChange`. */
    method SetSearchInput(text: string)
      modifies this
      ensures View() == old(View()).(searchInput := text)
    {
      searchInput := text;
    }

    /** `handleSearch`: an empty box does nothing; otherwise GET the item. A hit
        fills the result, a miss or failure fills the search error; the list,
        the draft and the main error are never touched. */
    method Search(response: Response<Record>) returns (sent: seq<Request>)
      modifies this
      ensures var before := old(View());
        if before.searchInput == "" then
          sent == [] && View() == before
        else
          && sent == [Request(GET, config.collection, Some(Str(before.searchInput)), None)]
          && View() == before.(
               searching := false,
               searchResult := if response.Ok? then Some(response.data) else None,
               searchError := if response.Ok? then None else Some(SearchFailureMessage(config.notFound, response)))
    {
      if searchInput == "" {
        return [];
      }
      searching := true;
      searchResult := None;
      searchError := None;
      sent := [Request(GET, config.collection, Some(Str(searchInput)), None)];
      if response.Ok? {
        searchResult := Some(response.data);
      } else {
        searchError := Some(SearchFailureMessage(config.notFound, response));
        searchResult := None;
      }
      searching := false;
    }
  }
}
