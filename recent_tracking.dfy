/** The Tracking page's "Recent Tracking Activity" card: the fetched tracking
    records are sorted in place, newest first, and the first three are shown. */
module RecentTracking {
  import opened Js
  import opened Counting

  const Collection := "/satellite_tracking/"

  /** Newest first under `time`, the record's timestamp in milliseconds
      (`new Date(r.timestamp)`). */
  ghost predicate NewestFirst(s: seq<Record>, time: Record -> int) {
    forall i, j :: 0 <= i < j < |s| ==> time(s[i]) >= time(s[j])
  }

  /** Exchange two neighbours; the contents are kept as a multiset. */
  method SwapDown(a: array<Record>, j: nat)
    requires 0 < j < a.Length
    modifies a
    ensures a[..] == old(a[..])[j - 1 := old(a[j])][j := old(a[j - 1])]
    ensures multiset(a[..]) == multiset(old(a[..]))
  {
    a[j - 1], a[j] := a[j], a[j - 1];
  }

  /** Insertion of the record at `j` in progress within `s[..i + 1]`: the
      other records are newest first, those before `j` are newer than those
      after it, and the record at `j` is newer than those after it. */
  ghost predicate Inserting(s: seq<Record>, i: nat, j: nat, time: Record -> int)
    requires j <= i < |s|
  {
    && (forall p, q :: 0 <= p < q <= i && p != j && q != j ==> time(s[p]) >= time(s[q]))
    && (forall p, q :: 0 <= p < j < q <= i ==> time(s[p]) >= time(s[q]))
    && (forall q :: j < q <= i ==> time(s[j]) >= time(s[q]))
  }

  /** Swapping the record at `j` with an older neighbour moves the insertion down one place. */
  lemma SwapKeepsInserting(s: seq<Record>, i: nat, j: nat, time: Record -> int)
    requires 0 < j <= i < |s| && Inserting(s, i, j, time)
    requires time(s[j - 1]) < time(s[j])
    ensures Inserting(s[j - 1 := s[j]][j := s[j - 1]], i, j - 1, time)
  {
  }

  /** The insertion ends where the neighbour before is not older, or at the front. */
  lemma InsertingDone(s: seq<Record>, i: nat, j: nat, time: Record -> int)
    requires j <= i < |s| && Inserting(s, i, j, time)
    requires j == 0 || time(s[j - 1]) >= time(s[j])
    ensures forall p, q :: 0 <= p < q <= i ==> time(s[p]) >= time(s[q])
  {
  }

  /** One insertion step: with `a[..i]` newest first, the record at `i` is
      moved down past every older one; `a[..i + 1]` ends newest first and the
      rest of the array is untouched. */
  method InsertNewest(a: array<Record>, i: nat, time: Record -> int)
    requires i < a.Length
    requires forall p, q :: 0 <= p < q < i ==> time(a[p]) >= time(a[q])
    modifies a
    ensures forall p, q :: 0 <= p < q <= i ==> time(a[p]) >= time(a[q])
    ensures a[i + 1..] == old(a[i + 1..])
    ensures multiset(a[..]) == multiset(old(a[..]))
  {
    var j := i;
    while j > 0 && time(a[j - 1]) < time(a[j])
      invariant 0 <= j <= i
      invariant Inserting(a[..], i, j, time)
      invariant a[i + 1..] == old(a[i + 1..])
      invariant multiset(a[..]) == multiset(old(a[..]))
    {
      SwapKeepsInserting(a[..], i, j, time);
      SwapDown(a, j);
      j := j - 1;
    }
    InsertingDone(a[..], i, j, time);
  }

  /** `data.sort((a, b) => new Date(b.timestamp) - new Date(a.timestamp))`, as
      an insertion sort: the array ends newest first and holds the same records. */
  method SortNewestFirst(a: array<Record>, time: Record -> int)
    modifies a
    ensures NewestFirst(a[..], time)
    ensures multiset(a[..]) == multiset(old(a[..]))
  {
    var i := 0;
    while i < a.Length
      invariant 0 <= i <= a.Length
      invariant forall p, q :: 0 <= p < q < i ==> time(a[p]) >= time(a[q])
      invariant multiset(a[..]) == multiset(old(a[..]))
    {
      InsertNewest(a, i, time);
      i := i + 1;
    }
  }

  /** What the card shows. */
  datatype Screen = Loading | Failed(message: string) | Cards(records: seq<Record>) | NoRecords

  class RecentActivity {
    var records: seq<Record>
    var loading: bool
    var error: Option<string>

    constructor ()
      ensures records == [] && loading && error == None
    {
      records, loading, error := [], true, None;
    }

    /** The mount fetch: on success the sorted copy of the data is stored; on
        failure the status message. `time` reads a record's timestamp. */
    method Fetch(response: Response<seq<Record>>, time: Record -> int) returns (sent: Request)
      modifies this
      ensures sent == GetCollection(Collection) && !loading
      ensures response.Ok? ==>
                && NewestFirst(records, time) && multiset(records) == multiset(response.data)
                && error == old(error)
      ensures !response.Ok? ==> records == old(records) && error == Some(LoadFailureMessage(response))
    {
      sent := GetCollection(Collection);
      if response.Ok? {
        var data := response.data;
        var a := new Record[|data|](i requires 0 <= i < |data| => data[i]);
        assert a[..] == data;
        SortNewestFirst(a, time);
        records := a[..];
      } else {
        error := Some(LoadFailureMessage(response));
      }
      loading := false;
    }

    /** The loading text, the error, the first three records, or the empty text. */
    function Shown(): (v: Screen)
      reads this
      ensures loading ==> v == Loading
      ensures !loading && error.Some? ==> v == Failed(error.value)
      ensures !loading && error.None? && records == [] ==> v == NoRecords
      ensures !loading && error.None? && records != [] ==> v == Cards(FirstN(records, 3))
      ensures v.Cards? ==> 1 <= |v.records| <= 3
    {
      if loading then Loading
      else if error.Some? then Failed(error.value)
      else if |records| > 0 then Cards(FirstN(records, 3))
      else NoRecords
    }
  }

  /** On a newest-first list the cards are the newest records: none that is
      left out is newer than one that is shown. */
  lemma CardsAreNewest(s: seq<Record>, time: Record -> int)
    requires NewestFirst(s, time)
    ensures forall i, j :: 0 <= i < |FirstN(s, 3)| <= j < |s| ==> time(FirstN(s, 3)[i]) >= time(s[j])
  {
  }
}
