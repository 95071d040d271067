/** The system-logs table: a skeleton while there is no list, otherwise one
    row per log with a level badge. */
module LogsTable {
  import opened Js

  datatype Badge = Red | Yellow | Blue | Green

  /** ERROR is red, WARNING yellow, DEBUG blue, anything else green. */
  function BadgeOf(level: Value): (b: Badge)
    ensures b == Red <==> level == Str("ERROR")
    ensures b == Yellow <==> level == Str("WARNING")
    ensures b == Blue <==> level == Str("DEBUG")
    ensures b == Green <==> level !in {Str("ERROR"), Str("WARNING"), Str("DEBUG")}
  {
    if level == Str("ERROR") then Red
    else if level == Str("WARNING") then Yellow
    else if level == Str("DEBUG") then Blue
    else Green
  }

  /** A row: id, message, level with its badge, and the raw timestamp
      (shown through the browser's locale formatting). */
  datatype Row = Row(id: Value, message: Value, level: Value, badge: Badge, timestamp: Value)

  function RowOf(log: Record): Row {
    Row(Get(log, "log_id"), Get(log, "log_message"), Get(log, "log_level"),
        BadgeOf(Get(log, "log_level")), Get(log, "timestamp"))
  }

  datatype TableView = Skeleton(bars: nat) | Table(rows: seq<Row>)

  /** `logs` is `None` when the list is missing (falsy). */
  function View(logs: Option<seq<Record>>): (v: TableView)
    ensures logs.None? <==> v == Skeleton(5)
    ensures logs.Some? ==> v.Table? && |v.rows| == |logs.value|
    ensures logs.Some? ==> forall i :: 0 <= i < |logs.value| ==>
              && v.rows[i].id == Get(logs.value[i], "log_id")
              && v.rows[i].level == Get(logs.value[i], "log_level")
              && v.rows[i].badge == BadgeOf(Get(logs.value[i], "log_level"))
              && v.rows[i].message == Get(logs.value[i], "log_message")
              && v.rows[i].timestamp == Get(logs.value[i], "timestamp")
  {
    match logs
    case None => Skeleton(5)
    case Some(rs) => Table(seq(|rs|, i requires 0 <= i < |rs| => RowOf(rs[i])))
  }

  /** The rows keep the order of the list: a prefix of logs renders as a prefix of rows. */
  lemma RowsFollowList(rs: seq<Record>, more: seq<Record>)
    ensures View(Some(rs)).rows <= View(Some(rs + more)).rows
  {
    var a := View(Some(rs)).rows;
    var b := View(Some(rs + more)).rows;
    forall i | 0 <= i < |a| ensures a[i] == b[i] {
      assert (rs + more)[i] == rs[i];
    }
  }
}
