/** The "More Topics" grid of the home page: seven table tiles, each with an
    image and a link to the manager page of that table. */
module DatabaseTables {
  /** A tile: the route id and the title shown on it. */
  datatype Table = Table(id: string, name: string)

  function Tables(): seq<Table> {
    [Table("missions", "Missions"), Table("satellites", "Satellites"),
     Table("tracking", "Satellite Tracking"), Table("ground-stations", "Ground Stations"),
     Table("space-debris", "Space Debris"), Table("predictions", "Predictions"),
     Table("system-logs", "System Logs")]
  }

  /** `getImageSrc(tableId)`: the tracking tile has its own picture. */
  function ImageSrc(id: string): (path: string)
    ensures id == "tracking" ==> path == "/images/satellites-tracking.png"
    ensures id != "tracking" ==> |path| == |id| + 12
    ensures id != "tracking" ==> path[..8] == "/images/" && path[8..|path| - 4] == id && path[|path| - 4..] == ".png"
  {
    if id == "tracking" then "/images/satellites-tracking.png" else "/images/" + id + ".png"
  }

  /** `navigate(`/${table.id}`)`. */
  function Target(t: Table): (path: string)
    ensures |path| == |t.id| + 1 && path[0] == '/' && path[1..] == t.id
  {
    "/" + t.id
  }

  /** The manager routes the router declares, in the order it declares them. */
  const Routes: seq<string> :=
    ["/missions", "/satellites", "/tracking", "/ground-stations", "/space-debris", "/predictions", "/system-logs"]

  /** No two tiles share an id, and so no two share a link. */
  lemma IdsDistinct()
    ensures forall i, j :: 0 <= i < j < |Tables()| ==> Tables()[i].id != Tables()[j].id
  {
  }

  /** The tiles link, one to one and in order, to the declared manager routes. */
  lemma TargetsAreRoutes()
    ensures |Tables()| == |Routes|
    ensures forall i :: 0 <= i < |Tables()| ==> Target(Tables()[i]) == Routes[i]
  {
    RouteTexts();
  }

  lemma RouteTexts()
    ensures forall i :: 0 <= i < |Tables()| ==> "/" + Tables()[i].id == Routes[i]
  {
    var ts := Tables();
    assert "/" + ts[0].id == Routes[0];
    assert "/" + ts[1].id == Routes[1];
    assert "/" + ts[2].id == Routes[2];
    assert "/" + ts[3].id == Routes[3];
    assert "/" + ts[4].id == Routes[4];
    assert "/" + ts[5].id == Routes[5];
    assert "/" + ts[6].id == Routes[6];
  }

  /** Distinct tiles show distinct pictures. */
  lemma ImagesDistinct()
    ensures forall i, j :: 0 <= i < j < |Tables()| ==> ImageSrc(Tables()[i].id) != ImageSrc(Tables()[j].id)
  {
  }
}
