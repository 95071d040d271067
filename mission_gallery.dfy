/** The public missions page: the missions fetched on mount, and one card per
    mission with display defaults, or an empty-state view. */
module MissionGallery {
  import opened Js
  import MissionCard

  const Collection := "/missions/"

  /** The props one mission card receives. */
  datatype Card = Card(name: Value, status: Value, date: Value, description: Value,
                       launchSite: Value, vehicle: Value, tags: Value)

  /** The card of one mission: its name, and each other field with its
      fallback when falsy. */
  function CardOf(m: Record): (c: Card)
    ensures c.name == Get(m, "mission_name")
    ensures Truthy(c.status) && Truthy(c.launchSite) && Truthy(c.vehicle) && Truthy(c.tags)
    ensures Truthy(Get(m, "status")) ==> c.status == Get(m, "status")
    ensures !Truthy(Get(m, "status")) ==> c.status == Str("Unknown")
    ensures !Truthy(Get(m, "launch_date")) ==> c.date == Str("")
    ensures !Truthy(Get(m, "mission_type")) ==> c.description == Str("")
    ensures !Truthy(Get(m, "launch_site")) ==> c.launchSite == Str("N/A")
    ensures !Truthy(Get(m, "vehicle")) ==> c.vehicle == Str("N/A")
    ensures !Truthy(Get(m, "tags")) ==> c.tags == Arr([])
    ensures Truthy(Get(m, "launch_date")) ==> c.date == Get(m, "launch_date")
    ensures Truthy(Get(m, "mission_type")) ==> c.description == Get(m, "mission_type")
    ensures Truthy(Get(m, "launch_site")) ==> c.launchSite == Get(m, "launch_site")
    ensures Truthy(Get(m, "vehicle")) ==> c.vehicle == Get(m, "vehicle")
    ensures Truthy(Get(m, "tags")) ==> c.tags == Get(m, "tags")
  {
    Card(Get(m, "mission_name"), Or(Get(m, "status"), Str("Unknown")), Or(Get(m, "launch_date"), Str("")),
         Or(Get(m, "mission_type"), Str("")), Or(Get(m, "launch_site"), Str("N/A")),
         Or(Get(m, "vehicle"), Str("N/A")), Or(Get(m, "tags"), Arr([])))
  }

  /** The card's image path; `None` when `missionName.toLowerCase()` throws
      because the name is not a string. */
  function CardImage(c: Card): (src: Option<string>)
    ensures src.Some? <==> c.name.Str?
    ensures src.Some? ==> src.value == MissionCard.ImageSrc(c.name.s)
  {
    if c.name.Str? then Some(MissionCard.ImageSrc(c.name.s)) else None
  }

  /** What the page shows. A card whose image path throws aborts the whole
      render: there is no error boundary, so nothing is shown then. */
  datatype Screen = NoMissions | Grid(cards: seq<Card>) | RenderFailed

  /** Whether every card of the grid can compute its image path. */
  predicate AllNamed(missions: seq<Record>) {
    forall i :: 0 <= i < |missions| ==> Get(missions[i], "mission_name").Str?
  }

  function ScreenOf(missions: seq<Record>): (v: Screen)
    ensures missions == [] <==> v == NoMissions
    ensures v == RenderFailed <==> missions != [] && exists i :: 0 <= i < |missions| && CardImage(CardOf(missions[i])).None?
    ensures v.Grid? ==> |v.cards| == |missions| && forall i :: 0 <= i < |missions| ==> v.cards[i] == CardOf(missions[i])
    ensures v.Grid? ==> forall i :: 0 <= i < |v.cards| ==> CardImage(v.cards[i]).Some?
  {
    if |missions| == 0 then NoMissions
    else if !AllNamed(missions) then RenderFailed
    else Grid(seq(|missions|, i requires 0 <= i < |missions| => CardOf(missions[i])))
  }

  class Gallery {
    var missions: seq<Record>

    constructor ()
      ensures missions == []
    {
      missions := [];
    }

    /** The mount fetch: the data on success; a failure is only logged to the console. */
    method Fetch(response: Response<seq<Record>>) returns (sent: Request)
      modifies this
      ensures sent == GetCollection(Collection)
      ensures response.Ok? ==> missions == response.data
      ensures !response.Ok? ==> missions == old(missions)
    {
      sent := GetCollection(Collection);
      if response.Ok? {
        missions := response.data;
      }
    }
  }
}
