/** Address composition of the application's tracker (main.py,
    `LocationService._reverse_geocode`): "city, state", or the state alone,
    or a sentinel text. */
module MainGeocode {
  import opened Common

  const Separator: string := ", "

  /** `city or town or village` (the background service reads `county`
      where this reads `village`). */
  function City(a: Address): string
  {
    FirstNonEmpty(a, ["city", "town", "village"])
  }

  function State(a: Address): string
  {
    Field(a, "state")
  }

  /** The text for the `address` object of a 200 reply. */
  function AddressText(a: Address): (text: string)
    ensures text != ""
    ensures State(a) != "" ==> |text| >= |State(a)| && text[|text| - |State(a)|..] == State(a)
  {
    var state := State(a);
    var city := City(a);
    if state != "" && city != "" then city + Separator + state
    else if state != "" then state
    else NotFoundText
  }

  /** `_reverse_geocode` once the HTTP call is cut away: its reply is the
      input. Every failure, of whatever kind, falls through to one text, and
      no reply makes it raise or return "". */
  function ReverseGeocode(reply: GeocodeReply): (text: string)
    ensures text != ""
  {
    match reply
    case Status(code, Json(address)) =>
      if code == HttpOk then AddressText(AddressOf(address)) else UnavailableText
    case _ => UnavailableText
  }

  /** The three outcomes of a 200 reply: "city, state" when both are known,
      the state alone when the city is not, and "Konum belirlenemedi"
      whenever the state is not, whatever the city. */
  lemma AddressTextCases(a: Address)
    ensures State(a) != "" && City(a) != "" ==> AddressText(a) == City(a) + ", " + State(a)
    ensures State(a) != "" && City(a) == "" ==> AddressText(a) == State(a)
    ensures State(a) == "" ==> AddressText(a) == NotFoundText
  {
  }

  /** The city is the first non-empty of `city`, `town` and `village`, and
      missing only when all three are. */
  lemma CityFallback(a: Address)
    ensures City(a) == "" <==> Field(a, "city") == "" && Field(a, "town") == "" && Field(a, "village") == ""
    ensures Field(a, "city") != "" ==> City(a) == Field(a, "city")
    ensures Field(a, "city") == "" && Field(a, "town") != "" ==> City(a) == Field(a, "town")
    ensures Field(a, "city") == "" && Field(a, "town") == "" ==> City(a) == Field(a, "village")
  {
    FirstNonEmptyIsFirst(a, ["city", "town", "village"]);
    var keys := ["city", "town", "village"];
    assert keys[0] == "city" && keys[1] == "town" && keys[2] == "village";
    assert keys[1..] == ["town", "village"] && keys[1..][1..] == ["village"];
  }

  /** Anything but a readable 200 reply yields "Adres bilgisi alınamadı":
      a timeout, another transport failure, a non-200 status and an
      unreadable body alike. */
  lemma FailuresCollapse(reply: GeocodeReply)
    ensures !(reply.Status? && reply.code == HttpOk && reply.body.Json?) ==> ReverseGeocode(reply) == UnavailableText
  {
  }
}
