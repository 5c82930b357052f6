/** How the two copies of the geocoding and notification logic (service.py
    and main.py) differ on the same input. */
module Copies {
  import opened Common
  import ServiceGeocode
  import MainGeocode
  import ServiceLoop
  import MainApp

  /** A reply with state İstanbul and city Kadıköy: the application writes
      "Kadıköy, İstanbul", the service "Kadıköy / İstanbul". */
  lemma IstanbulExample()
    ensures MainGeocode.ReverseGeocode(Status(HttpOk, Json(Some(map["state" := "İstanbul", "city" := "Kadıköy"]))))
      == "Kadıköy, İstanbul"
    ensures ServiceGeocode.ReverseGeocode(Status(HttpOk, Json(Some(map["state" := "İstanbul", "city" := "Kadıköy"]))))
      == "Kadıköy / İstanbul"
  {
    var a := map["state" := "İstanbul", "city" := "Kadıköy"];
    MainGeocode.CityFallback(a);
    ServiceGeocode.FieldFallbacks(a);
    ComposeSteps("", "Kadıköy", "İstanbul");
    assert ServiceGeocode.Parts(a) == ["Kadıköy", "İstanbul"];
    assert ServiceGeocode.Join(["Kadıköy", "İstanbul"], " / ") == "Kadıköy / İstanbul";
  }

  /** The parts list for three given fields, one step at a time. */
  lemma ComposeSteps(d: string, c: string, s: string)
    ensures ServiceGeocode.Compose([d]) == (if d == "" then [] else [d])
    ensures ServiceGeocode.Compose([d, c]) ==
      ServiceGeocode.Compose([d]) + (if c == "" || c == d then [] else [c])
    ensures ServiceGeocode.Compose([d, c, s]) ==
      ServiceGeocode.Compose([d, c]) + (if s == "" || s in ServiceGeocode.Compose([d, c]) then [] else [s])
  {
    ServiceGeocode.ComposeSnoc([], d);
    assert [] + [d] == [d];
    ServiceGeocode.ComposeSnoc([d], c);
    assert [d] + [c] == [d, c];
    ServiceGeocode.ComposeSnoc([d, c], s);
    assert [d, c] + [s] == [d, c, s];
  }

  /** An empty `address` gives "Konum belirlenemedi" in both copies. */
  lemma EmptyAddressExample()
    ensures MainGeocode.ReverseGeocode(Status(HttpOk, Json(Some(map[])))) == NotFoundText
    ensures ServiceGeocode.ReverseGeocode(Status(HttpOk, Json(Some(map[])))) == NotFoundText
  {
    ServiceGeocode.MissingAddressIsEmpty();
  }

  /** A city without a state: the service shows the city, the application
      shows "Konum belirlenemedi". */
  lemma CityWithoutState(a: Address)
    requires Field(a, "state") == "" && Field(a, "suburb") == "" && Field(a, "neighbourhood") == ""
    requires Field(a, "city") != ""
    ensures ServiceGeocode.AddressText(a) == Field(a, "city")
    ensures MainGeocode.AddressText(a) == NotFoundText
  {
    ServiceGeocode.FieldFallbacks(a);
    ComposeSteps("", Field(a, "city"), "");
  }

  /** The city chains differ in their last field: a county counts as the
      city for the service but not for the application. */
  lemma CountyCountsOnlyInService()
    ensures ServiceGeocode.AddressText(map["county" := "Beykoz", "state" := "İstanbul"]) == "Beykoz / İstanbul"
    ensures MainGeocode.AddressText(map["county" := "Beykoz", "state" := "İstanbul"]) == "İstanbul"
  {
    var a := map["county" := "Beykoz", "state" := "İstanbul"];
    ServiceGeocode.FieldFallbacks(a);
    MainGeocode.CityFallback(a);
    ComposeSteps("", "Beykoz", "İstanbul");
  }

  /** ... and a village counts as the city for the application but not for
      the service. */
  lemma VillageCountsOnlyInApp()
    ensures ServiceGeocode.AddressText(map["village" := "Ağva", "state" := "İstanbul"]) == "İstanbul"
    ensures MainGeocode.AddressText(map["village" := "Ağva", "state" := "İstanbul"]) == "Ağva, İstanbul"
  {
    var b := map["village" := "Ağva", "state" := "İstanbul"];
    ServiceGeocode.FieldFallbacks(b);
    MainGeocode.CityFallback(b);
    ComposeSteps("", "", "İstanbul");
  }

  /** Failures: a non-200 status reads the same in both copies; a timeout
      and other failures have texts of their own in the service and all
      read "Adres bilgisi alınamadı" in the application. */
  lemma FailureTexts(reply: GeocodeReply)
    ensures reply.Status? && reply.code != HttpOk ==>
      ServiceGeocode.ReverseGeocode(reply) == MainGeocode.ReverseGeocode(reply) == UnavailableText
    ensures reply.Timeout? ==>
      ServiceGeocode.ReverseGeocode(reply) == ServiceGeocode.TimeoutText != MainGeocode.ReverseGeocode(reply)
    ensures reply.OtherError? || (reply.Status? && reply.code == HttpOk && reply.body.Malformed?) ==>
      ServiceGeocode.ReverseGeocode(reply) == ServiceGeocode.ErrorText != MainGeocode.ReverseGeocode(reply)
  {
  }

  /** The application posts its location notifications under the id the
      service uses for its foreground notification, 1; the service itself
      posts them under a different one, 2. */
  lemma NotificationIds()
    ensures MainApp.NotificationId == ServiceLoop.ForegroundId == 1
    ensures ServiceLoop.LocationNotificationId(ServiceLoop.ForegroundId) == 2
    ensures ServiceLoop.LocationNotificationId(ServiceLoop.ForegroundId) != ServiceLoop.ForegroundId
  {
  }
}
