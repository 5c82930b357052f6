/** Address composition of the background service (service.py,
    `LocationBackgroundService.reverse_geocode`): district, city and state
    joined with " / ", empty and repeated parts dropped, and a sentinel text
    for every failure. */
module ServiceGeocode {
  import opened Common

  const TimeoutText: string := "Bağlantı zaman aşımı"
  const ErrorText: string := "Adres bilgisi hatası"
  const Separator: string := " / "

  /** `suburb or neighbourhood` */
  function District(a: Address): string
  {
    FirstNonEmpty(a, ["suburb", "neighbourhood"])
  }

  /** `city or town or county` */
  function City(a: Address): string
  {
    FirstNonEmpty(a, ["city", "town", "county"])
  }

  function State(a: Address): string
  {
    Field(a, "state")
  }

  /** District is the first non-empty of `suburb` and `neighbourhood`;
      city the first non-empty of `city`, `town` and `county`. */
  lemma FieldFallbacks(a: Address)
    ensures District(a) == (if Field(a, "suburb") != "" then Field(a, "suburb") else Field(a, "neighbourhood"))
    ensures City(a) == (if Field(a, "city") != "" then Field(a, "city")
                        else if Field(a, "town") != "" then Field(a, "town")
                        else Field(a, "county"))
  {
    var ds := ["suburb", "neighbourhood"];
    assert ds[1..] == ["neighbourhood"] && ds[1..][1..] == [];
    assert FirstNonEmpty(a, ["neighbourhood"]) == Field(a, "neighbourhood");
    var cs := ["city", "town", "county"];
    assert cs[1..] == ["town", "county"] && cs[1..][1..] == ["county"] && cs[1..][1..][1..] == [];
    assert FirstNonEmpty(a, ["county"]) == Field(a, "county");
    assert FirstNonEmpty(a, ["town", "county"]) == (if Field(a, "town") != "" then Field(a, "town") else Field(a, "county"));
  }

  /** Every address field the service reads. */
  const AddressKeys: seq<string> := ["suburb", "neighbourhood", "city", "town", "county", "state"]

  /** Reference definition of the parts list: the non-empty entries of `xs`,
      each kept at its first occurrence, in the order of `xs`. */
  function Compose(xs: seq<string>): seq<string>
    decreases |xs|
  {
    if xs == [] then []
    else
      var kept := Compose(xs[..|xs| - 1]);
      var x := xs[|xs| - 1];
      if x == "" || x in kept then kept else kept + [x]
  }

  /** Appending one candidate adds it to the parts unless it is empty or
      already there. */
  lemma ComposeSnoc(xs: seq<string>, x: string)
    ensures Compose(xs + [x]) == if x == "" || x in Compose(xs) then Compose(xs) else Compose(xs) + [x]
  {
    assert (xs + [x])[..|xs|] == xs;
  }

  /** Position of the first occurrence of `x` in `xs`. */
  function IndexOf(xs: seq<string>, x: string): (i: nat)
    requires x in xs
    ensures i < |xs| && xs[i] == x
    ensures forall j :: 0 <= j < i ==> xs[j] != x
  {
    if xs[0] == x then 0 else 1 + IndexOf(xs[1..], x)
  }

  lemma {:induction false} IndexOfPrefix(xs: seq<string>, m: nat, x: string)
    requires m <= |xs| && x in xs[..m]
    ensures IndexOf(xs, x) == IndexOf(xs[..m], x)
  {
    var i := IndexOf(xs[..m], x);
    var k := IndexOf(xs, x);
    assert xs[i] == x;
    assert k <= i;
    assert xs[..m][k] == x;
  }

  /** The parts are non-empty, pairwise distinct, taken from `xs`, no more
      than `xs` has, and every non-empty entry of `xs` is among them. */
  lemma {:induction false} ComposeFacts(xs: seq<string>)
    ensures |Compose(xs)| <= |xs|
    ensures forall i :: 0 <= i < |Compose(xs)| ==> Compose(xs)[i] != "" && Compose(xs)[i] in xs
    ensures forall i, j :: 0 <= i < j < |Compose(xs)| ==> Compose(xs)[i] != Compose(xs)[j]
    ensures forall x :: x in xs && x != "" ==> x in Compose(xs)
  {
    if xs != [] {
      var init := xs[..|xs| - 1];
      ComposeFacts(init);
      assert xs == init + [xs[|xs| - 1]];
    }
  }

  /** The parts keep the order in which their entries first appear in `xs`. */
  lemma {:induction false} ComposeKeepsOrder(xs: seq<string>)
    ensures forall x :: x in Compose(xs) ==> x in xs
    ensures forall i, j :: 0 <= i < j < |Compose(xs)| ==>
      IndexOf(xs, Compose(xs)[i]) < IndexOf(xs, Compose(xs)[j])
  {
    ComposeFacts(xs);
    if xs != [] {
      var n := |xs|;
      var init := xs[..n - 1];
      var kept := Compose(init);
      ComposeKeepsOrder(init);
      ComposeFacts(init);
      assert xs == init + [xs[n - 1]];
      forall y | y in kept
        ensures IndexOf(xs, y) == IndexOf(init, y) < n - 1
      {
        IndexOfPrefix(xs, n - 1, y);
      }
      var x := xs[n - 1];
      if x != "" && x !in kept {
        assert x !in init;
        assert IndexOf(xs, x) == n - 1;
        var r := Compose(xs);
        assert r == kept + [x];
        forall i, j | 0 <= i < j < |r|
          ensures IndexOf(xs, r[i]) < IndexOf(xs, r[j])
        {
          assert r[i] == kept[i] && r[i] in kept;
          if j < |kept| {
            assert r[j] == kept[j] && r[j] in kept;
          }
        }
      }
    }
  }

  /** `sep.join(parts)` */
  function Join(parts: seq<string>, sep: string): string
  {
    if parts == [] then ""
    else if |parts| == 1 then parts[0]
    else parts[0] + sep + Join(parts[1..], sep)
  }

  /** The text begins with the first part, so it is empty only when the
      first part is. */
  lemma JoinStartsWithFirst(parts: seq<string>, sep: string)
    requires parts != []
    ensures |Join(parts, sep)| >= |parts[0]| && Join(parts, sep)[..|parts[0]|] == parts[0]
  {
  }

  /** The parts list built for an address: district, city, state. */
  function Parts(a: Address): seq<string>
  {
    Compose([District(a), City(a), State(a)])
  }

  /** The text for the `address` object of a 200 reply. */
  function AddressText(a: Address): (text: string)
    ensures text != ""
  {
    var parts := Parts(a);
    if parts == [] then NotFoundText
    else
      ComposeFacts([District(a), City(a), State(a)]);
      JoinStartsWithFirst(parts, Separator);
      Join(parts, Separator)
  }

  /** `reverse_geocode` once the HTTP call is cut away: its reply is the
      input. No reply makes it raise, and no reply makes it return "". */
  function ReverseGeocode(reply: GeocodeReply): (text: string)
    ensures text != ""
  {
    match reply
    case Timeout => TimeoutText
    case OtherError => ErrorText
    case Status(code, body) =>
      if code != HttpOk then UnavailableText
      else
        match body
        case Malformed => ErrorText
        case Json(address) => AddressText(AddressOf(address))
  }

  /** How `reverse_geocode` builds `location_parts`, one append at a time. */
  method LocationParts(district: string, city: string, state: string) returns (parts: seq<string>)
    ensures parts == Compose([district, city, state])
  {
    assert [district, city, state][..2] == [district, city];
    assert [district, city][..1] == [district];
    assert [district][..0] == [];
    parts := [];
    if district != "" {
      parts := parts + [district];
    }
    assert parts == Compose([district]);
    if city != "" && city != district {
      parts := parts + [city];
    }
    assert parts == Compose([district, city]);
    if state != "" && state !in parts {
      parts := parts + [state];
    }
  }

  /** The parts of an address: at most three, non-empty, pairwise distinct,
      each one of district, city and state, in that order, and none of the
      three left out unless it is empty or already present. */
  lemma PartsFacts(a: Address)
    ensures var p := Parts(a); var d, c, s := District(a), City(a), State(a);
      && |p| <= 3
      && (forall i :: 0 <= i < |p| ==> p[i] != "" && p[i] in {d, c, s})
      && (forall i, j :: 0 <= i < j < |p| ==> p[i] != p[j])
      && (d != "" ==> |p| > 0 && p[0] == d)
      && (c != "" ==> c in p)
      && (s != "" ==> s in p)
      && (d != "" && c != "" && s != "" && d != c && c != s && d != s ==> p == [d, c, s])
  {
    var xs := [District(a), City(a), State(a)];
    ComposeFacts(xs);
    ComposeKeepsOrder(xs);
    var p := Parts(a);
    if District(a) != "" {
      assert District(a) in p;
      var k :| 0 <= k < |p| && p[k] == District(a);
      assert p[0] == District(a) by {
        assert IndexOf(xs, p[k]) == 0;
      }
    }
    if District(a) != "" && City(a) != "" && State(a) != "" && District(a) != City(a) && City(a) != State(a) && District(a) != State(a) {
      assert |p| == 3 by {
        var d, c, st := District(a), City(a), State(a);
        assert d in p && c in p && st in p;
      }
      assert IndexOf(xs, p[0]) < IndexOf(xs, p[1]) < IndexOf(xs, p[2]);
    }
  }

  /** A 200 reply yields "Konum belirlenemedi" through an empty parts list,
      and the parts list is empty exactly when every address field the
      service reads is missing or empty. */
  lemma {:induction false} NoPartsIffNoFields(a: Address)
    ensures Parts(a) == [] <==> forall i :: 0 <= i < |AddressKeys| ==> Field(a, AddressKeys[i]) == ""
    ensures Parts(a) == [] ==> AddressText(a) == NotFoundText
  {
    FirstNonEmptyIsFirst(a, ["suburb", "neighbourhood"]);
    FirstNonEmptyIsFirst(a, ["city", "town", "county"]);
    ComposeFacts([District(a), City(a), State(a)]);
    var xs := [District(a), City(a), State(a)];
    assert District(a) in xs && City(a) in xs && State(a) in xs;
    var keys := AddressKeys;
    assert keys[0] == "suburb" && keys[1] == "neighbourhood" && keys[2] == "city";
    assert keys[3] == "town" && keys[4] == "county" && keys[5] == "state";
    if District(a) == "" && City(a) == "" && State(a) == "" {
      forall i | 0 <= i < |keys|
        ensures Field(a, keys[i]) == ""
      {
        assert ["suburb", "neighbourhood"][1] == "neighbourhood";
        assert ["city", "town", "county"][1] == "town" && ["city", "town", "county"][2] == "county";
      }
    }
    if forall i :: 0 <= i < |keys| ==> Field(a, keys[i]) == "" {
      assert Field(a, "suburb") == "" && Field(a, "neighbourhood") == "";
      assert Field(a, "city") == "" && Field(a, "town") == "" && Field(a, "county") == "";
      assert forall i :: 0 <= i < 2 ==> Field(a, ["suburb", "neighbourhood"][i]) == "";
      assert forall i :: 0 <= i < 3 ==> Field(a, ["city", "town", "county"][i]) == "";
      assert xs == ["", "", ""];
      assert ["", "", ""][..2] == ["", ""] && ["", ""][..1] == [""] && [""][..0] == [];
    }
  }

  /** Failures map to fixed texts: a timeout, any other transport failure, a
      non-200 status and an unreadable 200 body. */
  lemma ErrorMapping(reply: GeocodeReply)
    ensures reply.Timeout? ==> ReverseGeocode(reply) == TimeoutText
    ensures reply.OtherError? ==> ReverseGeocode(reply) == ErrorText
    ensures reply.Status? && reply.code != HttpOk ==> ReverseGeocode(reply) == UnavailableText
    ensures reply.Status? && reply.code == HttpOk && reply.body.Malformed? ==> ReverseGeocode(reply) == ErrorText
  {
  }

  /** A reply without `address` reads like an empty `address`. */
  lemma MissingAddressIsEmpty()
    ensures ReverseGeocode(Status(HttpOk, Json(None))) == ReverseGeocode(Status(HttpOk, Json(Some(map[]))))
    ensures ReverseGeocode(Status(HttpOk, Json(None))) == NotFoundText
  {
    assert District(map[]) == "" && City(map[]) == "" && State(map[]) == "";
    assert ["", "", ""][..2] == ["", ""];
    assert ["", ""][..1] == [""];
    assert [""][..0] == [];
  }
}
