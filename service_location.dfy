/** Location sampling of the background service (service.py,
    `LocationBackgroundService.get_current_location`): the providers "gps",
    "network" and "passive" are tried in that order, and the first one that
    is enabled and holds a last-known fix supplies the location. */
module ServiceLocation {
  import opened Common

  /** What the location manager reports about one provider. */
  datatype Provider = Provider(enabled: bool, lastKnown: Option<Fix>)

  /** The location manager at the moment of the query: the providers it
      knows by name (a name it does not know reads as disabled), or a query
      that raises part way. */
  datatype Manager = Failing | Manager(providers: map<string, Provider>)

  /** The returned dictionary: a fix and the name of the provider that gave it. */
  datatype Location = Location(fix: Fix, provider: string)

  const ProviderOrder: seq<string> := ["gps", "network", "passive"]
  const TestProvider: string := "test"

  predicate Qualifies(providers: map<string, Provider>, name: string)
  {
    name in providers && providers[name].enabled && providers[name].lastKnown.Some?
  }

  /** First provider of `names` that qualifies, tagged with its name. */
  function FirstQualifying(providers: map<string, Provider>, names: seq<string>): Option<Location>
  {
    if names == [] then None
    else if Qualifies(providers, names[0]) then Some(Location(providers[names[0]].lastKnown.value, names[0]))
    else FirstQualifying(providers, names[1..])
  }

  /** What `get_current_location` returns. */
  function CurrentLocation(onAndroid: bool, m: Manager): Option<Location>
  {
    if !onAndroid then Some(Location(TestFix, TestProvider))
    else
      match m
      case Failing => None
      case Manager(providers) => FirstQualifying(providers, ProviderOrder)
  }

  ghost predicate IsFirstQualifying(providers: map<string, Provider>, names: seq<string>, i: int)
  {
    && 0 <= i < |names|
    && Qualifies(providers, names[i])
    && forall j :: 0 <= j < i ==> !Qualifies(providers, names[j])
  }

  /** The search answers None exactly when no provider qualifies, and
      otherwise the fix of the first provider that does, with its name. */
  lemma {:induction false} FirstQualifyingIsFirstMatch(providers: map<string, Provider>, names: seq<string>)
    ensures FirstQualifying(providers, names).None? <==> forall i :: 0 <= i < |names| ==> !Qualifies(providers, names[i])
    ensures forall i :: IsFirstQualifying(providers, names, i) ==>
      FirstQualifying(providers, names) == Some(Location(providers[names[i]].lastKnown.value, names[i]))
  {
    if names != [] {
      FirstQualifyingIsFirstMatch(providers, names[1..]);
      if !Qualifies(providers, names[0]) {
        forall i | IsFirstQualifying(providers, names, i)
          ensures FirstQualifying(providers, names) == Some(Location(providers[names[i]].lastKnown.value, names[i]))
        {
          assert IsFirstQualifying(providers, names[1..], i - 1);
        }
        assert forall i :: 0 < i < |names| ==> names[i] == names[1..][i - 1];
      }
    }
  }

  /** On Android the location comes from the first of gps, network, passive
      that is enabled and has a fix, tagged with that provider; None when
      there is none or the query raises. Elsewhere it is the fixed test
      location, tagged "test". */
  lemma CurrentLocationSpec(onAndroid: bool, m: Manager)
    ensures !onAndroid ==> CurrentLocation(onAndroid, m) == Some(Location(TestFix, TestProvider))
    ensures onAndroid && m.Failing? ==> CurrentLocation(onAndroid, m) == None
    ensures onAndroid && m.Manager? ==>
      (CurrentLocation(onAndroid, m).None? <==> forall i :: 0 <= i < |ProviderOrder| ==> !Qualifies(m.providers, ProviderOrder[i]))
    ensures onAndroid && m.Manager? ==> forall i :: IsFirstQualifying(m.providers, ProviderOrder, i) ==>
      CurrentLocation(onAndroid, m) == Some(Location(m.providers[ProviderOrder[i]].lastKnown.value, ProviderOrder[i]))
  {
    if m.Manager? {
      FirstQualifyingIsFirstMatch(m.providers, ProviderOrder);
    }
  }

  /** `get_current_location`: the `for` loop over the providers, returning
      at the first hit. */
  method GetCurrentLocation(onAndroid: bool, m: Manager) returns (location: Option<Location>)
    ensures location == CurrentLocation(onAndroid, m)
  {
    if onAndroid {
      match m {
        case Failing =>
          return None;
        case Manager(providers) =>
          for i := 0 to |ProviderOrder|
            invariant FirstQualifying(providers, ProviderOrder[i..]) == FirstQualifying(providers, ProviderOrder)
          {
            var provider := ProviderOrder[i];
            assert ProviderOrder[i..][1..] == ProviderOrder[i + 1..];
            if provider in providers && providers[provider].enabled {
              var lastLocation := providers[provider].lastKnown;
              if lastLocation.Some? {
                return Some(Location(lastLocation.value, provider));
              }
            }
          }
          return None;
      }
    } else {
      return Some(Location(TestFix, TestProvider));
    }
  }
}
