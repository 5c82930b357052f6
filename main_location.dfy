/** Location sampling of the application's tracker (main.py,
    `LocationService._get_current_location`): the enabled providers are
    taken in the order the location manager lists them, and the first one
    holding a last-known fix supplies the location. */
module MainLocation {
  import opened Common

  /** The location manager at the moment of the query: the names of the
      enabled providers in the order it lists them and the last-known fix of
      each provider that has one, or a query that raises part way. */
  datatype Manager = Failing | Manager(enabled: seq<string>, lastKnown: map<string, Fix>)

  /** Fix of the first provider of `names` that has one. */
  function FirstFix(lastKnown: map<string, Fix>, names: seq<string>): Option<Fix>
  {
    if names == [] then None
    else if names[0] in lastKnown then Some(lastKnown[names[0]])
    else FirstFix(lastKnown, names[1..])
  }

  /** What `_get_current_location` returns. */
  function CurrentLocation(onAndroid: bool, m: Manager): Option<Fix>
  {
    if !onAndroid then Some(TestFix)
    else
      match m
      case Failing => None
      case Manager(enabled, lastKnown) => FirstFix(lastKnown, enabled)
  }

  ghost predicate IsFirstWithFix(lastKnown: map<string, Fix>, names: seq<string>, i: int)
  {
    && 0 <= i < |names|
    && names[i] in lastKnown
    && forall j :: 0 <= j < i ==> names[j] !in lastKnown
  }

  /** The search answers None exactly when no listed provider has a fix, and
      otherwise the fix of the first one that has. */
  lemma {:induction false} FirstFixIsFirstMatch(lastKnown: map<string, Fix>, names: seq<string>)
    ensures FirstFix(lastKnown, names).None? <==> forall i :: 0 <= i < |names| ==> names[i] !in lastKnown
    ensures forall i :: IsFirstWithFix(lastKnown, names, i) ==> FirstFix(lastKnown, names) == Some(lastKnown[names[i]])
  {
    if names != [] {
      FirstFixIsFirstMatch(lastKnown, names[1..]);
      if names[0] !in lastKnown {
        forall i | IsFirstWithFix(lastKnown, names, i)
          ensures FirstFix(lastKnown, names) == Some(lastKnown[names[i]])
        {
          assert IsFirstWithFix(lastKnown, names[1..], i - 1);
        }
        assert forall i :: 0 < i < |names| ==> names[i] == names[1..][i - 1];
      }
    }
  }

  /** On Android the location is the fix of the first enabled provider that
      has one, or None when none has or the query raises; elsewhere it is
      the fixed test location. */
  lemma CurrentLocationSpec(onAndroid: bool, m: Manager)
    ensures !onAndroid ==> CurrentLocation(onAndroid, m) == Some(TestFix)
    ensures onAndroid && m.Failing? ==> CurrentLocation(onAndroid, m) == None
    ensures onAndroid && m.Manager? ==>
      (CurrentLocation(onAndroid, m).None? <==> forall i :: 0 <= i < |m.enabled| ==> m.enabled[i] !in m.lastKnown)
    ensures onAndroid && m.Manager? ==> forall i :: IsFirstWithFix(m.lastKnown, m.enabled, i) ==>
      CurrentLocation(onAndroid, m) == Some(m.lastKnown[m.enabled[i]])
  {
    if m.Manager? {
      FirstFixIsFirstMatch(m.lastKnown, m.enabled);
    }
  }

  /** `_get_current_location`: the `for ... break` over the enabled
      providers. */
  method GetCurrentLocation(onAndroid: bool, m: Manager) returns (location: Option<Fix>)
    ensures location == CurrentLocation(onAndroid, m)
  {
    if onAndroid {
      match m {
        case Failing =>
          return None;
        case Manager(providers, lastKnown) =>
          location := None;
          for i := 0 to |providers|
            invariant location.None?
            invariant FirstFix(lastKnown, providers[i..]) == FirstFix(lastKnown, providers)
          {
            assert providers[i..][1..] == providers[i + 1..];
            if providers[i] in lastKnown {
              location := Some(lastKnown[providers[i]]);
              break;
            }
          }
          return location;
      }
    } else {
      return Some(TestFix);
    }
  }
}
