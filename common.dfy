/** Values shared by the two copies of the tracking service: the background
    service (service.py) and the application's own tracker (main.py). */
module Common {

  datatype Option<+T> = None | Some(value: T)

  /** A last-known fix as the OS reports it. The coordinates are carried
      along and handed to the geocoder; nothing computes with them. */
  datatype Fix = Fix(lat: real, lon: real)

  /** The fixed location both copies report when not running on Android. */
  const TestFix: Fix := Fix(41.0082, 28.9784)

  /** The `address` object of a reverse-geocoding reply: field name to text. */
  type Address = map<string, string>

  /** The body of a reply: a JSON object whose `address` member is absent
      or an object of text fields, or `Malformed`: any body on which reading
      the address raises (it is not JSON, it is not an object, or its
      `address` member is present but not an object, such as `null`). */
  datatype Body = Malformed | Json(address: Option<Address>)

  /** What the single HTTP call to the geocoder produced. */
  datatype GeocodeReply = Timeout | OtherError | Status(code: int, body: Body)

  const HttpOk: int := 200

  /** Texts that both copies return. */
  const NotFoundText: string := "Konum belirlenemedi"
  const UnavailableText: string := "Adres bilgisi alınamadı"

  /** `address.get(key, '')`: a missing key reads as the empty string. */
  function Field(a: Address, key: string): string
  {
    if key in a then a[key] else ""
  }

  /** `data.get('address', {})`: a reply without an `address` member acts as
      an empty one. */
  function AddressOf(address: Option<Address>): (a: Address)
    ensures forall key :: address.None? ==> Field(a, key) == ""
    ensures address.Some? ==> a == address.value
  {
    match address
    case None => map[]
    case Some(a) => a
  }

  /** `address.get(k0, '') or address.get(k1, '') or ...` */
  function FirstNonEmpty(a: Address, keys: seq<string>): string
  {
    if keys == [] then ""
    else if Field(a, keys[0]) != "" then Field(a, keys[0])
    else FirstNonEmpty(a, keys[1..])
  }

  /** Key `keys[i]` is the one an `or` chain over `keys` stops at. */
  ghost predicate StopsAt(a: Address, keys: seq<string>, i: int)
  {
    && 0 <= i < |keys|
    && Field(a, keys[i]) != ""
    && forall j :: 0 <= j < i ==> Field(a, keys[j]) == ""
  }

  /** The `or` chain yields the first non-empty field, and yields "" exactly
      when every field in the chain is missing or empty. */
  lemma {:induction false} FirstNonEmptyIsFirst(a: Address, keys: seq<string>)
    ensures FirstNonEmpty(a, keys) == "" <==> forall i :: 0 <= i < |keys| ==> Field(a, keys[i]) == ""
    ensures forall i :: StopsAt(a, keys, i) ==> FirstNonEmpty(a, keys) == Field(a, keys[i])
  {
    if keys != [] {
      FirstNonEmptyIsFirst(a, keys[1..]);
      if Field(a, keys[0]) == "" {
        forall i | StopsAt(a, keys, i)
          ensures FirstNonEmpty(a, keys) == Field(a, keys[i])
        {
          assert i > 0;
          assert StopsAt(a, keys[1..], i - 1);
        }
        assert forall i :: 0 < i < |keys| ==> keys[i] == keys[1..][i - 1];
      }
    }
  }

  /** One effect the tracker has on the world outside it, in the order it
      happens. */
  datatype Effect =
    | ChannelCreated(channel: string)
    | ForegroundStarted(id: int)
    | GeocodeRequested(fix: Fix)
    | Notified(id: int, text: string)
    | Slept(seconds: nat)

  /** How one hand-over of a notification to the platform ends: the
      notification is shown, the attempt fails inside the notifier's own
      handler (caught and logged there), or it fails with the exception
      escaping to the caller. */
  datatype PostOutcome = Shown | Swallowed | Raised

  /** The notifier's steps. On Android it builds the notification, which
      evaluates the small-icon argument, and hands it to the OS, all inside
      a handler that catches and logs every exception; on the desktop it
      writes one console line with no handler around it. `fails` says
      whether the OS call or the console write raises. */
  function PostWith(onAndroid: bool, iconResolves: bool, fails: bool): PostOutcome
  {
    if onAndroid then
      if iconResolves && !fails then Shown else Swallowed
    else if fails then Raised else Shown
  }

  /** The notifier as written. Its small-icon argument
      `android.R.drawable.ic_dialog_info` names `android`, which neither
      module binds (each imports names from that package, such as
      `mActivity`, but never the package itself), so on Android building
      the notification raises NameError, the handler swallows it, and
      nothing is ever shown. */
  function PostAsWritten(onAndroid: bool, fails: bool): (r: PostOutcome)
    ensures onAndroid ==> r == Swallowed
    ensures r == Raised <==> !onAndroid && fails
  {
    PostWith(onAndroid, false, fails)
  }

  /** The notifier with its icon argument resolving, as intended: the
      notification is shown exactly when the platform call succeeds, and
      only the desktop lets a failure escape to the caller. */
  function Post(onAndroid: bool, fails: bool): (r: PostOutcome)
    ensures r == Shown <==> !fails
    ensures r == Raised <==> !onAndroid && fails
    ensures onAndroid ==> r != Raised
  {
    PostWith(onAndroid, true, fails)
  }

  /** The input that tells the two apart: on Android, with the OS call
      succeeding, the notifier as written shows nothing, while the intended
      one shows the notification. */
  lemma IconNameUnbound()
    ensures PostAsWritten(true, false) == Swallowed
    ensures Post(true, false) == Shown
  {
  }

  /** Seconds slept after a normal cycle and after one that raised. */
  const CycleWait: nat := 120
  const ErrorWait: nat := 30

  function CountNotified(e: seq<Effect>): nat
  {
    if e == [] then 0 else (if e[0].Notified? then 1 else 0) + CountNotified(e[1..])
  }

  function CountSlept(e: seq<Effect>): nat
  {
    if e == [] then 0 else (if e[0].Slept? then 1 else 0) + CountSlept(e[1..])
  }

  lemma {:induction false} CountsAppend(e1: seq<Effect>, e2: seq<Effect>)
    ensures CountNotified(e1 + e2) == CountNotified(e1) + CountNotified(e2)
    ensures CountSlept(e1 + e2) == CountSlept(e1) + CountSlept(e2)
  {
    if e1 != [] {
      assert (e1 + e2)[1..] == e1[1..] + e2;
      CountsAppend(e1[1..], e2);
    } else {
      assert e1 + e2 == e2;
    }
  }
}
