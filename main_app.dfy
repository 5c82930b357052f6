/** The application of main.py: `LocationService`, whose tracking loop
    samples, geocodes and notifies while its running flag is up, and
    `LocationTrackerApp`, whose button toggles tracking and whose two labels
    show whether it is on. */
module MainApp {
  import opened Common
  import MainGeocode
  import MainLocation

  /** What the outside world supplies to one pass of the loop: the location
      manager's state, the geocoder's reply, whether the notifier's platform
      call raises, whether the log line reporting the update raises, and
      whether `stop_location_tracking` was called while the pass ran (the
      flag is read again only when the pass is over). Sampling and
      geocoding catch their own exceptions. */
  datatype CycleEnv = CycleEnv(
    manager: MainLocation.Manager,
    reply: GeocodeReply,
    postFails: bool,
    logRaises: bool,
    stopRequested: bool)

  /** The id `_send_notification` posts under. */
  const NotificationId: int := 1

  /** The effects of one pass of the loop body. A pass without a location
      logs nothing, so only posting and the update log can raise. */
  function CycleEffects(onAndroid: bool, env: CycleEnv): seq<Effect>
  {
    var wait := Slept(if env.logRaises then ErrorWait else CycleWait);
    match MainLocation.CurrentLocation(onAndroid, env.manager)
    case None => [Slept(CycleWait)]
    case Some(fix) =>
      [GeocodeRequested(fix)] +
      match Post(onAndroid, env.postFails)
      case Raised => [Slept(ErrorWait)]
      case Swallowed => [wait]
      case Shown => [Notified(NotificationId, MainGeocode.ReverseGeocode(env.reply)), wait]
  }

  /** The effects of the loop over `cycles`, up to and including the pass
      during which a stop is requested. */
  function Trace(onAndroid: bool, cycles: seq<CycleEnv>): seq<Effect>
    decreases |cycles|
  {
    if cycles == [] then []
    else
      CycleEffects(onAndroid, cycles[0]) +
      if cycles[0].stopRequested then [] else Trace(onAndroid, cycles[1..])
  }

  predicate NoStopRequested(cycles: seq<CycleEnv>)
  {
    forall k :: 0 <= k < |cycles| ==> !cycles[k].stopRequested
  }

  /** One pass: with a location, one geocoding request and then one
      notification carrying the geocoded text exactly when the platform call
      succeeds; without a location, nothing but a 120 s wait. With a
      location the wait is 30 s when the update log raises or a failed
      desktop post escapes, and 120 s otherwise: on Android a failed post is
      swallowed. Nothing else happens in a pass. */
  lemma CycleFacts(onAndroid: bool, env: CycleEnv)
    ensures var e := CycleEffects(onAndroid, env);
      var location := MainLocation.CurrentLocation(onAndroid, env.manager);
      && |e| > 0 && e[|e| - 1].Slept? && CountSlept(e) == 1
      && (location.None? ==> e == [Slept(CycleWait)])
      && (location.Some? ==> e[0] == GeocodeRequested(location.value))
      && CountNotified(e) == (if location.Some? && !env.postFails then 1 else 0)
      && |e| == (if location.Some? then 2 else 1) + CountNotified(e)
      && (forall k :: 0 <= k < |e| && e[k].Notified? ==>
            k == 1 && e[k] == Notified(NotificationId, MainGeocode.ReverseGeocode(env.reply)))
      && e[|e| - 1] == Slept(
           if location.Some? && (env.logRaises || (!onAndroid && env.postFails)) then ErrorWait else CycleWait)
  {
    var e := CycleEffects(onAndroid, env);
    if MainLocation.CurrentLocation(onAndroid, env.manager).Some? {
      CountsAppend([e[0]], e[1..]);
      assert e == [e[0]] + e[1..];
      if Post(onAndroid, env.postFails) == Shown {
        CountsAppend([e[1]], e[2..]);
        assert e[1..] == [e[1]] + e[2..];
      }
    }
  }

  /** Passes after the one during which a stop is requested have no effect. */
  lemma {:induction false} TraceEndsAtStop(onAndroid: bool, cycles: seq<CycleEnv>, k: nat)
    requires k < |cycles| && cycles[k].stopRequested
    ensures Trace(onAndroid, cycles) == Trace(onAndroid, cycles[..k + 1])
  {
    if !cycles[0].stopRequested {
      assert k > 0;
      TraceEndsAtStop(onAndroid, cycles[1..], k - 1);
      assert cycles[..k + 1][1..] == cycles[1..][..k];
    }
  }

  /** A pass shows a notification: it has a location and the platform call succeeds. */
  predicate Posts(onAndroid: bool, env: CycleEnv)
  {
    MainLocation.CurrentLocation(onAndroid, env.manager).Some? && !env.postFails
  }

  /** The loop posts at most one notification per pass, and, when its stop
      comes (if at all) during the last pass, exactly one per pass when every
      pass posts. */
  lemma {:induction false} AtMostOneNotificationPerPass(onAndroid: bool, cycles: seq<CycleEnv>)
    ensures CountNotified(Trace(onAndroid, cycles)) <= |cycles|
    ensures (forall k :: 0 <= k < |cycles| ==> Posts(onAndroid, cycles[k])) &&
            (forall k :: 0 <= k < |cycles| - 1 ==> !cycles[k].stopRequested) ==>
              CountNotified(Trace(onAndroid, cycles)) == |cycles|
  {
    if cycles != [] {
      CycleFacts(onAndroid, cycles[0]);
      var rest := if cycles[0].stopRequested then [] else Trace(onAndroid, cycles[1..]);
      CountsAppend(CycleEffects(onAndroid, cycles[0]), rest);
      AtMostOneNotificationPerPass(onAndroid, cycles[1..]);
    }
  }

  /** One step of the loop: the pass `cycles[i]` contributes its effects,
      and the loop goes on with the passes after it unless a stop came. */
  lemma TraceStep(onAndroid: bool, cycles: seq<CycleEnv>, i: nat, done: seq<Effect>)
    requires i < |cycles|
    ensures done + Trace(onAndroid, cycles[i..]) ==
      (done + CycleEffects(onAndroid, cycles[i])) +
      if cycles[i].stopRequested then [] else Trace(onAndroid, cycles[i + 1..])
  {
    assert cycles[i..][1..] == cycles[i + 1..];
  }

  class LocationService {
    const onAndroid: bool
    var isRunning: bool
    /** How many tracking threads `start_location_tracking` has started. */
    var threadsStarted: nat
    /** Everything the tracker has done to the world outside it, in order. */
    var effects: seq<Effect>

    constructor (onAndroid: bool)
      ensures this.onAndroid == onAndroid
      ensures !isRunning && threadsStarted == 0 && effects == []
    {
      this.onAndroid := onAndroid;
      isRunning := false;
      threadsStarted := 0;
      effects := [];
    }

    /** `start_location_tracking`: raise the flag and start one more thread
        running the loop, whether or not one is already running. */
    method StartLocationTracking()
      modifies this
      ensures isRunning
      ensures threadsStarted == old(threadsStarted) + 1
      ensures effects == old(effects)
    {
      isRunning := true;
      threadsStarted := threadsStarted + 1;
    }

    /** `stop_location_tracking`: lower the flag. */
    method StopLocationTracking()
      modifies this
      ensures !isRunning
      ensures threadsStarted == old(threadsStarted) && effects == old(effects)
    {
      isRunning := false;
    }

    /** `_location_loop`, over the passes `cycles` supplies: it runs while
        the flag is up, and a stop requested during a pass ends it after
        that pass. */
    method LocationLoop(cycles: seq<CycleEnv>)
      modifies this
      ensures isRunning == (old(isRunning) && NoStopRequested(cycles))
      ensures threadsStarted == old(threadsStarted)
      ensures effects == old(effects) + (if old(isRunning) then Trace(onAndroid, cycles) else [])
    {
      ghost var goal := effects + (if isRunning then Trace(onAndroid, cycles) else []);
      var i := 0;
      assert cycles[i..] == cycles;
      while isRunning && i < |cycles|
        invariant 0 <= i <= |cycles|
        invariant threadsStarted == old(threadsStarted)
        invariant isRunning ==> old(isRunning) && forall k :: 0 <= k < i ==> !cycles[k].stopRequested
        invariant !isRunning ==> !old(isRunning) || (0 < i && cycles[i - 1].stopRequested)
        invariant goal == effects + (if isRunning then Trace(onAndroid, cycles[i..]) else [])
      {
        TraceStep(onAndroid, cycles, i, effects);
        RunCycle(cycles[i]);
        if cycles[i].stopRequested {
          StopLocationTracking();
        }
        i := i + 1;
      }
    }

    /** One pass of the loop body, its `try` and its `except`. */
    method RunCycle(env: CycleEnv)
      modifies this
      ensures isRunning == old(isRunning) && threadsStarted == old(threadsStarted)
      ensures effects == old(effects) + CycleEffects(onAndroid, env)
    {
      var raised := false;
      var location := MainLocation.GetCurrentLocation(onAndroid, env.manager);
      if location.Some? {
        effects := effects + [GeocodeRequested(location.value)];
        var address := MainGeocode.ReverseGeocode(env.reply);
        raised := SendNotification(address, env.postFails);
        if !raised {
          raised := env.logRaises;
        }
      }
      effects := effects + [Slept(if raised then ErrorWait else CycleWait)];
    }

    /** `_send_notification`: shown under id 1 exactly when the platform
        call succeeds; `raised` says whether a failure escapes, which only
        the desktop console write lets happen. */
    method SendNotification(locationText: string, fails: bool) returns (raised: bool)
      modifies this
      ensures isRunning == old(isRunning) && threadsStarted == old(threadsStarted)
      ensures raised <==> !onAndroid && fails
      ensures effects == old(effects) + (if fails then [] else [Notified(NotificationId, locationText)])
    {
      var outcome := Post(onAndroid, fails);
      if outcome == Shown {
        effects := effects + [Notified(NotificationId, locationText)];
      }
      raised := outcome == Raised;
    }
  }

  /** Button text for a tracking state. */
  function ButtonLabel(tracking: bool): string
  {
    if tracking then "Takibi Durdur" else "Takibi Başlat"
  }

  /** Status label text for a tracking state. */
  function StatusLabel(tracking: bool): string
  {
    if tracking then "Konum takibi aktif - Arka planda çalışıyor" else "Konum takibi kapalı"
  }

  /** Each label tells the two states apart. */
  lemma LabelsShowState(t: bool, u: bool)
    ensures ButtonLabel(t) == ButtonLabel(u) <==> t == u
    ensures StatusLabel(t) == StatusLabel(u) <==> t == u
  {
  }

  class LocationTrackerApp {
    const locationService: LocationService
    var isTracking: bool
    var buttonText: string
    var statusText: string

    /** The labels show the tracking state, and the tracker runs exactly
        while the app says it is tracking. */
    ghost predicate Valid()
      reads this, locationService
    {
      && buttonText == ButtonLabel(isTracking)
      && statusText == StatusLabel(isTracking)
      && locationService.isRunning == isTracking
    }

    /** `__init__` followed by `build`: not tracking, labels to match. */
    constructor (onAndroid: bool)
      ensures Valid() && fresh(locationService)
      ensures !isTracking
      ensures buttonText == "Takibi Başlat" && statusText == "Konum takibi kapalı"
      ensures locationService.threadsStarted == 0 && locationService.effects == []
    {
      locationService := new LocationService(onAndroid);
      isTracking := false;
      buttonText := "Takibi Başlat";
      statusText := "Konum takibi kapalı";
    }

    /** `toggle_tracking` */
    method ToggleTracking()
      requires Valid()
      modifies this, locationService
      ensures Valid()
      ensures isTracking == !old(isTracking)
      ensures locationService.threadsStarted == old(locationService.threadsStarted) + (if old(isTracking) then 0 else 1)
      ensures locationService.effects == old(locationService.effects)
    {
      if !isTracking {
        StartTracking();
      } else {
        StopTracking();
      }
    }

    /** `start_tracking` */
    method StartTracking()
      modifies this, locationService
      ensures Valid() && isTracking
      ensures buttonText == "Takibi Durdur" && statusText == "Konum takibi aktif - Arka planda çalışıyor"
      ensures locationService.threadsStarted == old(locationService.threadsStarted) + 1
      ensures locationService.effects == old(locationService.effects)
    {
      locationService.StartLocationTracking();
      isTracking := true;
      buttonText := "Takibi Durdur";
      statusText := "Konum takibi aktif - Arka planda çalışıyor";
    }

    /** `stop_tracking` */
    method StopTracking()
      modifies this, locationService
      ensures Valid() && !isTracking
      ensures buttonText == "Takibi Başlat" && statusText == "Konum takibi kapalı"
      ensures locationService.threadsStarted == old(locationService.threadsStarted)
      ensures locationService.effects == old(locationService.effects)
    {
      locationService.StopLocationTracking();
      isTracking := false;
      buttonText := "Takibi Başlat";
      statusText := "Konum takibi kapalı";
    }
  }

  /** Pressing the button twice leaves the flag, both labels and the
      tracker's running state as they were; only the count of started
      threads has grown, by one. */
  method ToggleTwice(app: LocationTrackerApp)
    requires app.Valid()
    modifies app, app.locationService
    ensures app.Valid()
    ensures app.isTracking == old(app.isTracking)
    ensures app.buttonText == old(app.buttonText) && app.statusText == old(app.statusText)
    ensures app.locationService.isRunning == old(app.locationService.isRunning)
    ensures app.locationService.threadsStarted == old(app.locationService.threadsStarted) + 1
  {
    app.ToggleTracking();
    app.ToggleTracking();
  }
}
