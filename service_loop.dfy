/** The background service of service.py (`LocationBackgroundService`): a
    running flag that `start_service` raises and `stop_service` lowers, and
    the loop that, while the flag is up, samples the location, geocodes it,
    posts a notification and waits. */
module ServiceLoop {
  import opened Common
  import ServiceGeocode
  import ServiceLocation

  /** What the outside world supplies to one pass of the loop: the location
      manager's state, the geocoder's reply, whether the notifier's platform
      call raises, whether the log line reporting the pass raises, and
      whether `stop_service` was called while the pass ran (the flag is read
      again only when the pass is over). Sampling and geocoding catch their
      own exceptions. */
  datatype CycleEnv = CycleEnv(
    manager: ServiceLocation.Manager,
    reply: GeocodeReply,
    postFails: bool,
    logRaises: bool,
    stopRequested: bool)

  const ChannelId: string := "location_channel"
  /** `notification_id`: the id of the foreground notification. */
  const ForegroundId: int := 1

  /** The id location notifications are posted with. */
  function LocationNotificationId(notificationId: int): (id: int)
    ensures id != notificationId
  {
    notificationId + 1
  }

  /** The effects of one pass of the loop body. */
  function CycleEffects(onAndroid: bool, notificationId: int, env: CycleEnv): seq<Effect>
  {
    var wait := Slept(if env.logRaises then ErrorWait else CycleWait);
    match ServiceLocation.CurrentLocation(onAndroid, env.manager)
    case None => [wait]
    case Some(location) =>
      [GeocodeRequested(location.fix)] +
      match Post(onAndroid, env.postFails)
      case Raised => [Slept(ErrorWait)]
      case Swallowed => [wait]
      case Shown =>
        [Notified(LocationNotificationId(notificationId), ServiceGeocode.ReverseGeocode(env.reply)), wait]
  }

  /** The effects of the loop over `cycles`, up to and including the pass
      during which a stop is requested. */
  function Trace(onAndroid: bool, notificationId: int, cycles: seq<CycleEnv>): seq<Effect>
    decreases |cycles|
  {
    if cycles == [] then []
    else
      CycleEffects(onAndroid, notificationId, cycles[0]) +
      if cycles[0].stopRequested then [] else Trace(onAndroid, notificationId, cycles[1..])
  }

  predicate NoStopRequested(cycles: seq<CycleEnv>)
  {
    forall k :: 0 <= k < |cycles| ==> !cycles[k].stopRequested
  }

  /** One pass: with a location, exactly one geocoding request, then one
      notification carrying the geocoded text under the location id exactly
      when the platform call succeeds, then one wait; without a location,
      only the wait. The wait is 30 s when the log line raises or when a
      failed desktop post escapes, and 120 s otherwise: on Android a failed
      post is swallowed and the pass waits as usual. Nothing else happens
      in a pass. */
  lemma CycleFacts(onAndroid: bool, notificationId: int, env: CycleEnv)
    ensures var e := CycleEffects(onAndroid, notificationId, env);
      var location := ServiceLocation.CurrentLocation(onAndroid, env.manager);
      && |e| > 0 && e[|e| - 1].Slept? && CountSlept(e) == 1
      && (location.None? ==> e == [Slept(if env.logRaises then ErrorWait else CycleWait)])
      && (location.Some? ==> e[0] == GeocodeRequested(location.value.fix))
      && CountNotified(e) == (if location.Some? && !env.postFails then 1 else 0)
      && |e| == (if location.Some? then 2 else 1) + CountNotified(e)
      && (forall k :: 0 <= k < |e| && e[k].Notified? ==>
            k == 1 && e[k] == Notified(LocationNotificationId(notificationId), ServiceGeocode.ReverseGeocode(env.reply)))
      && e[|e| - 1] == Slept(
           if env.logRaises || (location.Some? && !onAndroid && env.postFails) then ErrorWait else CycleWait)
  {
    var e := CycleEffects(onAndroid, notificationId, env);
    var location := ServiceLocation.CurrentLocation(onAndroid, env.manager);
    if location.Some? {
      CountsAppend([e[0]], e[1..]);
      assert e == [e[0]] + e[1..];
      if Post(onAndroid, env.postFails) == Shown {
        CountsAppend([e[1]], e[2..]);
        assert e[1..] == [e[1]] + e[2..];
      }
    }
  }

  /** Passes after the one during which a stop is requested have no effect:
      nothing is geocoded, posted or waited for once the loop has seen the
      flag down. */
  lemma {:induction false} TraceEndsAtStop(onAndroid: bool, notificationId: int, cycles: seq<CycleEnv>, k: nat)
    requires k < |cycles| && cycles[k].stopRequested
    ensures Trace(onAndroid, notificationId, cycles) == Trace(onAndroid, notificationId, cycles[..k + 1])
  {
    if !cycles[0].stopRequested {
      assert k > 0;
      TraceEndsAtStop(onAndroid, notificationId, cycles[1..], k - 1);
      assert cycles[..k + 1][1..] == cycles[1..][..k];
    }
  }

  /** Each pass that runs waits exactly once: a loop whose stop comes, if at
      all, during its last pass waits once per pass. */
  lemma {:induction false} OneWaitPerPass(onAndroid: bool, notificationId: int, cycles: seq<CycleEnv>)
    requires forall k :: 0 <= k < |cycles| - 1 ==> !cycles[k].stopRequested
    ensures CountSlept(Trace(onAndroid, notificationId, cycles)) == |cycles|
  {
    if cycles != [] {
      CycleFacts(onAndroid, notificationId, cycles[0]);
      var rest := if cycles[0].stopRequested then [] else Trace(onAndroid, notificationId, cycles[1..]);
      CountsAppend(CycleEffects(onAndroid, notificationId, cycles[0]), rest);
      if !cycles[0].stopRequested {
        OneWaitPerPass(onAndroid, notificationId, cycles[1..]);
      }
    }
  }

  /** In `t`, every notification carries `id` and comes right after a
      geocoding request. */
  ghost predicate NotifiesAfterGeocoding(t: seq<Effect>, id: int)
  {
    forall k :: 0 <= k < |t| && t[k].Notified? ==> 0 < k && t[k - 1].GeocodeRequested? && t[k].id == id
  }

  /** Every notification the loop posts comes right after a geocoding
      request and carries the location id, never the foreground id. */
  lemma {:induction false} NotificationsFollowGeocoding(onAndroid: bool, notificationId: int, cycles: seq<CycleEnv>)
    ensures NotifiesAfterGeocoding(Trace(onAndroid, notificationId, cycles), LocationNotificationId(notificationId))
  {
    if cycles != [] {
      var e := CycleEffects(onAndroid, notificationId, cycles[0]);
      var rest := if cycles[0].stopRequested then [] else Trace(onAndroid, notificationId, cycles[1..]);
      var t := Trace(onAndroid, notificationId, cycles);
      assert t == e + rest;
      CycleFacts(onAndroid, notificationId, cycles[0]);
      if !cycles[0].stopRequested {
        NotificationsFollowGeocoding(onAndroid, notificationId, cycles[1..]);
      }
      if !cycles[0].stopRequested {
        forall k | |e| <= k < |t| && t[k].Notified?
          ensures 0 < k && t[k - 1].GeocodeRequested? && t[k].id == LocationNotificationId(notificationId)
        {
          var j := k - |e|;
          assert t[k] == rest[j];
          assert rest[j].Notified?;
          assert 0 < j && rest[j - 1].GeocodeRequested?;
          assert t[k - 1] == rest[j - 1];
        }
      }
    }
  }

  /** One step of the loop: the pass `cycles[i]` contributes its effects,
      and the loop goes on with the passes after it unless a stop came. */
  lemma TraceStep(onAndroid: bool, notificationId: int, cycles: seq<CycleEnv>, i: nat, done: seq<Effect>)
    requires i < |cycles|
    ensures done + Trace(onAndroid, notificationId, cycles[i..]) ==
      (done + CycleEffects(onAndroid, notificationId, cycles[i])) +
      if cycles[i].stopRequested then [] else Trace(onAndroid, notificationId, cycles[i + 1..])
  {
    assert cycles[i..][1..] == cycles[i + 1..];
  }

  class LocationBackgroundService {
    const onAndroid: bool
    const notificationId: int
    const channelId: string
    var isRunning: bool
    /** Everything the service has done to the world outside it, in order. */
    var effects: seq<Effect>

    /** `__init__`: stopped, ids fixed, and on Android the notification
        channel registered. */
    constructor (onAndroid: bool)
      ensures this.onAndroid == onAndroid
      ensures notificationId == ForegroundId && channelId == ChannelId
      ensures !isRunning
      ensures effects == if onAndroid then [ChannelCreated(ChannelId)] else []
    {
      this.onAndroid := onAndroid;
      notificationId := ForegroundId;
      channelId := ChannelId;
      isRunning := false;
      effects := if onAndroid then [ChannelCreated(ChannelId)] else [];
    }

    /** `start_service`: raise the flag, on Android go foreground under
        `notification_id`, then run the loop in the caller's thread.
        `foregroundFails` says whether the OS refuses the foreground start. */
    method StartService(foregroundFails: bool, cycles: seq<CycleEnv>)
      modifies this
      ensures isRunning == NoStopRequested(cycles)
      ensures effects == old(effects)
        + (if onAndroid && !foregroundFails then [ForegroundStarted(notificationId)] else [])
        + Trace(onAndroid, notificationId, cycles)
    {
      isRunning := true;
      if onAndroid {
        StartForegroundService(foregroundFails);
      }
      ghost var started := effects;
      assert started == old(effects)
        + (if onAndroid && !foregroundFails then [ForegroundStarted(notificationId)] else []);
      RunServiceLoop(cycles);
    }

    /** `start_foreground_service`: the foreground notification is handed
        to the OS inside a handler that swallows every failure, so the
        service goes foreground exactly when it runs on Android and the OS
        call succeeds. */
    method StartForegroundService(fails: bool)
      modifies this
      ensures isRunning == old(isRunning)
      ensures effects == old(effects) + (if onAndroid && !fails then [ForegroundStarted(notificationId)] else [])
    {
      if onAndroid && Post(onAndroid, fails) == Shown {
        effects := effects + [ForegroundStarted(notificationId)];
      }
    }

    /** `run_service_loop`, over the passes `cycles` supplies: it runs while
        the flag is up, and a stop requested during a pass ends it after
        that pass. */
    method RunServiceLoop(cycles: seq<CycleEnv>)
      modifies this
      ensures isRunning == (old(isRunning) && NoStopRequested(cycles))
      ensures effects == old(effects) + (if old(isRunning) then Trace(onAndroid, notificationId, cycles) else [])
    {
      ghost var goal := effects + (if isRunning then Trace(onAndroid, notificationId, cycles) else []);
      var i := 0;
      assert cycles[i..] == cycles;
      while isRunning && i < |cycles|
        invariant 0 <= i <= |cycles|
        invariant isRunning ==> old(isRunning) && forall k :: 0 <= k < i ==> !cycles[k].stopRequested
        invariant !isRunning ==> !old(isRunning) || (0 < i && cycles[i - 1].stopRequested)
        invariant goal == effects + (if isRunning then Trace(onAndroid, notificationId, cycles[i..]) else [])
      {
        TraceStep(onAndroid, notificationId, cycles, i, effects);
        RunCycle(cycles[i]);
        if cycles[i].stopRequested {
          StopService();
        }
        i := i + 1;
      }
    }

    /** One pass of the loop body, its `try` and its `except`. */
    method RunCycle(env: CycleEnv)
      modifies this
      ensures isRunning == old(isRunning)
      ensures effects == old(effects) + CycleEffects(onAndroid, notificationId, env)
    {
      var raised := false;
      var location := ServiceLocation.GetCurrentLocation(onAndroid, env.manager);
      if location.Some? {
        effects := effects + [GeocodeRequested(location.value.fix)];
        var address := ServiceGeocode.ReverseGeocode(env.reply);
        raised := SendLocationNotification(address, env.postFails);
        if !raised {
          raised := env.logRaises;
        }
      } else {
        raised := env.logRaises;
      }
      effects := effects + [Slept(if raised then ErrorWait else CycleWait)];
    }

    /** `send_location_notification`: shown under `notification_id + 1`
        exactly when the platform call succeeds; `raised` says whether a
        failure escapes, which only the desktop console write lets happen. */
    method SendLocationNotification(locationText: string, fails: bool) returns (raised: bool)
      modifies this
      ensures isRunning == old(isRunning)
      ensures raised <==> !onAndroid && fails
      ensures effects == old(effects)
        + (if fails then [] else [Notified(LocationNotificationId(notificationId), locationText)])
    {
      var outcome := Post(onAndroid, fails);
      if outcome == Shown {
        effects := effects + [Notified(LocationNotificationId(notificationId), locationText)];
      }
      raised := outcome == Raised;
    }

    /** `stop_service`: lower the flag and nothing else. */
    method StopService()
      modifies this
      ensures !isRunning
      ensures effects == old(effects)
    {
      isRunning := false;
    }
  }
}
