# Location notifier: tracking service model

This is a Dafny model of the tracking logic in the LocationNotifier app, a Kivy app for Android. While tracking is on, the app does the following in a loop:

- It reads the device's last-known location.
- It turns that location into a place name by reverse geocoding with Nominatim.
- It posts the place name as a notification.
- It waits 120 seconds, or 30 seconds after an error.

The repository holds two copies of this logic, and they disagree in places:

- `service.py`: the Android background service, `LocationBackgroundService`.
- `main.py`: the application's own tracker, `LocationService`, and the UI class `LocationTrackerApp`.

The model keeps the two copies apart. There is one module per copy and per concern:

| module | file | models |
|---|---|---|
| `Common` | common.dfy | Values both copies share: the geocoder reply, the `address` object, the `or` chains over its fields, fixes, and effects on the world. |
| `ServiceGeocode` | service_geocode.dfy | `reverse_geocode` of service.py. District, city and state are joined with `" / "`, and empty or repeated parts are dropped. |
| `ServiceLocation` | service_location.dfy | `get_current_location` of service.py. It tries `gps`, `network` and `passive` in that order. |
| `ServiceLoop` | service_loop.dfy | The `LocationBackgroundService` class: its running flag, its loop and the effects of one pass. |
| `MainGeocode` | main_geocode.dfy | `_reverse_geocode` of main.py. It returns `"city, state"` or the state alone. |
| `MainLocation` | main_location.dfy | `_get_current_location` of main.py. It searches the enabled providers in the order the OS lists them. |
| `MainApp` | main_app.dfy | The `LocationService` and `LocationTrackerApp` classes: the flags, the loop and the button and status labels. |
| `Copies` | copies.dfy | Lemmas that compare the two copies on the same input. |

Notes on how the model represents the source:

- **Geocoder reply.** The HTTP call is cut away. Its outcome is the input, a `GeocodeReply`, which is one of:
  - `Timeout`;
  - `OtherError`;
  - `Status(code, body)`. The body is `Malformed` when reading the address from it raises: it is not JSON, it is not a JSON object, or its `address` member is present but not an object (for example `null`). Otherwise it is `Json(address)`, and `address` may be absent.
- **Address fields.** In the `address` object, a missing key and an empty string are the same.
- **Location parts.** service.py builds its list of location parts by appending. That method, `LocationParts`, is proved equal to a reference definition, `Compose`. `Compose` keeps the non-empty entries, each at its first occurrence, in order.
- **State and effects.** Both classes hold their flags as fields. The methods change those fields. They also record what the program does to the outside world in an `effects` sequence:
  - channel creation;
  - going foreground;
  - a geocoding request;
  - a notification shown, with its id and text;
  - a wait, with its length.
- **Posting a notification.** On Android the notifier builds the notification and hands it to the OS inside a handler that catches and logs every exception. On the desktop it writes a console line with nothing around it. `Common.Post` gives the outcome: shown, swallowed, or raised to the caller. The loops and the foreground start use this intended behaviour. The code as written never shows anything on Android; see "## Findings".
- **The loops.** Each loop runs over a finite sequence of passes supplied by the environment. A pass says five things:
  - the location manager's state;
  - the geocoder's reply;
  - whether the notifier's platform call (the OS call, or the console write) raises;
  - whether the log line that reports the pass raises;
  - whether a stop was requested while the pass ran.

  The flag is read again only at the top of the next pass. So a stop takes effect after the pass during which it was requested.

Three facts about the code that the model keeps:

- `start_location_tracking` in main.py (main.py:59-62) starts another thread on every call, whether or not one is running. `threadsStarted` counts these threads. Only the app's `is_tracking` check (main.py:231) keeps a second one from starting.
- service.py drops every repeated part, not only adjacent ones: a state already in the list is left out wherever it appears.
- For city Kadıköy and state İstanbul, main.py writes `"Kadıköy, İstanbul"` and service.py writes `"Kadıköy / İstanbul"`.

## Model

| member | source | states |
|---|---|---|
| `Common.AddressOf` | service.py:173 | A reply with no `address` member acts as an empty one: every field reads as `""`. |
| `Common.PostAsWritten` | service.py:203-229 | The notifier as written: on Android nothing is ever shown, because building the notification raises NameError and the handler swallows it. Only on the desktop can a failure escape. |
| `Common.Post` | service.py:203-233 | The intended notifier: the notification is shown exactly when the platform call succeeds. A failure escapes only on the desktop; on Android it is swallowed. |
| `Common.IconNameUnbound` | main.py:156-174 | On Android with a working OS call, the notifier as written shows nothing and the intended one shows the notification. |
| `Common.FirstNonEmptyIsFirst` | service.py:177-178 | An `a or b or c` chain over address fields returns the first non-empty field. It returns `""` exactly when every field in the chain is missing or empty. |
| `ServiceGeocode.FieldFallbacks` | service.py:176-178 | District is `suburb`, else `neighbourhood`. City is `city`, else `town`, else `county`. |
| `ServiceGeocode.ComposeFacts` | service.py:180-186 | The parts list holds no more entries than its candidates. Every part is non-empty and is one of the candidates. The parts are pairwise distinct. Every non-empty candidate is among them. |
| `ServiceGeocode.ComposeKeepsOrder` | service.py:180-186 | The parts keep the order in which their candidates first appear: district before city before state. |
| `ServiceGeocode.LocationParts` | service.py:180-186 | The three guarded appends build exactly the reference parts list for district, city and state. That list is the non-empty ones, each at its first occurrence. |
| `ServiceGeocode.PartsFacts` | service.py:175-186 | For an address: at most 3 parts, all non-empty and pairwise distinct, each being the district, city or state. A non-empty district comes first. A non-empty city or state is always present. Three distinct non-empty fields give exactly `[district, city, state]`. |
| `ServiceGeocode.JoinStartsWithFirst` | service.py:189 | `" / ".join(parts)` begins with the first part. |
| `ServiceGeocode.AddressText` | service.py:188-191 | The text for the address of a 200 reply is never empty. |
| `ServiceGeocode.ReverseGeocode` | service.py:152-201 | No reply makes `reverse_geocode` raise or return `""`. |
| `ServiceGeocode.NoPartsIffNoFields` | service.py:173-191 | The parts list is empty exactly when all six fields it reads are missing or empty: suburb, neighbourhood, city, town, county and state. The text is then `"Konum belirlenemedi"`. |
| `ServiceGeocode.ErrorMapping` | service.py:171-201 | Each failure maps to its text. A timeout gives `"Bağlantı zaman aşımı"`. Another transport failure gives `"Adres bilgisi hatası"`. A non-200 status gives `"Adres bilgisi alınamadı"`. An unreadable 200 body gives `"Adres bilgisi hatası"`. |
| `ServiceGeocode.MissingAddressIsEmpty` | service.py:173 | A 200 reply without `address` gives the same text as an empty `address`: `"Konum belirlenemedi"`. |
| `ServiceLocation.FirstQualifyingIsFirstMatch` | service.py:129-143 | The provider search returns None exactly when no provider is both enabled and holding a fix. Otherwise it returns the fix of the first such provider, tagged with that provider's name. |
| `ServiceLocation.CurrentLocationSpec` | service.py:121-150 | On Android the location comes from the first of gps, network and passive that qualifies. It is None when none qualifies or the query raises. Off Android it is `(41.0082, 28.9784)`, tagged `test`. |
| `ServiceLocation.GetCurrentLocation` | service.py:121-150 | The `for` loop with its early return computes the location described above. |
| `MainLocation.FirstFixIsFirstMatch` | main.py:99-111 | The search over the enabled providers returns None exactly when none has a fix. Otherwise it returns the fix of the first one that has. |
| `MainLocation.CurrentLocationSpec` | main.py:89-118 | On Android the location is the first enabled provider's fix. It is None when there is none or the query raises. Off Android it is `(41.0082, 28.9784)`. |
| `MainLocation.GetCurrentLocation` | main.py:89-118 | The `for ... break` loop computes the location described above. |
| `MainGeocode.AddressText` | main.py:139-147 | The text is never empty. When the state is known, the text ends with the state. |
| `MainGeocode.ReverseGeocode` | main.py:120-152 | No reply makes `_reverse_geocode` raise or return `""`. |
| `MainGeocode.AddressTextCases` | main.py:142-147 | With both state and city known, the text is `"{city}, {state}"`. With only the state, it is the state. Without a state, it is `"Konum belirlenemedi"`, whatever the city. |
| `MainGeocode.CityFallback` | main.py:140 | City is `city`, else `town`, else `village`. It is empty only when all three are. |
| `MainGeocode.FailuresCollapse` | main.py:133-152 | Anything but a readable 200 reply gives `"Adres bilgisi alınamadı"`. |
| `ServiceLoop.LocationNotificationId` | service.py:224 | Location notifications use `notification_id + 1`, which differs from the foreground id. |
| `ServiceLoop.CycleFacts` | service.py:98-119 | One pass with a location makes one geocoding request. It then shows one notification with the geocoded text and id `notification_id + 1`, exactly when the platform call succeeds. A pass without a location only waits. A pass has no other effects: its length is 2 with a location, or 1 without, plus the notification shown. Every pass ends in exactly one wait. It is 30 s when the report log raises, or when a pass with a location fails to post on the desktop; otherwise it is 120 s. A failed post on Android is swallowed and the pass waits 120 s. |
| `ServiceLoop.TraceEndsAtStop` | service.py:98 | Passes after the one during which a stop is requested have no effect. |
| `ServiceLoop.OneWaitPerPass` | service.py:98-119 | A loop run of n passes waits exactly n times. |
| `ServiceLoop.NotificationsFollowGeocoding` | service.py:101-108 | In the loop's effects, every notification comes right after a geocoding request and carries the location id. |
| `ServiceLoop.LocationBackgroundService.constructor` | service.py:30-36 | The service starts stopped, with `notification_id` 1 and channel `location_channel`. On Android the channel is registered. |
| `ServiceLoop.LocationBackgroundService.StartService` | service.py:59-69 | Raises the flag. On Android it then goes foreground under `notification_id`, unless the OS call fails. It then runs the loop in the caller's thread. The flag stays up unless a stop came. |
| `ServiceLoop.LocationBackgroundService.StartForegroundService` | service.py:71-94 | The service goes foreground under `notification_id` exactly when it runs on Android and the OS call succeeds. A failure is swallowed. Nothing else changes. |
| `ServiceLoop.LocationBackgroundService.RunServiceLoop` | service.py:96-119 | While the flag is up, runs one pass per supplied environment. Its effects are those of the passes up to the first stop. The flag comes down exactly when a stop was requested. |
| `ServiceLoop.LocationBackgroundService.RunCycle` | service.py:99-119 | One pass of the `try`/`except` body has exactly the effects `CycleFacts` describes. The flag is unchanged. |
| `ServiceLoop.LocationBackgroundService.SendLocationNotification` | service.py:203-233 | Shows the text under `notification_id + 1` exactly when the platform call succeeds. A failure escapes to the caller only on the desktop. Nothing else changes. |
| `ServiceLoop.LocationBackgroundService.StopService` | service.py:235-238 | Lowers the flag. Nothing else changes. |
| `MainApp.CycleFacts` | main.py:74-87 | One pass with a location makes one geocoding request. It then shows one notification with the geocoded text and id 1, exactly when the platform call succeeds. A pass without a location only waits, 120 s. A pass has no other effects: its length is 2 with a location, or 1 without, plus the notification shown. Every pass ends in exactly one wait. A pass with a location waits 30 s when the update log raises or a desktop post fails, and 120 s otherwise. A failed post on Android is swallowed. |
| `MainApp.TraceEndsAtStop` | main.py:74 | Passes after the one during which a stop is requested have no effect. |
| `MainApp.AtMostOneNotificationPerPass` | main.py:74-87 | The loop shows at most one notification per pass. It shows exactly one per pass when every pass has a location and its platform call succeeds. |
| `MainApp.LocationService.constructor` | main.py:42-45 | The tracker starts stopped, with no thread. |
| `MainApp.LocationService.StartLocationTracking` | main.py:47-63 | Raises the flag and starts one more thread, whether or not one is already running. |
| `MainApp.LocationService.StopLocationTracking` | main.py:65-70 | Lowers the flag. Nothing else changes. |
| `MainApp.LocationService.LocationLoop` | main.py:72-87 | While the flag is up, runs one pass per supplied environment. Its effects are those of the passes up to the first stop. The flag comes down exactly when a stop was requested. |
| `MainApp.LocationService.RunCycle` | main.py:75-87 | One pass of the `try`/`except` body has exactly the effects `MainApp.CycleFacts` describes. |
| `MainApp.LocationService.SendNotification` | main.py:154-178 | Shows the text under id 1 exactly when the platform call succeeds. A failure escapes to the caller only on the desktop. Nothing else changes. |
| `MainApp.LabelsShowState` | main.py:236-252 | The button text and the status text each tell tracking apart from not tracking. |
| `MainApp.LocationTrackerApp.constructor` | main.py:184-216 | The app starts not tracking. The button reads `Takibi Başlat` and the status reads `Konum takibi kapalı`. The tracker is stopped. |
| `MainApp.LocationTrackerApp.ToggleTracking` | main.py:229-234 | Flips `is_tracking`. The labels and the tracker's flag follow it. A thread is started only when going from off to on. |
| `MainApp.LocationTrackerApp.StartTracking` | main.py:236-245 | Tracking is on. The button reads `Takibi Durdur` and the status reads `Konum takibi aktif - Arka planda çalışıyor`. One thread is started. |
| `MainApp.LocationTrackerApp.StopTracking` | main.py:247-252 | Tracking is off. The button reads `Takibi Başlat`, the status reads `Konum takibi kapalı`, and the tracker is stopped. |
| `MainApp.ToggleTwice` | main.py:229-252 | Two presses of the button restore the flag, both labels and the tracker's running state. |
| `Copies.IstanbulExample` | main.py:139-143 | State İstanbul with city Kadıköy gives `"Kadıköy, İstanbul"` in main.py and `"Kadıköy / İstanbul"` in service.py. |
| `Copies.EmptyAddressExample` | main.py:146-147 | An empty `address` gives `"Konum belirlenemedi"` in both copies. |
| `Copies.CityWithoutState` | main.py:142-147 | A city with no state and no district: service.py shows the city, and main.py shows `"Konum belirlenemedi"`. |
| `Copies.CountyCountsOnlyInService` | service.py:177 | A county counts as the city in service.py but not in main.py. |
| `Copies.VillageCountsOnlyInApp` | main.py:140 | A village counts as the city in main.py but not in service.py. |
| `Copies.FailureTexts` | service.py:192-201 | A non-200 status gives the same text in both copies. A timeout, other failures and an unreadable body have their own texts in service.py, which differ from main.py's single text. |
| `Copies.NotificationIds` | main.py:171 | main.py posts location notifications under id 1, the id service.py uses for its foreground notification. service.py posts its own location notifications under id 2. |

## Left out

- The HTTP request itself is not modelled: the URL, the parameters, the `User-Agent` header and the 15 s and 10 s timeouts. Its outcome is an input.
- Android calls through jnius are outside the model, since they are foreign code. These are the notification channel, the notification builders (title, the `"Şu anki konumunuz: "` prefix, priority, vibration, the time subtext), `startForeground`, the permission request in `start_location_tracking`, and `PythonService.start` in `start_background_service`. The model records only which notifications are shown, with their id and location text, that the channel was created, and that the service went foreground. Whether an OS call fails is an input.
- On the desktop, a notification is a console line instead. The model records it as the same notification effect.
- Threads are not modelled: `threading.Thread`, the daemon flag and `join` in main.py. The tracking loop is a method run directly over the supplied passes. So the model does not capture that `stop_location_tracking` blocks until the current pass and its wait end. It counts the threads a second start creates, but does not model two loops running at once.
- Both loops are unbounded in the source. The model runs them over a finite sequence of passes. A loop whose passes run out without a stop ends with its flag still up.
- Sleeping, clocks and timestamps are not modelled. A wait is a `Slept(seconds)` effect.
- Coordinates are real pairs, and nothing computes with them.
- Logging is not modelled. It appears only as a place where an exception can escape a pass (`logRaises`).
- Only two exceptions are modelled as escaping a pass: from the desktop console write in the notifier, and from the log line that reports the pass. The sampling and geocoding helpers catch everything themselves. A logging call inside one of the handlers that itself raises is not modelled.
- Kivy widget construction in `build` is left out, apart from the two label texts, which the app's constructor sets. Also left out: `on_pause` (always `True`), `on_resume` (does nothing), and the service's module-level `main()`, which constructs the service and starts it.
- The channel registration in `setup_notification_channel` can fail and be swallowed. The constructor records the channel as created on Android in every case.
- Packaging and install scripts and the import-only test scripts are not part of this model.

## Findings

| source | as written | input that shows it | evidently intended | confidence | as-written member | corrected member |
|---|---|---|---|---|---|---|
| service.py:214 | `setSmallIcon(android.R.drawable.ic_dialog_info)` uses the name `android`, which the module never binds; it imports only `mActivity` from that package. The NameError is caught at service.py:228-229, so no location notification is ever shown on Android. | Android, a fix, and an OS `notify` call that would succeed | the notification is shown under `notification_id + 1` | high, not executed | `Common.PostAsWritten` | `Common.Post` |
| service.py:81 | The same unbound name in the foreground notification's builder. It is caught at service.py:93-94, so `startForeground` is never called. | Android, an OS `startForeground` call that would succeed | the service goes foreground under `notification_id` | high, not executed | `Common.PostAsWritten` | `Common.Post` |
| main.py:166 | The same unbound name in `_send_notification`. main.py imports `mActivity`, `BroadcastReceiver` and the permission helpers from that package, which binds none of them as `android`. It is caught at main.py:173-174, so no notification is ever shown on Android. | Android, a fix, and an OS `notify` call that would succeed | the notification is shown under id 1 | high, not executed | `Common.PostAsWritten` | `Common.Post` |
