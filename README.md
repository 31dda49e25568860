# Floorplan kiosk, room-presence sensor and floorplan speaker, in Dafny

This project models the three small pieces of logic of the ha-floorplan-kiosk
repository and proves properties about them.

- **The Fully Kiosk bridge** (`www/custom_ui/floorplan/lib/fully-kiosk.js`),
  module `FullyKiosk`. At start-up, `init` finds the configured device whose
  lower-cased address equals the tablet's lower-cased MAC. It then picks that
  device's first `binary_sensor.` and first `media_player.` entity and reports
  the motion sensor's state to Home Assistant. The report is kept up by a
  timer that re-arms itself: 5000 ms after an 'on' post and 10000 ms after an
  'off' post, whether or not the POST succeeded. The bridge also filters the
  hub's `call_service` events down to `tts.google_say` and
  `media_player.play_media` calls aimed at its media player. The timer state
  lives in class `FullyKiosk.FullyKiosk`, and the POST outcome is a method
  parameter. Device lookup, entity selection and the command filter are pure
  functions. JavaScript's own rules are modelled in module `JsRuntime`:
  truthiness, `===` against a value that may be undefined, `v[0]`,
  `Array.prototype.find`, `toLowerCase` and `startsWith`. Because of those
  rules, the string `'off'` that `init` passes is truthy, so the first post is
  'on'. Also, a device without a media player matches an event whose target is
  undefined.
- **The HTTP room-presence sensor** (`custom_components/sensor/http_room.py`),
  class `HttpRoom.HttpRoomSensor`. A reading is accepted in these cases:
  - the sensor has no reading yet, or its stored distance is None (which
    also happens after an accepted reading that had no distance);
  - the reading is from the current room;
  - the reading is strictly closer;
  - the `seconds` component of the time since the last accepted reading has
    reached the timeout.

  An away timeout turns the state back to `not_home`. Time is an explicit
  `now`, in whole seconds. `timedelta.seconds` is the seconds-within-a-day
  component (module `PyRuntime`), so the age test wraps every 86400 seconds,
  and a timeout of a day or more never fires. `update` compares the full
  difference. `_parse_update_data` is the pure function
  `HttpRoom.ParseUpdateData`, built on a model of `str.split` proved to
  round-trip with `join`. Home Assistant's `slugify` is a function-valued
  parameter. For `_parse_update_data` it receives the possibly absent `id`
  and may fail, so whether an absent id raises is up to the parameter.
- **The floorplan speaker** (`custom_components/media_player/floorplan_speaker.py`),
  class `FloorplanSpeaker.FloorplanSpeakerDevice`. It starts idle with the
  configured volume and stores any volume it is given. `play_media` changes
  nothing. `ValidateConfig` models the platform schema: the volume defaults to
  1.0 and must lie in [0, 1].

Behaviour of the source worth noting:
- Every motion event posts 'on' again. Repeats are not suppressed.
- When the timer fires, only the motion state is posted; nothing else about
  the tablet is reported.
- Only the two commands above are handled.
- For `play_media`, only `entity_id[0]` is compared. It is not a membership
  test.
- A second successful `init` subscribes again and adds a second set of
  window listeners. From then on, each motion event posts 'on' twice and
  each command runs twice.

## Model

| member | source | states |
|---|---|---|
| JsRuntime.Find | www/custom_ui/floorplan/lib/fully-kiosk.js:17-25 | `find` gives undefined exactly when no element satisfies the predicate; otherwise it gives an element that satisfies it and comes before every other satisfying element |
| JsRuntime.ToLowerCase | www/custom_ui/floorplan/lib/fully-kiosk.js:15-17 | lower-casing keeps the length, maps each character separately and leaves no upper-case ASCII letter |
| JsRuntime.StartsWith | www/custom_ui/floorplan/lib/fully-kiosk.js:24-25 | `startsWith` holds exactly when the prefix is no longer than the string and agrees with it character by character |
| JsRuntime.Truthy | www/custom_ui/floorplan/lib/fully-kiosk.js:114-118 | a value is truthy exactly when it is not undefined, null, false or the empty string; so `'off'` is truthy |
| JsRuntime.StrictEquals | www/custom_ui/floorplan/lib/fully-kiosk.js:155-161 | an absent entity id is strictly equal exactly to undefined; a present one exactly to the string with the same characters |
| JsRuntime.ElementZero | www/custom_ui/floorplan/lib/fully-kiosk.js:161 | `v[0]` throws exactly on undefined and null. On a string it gives the first character as a string, on an array the first element, and undefined when either is empty. On a boolean it gives undefined |
| FullyKiosk.FindDevice | www/custom_ui/floorplan/lib/fully-kiosk.js:15-19 | there is no device exactly when no lower-cased address equals the MAC; otherwise the device found matches and is the first match in config order |
| FullyKiosk.SelectEntity | www/custom_ui/floorplan/lib/fully-kiosk.js:24-25 | the selected entity starts with the prefix and is the first one that does; it is absent exactly when none does |
| FullyKiosk.InfoFor | www/custom_ui/floorplan/lib/fully-kiosk.js:23-25 | the motion sensor id is the first of the device's entities that starts with `binary_sensor.`, and the media player id the first that starts with `media_player.`; each is absent exactly when no entity has that prefix |
| FullyKiosk.HandleCallService | www/custom_ui/floorplan/lib/fully-kiosk.js:152-168 | without kioskInfo, or for any other service, nothing happens. Speak(message) happens exactly for google_say whose entity_id `===` the media player id. PlayMedia(media_content_id) happens exactly for play_media whose `entity_id[0]` `===` it. The callback throws exactly when service_data, or for play_media entity_id, is undefined or null |
| FullyKiosk.ActsOnlyForOwnMediaPlayer | www/custom_ui/floorplan/lib/fully-kiosk.js:154-165 | a device that has a media player speaks only when entity_id is that id, and plays only when entity_id is a list whose first element is that id |
| FullyKiosk.PlayMediaWithStringTargetIgnored | www/custom_ui/floorplan/lib/fully-kiosk.js:160-161 | a play_media call whose entity_id is a single string is never played, since `entity_id[0]` is then one character |
| FullyKiosk.NoMediaPlayerSpeaksUntargetedSay | www/custom_ui/floorplan/lib/fully-kiosk.js:154-157 | a device with no media player speaks a google_say that has no entity_id, because undefined `===` undefined |
| FullyKiosk.StateFor | www/custom_ui/floorplan/lib/fully-kiosk.js:117 | the posted state is 'on' exactly when the argument is truthy, and 'off' otherwise |
| FullyKiosk.DelayAfter | www/custom_ui/floorplan/lib/fully-kiosk.js:118 | the delay is 5000 ms after 'on' and 10000 ms after anything else |
| FullyKiosk.FullyKiosk.constructor | www/custom_ui/floorplan/lib/fully-kiosk.js:5-7 | a new bridge has no kioskInfo, no subscription, no motion listener, no timer and no posts |
| FullyKiosk.FullyKiosk.SendKioskState | www/custom_ui/floorplan/lib/fully-kiosk.js:111-141 | the pending timer is always cleared. With no motion sensor nothing else changes. Otherwise it sets the motion state from the argument's truthiness, appends exactly one post of that state for that entity, and leaves exactly one timer: 5000 ms after 'on', 10000 ms after 'off'. The timer is the same when the POST fails; only the error count differs |
| FullyKiosk.FullyKiosk.Init | www/custom_ui/floorplan/lib/fully-kiosk.js:9-43 | without the kiosk API, or with no matching device, nothing changes. Otherwise it adds one subscription and one motion listener to those already there, and stores the entity mapping of the first matching device. With a motion sensor it then posts 'on' once and arms the 5000 ms timer, because `'off'` is truthy |
| FullyKiosk.FullyKiosk.OnMotion | www/custom_ui/floorplan/lib/fully-kiosk.js:107-109 | a motion event posts 'on' once for each registered listener, with no suppression of repeats, and leaves the 5000 ms timer pending. With no listener nothing changes; with no motion sensor no post is made and no timer stays armed |
| FullyKiosk.FullyKiosk.OnCallService | www/custom_ui/floorplan/lib/fully-kiosk.js:152-167 | a call_service event yields one command per subscription, each the filter's verdict on the current mapping |
| FullyKiosk.FullyKiosk.TimerFires | www/custom_ui/floorplan/lib/fully-kiosk.js:132-136 | the expiring timer posts 'off' and re-arms the 10000 ms timer, whatever the POST's outcome, so the chain never stops |
| FullyKiosk.ExampleDeviceResolves | www/custom_ui/floorplan/lib/fully-kiosk.js:15-25 | MAC "aa:bb" resolves to the device configured as "AA:BB", with motion sensor binary_sensor.m1 and no media player |
| FullyKiosk.KioskScenario | www/custom_ui/floorplan/lib/fully-kiosk.js:9-141 | for the example device, init posts 'on', the timer posts 'off' with a failed POST, and a motion event posts 'on' again; exactly one error is reported |
| FullyKiosk.SecondInit | www/custom_ui/floorplan/lib/fully-kiosk.js:9-57 | a second successful init leaves two subscriptions and two motion listeners; it posts 'on' once itself, and one motion event then posts 'on' twice |
| FullyKiosk.UntargetedSaySpokenPerSubscription | www/custom_ui/floorplan/lib/fully-kiosk.js:152-158 | a kiosk whose device has no media player speaks an untargeted google_say once per subscription |
| PyRuntime.Split | custom_components/sensor/http_room.py:189 | `split` gives at least one piece, and no piece contains the separator |
| PyRuntime.JoinSplit | custom_components/sensor/http_room.py:189 | joining the pieces of a split gives back the topic |
| PyRuntime.SplitJoin | custom_components/sensor/http_room.py:189 | splitting a join of separator-free pieces gives back the pieces |
| PyRuntime.LastPieceIsSuffix | custom_components/sensor/http_room.py:189-190 | `parts[-1]` is a separator-free suffix of the topic; it is either the whole topic or preceded by '/' |
| PyRuntime.Upper | custom_components/sensor/http_room.py:80 | upper-casing keeps the length, maps each character separately and leaves no lower-case ASCII letter |
| PyRuntime.TimedeltaSeconds | custom_components/sensor/http_room.py:116-119 | `timediff.seconds` lies in 0..86399 and differs from the elapsed seconds by a whole number of days |
| PyRuntime.TimedeltaSecondsWithinDay | custom_components/sensor/http_room.py:119 | under one day, the seconds component is the whole elapsed time |
| PyRuntime.TimedeltaSecondsWraps | custom_components/sensor/http_room.py:119 | one day later, the seconds component repeats |
| HttpRoom.HttpRoomSensor.constructor | custom_components/sensor/http_room.py:76-91 | a new sensor is not_home; its id is `slugify(device_id).upper()`; every reading field is None; the away timeout is None when it is 0 |
| HttpRoom.HttpRoomSensor.Decide | custom_components/sensor/http_room.py:107-120 | a message for another device is discarded. A matching message is applied whenever the sensor has no reading yet or its stored distance is None. Otherwise a message is applied exactly when its room is the current state, or it is strictly closer, or the seconds-within-day since the last update reach the timeout. It raises exactly when the rooms differ and its distance is None |
| HttpRoom.HttpRoomSensor.UpdateState | custom_components/sensor/http_room.py:93-105 | the state becomes the room, the six reading fields are copied, and updated becomes now |
| HttpRoom.HttpRoomSensor.MessageReceived | custom_components/sensor/http_room.py:107-120 | an applied message is recorded as by update_state; otherwise no field changes; the TypeError case is reported |
| HttpRoom.HttpRoomSensor.Update | custom_components/sensor/http_room.py:179-184 | the state becomes not_home only when the sensor has been updated, has an away timeout, and now - updated is strictly greater than it; otherwise the state is unchanged |
| HttpRoom.HttpRoomSensor.State | custom_components/sensor/http_room.py:174-177 | the `state` property is the stored state |
| HttpRoom.HttpRoomSensor.DeviceStateAttributes | custom_components/sensor/http_room.py:162-172 | the attributes have exactly the six keys distance, uuid, major, minor, latitude and longitude, holding the stored fields |
| HttpRoom.FartherReadingHeldBack | custom_components/sensor/http_room.py:116-120 | a reading from another room that is no closer is discarded while less than the timeout has passed |
| HttpRoom.DayOldReadingHeldBack | custom_components/sensor/http_room.py:116-119 | such a reading arriving a day plus less than the timeout later is still discarded, although more than the timeout has passed |
| HttpRoom.LongTimeoutNeverElapses | custom_components/sensor/http_room.py:119 | with a timeout of a day or more, such a reading is never accepted |
| HttpRoom.ParseUpdateData | custom_components/sensor/http_room.py:187-198 | the room is the last '/'-separated piece of the topic; the device id is `slugify(id).upper()`; the distance is passed through; the result has no other keys. It fails exactly when slugify of the possibly absent id fails |
| FloorplanSpeaker.ValidateConfig | custom_components/media_player/floorplan_speaker.py:23-35 | the configuration is accepted exactly when the volume is absent or in [0, 1]. The volume defaults to 1.0 and the name to "Floorplan Speaker" |
| FloorplanSpeaker.FloorplanSpeakerDevice.constructor | custom_components/media_player/floorplan_speaker.py:48-53 | a new device is idle and holds the given name, address and volume |
| FloorplanSpeaker.FloorplanSpeakerDevice.Name | custom_components/media_player/floorplan_speaker.py:55-57 | `name` is the stored name |
| FloorplanSpeaker.FloorplanSpeakerDevice.State | custom_components/media_player/floorplan_speaker.py:59-61 | `state` is the stored player state |
| FloorplanSpeaker.FloorplanSpeakerDevice.Address | custom_components/media_player/floorplan_speaker.py:63-65 | `address` is the stored address |
| FloorplanSpeaker.FloorplanSpeakerDevice.VolumeLevel | custom_components/media_player/floorplan_speaker.py:67-69 | `volume_level` is the stored volume |
| FloorplanSpeaker.FloorplanSpeakerDevice.SetVolumeLevel | custom_components/media_player/floorplan_speaker.py:71-72 | the volume becomes exactly the given value, with no clamping; the state is unchanged |
| FloorplanSpeaker.FloorplanSpeakerDevice.PlayMedia | custom_components/media_player/floorplan_speaker.py:74-75 | state and volume are unchanged; name and address are constants |
| FloorplanSpeaker.SetupPlatform | custom_components/media_player/floorplan_speaker.py:39-45 | no device is created when the schema rejects the configuration; otherwise the new device is idle, with the validated values and a volume in [0, 1] |

## Left out

- The jQuery AJAX transport, the auth token from localStorage and the HTTP
  headers (fully-kiosk.js:120-128). A POST is one synchronous step whose
  success is a parameter. The payload's `mac_address` comes from the device
  property `fully.macAddress` and is not recorded in `Post`.
- Real `setTimeout`/`clearTimeout` timing, and overlapping POSTs in flight
  whose callbacks could each arm a timer. Each send completes before the next
  event, and a timer is represented only by its delay.
- FullyKiosk.FullyKiosk.OnMotion: with several motion listeners, the source
  issues all of one event's POSTs before any callback runs. Each success or
  error callback then arms its own timer, and only the last one stays
  cancellable. The model runs the sends one after another and keeps a single
  timer.
- The `fully.*` getters read at start-up (fully-kiosk.js:26-36), the
  `onFullyEvent` dispatcher and the `fully.bind` calls (fully-kiosk.js:46,
  59-68), the listeners other than `fully.onMotion` (fully-kiosk.js:48-56) and
  the handlers that
  only log (fully-kiosk.js:71-105). `fully.textToSpeech` and `Audio` playback
  (fully-kiosk.js:143-150) appear only as the returned `Speak`/`PlayMedia`
  command. Debug and error logging are out; only the number of error
  callbacks is kept.
- The check `typeof fully === "undefined"` is the `fullyPresent` parameter of
  `Init`, and the MAC reported by the tablet is its `mac` parameter.
- `SendKioskState` and `TimerFires` require that kioskInfo exists. In the
  source they run only after `init` has set it; otherwise the property read
  would throw.
- JsRuntime.ToLowerCase and PyRuntime.Upper map only ASCII letters. The
  values involved (MAC addresses, slugs) are ASCII, and full Unicode case
  mapping is not modelled.
- Strict equality between two arrays compares object identity in JavaScript.
  The model never compares two arrays: the left side of every comparison is
  a string or undefined.
- The Home Assistant framework is out: `HomeAssistantView`, the JSON and
  HTTP handling of `post` with its `HTTPInternalServerError`,
  `async_schedule_update_ha_state`, logging, `async_setup_platform` and
  `register_view`. The voluptuous schema mechanics are out too, except the
  speaker's volume range and defaults. The `hass` handle the speaker keeps is
  out.
- `slugify` is a function parameter; its behaviour is not modelled. The
  constructor's parameter takes a string, because the platform schema makes
  `device_id` a string. `ParseUpdateData`'s parameter takes the possibly
  absent `id` and may fail.
- HttpRoom.HttpRoomSensor.Decide: time is whole seconds. Sub-second parts of
  the timestamps, which Python keeps in the timedelta's microseconds, are not
  modelled.
- HttpRoom.HttpRoomSensor.MessageReceived: the message's values are typed
  (string, float, int or None). A JSON value of another type, and Python's
  mixed-type comparisons, are not modelled.
- The sensor's `name` property returns its constant `name` field, and the
  speaker's `SUPPORT_FLOORPLAN_SPEAKER` flag constant is not used by the
  class. Neither has a member of its own.
- `JsValue` has no number or object case. The script only compares entity
  ids and reads `entity_id[0]`, and the hub's values are modelled as
  strings, lists, booleans, undefined and null.
- FloorplanSpeaker.ValidateConfig: an explicit null `volume` or `name` is
  not distinguished from an absent one and gets the default. Voluptuous
  rejects it, since `Coerce(float)` and `cv.string` raise on None.
