/**
 * The floorplan's Fully Kiosk bridge: it resolves which configured device the
 * tablet is, picks that device's motion sensor and media player entities,
 * keeps the motion sensor's state posted to Home Assistant through a
 * self-rescheduling timer, and filters the hub's call_service events down to
 * the text-to-speech and media commands aimed at this tablet.
 */
module FullyKiosk {
  import opened Wrappers
  import opened JsRuntime

  // ---------------------------------------------------------------------------
  // Configuration and device lookup
  // ---------------------------------------------------------------------------

  /** One entry of the floorplan's `devices` list: a MAC address and the entity ids bound to it. */
  datatype DeviceConfig = DeviceConfig(address: string, entities: seq<string>)

  /** What `init` keeps about the matched device; the entity ids are undefined when none has the prefix. */
  datatype KioskInfo = KioskInfo(binarySensorEntityId: Option<string>, mediaPlayerEntityId: Option<string>)

  const BINARY_SENSOR_PREFIX := "binary_sensor."
  const MEDIA_PLAYER_PREFIX := "media_player."

  /** A device matches when its lower-cased address equals the (already lower-cased) MAC. */
  predicate AddressMatches(d: DeviceConfig, macAddress: string) {
    ToLowerCase(d.address) == macAddress
  }

  /** The first configured device whose lower-cased address equals `macAddress`. */
  function FindDevice(devices: seq<DeviceConfig>, macAddress: string): (r: Option<DeviceConfig>)
    ensures r.None? <==> forall i :: 0 <= i < |devices| ==> !AddressMatches(devices[i], macAddress)
    ensures r.Some? ==> AddressMatches(r.value, macAddress)
    ensures r.Some? ==> exists i :: (0 <= i < |devices| && devices[i] == r.value &&
      forall j :: 0 <= j < i ==> !AddressMatches(devices[j], macAddress))
  {
    var p := (d: DeviceConfig) => AddressMatches(d, macAddress);
    var r := Find(devices, p);
    assert r.Some? ==> exists i :: (0 <= i < |devices| && devices[i] == r.value &&
      forall j :: 0 <= j < i ==> !AddressMatches(devices[j], macAddress)) by {
      if r.Some? {
        var i :| FirstSatisfying(devices, p, i) && devices[i] == r.value;
        assert forall j :: 0 <= j < i ==> !p(devices[j]);
      }
    }
    r
  }

  /** The first entity of the device whose id starts with the prefix. */
  function SelectEntity(entities: seq<string>, prefix: string): (r: Option<string>)
    ensures r.None? <==> forall i :: 0 <= i < |entities| ==> !StartsWith(entities[i], prefix)
    ensures r.Some? ==> StartsWith(r.value, prefix)
    ensures r.Some? ==> exists i :: (0 <= i < |entities| && entities[i] == r.value &&
      forall j :: 0 <= j < i ==> !StartsWith(entities[j], prefix))
  {
    var p := (e: string) => StartsWith(e, prefix);
    var r := Find(entities, p);
    assert r.Some? ==> exists i :: (0 <= i < |entities| && entities[i] == r.value &&
      forall j :: 0 <= j < i ==> !StartsWith(entities[j], prefix)) by {
      if r.Some? {
        var i :| FirstSatisfying(entities, p, i) && entities[i] == r.value;
        assert forall j :: 0 <= j < i ==> !p(entities[j]);
      }
    }
    r
  }

  /**
   * The entity mapping `init` builds for a matched device: each id is the
   * device's first entity with the prefix, as SelectEntity states.
   */
  function InfoFor(d: DeviceConfig): (info: KioskInfo)
    ensures info.binarySensorEntityId.Some? ==> StartsWith(info.binarySensorEntityId.value, BINARY_SENSOR_PREFIX)
    ensures info.mediaPlayerEntityId.Some? ==> StartsWith(info.mediaPlayerEntityId.value, MEDIA_PLAYER_PREFIX)
    ensures info.binarySensorEntityId.None? <==> forall i :: 0 <= i < |d.entities| ==> !StartsWith(d.entities[i], BINARY_SENSOR_PREFIX)
    ensures info.mediaPlayerEntityId.None? <==> forall i :: 0 <= i < |d.entities| ==> !StartsWith(d.entities[i], MEDIA_PLAYER_PREFIX)
    ensures info.binarySensorEntityId == SelectEntity(d.entities, BINARY_SENSOR_PREFIX)
    ensures info.mediaPlayerEntityId == SelectEntity(d.entities, MEDIA_PLAYER_PREFIX)
  {
    KioskInfo(SelectEntity(d.entities, BINARY_SENSOR_PREFIX), SelectEntity(d.entities, MEDIA_PLAYER_PREFIX))
  }

  // ---------------------------------------------------------------------------
  // Command filter
  // ---------------------------------------------------------------------------

  /** The `service_data` object of a call_service event; a field the hub omitted is Undefined. */
  datatype ServiceData = ServiceData(entityId: JsValue, message: JsValue, mediaContentId: JsValue)

  /** `event.data` of a call_service event; `serviceData` is None when it is undefined or null. */
  datatype CallServiceEvent = CallServiceEvent(domain: JsValue, service: JsValue, serviceData: Option<ServiceData>)

  /** What the subscription callback does with one event. */
  datatype Command =
    | Ignore                  // nothing happens
    | Speak(text: JsValue)    // fully.textToSpeech(text)
    | PlayMedia(url: JsValue) // new Audio(url).play()
    | TypeError               // the callback throws before doing anything

  predicate IsGoogleSay(ev: CallServiceEvent) {
    ev.domain == Str("tts") && ev.service == Str("google_say")
  }

  predicate IsPlayMedia(ev: CallServiceEvent) {
    ev.domain == Str("media_player") && ev.service == Str("play_media")
  }

  /**
   * The call_service callback. `info` is the kiosk's mapping at the time the
   * event arrives (None before `init` has built it). For google_say the whole
   * `entity_id` is compared with the media player id; for play_media only
   * `entity_id[0]`. Both comparisons are strict equality on values that may be
   * undefined, so a device without a media player entity matches an event
   * whose target is undefined.
   */
  function HandleCallService(info: Option<KioskInfo>, ev: CallServiceEvent): (c: Command)
    ensures info.None? ==> c == Ignore
    ensures !IsGoogleSay(ev) && !IsPlayMedia(ev) ==> c == Ignore
    ensures c.Speak? <==>
      IsGoogleSay(ev) && info.Some? && ev.serviceData.Some? &&
      StrictEquals(info.value.mediaPlayerEntityId, ev.serviceData.value.entityId)
    ensures c.Speak? ==> c.text == ev.serviceData.value.message
    ensures c.PlayMedia? <==>
      IsPlayMedia(ev) && info.Some? && ev.serviceData.Some? &&
      ElementZero(ev.serviceData.value.entityId).Some? &&
      StrictEquals(info.value.mediaPlayerEntityId, ElementZero(ev.serviceData.value.entityId).value)
    ensures c.PlayMedia? ==> c.url == ev.serviceData.value.mediaContentId
    ensures c.TypeError? <==>
      info.Some? && (IsGoogleSay(ev) || IsPlayMedia(ev)) &&
      (ev.serviceData.None? || (IsPlayMedia(ev) && ElementZero(ev.serviceData.value.entityId).None?))
  {
    if IsGoogleSay(ev) then
      if info.None? then Ignore
      else if ev.serviceData.None? then TypeError
      else if StrictEquals(info.value.mediaPlayerEntityId, ev.serviceData.value.entityId) then
        Speak(ev.serviceData.value.message)
      else Ignore
    else if IsPlayMedia(ev) then
      if info.None? then Ignore
      else if ev.serviceData.None? then TypeError
      else
        match ElementZero(ev.serviceData.value.entityId)
        case None => TypeError
        case Some(target) =>
          if StrictEquals(info.value.mediaPlayerEntityId, target) then
            PlayMedia(ev.serviceData.value.mediaContentId)
          else Ignore
    else Ignore
  }

  /**
   * A device that has a media player entity acts only on commands aimed at
   * that entity: the spoken event's entity_id, or the played event's
   * entity_id[0], is exactly the device's media player id.
   */
  lemma ActsOnlyForOwnMediaPlayer(info: KioskInfo, ev: CallServiceEvent, id: string)
    requires info.mediaPlayerEntityId == Some(id) && StartsWith(id, MEDIA_PLAYER_PREFIX)
    ensures HandleCallService(Some(info), ev).Speak? ==> ev.serviceData.value.entityId == Str(id)
    ensures HandleCallService(Some(info), ev).PlayMedia? ==>
      ev.serviceData.value.entityId.Arr? && |ev.serviceData.value.entityId.items| > 0 &&
      ev.serviceData.value.entityId.items[0] == Str(id)
  {
  }

  /**
   * A play_media event that names its target as a single string rather than a
   * list is never played by a device with a media player entity: entity_id[0]
   * is then the string's first character, which cannot equal a full
   * `media_player.` entity id.
   */
  lemma PlayMediaWithStringTargetIgnored(info: KioskInfo, ev: CallServiceEvent)
    requires info.mediaPlayerEntityId.Some? && StartsWith(info.mediaPlayerEntityId.value, MEDIA_PLAYER_PREFIX)
    requires IsPlayMedia(ev) && ev.serviceData.Some? && ev.serviceData.value.entityId.Str?
    ensures HandleCallService(Some(info), ev) == Ignore
  {
  }

  /**
   * A device with no media player entity speaks every google_say whose
   * entity_id is absent, because undefined === undefined.
   */
  lemma NoMediaPlayerSpeaksUntargetedSay(info: KioskInfo, text: JsValue, url: JsValue)
    requires info.mediaPlayerEntityId.None?
    ensures HandleCallService(Some(info),
      CallServiceEvent(Str("tts"), Str("google_say"), Some(ServiceData(Undefined, text, url)))) == Speak(text)
  {
  }

  // ---------------------------------------------------------------------------
  // Status synchronisation
  // ---------------------------------------------------------------------------

  /** Delay, in milliseconds, before the next status send after an 'on' send. */
  const ON_DELAY_MS := 5000
  /** Delay, in milliseconds, before the next status send after an 'off' send. */
  const OFF_DELAY_MS := 10000

  /** One POST to /api/states/<entity> with payload state `state`. */
  datatype Post = Post(entityId: string, state: string)

  /** The motion state string sent for an argument of the given truthiness. */
  function StateFor(isOn: JsValue): (s: string)
    ensures s == "on" || s == "off"
    ensures s == "on" <==> Truthy(isOn)
  {
    if Truthy(isOn) then "on" else "off"
  }

  /** The timer delay armed after sending the given state. */
  function DelayAfter(state: string): (ms: int)
    ensures ms == ON_DELAY_MS <==> state == "on"
    ensures ms == OFF_DELAY_MS <==> state != "on"
  {
    if state == "on" then ON_DELAY_MS else OFF_DELAY_MS
  }

  /** `n` copies of `x`, in a row. */
  function Repeat<T>(x: T, n: nat): (r: seq<T>)
    ensures |r| == n
    ensures forall i :: 0 <= i < n ==> r[i] == x
  {
    if n == 0 then [] else Repeat(x, n - 1) + [x]
  }

  /**
   * The FullyKiosk object. Every successful `init` subscribes to call_service
   * once more and adds one more `fully.onMotion` window listener (each
   * `.bind(this)` is a new function, so none replaces another):
   * `subscriptions` and `motionListeners` count them. `pendingTimer` is the
   * delay of the one armed `setTimeout`, whose callback is always
   * `sendKioskState(false)`; `posts` is the log of POSTs issued;
   * `errorsReported` counts the error callbacks.
   */
  class FullyKiosk {
    const devices: seq<DeviceConfig>
    var subscriptions: nat
    var motionListeners: nat
    var info: Option<KioskInfo>
    var motionState: JsValue
    var pendingTimer: Option<int>
    var posts: seq<Post>
    var errorsReported: nat

    /**
     * A timer is only ever armed after a send to a configured motion sensor,
     * and its delay matches the state that send posted; once `init` has run the
     * motion state is one of the two strings.
     */
    ghost predicate Valid()
      reads this
    {
      && Mapped()
      && (pendingTimer.Some? ==>
            info.Some? && info.value.binarySensorEntityId.Some? &&
            motionState.Str? && pendingTimer.value == DelayAfter(motionState.s))
    }

    /** The part of Valid() that does not mention the timer. */
    ghost predicate Mapped()
      reads this
    {
      && (info.Some? ==> motionState == Str("on") || motionState == Str("off"))
      && (motionListeners > 0 ==> info.Some?)
    }

    /** `new FullyKiosk(floorplan)`: only the floorplan's device list is kept. */
    constructor (devices: seq<DeviceConfig>)
      ensures Valid()
      ensures this.devices == devices
      ensures subscriptions == 0 && motionListeners == 0 && info.None? && motionState == Undefined
      ensures pendingTimer.None? && posts == [] && errorsReported == 0
    {
      this.devices := devices;
      subscriptions := 0;
      motionListeners := 0;
      info := None;
      motionState := Undefined;
      pendingTimer := None;
      posts := [];
      errorsReported := 0;
    }

    /**
     * `sendKioskState(isOn)`: cancel the pending timer; without a motion sensor
     * entity stop there. Otherwise set the motion state from the truthiness of
     * `isOn`, POST it, and, whether the POST succeeds (`postOk`) or fails, arm
     * the timer that sends 'off': 5000 ms after 'on', 10000 ms after 'off'.
     */
    method SendKioskState(isOn: JsValue, postOk: bool)
      requires Mapped() && info.Some?
      modifies this
      ensures Valid()
      ensures info == old(info) && subscriptions == old(subscriptions) && motionListeners == old(motionListeners)
      ensures info.value.binarySensorEntityId.None? ==>
        motionState == old(motionState) && posts == old(posts) &&
        pendingTimer.None? && errorsReported == old(errorsReported)
      ensures info.value.binarySensorEntityId.Some? ==>
        && motionState == Str(StateFor(isOn))
        && posts == old(posts) + [Post(info.value.binarySensorEntityId.value, StateFor(isOn))]
        && pendingTimer == Some(if Truthy(isOn) then ON_DELAY_MS else OFF_DELAY_MS)
        && errorsReported == old(errorsReported) + (if postOk then 0 else 1)
    {
      pendingTimer := None;
      if info.value.binarySensorEntityId.None? {
        return;
      }
      var entityId := info.value.binarySensorEntityId.value;
      var state := if Truthy(isOn) then "on" else "off";
      motionState := Str(state);
      var timeout := if Truthy(isOn) then ON_DELAY_MS else OFF_DELAY_MS;
      posts := posts + [Post(entityId, state)];
      if postOk {
        pendingTimer := Some(timeout);
      } else {
        pendingTimer := Some(timeout);
        errorsReported := errorsReported + 1;
      }
    }

    /**
     * `init()`: without the Fully Kiosk API, or when no configured device has
     * the tablet's MAC, nothing happens. Otherwise subscribe to call_service
     * events, build the entity mapping with motion state 'off', add the
     * hardware listeners and send that motion state, which as a non-empty
     * string is truthy and so is posted as 'on'. A repeated successful `init`
     * adds a further subscription and a further set of listeners.
     */
    method Init(fullyPresent: bool, mac: string, postOk: bool)
      requires Valid()
      modifies this
      ensures Valid()
      ensures !fullyPresent || FindDevice(devices, ToLowerCase(mac)).None? ==>
        && subscriptions == old(subscriptions) && motionListeners == old(motionListeners)
        && info == old(info) && motionState == old(motionState) && pendingTimer == old(pendingTimer)
        && posts == old(posts) && errorsReported == old(errorsReported)
      ensures fullyPresent && FindDevice(devices, ToLowerCase(mac)).Some? ==>
        && subscriptions == old(subscriptions) + 1 && motionListeners == old(motionListeners) + 1
        && info == Some(InfoFor(FindDevice(devices, ToLowerCase(mac)).value))
      ensures fullyPresent && FindDevice(devices, ToLowerCase(mac)).Some? && info.value.binarySensorEntityId.Some? ==>
        && motionState == Str("on")
        && posts == old(posts) + [Post(info.value.binarySensorEntityId.value, "on")]
        && pendingTimer == Some(ON_DELAY_MS)
        && errorsReported == old(errorsReported) + (if postOk then 0 else 1)
      ensures fullyPresent && FindDevice(devices, ToLowerCase(mac)).Some? && info.value.binarySensorEntityId.None? ==>
        motionState == Str("off") && posts == old(posts) && pendingTimer.None? &&
        errorsReported == old(errorsReported)
    {
      if !fullyPresent {
        return;
      }
      var macAddress := ToLowerCase(mac);
      var device := FindDevice(devices, macAddress);
      if device.None? {
        return;
      }
      subscriptions := subscriptions + 1;
      info := Some(InfoFor(device.value));
      motionState := Str("off");
      motionListeners := motionListeners + 1;
      SendKioskState(motionState, postOk);
    }

    /**
     * One `fully.onMotion` event: each registered listener runs
     * `onFullyMotion()`, which sends 'on' again and re-arms the 5000 ms timer;
     * repeats are not suppressed. With no listener nothing happens.
     */
    method OnMotion(postOk: bool)
      requires Valid()
      modifies this
      ensures Valid()
      ensures info == old(info) && subscriptions == old(subscriptions) && motionListeners == old(motionListeners)
      ensures motionListeners == 0 ==> motionState == old(motionState) && pendingTimer == old(pendingTimer)
      ensures motionListeners == 0 || info.value.binarySensorEntityId.None? ==>
        posts == old(posts) && errorsReported == old(errorsReported)
      ensures motionListeners > 0 && info.value.binarySensorEntityId.None? ==>
        motionState == old(motionState) && pendingTimer.None?
      ensures motionListeners > 0 && info.value.binarySensorEntityId.Some? ==>
        && motionState == Str("on")
        && posts == old(posts) + Repeat(Post(info.value.binarySensorEntityId.value, "on"), motionListeners)
        && pendingTimer == Some(ON_DELAY_MS)
        && errorsReported == old(errorsReported) + (if postOk then 0 else motionListeners)
    {
      var n := 0;
      while n < motionListeners
        invariant 0 <= n <= motionListeners
        invariant Valid()
        invariant info == old(info) && subscriptions == old(subscriptions) && motionListeners == old(motionListeners)
        invariant n == 0 ==> motionState == old(motionState) && pendingTimer == old(pendingTimer)
        invariant motionListeners == 0 || info.value.binarySensorEntityId.None? ==>
          posts == old(posts) && errorsReported == old(errorsReported) && motionState == old(motionState)
        invariant n > 0 && info.value.binarySensorEntityId.None? ==> pendingTimer.None?
        invariant motionListeners > 0 && info.value.binarySensorEntityId.Some? ==>
          && posts == old(posts) + Repeat(Post(info.value.binarySensorEntityId.value, "on"), n)
          && errorsReported == old(errorsReported) + (if postOk then 0 else n)
          && (n > 0 ==> motionState == Str("on") && pendingTimer == Some(ON_DELAY_MS))
      {
        SendKioskState(Bool(true), postOk);
        n := n + 1;
      }
    }

    /**
     * One call_service event: the callback of every subscription runs, each
     * with the mapping the kiosk holds when the event arrives.
     */
    function OnCallService(ev: CallServiceEvent): (cmds: seq<Command>)
      reads this
      ensures |cmds| == subscriptions
      ensures forall i :: 0 <= i < |cmds| ==> cmds[i] == HandleCallService(info, ev)
    {
      Repeat(HandleCallService(info, ev), subscriptions)
    }

    /**
     * The armed timer expires and runs `sendKioskState(false)`: 'off' is
     * posted and the 10000 ms timer is armed again, so the chain of sends
     * never stops, whatever the POSTs' outcomes.
     */
    method TimerFires(postOk: bool)
      requires Valid() && pendingTimer.Some?
      modifies this
      ensures Valid()
      ensures info == old(info) && subscriptions == old(subscriptions) && motionListeners == old(motionListeners)
      ensures motionState == Str("off")
      ensures posts == old(posts) + [Post(info.value.binarySensorEntityId.value, "off")]
      ensures pendingTimer == Some(OFF_DELAY_MS)
      ensures errorsReported == old(errorsReported) + (if postOk then 0 else 1)
    {
      SendKioskState(Bool(false), postOk);
    }
  }

  /** The device of the end-to-end example below. */
  const EXAMPLE_SENSOR := "binary_sensor.m1"
  const EXAMPLE_MAC := "aa:bb"
  const EXAMPLE_DEVICE := DeviceConfig("AA:BB", [EXAMPLE_SENSOR])

  /** Both spellings of the example address lower-case to "aa:bb". */
  lemma ExampleAddressesLowered()
    ensures ToLowerCase("AA:BB") == "aa:bb" && ToLowerCase("aa:bb") == "aa:bb"
  {
    assert ToLowerCase("BB") == "bb";
    assert ToLowerCase("bb") == "bb";
  }

  /**
   * A tablet reporting "aa:bb" resolves to the device configured as "AA:BB",
   * whose motion sensor is binary_sensor.m1 and which has no media player.
   */
  lemma ExampleDeviceResolves()
    ensures FindDevice([EXAMPLE_DEVICE], ToLowerCase(EXAMPLE_MAC)) == Some(EXAMPLE_DEVICE)
    ensures InfoFor(EXAMPLE_DEVICE) == KioskInfo(Some(EXAMPLE_SENSOR), None)
  {
    ExampleAddressesLowered();
    assert AddressMatches(EXAMPLE_DEVICE, "aa:bb");
    assert FindDevice([EXAMPLE_DEVICE], "aa:bb") == Some(EXAMPLE_DEVICE);
    assert StartsWith("binary_sensor.m1", BINARY_SENSOR_PREFIX);
    assert SelectEntity(EXAMPLE_DEVICE.entities, BINARY_SENSOR_PREFIX) == Some("binary_sensor.m1");
    assert "binary_sensor.m1"[0] != MEDIA_PLAYER_PREFIX[0];
    assert !StartsWith("binary_sensor.m1", MEDIA_PLAYER_PREFIX);
    assert SelectEntity(EXAMPLE_DEVICE.entities, MEDIA_PLAYER_PREFIX) == None;
  }

  /**
   * A kiosk whose first Init, with a successful POST, has matched device `d`,
   * which has motion sensor `sensor` and no media player.
   */
  method StartKiosk(devices: seq<DeviceConfig>, mac: string, d: DeviceConfig, sensor: string) returns (k: FullyKiosk)
    requires FindDevice(devices, ToLowerCase(mac)) == Some(d) && InfoFor(d) == KioskInfo(Some(sensor), None)
    ensures fresh(k) && k.Valid() && k.devices == devices
    ensures k.info == Some(KioskInfo(Some(sensor), None))
    ensures k.subscriptions == 1 && k.motionListeners == 1
    ensures k.posts == [Post(sensor, "on")] && k.errorsReported == 0 && k.pendingTimer == Some(ON_DELAY_MS)
  {
    k := new FullyKiosk(devices);
    k.Init(true, mac, true);
  }

  /**
   * The end-to-end example: Init posts 'on' (the truthy 'off' string), the
   * timer then posts 'off', a failed POST still re-arms the timer, and a
   * motion event posts 'on' again.
   */
  method KioskScenario() returns (posts: seq<Post>, errors: nat)
    ensures posts == [Post(EXAMPLE_SENSOR, "on"), Post(EXAMPLE_SENSOR, "off"), Post(EXAMPLE_SENSOR, "on")]
    ensures errors == 1
  {
    ExampleDeviceResolves();
    var k := StartKiosk([EXAMPLE_DEVICE], EXAMPLE_MAC, EXAMPLE_DEVICE, EXAMPLE_SENSOR);
    var on := Post(EXAMPLE_SENSOR, "on");
    k.TimerFires(false);
    k.OnMotion(true);
    assert Repeat(on, 1) == [on];
    posts := k.posts;
    errors := k.errorsReported;
  }

  /** A google_say that names no entity, with message `text`. */
  function UntargetedSay(text: JsValue): CallServiceEvent {
    CallServiceEvent(Str("tts"), Str("google_say"), Some(ServiceData(Undefined, text, Undefined)))
  }

  /**
   * A kiosk whose device has no media player speaks an untargeted google_say
   * once for every subscription its inits have made.
   */
  lemma UntargetedSaySpokenPerSubscription(k: FullyKiosk, text: JsValue)
    requires k.info.Some? && k.info.value.mediaPlayerEntityId.None?
    ensures k.OnCallService(UntargetedSay(text)) == Repeat(Speak(text), k.subscriptions)
  {
    NoMediaPlayerSpeaksUntargetedSay(k.info.value, text, Undefined);
  }

  /**
   * A second successful Init doubles the listeners and the subscriptions:
   * for a device with a motion sensor, it posts 'on' once itself, and one
   * motion event then posts 'on' twice.
   */
  method SecondInit(k: FullyKiosk, mac: string, d: DeviceConfig, sensor: string)
    requires k.Valid() && k.subscriptions == 1 && k.motionListeners == 1
    requires FindDevice(k.devices, ToLowerCase(mac)) == Some(d) && InfoFor(d) == KioskInfo(Some(sensor), None)
    modifies k
    ensures k.motionListeners == 2 && k.subscriptions == 2
    ensures k.info == Some(KioskInfo(Some(sensor), None))
    ensures k.posts == old(k.posts) + [Post(sensor, "on"), Post(sensor, "on"), Post(sensor, "on")]
  {
    var on := Post(sensor, "on");
    ghost var before := k.posts;
    k.Init(true, mac, true);
    assert k.info == Some(KioskInfo(Some(sensor), None));
    assert k.posts == before + [on];
    ghost var between := k.posts;
    k.OnMotion(true);
    assert k.posts == between + Repeat(on, 2);
    assert Repeat(on, 2) == [on, on];
  }
}
