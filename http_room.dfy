/**
 * The HTTP room-presence sensor: a Home Assistant sensor whose state is the
 * room a tracked beacon was last seen in. Readings arrive over HTTP; a reading
 * replaces the current one only if it comes from the same room, is closer, or
 * the current one is old enough; an optional away timeout returns the state to
 * not_home once no reading has been applied for that long.
 *
 * Time is an explicit `now` in whole seconds.
 */
module HttpRoom {
  import opened Wrappers
  import opened PyRuntime

  const STATE_NOT_HOME := "not_home"
  const DEFAULT_NAME := "Room Sensor"
  /** Default minimum age, in seconds, before a farther reading from another room is accepted. */
  const DEFAULT_TIMEOUT := 5
  /** Default away timeout; zero switches the away decay off. */
  const DEFAULT_AWAY_TIMEOUT := 0

  /** The `device` dict the HTTP view hands to message_received; an absent value is None. */
  datatype Message = Message(
    deviceId: Option<string>,
    room: Option<string>,
    distance: Option<real>,
    uuid: Option<string>,
    major: Option<int>,
    minor: Option<int>,
    latitude: Option<real>,
    longitude: Option<real>)

  /**
   * What message_received does with a message: apply it through update_state,
   * discard it, or raise a TypeError from comparing an absent distance (None)
   * with the stored float.
   */
  datatype Decision = Apply | Discard | Raise

  /** A value of the state attributes dict. */
  datatype AttrValue = NoneValue | FloatValue(r: real) | IntValue(i: int) | StrValue(s: string)

  function FloatAttr(v: Option<real>): AttrValue {
    match v
    case None => NoneValue
    case Some(x) => FloatValue(x)
  }

  function IntAttr(v: Option<int>): AttrValue {
    match v
    case None => NoneValue
    case Some(x) => IntValue(x)
  }

  function StrAttr(v: Option<string>): AttrValue {
    match v
    case None => NoneValue
    case Some(x) => StrValue(x)
  }

  const ATTRIBUTE_KEYS: set<string> := {"distance", "uuid", "major", "minor", "latitude", "longitude"}

  class HttpRoomSensor {
    const name: string
    /** The tracked device's id, slugified and upper-cased. */
    const deviceId: string
    /** Seconds after the last applied reading from which any reading is accepted. */
    const timeout: nat
    /** The away timeout in seconds, None when it is switched off. */
    const considerHome: Option<nat>

    var state: Option<string>
    var distance: Option<real>
    var uuid: Option<string>
    var major: Option<int>
    var minor: Option<int>
    var latitude: Option<real>
    var longitude: Option<real>
    /** When the last reading was applied, None before the first. */
    var updated: Option<int>

    /** Until a reading has been applied the sensor is in its initial state; an away timeout is never zero. */
    ghost predicate Valid()
      reads this
    {
      && (considerHome.Some? ==> considerHome.value > 0)
      && (updated.None? ==>
            && state == Some(STATE_NOT_HOME)
            && distance.None? && uuid.None? && major.None? && minor.None?
            && latitude.None? && longitude.None?)
    }

    /**
     * `HttpRoomSensor(name, device_id, timeout, consider_home)`. `slugify`
     * stands for Home Assistant's slugify, applied to the configured id, which
     * the platform schema makes a string.
     */
    constructor (name: string, deviceId: string, timeout: nat, awayTimeout: nat, slugify: string -> string)
      ensures Valid()
      ensures this.name == name && this.deviceId == Upper(slugify(deviceId)) && this.timeout == timeout
      ensures considerHome == if awayTimeout == 0 then None else Some(awayTimeout)
      ensures state == Some(STATE_NOT_HOME) && updated.None?
      ensures distance.None? && uuid.None? && major.None? && minor.None? && latitude.None? && longitude.None?
    {
      this.name := name;
      this.deviceId := Upper(slugify(deviceId));
      this.timeout := timeout;
      considerHome := if awayTimeout != 0 then Some(awayTimeout) else None;
      state := Some(STATE_NOT_HOME);
      distance := None;
      uuid := None;
      major := None;
      minor := None;
      latitude := None;
      longitude := None;
      updated := None;
    }

    /** The sensor holds message `m` as applied at time `now`. */
    ghost predicate Records(m: Message, now: int)
      reads this
    {
      && state == m.room && distance == m.distance && uuid == m.uuid
      && major == m.major && minor == m.minor
      && latitude == m.latitude && longitude == m.longitude
      && updated == Some(now)
    }

    /**
     * The decision message_received takes. A message for another device is
     * discarded. While the sensor has no reading yet, or its stored distance
     * is None (also after an applied reading without a distance), a matching
     * message is always applied. Otherwise it is applied when it names the
     * current room, when it is strictly closer, or when the `seconds`
     * component of the time since the last applied reading has reached the
     * timeout. An absent distance, compared once the room differs, raises.
     */
    function Decide(m: Message, now: int): (d: Decision)
      reads this
      ensures m.deviceId != Some(deviceId) ==> d == Discard
      ensures m.deviceId == Some(deviceId) && (distance.None? || updated.None?) ==> d == Apply
      ensures d == Raise <==>
        m.deviceId == Some(deviceId) && distance.Some? && updated.Some? && m.room != state && m.distance.None?
      ensures d == Apply <==>
        m.deviceId == Some(deviceId) &&
        (|| distance.None? || updated.None?
         || m.room == state
         || (m.distance.Some? && m.distance.value < distance.value)
         || (m.distance.Some? && TimedeltaSeconds(now - updated.value) >= timeout))
    {
      if m.deviceId != Some(deviceId) then Discard
      else if distance.None? || updated.None? then Apply
      else if m.room == state then Apply
      else if m.distance.None? then Raise
      else if m.distance.value < distance.value then Apply
      else if TimedeltaSeconds(now - updated.value) >= timeout then Apply
      else Discard
    }

    /** `update_state(**device)`: take every field of the message and stamp it with `now`. */
    method UpdateState(m: Message, now: int)
      requires Valid()
      modifies this
      ensures Valid()
      ensures Records(m, now)
    {
      state := m.room;
      distance := m.distance;
      uuid := m.uuid;
      major := m.major;
      minor := m.minor;
      latitude := m.latitude;
      longitude := m.longitude;
      updated := Some(now);
    }

    /**
     * `message_received(device)` at time `now`: apply the message when
     * Decide says so, and otherwise change nothing; `raised` reports the
     * TypeError case.
     */
    method MessageReceived(m: Message, now: int) returns (raised: bool)
      requires Valid()
      modifies this
      ensures Valid()
      ensures raised <==> old(Decide(m, now)) == Raise
      ensures old(Decide(m, now)) == Apply ==> Records(m, now)
      ensures old(Decide(m, now)) != Apply ==>
        && state == old(state) && distance == old(distance) && uuid == old(uuid)
        && major == old(major) && minor == old(minor)
        && latitude == old(latitude) && longitude == old(longitude) && updated == old(updated)
    {
      raised := false;
      if m.deviceId == Some(deviceId) {
        if distance.None? || updated.None? {
          UpdateState(m, now);
        } else {
          var timediff := now - updated.value;
          if m.room == state {
            UpdateState(m, now);
          } else if m.distance.None? {
            raised := true;
          } else if m.distance.value < distance.value || TimedeltaSeconds(timediff) >= timeout {
            UpdateState(m, now);
          }
        }
      }
    }

    /**
     * `update()` at time `now`: with an away timeout, once more than that many
     * seconds have passed since the last applied reading the state becomes
     * not_home; nothing else changes.
     */
    method Update(now: int)
      requires Valid()
      modifies this`state
      ensures Valid()
      ensures updated.Some? && considerHome.Some? && now - updated.value > considerHome.value ==>
        state == Some(STATE_NOT_HOME)
      ensures !(updated.Some? && considerHome.Some? && now - updated.value > considerHome.value) ==>
        state == old(state)
    {
      if updated.Some? && considerHome.Some? && now - updated.value > considerHome.value {
        state := Some(STATE_NOT_HOME);
      }
    }

    /** The `state` property. */
    function State(): (s: Option<string>)
      reads this
      ensures s == state
    {
      state
    }

    /** The `device_state_attributes` property: the six stored reading fields, keyed by name. */
    function DeviceStateAttributes(): (a: map<string, AttrValue>)
      reads this
      ensures a.Keys == ATTRIBUTE_KEYS
      ensures a["distance"] == FloatAttr(distance) && a["uuid"] == StrAttr(uuid)
      ensures a["major"] == IntAttr(major) && a["minor"] == IntAttr(minor)
      ensures a["latitude"] == FloatAttr(latitude) && a["longitude"] == FloatAttr(longitude)
    {
      map[
        "distance" := FloatAttr(distance),
        "uuid" := StrAttr(uuid),
        "major" := IntAttr(major),
        "minor" := IntAttr(minor),
        "latitude" := FloatAttr(latitude),
        "longitude" := FloatAttr(longitude)]
    }
  }

  /**
   * A reading from another room that is no closer is held back as long as
   * the seconds component of the elapsed time is below the timeout.
   */
  lemma FartherReadingHeldBack(s: HttpRoomSensor, m: Message, now: int)
    requires m.deviceId == Some(s.deviceId) && s.distance.Some? && s.updated.Some?
    requires m.room != s.state && m.distance.Some? && m.distance.value >= s.distance.value
    requires s.updated.value <= now < s.updated.value + s.timeout
    requires s.timeout <= SECONDS_PER_DAY
    ensures s.Decide(m, now) == Discard
  {
    TimedeltaSecondsWithinDay(now - s.updated.value);
  }

  /**
   * Because only the seconds-within-day component is compared, a farther
   * reading arriving one whole day plus less than the timeout after the last
   * applied one is still held back, although far more than the timeout has
   * passed.
   */
  lemma DayOldReadingHeldBack(s: HttpRoomSensor, m: Message, k: nat)
    requires m.deviceId == Some(s.deviceId) && s.distance.Some? && s.updated.Some?
    requires m.room != s.state && m.distance.Some? && m.distance.value >= s.distance.value
    requires k < s.timeout <= SECONDS_PER_DAY
    ensures s.updated.value + SECONDS_PER_DAY + k - s.updated.value >= s.timeout
    ensures s.Decide(m, s.updated.value + SECONDS_PER_DAY + k) == Discard
  {
    TimedeltaSecondsWraps(k);
    TimedeltaSecondsWithinDay(k);
  }

  /**
   * With a timeout of a day or more the age test can never pass, so a farther
   * reading from another room is never accepted, however old the current one.
   */
  lemma LongTimeoutNeverElapses(s: HttpRoomSensor, m: Message, now: int)
    requires m.deviceId == Some(s.deviceId) && s.distance.Some? && s.updated.Some?
    requires m.room != s.state && m.distance.Some? && m.distance.value >= s.distance.value
    requires s.timeout >= SECONDS_PER_DAY
    ensures s.Decide(m, now) == Discard
  {
  }

  /** The `data` dict of a room-presence update; an absent value is None. */
  datatype UpdateData = UpdateData(id: Option<string>, distance: Option<real>)

  /** The dict `_parse_update_data` returns: exactly these three keys. */
  datatype ParsedUpdate = ParsedUpdate(deviceId: string, room: string, distance: Option<real>)

  /**
   * `_parse_update_data(topic, data)`: the room is the last '/'-separated
   * piece of the topic, the device id is the slugified, upper-cased `id`.
   * `slugify` receives `data.get('id')`, which is None when the key is
   * absent; an Err result is an exception it raises, which propagates.
   */
  function ParseUpdateData(topic: string, data: UpdateData, slugify: Option<string> -> Result<string, string>): (r: Result<ParsedUpdate, string>)
    ensures r.Err? <==> slugify(data.id).Err?
    ensures r.Err? ==> r.error == slugify(data.id).error
    ensures r.Ok? ==> r.value.deviceId == Upper(slugify(data.id).value) && r.value.distance == data.distance
    ensures r.Ok? ==> r.value.room == LastPiece(topic, '/')
    ensures r.Ok? ==> '/' !in r.value.room && |r.value.room| <= |topic|
    ensures r.Ok? ==> topic[|topic| - |r.value.room|..] == r.value.room
    ensures r.Ok? ==> |r.value.room| == |topic| || topic[|topic| - |r.value.room| - 1] == '/'
  {
    LastPieceIsSuffix(topic, '/');
    var parts := Split(topic, '/');
    var room := parts[|parts| - 1];
    match slugify(data.id)
    case Err(e) => Err(e)
    case Ok(slug) => Ok(ParsedUpdate(Upper(slug), room, data.distance))
  }
}
