/**
 * The floorplan speaker: a Home Assistant media player that only stores its
 * volume and logs what it is asked to play.
 */
module FloorplanSpeaker {
  import opened Wrappers

  const DEFAULT_NAME := "Floorplan Speaker"
  const DEFAULT_VOLUME: real := 1.0
  const STATE_IDLE := "idle"

  /** A validated platform configuration. */
  datatype SpeakerConfig = SpeakerConfig(name: string, address: Option<string>, volume: real)

  /**
   * The platform schema: `name` defaults to "Floorplan Speaker", `volume`
   * defaults to 1.0 and must lie in [0, 1] (both ends included); `address`
   * passes through, absent when not configured. A volume outside the range
   * rejects the configuration.
   */
  function ValidateConfig(name: Option<string>, address: Option<string>, volume: Option<real>): (r: Result<SpeakerConfig, string>)
    ensures r.Ok? <==> volume.None? || 0.0 <= volume.value <= 1.0
    ensures r.Ok? ==> 0.0 <= r.value.volume <= 1.0
    ensures r.Ok? && volume.None? ==> r.value.volume == DEFAULT_VOLUME
    ensures r.Ok? && volume.Some? ==> r.value.volume == volume.value
    ensures r.Ok? ==> r.value.name == name.GetOr(DEFAULT_NAME) && r.value.address == address
  {
    var v := volume.GetOr(DEFAULT_VOLUME);
    if 0.0 <= v <= 1.0 then Ok(SpeakerConfig(name.GetOr(DEFAULT_NAME), address, v))
    else Err("value must be at most 1 and at least 0")
  }

  class FloorplanSpeakerDevice {
    const name: string
    const address: Option<string>
    var playerState: string
    var volume: real

    /** `FloorplanSpeakerDevice(hass, name, address, volume)`: idle, holding the given values. */
    constructor (name: string, address: Option<string>, volume: real)
      ensures this.name == name && this.address == address && this.volume == volume
      ensures playerState == STATE_IDLE
    {
      this.name := name;
      this.address := address;
      playerState := STATE_IDLE;
      this.volume := volume;
    }

    /** The `name` property. */
    function Name(): (n: string)
      ensures n == name
    {
      name
    }

    /** The `state` property. */
    function State(): (s: string)
      reads this
      ensures s == playerState
    {
      playerState
    }

    /** The `address` property. */
    function Address(): (a: Option<string>)
      ensures a == address
    {
      address
    }

    /** The `volume_level` property. */
    function VolumeLevel(): (v: real)
      reads this
      ensures v == volume
    {
      volume
    }

    /** `set_volume_level(volume)`: store the value as given, without clamping; the state stays. */
    method SetVolumeLevel(v: real)
      modifies this`volume
      ensures volume == v
      ensures playerState == old(playerState)
    {
      volume := v;
    }

    /** `play_media(media_type, media_id)`: only logs, so neither state nor volume changes. */
    method PlayMedia(mediaType: string, mediaId: string)
      ensures playerState == old(playerState) && volume == old(volume)
    {
    }
  }

  /**
   * The platform set-up: the configuration is validated against the schema
   * first (no device when that fails); the device then starts idle with the
   * validated name, address and volume.
   */
  method SetupPlatform(name: Option<string>, address: Option<string>, volume: Option<real>)
    returns (d: FloorplanSpeakerDevice?)
    ensures d == null <==> ValidateConfig(name, address, volume).Err?
    ensures d != null ==> fresh(d) && d.playerState == STATE_IDLE && 0.0 <= d.VolumeLevel() <= 1.0
    ensures d != null ==>
      var c := ValidateConfig(name, address, volume).value;
      d.name == c.name && d.address == c.address && d.volume == c.volume
  {
    match ValidateConfig(name, address, volume)
    case Err(_) =>
      d := null;
    case Ok(c) =>
      d := new FloorplanSpeakerDevice(c.name, c.address, c.volume);
  }
}
