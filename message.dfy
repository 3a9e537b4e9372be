/**
 * The message one wake cycle transmits: a group identifier, the device's
 * address as text, the sensor document and the uptime.  It is modelled as a
 * record, not as serialised bytes; `ParseEnvelope` is the receiving side's view
 * of the same record and the partner of `BuildEnvelope`.
 */
module Message {
  import opened Optional
  import opened Hex
  import opened Calibration

  /** The fixed group identifier every message carries. */
  const GroupId: int := 855544

  /** The firmware is built with its diagnostic flag set, so the document carries a `debug` entry. */
  const DebugBuild: bool := true

  /** Values of `millis()`: an `unsigned long`, 32 bits wide on this platform. */
  type UInt32 = x: int | 0 <= x < 0x1_0000_0000

  /**
   * The sensor document filled by one reading: `battery` (volts), `moisture`
   * (percent, unclamped) and whether the `debug` trace entry is present (its
   * text is diagnostic output and is not modelled).
   */
  datatype SensorData = SensorData(battery: real, moisture: int, hasDebug: bool)

  /** The message object: `group_id`, `mac`, `data` and `uptime`. */
  datatype Envelope = Envelope(groupId: int, mac: string, data: SensorData, uptime: UInt32)

  /** The document one reading produces from the battery and moisture samples. */
  function TakeReading(batteryAdc: AdcCount, moistureAdc: AdcCount): (d: SensorData)
    ensures d.battery * 1024.0 == (batteryAdc * 5) as real && 0.0 <= d.battery < 5.0
    ensures d.moisture == 160 - 2 * ((moistureAdc * 25) / 256)
    ensures -38 <= d.moisture <= 160
    ensures d.hasDebug == DebugBuild
  {
    SensorData(BatteryVolts(batteryAdc), MoisturePercent(moistureAdc), DebugBuild)
  }

  /** The message for a device address, a sensor document and a clock value. */
  function BuildEnvelope(mac: MacAddress, data: SensorData, uptime: UInt32): (e: Envelope)
    ensures e.groupId == GroupId
    ensures |e.mac| == 12 && HexDecode(e.mac) == Some(mac)
    ensures e.data == data && e.uptime == uptime
  {
    Envelope(GroupId, FormatMac(mac), data, uptime)
  }

  /**
   * A receiver's reading of a message: the address, document and uptime, or
   * None when the group does not match or the address text is not twelve hex digits.
   */
  function ParseEnvelope(e: Envelope): (r: Option<(MacAddress, SensorData, UInt32)>)
    ensures r.Some? ==> r.value.1 == e.data && r.value.2 == e.uptime
  {
    if e.groupId != GroupId then None
    else match HexDecode(e.mac)
      case Some(bytes) => if |bytes| == 6 then Some((bytes, e.data, e.uptime)) else None
      case None => None
  }

  /** Building then parsing gives back every field that went in. */
  lemma ParseBuild(mac: MacAddress, data: SensorData, uptime: UInt32)
    ensures ParseEnvelope(BuildEnvelope(mac, data, uptime)) == Some((mac, data, uptime))
  {
  }

  /** Every message a receiver accepts is the one the builder makes from what it reads. */
  lemma BuildParse(e: Envelope)
    requires ParseEnvelope(e).Some?
    ensures var (mac, data, uptime) := ParseEnvelope(e).value; BuildEnvelope(mac, data, uptime) == e
  {
    EncodeDecode(e.mac);
  }
}
