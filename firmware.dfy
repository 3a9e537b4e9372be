/**
 * One wake cycle of the sensor node: `setup` drives the pins, starts the
 * radio (or restarts the device when that fails), records the device
 * address, takes one reading and sends one message; the send-completion
 * callback then puts the device into deep sleep.
 *
 * The platform is reduced to the state these steps change: pin levels, the
 * ordered record of pin writes and analog samples, the registered peer and
 * callback, the message buffers and the datagrams handed to the radio.
 * Values the hardware supplies (radio start-up result, device address,
 * converter samples, clock, delivery status) are parameters.
 */
module Firmware {
  import opened Optional
  import opened Hex
  import opened Calibration
  import opened Message

  /**
   * The six output lines the firmware drives. Each name is wired to its own
   * GPIO number (`GpioNumbersDistinct`), so the pin levels are kept as a map
   * keyed by name and a write to one name never changes another.
   */
  datatype Pin = MoistureVcc | OutputVcc | OutputEbar | S0 | S1 | S2

  /** The GPIO number each line is wired to. */
  function GpioNumber(p: Pin): nat {
    match p
    case MoistureVcc => 0
    case OutputVcc => 5
    case OutputEbar => 4
    case S0 => 14
    case S1 => 12
    case S2 => 13
  }

  /** The six names denote six different lines, so writing one never changes another. */
  lemma GpioNumbersDistinct(p: Pin, q: Pin)
    ensures GpioNumber(p) == GpioNumber(q) <==> p == q
  {
  }

  datatype Level = Low | High

  /** What the firmware does to the outside world through the pins, in order. */
  datatype IoEvent =
    | Write(pin: Pin, level: Level)                          // digitalWrite
    | Sample(levels: map<Pin, Level>, count: AdcCount)       // analogRead, with the pin levels at that moment

  /** A datagram handed to the radio: destination and message. */
  datatype Datagram = Datagram(peer: MacAddress, message: Envelope)

  /** Where the cycle is: running `setup`, restarting after a failed radio start, waiting for the send to complete, asleep. */
  datatype Phase = Boot | Restarting | AwaitingCompletion | Sleeping(micros: nat)

  /** The fixed receiver address. */
  const PeerAddress: MacAddress := [0x24, 0xA1, 0x60, 0x3A, 0xD1, 0xD1]

  /** `ESP.deepSleep(3.6e9)`: the sleep duration in microseconds (one hour). */
  const SleepMicros: nat := 3_600_000_000

  const AllPins: set<Pin> := {MoistureVcc, OutputVcc, OutputEbar, S0, S1, S2}

  /** Pin `p` has been driven to `v`. */
  predicate Drives(levels: map<Pin, Level>, p: Pin, v: Level) {
    p in levels && levels[p] == v
  }

  /** The pin levels after the given events, starting from `start`; samples change nothing. */
  function Replay(start: map<Pin, Level>, events: seq<IoEvent>): map<Pin, Level> {
    if events == [] then start
    else
      var before := Replay(start, events[..|events| - 1]);
      match events[|events| - 1]
      case Write(p, v) => before[p := v]
      case Sample(_, _) => before
  }

  /** Replaying a trace in two pieces is replaying it whole. */
  lemma {:induction false} ReplayAppend(start: map<Pin, Level>, a: seq<IoEvent>, b: seq<IoEvent>)
    ensures Replay(start, a + b) == Replay(Replay(start, a), b)
    decreases |b|
  {
    if b != [] {
      var ab := a + b;
      assert ab[..|ab| - 1] == a + b[..|b| - 1];
      assert ab[|ab| - 1] == b[|b| - 1];
      ReplayAppend(start, a, b[..|b| - 1]);
    } else {
      assert a + b == a;
    }
  }

  /** The pin writes `setup` makes before starting the radio. */
  function SetupTrace(): seq<IoEvent> {
    [Write(MoistureVcc, High), Write(OutputVcc, High), Write(OutputEbar, Low),
     Write(S0, Low), Write(S1, Low), Write(S2, Low)]
  }

  /** The pin levels those writes leave. */
  function SetupLevels(before: map<Pin, Level>): map<Pin, Level> {
    before[MoistureVcc := High][OutputVcc := High][OutputEbar := Low][S0 := Low][S1 := Low][S2 := Low]
  }

  /** Levels with the output buffer powered and enabled (`newReading`, "TURN ON"). */
  function PoweredOn(before: map<Pin, Level>): map<Pin, Level> {
    before[OutputVcc := High][OutputEbar := Low]
  }

  /**
   * What `newReading` does at the pins: power the buffer, select the battery
   * (S0 low) and sample, select the probe (S0 high) and sample, power down.
   */
  function ReadingTrace(before: map<Pin, Level>, batteryAdc: AdcCount, moistureAdc: AdcCount): seq<IoEvent> {
    var on := PoweredOn(before);
    [Write(OutputVcc, High), Write(OutputEbar, Low),
     Write(S0, Low), Sample(on[S0 := Low], batteryAdc),
     Write(S0, High), Sample(on[S0 := Low][S0 := High], moistureAdc),
     Write(MoistureVcc, Low), Write(OutputEbar, High), Write(OutputVcc, Low)]
  }

  /** The pin levels `newReading` leaves. */
  function AfterReading(before: map<Pin, Level>): map<Pin, Level> {
    PoweredOn(before)[S0 := Low][S0 := High][MoistureVcc := Low][OutputEbar := High][OutputVcc := Low]
  }

  /** Replaying one more event applies it to the levels replayed so far. */
  lemma ReplayStep(start: map<Pin, Level>, t: seq<IoEvent>, k: nat)
    requires k < |t|
    ensures Replay(start, t[..k + 1]) == if t[k].Write? then Replay(start, t[..k])[t[k].pin := t[k].level] else Replay(start, t[..k])
  {
    assert t[..k + 1][..k] == t[..k];
  }

  /** The level function and the trace agree: replaying the writes of a reading gives the levels it leaves. */
  lemma ReplayReading(before: map<Pin, Level>, batteryAdc: AdcCount, moistureAdc: AdcCount)
    ensures Replay(before, ReadingTrace(before, batteryAdc, moistureAdc)) == AfterReading(before)
  {
    var t := ReadingTrace(before, batteryAdc, moistureAdc);
    assert t[..0] == [];
    ReplayStep(before, t, 0);
    ReplayStep(before, t, 1);
    ReplayStep(before, t, 2);
    ReplayStep(before, t, 3);
    ReplayStep(before, t, 4);
    ReplayStep(before, t, 5);
    ReplayStep(before, t, 6);
    ReplayStep(before, t, 7);
    ReplayStep(before, t, 8);
    assert t[..9] == t;
  }

  /** Replaying `setup`'s writes gives the levels it leaves. */
  lemma ReplaySetup(before: map<Pin, Level>)
    ensures Replay(before, SetupTrace()) == SetupLevels(before)
  {
    var t := SetupTrace();
    assert t[..0] == [];
    ReplayStep(before, t, 0);
    ReplayStep(before, t, 1);
    ReplayStep(before, t, 2);
    ReplayStep(before, t, 3);
    ReplayStep(before, t, 4);
    ReplayStep(before, t, 5);
    assert t[..6] == t;
  }

  /**
   * The selector sequence of a reading: the battery is sampled with S0 low and
   * the probe with S0 high, both with the buffer powered (OUTPUT_VCC high) and
   * enabled (OUTPUT_Ebar low).
   */
  lemma ReadingSamples(before: map<Pin, Level>, batteryAdc: AdcCount, moistureAdc: AdcCount)
    ensures var t := ReadingTrace(before, batteryAdc, moistureAdc);
      && |t| == 9
      && (forall k :: 0 <= k < |t| && t[k].Sample? ==> k == 3 || k == 5)
      && t[3] == Sample(t[3].levels, batteryAdc) && t[5] == Sample(t[5].levels, moistureAdc)
      && Drives(t[3].levels, S0, Low) && Drives(t[5].levels, S0, High)
      && Drives(t[3].levels, OutputVcc, High) && Drives(t[3].levels, OutputEbar, Low)
      && Drives(t[5].levels, OutputVcc, High) && Drives(t[5].levels, OutputEbar, Low)
  {
  }

  /**
   * After a reading the probe supply is off, the buffer disabled and unpowered,
   * S0 is left high, and S1 and S2 are as they were.
   */
  lemma ReadingPowersDown(before: map<Pin, Level>)
    ensures var after := AfterReading(before);
      && Drives(after, MoistureVcc, Low) && Drives(after, OutputEbar, High) && Drives(after, OutputVcc, Low)
      && Drives(after, S0, High)
      && forall v :: (Drives(after, S1, v) <==> Drives(before, S1, v)) && (Drives(after, S2, v) <==> Drives(before, S2, v))
  {
  }

  /** After `setup`'s writes every selector is low and both supplies are on with the buffer enabled. */
  lemma SetupDrivesPins(before: map<Pin, Level>)
    ensures var l := SetupLevels(before);
      && Drives(l, S0, Low) && Drives(l, S1, Low) && Drives(l, S2, Low)
      && Drives(l, MoistureVcc, High) && Drives(l, OutputVcc, High) && Drives(l, OutputEbar, Low)
      && forall e :: e in SetupTrace() ==> e.Write?
  {
  }

  /**
   * Over a whole successful cycle from power-up, the pins end with the probe
   * supply off, the buffer disabled and unpowered, S0 high, and S1 and S2 still
   * at the low level `setup` gave them.
   */
  lemma CyclePinLevels(batteryAdc: AdcCount, moistureAdc: AdcCount)
    ensures var l := Replay(map[], SetupTrace() + ReadingTrace(SetupLevels(map[]), batteryAdc, moistureAdc));
      && Drives(l, MoistureVcc, Low) && Drives(l, OutputEbar, High) && Drives(l, OutputVcc, Low)
      && Drives(l, S0, High) && Drives(l, S1, Low) && Drives(l, S2, Low)
  {
    ReplayAppend(map[], SetupTrace(), ReadingTrace(SetupLevels(map[]), batteryAdc, moistureAdc));
    ReplaySetup(map[]);
    ReplayReading(SetupLevels(map[]), batteryAdc, moistureAdc);
  }

  class SensorNode {
    /** Current level of every pin written so far. */
    var levels: map<Pin, Level>
    /** Pins configured as outputs. */
    var outputs: set<Pin>
    /** Every pin write and analog sample, in order. */
    var io: seq<IoEvent>
    var phase: Phase
    /** `macAddr_int`: the device address bytes. */
    var macAddrInt: MacAddress
    /** `macAddr`: the device address as text ("" while the zeroed buffer is unwritten). */
    var macAddr: string
    /** `doc`: the sensor document, None while empty. */
    var doc: Option<SensorData>
    /** The peer registered with the radio. */
    var peer: Option<MacAddress>
    var callbackRegistered: bool
    /** Number of readings taken. */
    var readings: nat
    /** Datagrams handed to the radio, in order. */
    var sent: seq<Datagram>

    /** The current levels are those the recorded writes leave. */
    ghost predicate TraceValid()
      reads this
    {
      levels == Replay(map[], io)
    }

    ghost predicate Valid()
      reads this
    {
      && TraceValid()
      && (macAddr == [] || macAddr == FormatMac(macAddrInt))
      && (doc.Some? <==> readings > 0)
      && (phase.Boot? ==> sent == [])
      && (phase.Restarting? ==> sent == [] && readings == 0)
      && (phase.AwaitingCompletion? || phase.Sleeping? ==> |sent| == 1 && readings > 0 && callbackRegistered)
    }

    /** A device fresh from power-up: zeroed buffers, empty document, nothing driven yet. */
    constructor ()
      ensures Valid()
      ensures levels == map[] && outputs == {} && io == []
      ensures phase == Boot && readings == 0 && sent == []
      ensures macAddrInt == [0, 0, 0, 0, 0, 0] && macAddr == [] && doc == None
      ensures peer == None && !callbackRegistered
    {
      levels, outputs, io := map[], {}, [];
      phase := Boot;
      macAddrInt, macAddr, doc := [0, 0, 0, 0, 0, 0], [], None;
      peer, callbackRegistered := None, false;
      readings, sent := 0, [];
    }

    /** `digitalWrite(pin, level)`. */
    method DigitalWrite(pin: Pin, level: Level)
      requires TraceValid()
      modifies this`levels, this`io
      ensures TraceValid()
      ensures levels == old(levels)[pin := level]
      ensures io == old(io) + [Write(pin, level)]
    {
      assert (io + [Write(pin, level)])[..|io|] == io;
      io := io + [Write(pin, level)];
      levels := levels[pin := level];
    }

    /** `analogRead(ADC_PIN)`; the converter's answer is supplied as `count`. */
    method AnalogRead(count: AdcCount) returns (c: AdcCount)
      requires TraceValid()
      modifies this`io
      ensures TraceValid()
      ensures c == count
      ensures io == old(io) + [Sample(levels, count)]
    {
      assert (io + [Sample(levels, count)])[..|io|] == io;
      io := io + [Sample(levels, count)];
      c := count;
    }

    /** "Turn on" in `newReading`: power the output buffer and enable it. */
    method PowerUp()
      requires TraceValid()
      modifies this`levels, this`io
      ensures TraceValid()
      ensures io == old(io) + [Write(OutputVcc, High), Write(OutputEbar, Low)]
      ensures levels == PoweredOn(old(levels))
    {
      DigitalWrite(OutputVcc, High);
      DigitalWrite(OutputEbar, Low);
    }

    /** One read in `newReading`: set the selector S0, then sample the shared analog input. */
    method SelectAndSample(s0: Level, count: AdcCount) returns (c: AdcCount)
      requires TraceValid()
      modifies this`levels, this`io
      ensures TraceValid()
      ensures io == old(io) + [Write(S0, s0), Sample(old(levels)[S0 := s0], count)]
      ensures levels == old(levels)[S0 := s0]
      ensures c == count
    {
      DigitalWrite(S0, s0);
      c := AnalogRead(count);
    }

    /** "Turn off" in `newReading`: probe supply off, buffer disabled, buffer supply off. */
    method PowerDown()
      requires TraceValid()
      modifies this`levels, this`io
      ensures TraceValid()
      ensures io == old(io) + [Write(MoistureVcc, Low), Write(OutputEbar, High), Write(OutputVcc, Low)]
      ensures levels == old(levels)[MoistureVcc := Low][OutputEbar := High][OutputVcc := Low]
    {
      DigitalWrite(MoistureVcc, Low);
      DigitalWrite(OutputEbar, High);
      DigitalWrite(OutputVcc, Low);
    }

    /**
     * `newReading`: power the buffer, sample the battery with S0 low and the
     * probe with S0 high, power everything down, and fill the document.
     */
    method NewReading(batteryAdc: AdcCount, moistureAdc: AdcCount)
      requires Valid() && phase == Boot
      modifies this`levels, this`io, this`doc, this`readings
      ensures Valid()
      ensures io == old(io) + ReadingTrace(old(levels), batteryAdc, moistureAdc)
      ensures levels == AfterReading(old(levels))
      ensures doc == Some(TakeReading(batteryAdc, moistureAdc)) && readings == old(readings) + 1
    {
      ghost var io0 := io;
      PowerUp();
      var batteryCount := SelectAndSample(Low, batteryAdc);
      var battery := BatteryVolts(batteryCount);
      var moistureCount := SelectAndSample(High, moistureAdc);
      var moisture := MoisturePercent(moistureCount);
      PowerDown();
      assert io == io0 + ReadingTrace(old(levels), batteryAdc, moistureAdc);
      doc := Some(SensorData(battery, moisture, DebugBuild));
      readings := readings + 1;
    }

    /**
     * `sendReading`: reformat the address text from the address bytes, build
     * the message with the current document and clock, and hand it to the radio
     * for the fixed peer.
     */
    method SendReading(uptime: UInt32)
      requires Valid() && phase == Boot && doc.Some?
      requires callbackRegistered
      modifies this`macAddr, this`sent, this`phase
      ensures Valid()
      ensures macAddr == FormatMac(macAddrInt)
      // reformatting unchanged bytes reproduces the text already there
      ensures old(macAddr) != [] ==> macAddr == old(macAddr)
      ensures sent == old(sent) + [Datagram(PeerAddress, BuildEnvelope(macAddrInt, doc.value, uptime))]
      ensures phase == AwaitingCompletion
    {
      macAddr := FormatMac(macAddrInt);
      var msg := Envelope(GroupId, macAddr, doc.value, uptime);
      sent := sent + [Datagram(PeerAddress, msg)];
      phase := AwaitingCompletion;
    }

    /** `gotoSleep`: enter deep sleep for the fixed duration; the cycle ends here. */
    method GotoSleep()
      requires Valid() && phase == AwaitingCompletion
      modifies this`phase
      ensures Valid()
      ensures phase == Sleeping(SleepMicros)
    {
      phase := Sleeping(SleepMicros);
    }

    /**
     * `OnDataSent`: the radio reports the end of the send.  Whatever the status,
     * the device goes to sleep; the status only selects the diagnostic text.
     */
    method OnDataSent(recipient: MacAddress, sendStatus: Byte)
      requires Valid() && phase == AwaitingCompletion
      modifies this`phase
      ensures Valid()
      ensures phase == Sleeping(SleepMicros)
    {
      GotoSleep();
    }

    /** The pin writes at the start of `setup`: both supplies on, buffer enabled, every selector low. */
    method DriveInitialLevels()
      requires TraceValid()
      modifies this`levels, this`io
      ensures TraceValid()
      ensures io == old(io) + SetupTrace()
      ensures levels == SetupLevels(old(levels))
    {
      DigitalWrite(MoistureVcc, High);
      DigitalWrite(OutputVcc, High);
      DigitalWrite(OutputEbar, Low);
      DigitalWrite(S0, Low);
      DigitalWrite(S1, Low);
      DigitalWrite(S2, Low);
    }

    /**
     * The rest of `setup` once the radio has started: register the completion
     * callback and the peer, read the device address and format it, take one
     * reading and send it.
     */
    method ReportOnce(deviceMac: MacAddress, batteryAdc: AdcCount, moistureAdc: AdcCount, uptime: UInt32)
      requires Valid() && phase == Boot && readings == 0
      modifies this`callbackRegistered, this`peer, this`macAddrInt, this`macAddr
      modifies this`levels, this`io, this`doc, this`readings, this`sent, this`phase
      ensures Valid()
      ensures phase == AwaitingCompletion && readings == 1
      ensures callbackRegistered && peer == Some(PeerAddress)
      ensures macAddrInt == deviceMac && macAddr == FormatMac(deviceMac)
      ensures doc == Some(TakeReading(batteryAdc, moistureAdc))
      ensures sent == old(sent) + [Datagram(PeerAddress, BuildEnvelope(deviceMac, TakeReading(batteryAdc, moistureAdc), uptime))]
      ensures io == old(io) + ReadingTrace(old(levels), batteryAdc, moistureAdc)
      ensures levels == AfterReading(old(levels))
    {
      callbackRegistered := true;
      peer := Some(PeerAddress);
      macAddrInt := deviceMac;
      macAddr := FormatMac(macAddrInt);
      NewReading(batteryAdc, moistureAdc);
      SendReading(uptime);
    }

    /**
     * `setup`: configure and drive the pins, start the radio; on failure restart
     * without taking a reading, otherwise register the callback and the peer,
     * record the device address, take one reading and send it.
     */
    method Setup(initOk: bool, deviceMac: MacAddress, batteryAdc: AdcCount, moistureAdc: AdcCount, uptime: UInt32)
      requires Valid() && phase == Boot && readings == 0
      modifies this
      ensures Valid()
      ensures outputs == old(outputs) + AllPins
      ensures !initOk ==>
        && phase == Restarting && readings == 0 && sent == []
        && io == old(io) + SetupTrace() && levels == SetupLevels(old(levels))
        && callbackRegistered == old(callbackRegistered) && peer == old(peer)
        && macAddrInt == old(macAddrInt) && macAddr == old(macAddr) && doc == old(doc)
      ensures initOk ==>
        && phase == AwaitingCompletion && readings == 1
        && callbackRegistered && peer == Some(PeerAddress)
        && macAddrInt == deviceMac && macAddr == FormatMac(deviceMac)
        && doc == Some(TakeReading(batteryAdc, moistureAdc))
        && sent == [Datagram(PeerAddress, BuildEnvelope(deviceMac, TakeReading(batteryAdc, moistureAdc), uptime))]
        && io == old(io) + SetupTrace() + ReadingTrace(SetupLevels(old(levels)), batteryAdc, moistureAdc)
        && levels == AfterReading(SetupLevels(old(levels)))
    {
      outputs := outputs + AllPins;
      DriveInitialLevels();
      if !initOk {
        phase := Restarting;
      } else {
        ReportOnce(deviceMac, batteryAdc, moistureAdc, uptime);
      }
    }
  }

  /**
   * One cycle as the platform runs it: power-up, `setup`, and, when a message
   * went out, the completion callback with whatever status the radio reports.
   */
  method WakeCycle(initOk: bool, deviceMac: MacAddress, batteryAdc: AdcCount, moistureAdc: AdcCount,
                   uptime: UInt32, sendStatus: Byte)
    returns (node: SensorNode)
    ensures fresh(node) && node.Valid()
    ensures node.io == SetupTrace() + (if initOk then ReadingTrace(SetupLevels(map[]), batteryAdc, moistureAdc) else [])
    ensures !initOk ==> node.phase == Restarting && node.readings == 0 && node.sent == []
                        && forall e :: e in node.io ==> e.Write?
    ensures !initOk ==> !node.callbackRegistered && node.peer == None
                        && node.macAddr == [] && node.doc == None
    ensures initOk ==> node.phase == Sleeping(SleepMicros) && node.readings == 1
                       && node.sent == [Datagram(PeerAddress, BuildEnvelope(deviceMac, TakeReading(batteryAdc, moistureAdc), uptime))]
  {
    node := new SensorNode();
    SetupDrivesPins(map[]);
    node.Setup(initOk, deviceMac, batteryAdc, moistureAdc, uptime);
    if node.phase == AwaitingCompletion {
      node.OnDataSent(PeerAddress, sendStatus);
    }
  }
}
