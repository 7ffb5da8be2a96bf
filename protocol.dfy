/**
 * The state of one `FeederBLEProtocol` object in protocol.py: the UUID
 * triple chosen by device type, the append-only buffer of received
 * notifications, the write-capability flags learnt on connecting, and the
 * frames its query and command methods write. The radio link is not
 * modelled: what `connect` finds on the device and whether the link is up
 * when a method checks it are parameters, and a write is recorded in
 * `sentFrames`.
 */
module Protocol {
  import opened Common
  import opened Codec
  import opened Discovery

  /** The service, write and notify characteristic UUIDs of one device type. */
  datatype Uuids = Uuids(service: string, write: string, notify: string)

  const StandardUuids: Uuids := Uuids(
    "0000ae30-0000-1000-8000-00805f9b34fb",
    "0000ae01-0000-1000-8000-00805f9b34fb",
    "0000ae02-0000-1000-8000-00805f9b34fb")

  const JkUuids: Uuids := Uuids(
    "0000fff0-0000-1000-8000-00805f9b34fb",
    "0000fff2-0000-1000-8000-00805f9b34fb",
    "0000fff1-0000-1000-8000-00805f9b34fb")

  const AliUuids: Uuids := Uuids(
    "0000ffff-0000-1000-8000-00805f9b34fb",
    "0000ff01-0000-1000-8000-00805f9b34fb",
    "0000ff02-0000-1000-8000-00805f9b34fb")

  /** `FEEDER_SERVICE_UUIDS`. */
  const FeederServiceUuids: seq<string> := [StandardUuids.service, JkUuids.service, AliUuids.service]

  /** `DEFAULT_VERIFICATION_CODE` "00000000" as the four bytes it encodes. */
  const DefaultVerificationCode: seq<byte> := [0, 0, 0, 0]

  /** `device_type or detect_device_type()`: a missing or empty type falls back to detection without a name. */
  function DeviceTypeOf(deviceType: Option<string>): string {
    if deviceType.None? || deviceType.value == [] then DetectDeviceType(None).Text() else deviceType.value
  }

  /** The UUID triple selected in `__init__`: "jk", "ali", and everything else standard. */
  function UuidsFor(deviceType: string): Uuids {
    if deviceType == Jk.Text() then JkUuids
    else if deviceType == Ali.Text() then AliUuids
    else StandardUuids
  }

  /**
   * Without a device type the object is a standard feeder; each device type
   * gets its own triple, whose service is one of `FEEDER_SERVICE_UUIDS`, and
   * the service UUID alone tells which triple was chosen.
   */
  lemma UuidSelection(t1: string, t2: string)
    ensures DeviceTypeOf(None) == "standard" && UuidsFor(DeviceTypeOf(None)) == StandardUuids
    ensures UuidsFor("jk") == JkUuids && UuidsFor("ali") == AliUuids
    ensures UuidsFor(t1).service in FeederServiceUuids
    ensures UuidsFor(t1).service == UuidsFor(t2).service ==> UuidsFor(t1) == UuidsFor(t2)
  {
    assert StandardUuids.service[4] == 'a' && JkUuids.service[4] == 'f' && AliUuids.service[4] == 'f';
    assert JkUuids.service[7] == '0' && AliUuids.service[7] == 'f';
  }

  /** The two `supports_*` flags. */
  datatype WriteFlags = WriteFlags(withResponse: bool, withoutResponse: bool)

  /**
   * The capability rule of `connect`: a property list, when the write
   * characteristic has one, sets both flags; otherwise they stay as they were.
   */
  function CapabilityFlags(current: WriteFlags, properties: Option<seq<string>>): WriteFlags {
    if properties.None? then current
    else
      var props := properties.value;
      WriteFlags("write" in props || "write-with-response" in props, "write-without-response" in props)
  }

  /**
   * Only the set of listed properties matters, not their order or
   * repetition; applying the rule twice changes nothing more; and without a
   * property list the flags are kept.
   */
  lemma CapabilityFlagsRule(current: WriteFlags, props: seq<string>, other: seq<string>)
    ensures (forall p :: p in props <==> p in other) ==>
      CapabilityFlags(current, Some(props)) == CapabilityFlags(current, Some(other))
    ensures CapabilityFlags(CapabilityFlags(current, Some(props)), Some(props)) == CapabilityFlags(current, Some(props))
    ensures CapabilityFlags(current, None) == current
  {
  }

  /** A characteristic that lists only "write" loses the write-without-response default. */
  lemma WriteOnlyCharacteristic()
    ensures CapabilityFlags(WriteFlags(false, true), Some(["write"])) == WriteFlags(true, false)
  {
    assert "write" != "write-without-response";
  }

  /** What `connect` finds, step by step; each early outcome makes it return False. */
  datatype LinkOutcome =
    | ConnectFailed
    | ServicesUnavailable
    | ServiceMissing
    | CharacteristicMissing
    | CharacteristicsFound(properties: Option<seq<string>>, notifyStarted: bool)

  /** `time`: a `datetime` with its fields in their ranges. */
  datatype DateTime = DateTime(year: int, month: int, day: int, hour: int, minute: int, second: int) {
    predicate Valid() {
      1 <= year <= 9999 && 1 <= month <= 12 && 1 <= day <= 31 &&
      0 <= hour <= 23 && 0 <= minute <= 59 && 0 <= second <= 59
    }
  }

  /** The six bytes of `send_sync_time`: year modulo 100, month, day, hour, minute, second. */
  function SyncTimePayload(dt: DateTime): (p: seq<byte>)
    requires dt.Valid()
    ensures |p| == 6
  {
    [dt.year % 100, dt.month, dt.day, dt.hour, dt.minute, dt.second]
  }

  /** Reads the six bytes back as a date in the century starting at `century`. */
  function DateTimeOfPayload(p: seq<byte>, century: int): DateTime
    requires |p| == 6
  {
    DateTime(century + p[0], p[1], p[2], p[3], p[4], p[5])
  }

  /**
   * The payload loses only the century: read back in the right century it
   * is the time that was sent, and it has the layout of a feed record's
   * time stamp.
   */
  lemma SyncTimeRoundTrip(dt: DateTime)
    requires dt.Valid()
    ensures DateTimeOfPayload(SyncTimePayload(dt), dt.year - dt.year % 100) == dt
    ensures var p := SyncTimePayload(dt);
      Stamp(p[0], p[1], p[2], p[3], p[4], p[5]) == Stamp(dt.year % 100, dt.month, dt.day, dt.hour, dt.minute, dt.second)
    ensures SyncTimePayload(dt) == SyncTimePayload(dt.(year := dt.year % 100 + 2000))
  {
  }

  /** A `FeederBLEProtocol` object. */
  class FeederProtocol {
    const deviceAddress: string
    const deviceType: string
    const uuids: Uuids

    /** `received_data`: every notification, in arrival order. */
    var receivedData: seq<seq<byte>>
    /** The frames written to the write characteristic, in order. */
    var sentFrames: seq<seq<byte>>
    /** `client is not None`: `connect` has been called. */
    var hasClient: bool
    var supportsWriteResponse: bool
    var supportsWriteNoResponse: bool

    function Flags(): WriteFlags
      reads this
    {
      WriteFlags(supportsWriteResponse, supportsWriteNoResponse)
    }

    /** `__init__`. */
    constructor(address: string, deviceType: Option<string>)
      ensures this.deviceAddress == address && this.deviceType == DeviceTypeOf(deviceType)
      ensures uuids == UuidsFor(this.deviceType)
      ensures receivedData == [] && sentFrames == [] && !hasClient
      ensures !supportsWriteResponse && supportsWriteNoResponse
    {
      deviceAddress := address;
      var t := if deviceType.None? || deviceType.value == [] then DetectDeviceType(None).Text() else deviceType.value;
      this.deviceType := t;
      if t == "jk" {
        uuids := JkUuids;
      } else if t == "ali" {
        uuids := AliUuids;
      } else {
        uuids := StandardUuids;
      }
      receivedData := [];
      sentFrames := [];
      hasClient := false;
      supportsWriteResponse := false;
      supportsWriteNoResponse := true;
    }

    /** `notification_handler`: appends one notification. */
    method NotificationHandler(data: seq<byte>)
      modifies this
      ensures receivedData == old(receivedData) + [data]
      ensures sentFrames == old(sentFrames) && hasClient == old(hasClient) && Flags() == old(Flags())
    {
      receivedData := receivedData + [data];
    }

    /** Notifications arriving one after another. */
    method ReceiveAll(notes: seq<seq<byte>>)
      modifies this
      ensures receivedData == old(receivedData) + notes
      ensures sentFrames == old(sentFrames) && hasClient == old(hasClient) && Flags() == old(Flags())
    {
      for i := 0 to |notes|
        invariant receivedData == old(receivedData) + notes[..i]
        invariant sentFrames == old(sentFrames) && hasClient == old(hasClient) && Flags() == old(Flags())
      {
        assert notes[..i + 1] == notes[..i] + [notes[i]];
        NotificationHandler(notes[i]);
      }
      assert notes[..|notes|] == notes;
    }

    /** `write_gatt_char` on the write characteristic. */
    method Write(frame: seq<byte>)
      modifies this
      ensures sentFrames == old(sentFrames) + [frame]
      ensures receivedData == old(receivedData) && hasClient == old(hasClient) && Flags() == old(Flags())
    {
      sentFrames := sentFrames + [frame];
    }

    /**
     * `connect`: True once the service, both characteristics and the
     * notification subscription are in place. The capability flags are set
     * as soon as the characteristics are found, before subscribing, so a
     * failed subscription leaves them set.
     */
    method Connect(outcome: LinkOutcome) returns (ok: bool)
      modifies this
      ensures ok <==> outcome.CharacteristicsFound? && outcome.notifyStarted
      ensures hasClient
      ensures Flags() == if outcome.CharacteristicsFound? then CapabilityFlags(old(Flags()), outcome.properties) else old(Flags())
      ensures receivedData == old(receivedData) && sentFrames == old(sentFrames)
    {
      hasClient := true;
      match outcome {
        case CharacteristicsFound(properties, notifyStarted) =>
          if properties.Some? {
            var props := properties.value;
            supportsWriteResponse := "write" in props || "write-with-response" in props;
            supportsWriteNoResponse := "write-without-response" in props;
          }
          ok := notifyStarted;
        case _ =>
          ok := false;
      }
    }

    /** `send_verification_code`: command 0x06 with length 4, written without checking the link. */
    method SendVerificationCode(code: seq<byte>)
      modifies this
      ensures sentFrames == old(sentFrames) + [Frame(CmdSetFamilyId, 4, code)]
      ensures receivedData == old(receivedData) && hasClient == old(hasClient) && Flags() == old(Flags())
    {
      var command := EncodeCommand(CmdSetFamilyId, Some(4), code);
      Write(command);
    }

    /** The shared shape of the query methods: if the link holds, a frame with length 0 and no payload. */
    method SendQuery(command: byte, linkOk: bool)
      modifies this
      ensures sentFrames == old(sentFrames) + (if linkOk then [[Header, command, 0, CrcPlaceholder, Footer]] else [])
      ensures receivedData == old(receivedData) && hasClient == old(hasClient) && Flags() == old(Flags())
    {
      if !linkOk {
        assert sentFrames == old(sentFrames) + [];
        return;
      }
      var frame := EncodeCommand(command, Some(0), []);
      assert frame == [Header, command, 0] + [] + [CrcPlaceholder, Footer];
      assert frame == [Header, command, 0, CrcPlaceholder, Footer];
      Write(frame);
    }

    /** `query_name_version`. */
    method QueryNameVersion(linkOk: bool)
      modifies this
      ensures sentFrames == old(sentFrames) + (if linkOk then [[Header, CmdQueryNameVersion, 0, CrcPlaceholder, Footer]] else [])
      ensures receivedData == old(receivedData) && hasClient == old(hasClient) && Flags() == old(Flags())
    {
      SendQuery(CmdQueryNameVersion, linkOk);
    }

    /** `query_fault`. */
    method QueryFault(linkOk: bool)
      modifies this
      ensures sentFrames == old(sentFrames) + (if linkOk then [[Header, CmdFault, 0, CrcPlaceholder, Footer]] else [])
      ensures receivedData == old(receivedData) && hasClient == old(hasClient) && Flags() == old(Flags())
    {
      SendQuery(CmdFault, linkOk);
    }

    /** `query_child_lock`. */
    method QueryChildLock(linkOk: bool)
      modifies this
      ensures sentFrames == old(sentFrames) + (if linkOk then [[Header, CmdChildLock, 0, CrcPlaceholder, Footer]] else [])
      ensures receivedData == old(receivedData) && hasClient == old(hasClient) && Flags() == old(Flags())
    {
      SendQuery(CmdChildLock, linkOk);
    }

    /** `query_reminder_tone`. */
    method QueryReminderTone(linkOk: bool)
      modifies this
      ensures sentFrames == old(sentFrames) + (if linkOk then [[Header, CmdReminderTone, 0, CrcPlaceholder, Footer]] else [])
      ensures receivedData == old(receivedData) && hasClient == old(hasClient) && Flags() == old(Flags())
    {
      SendQuery(CmdReminderTone, linkOk);
    }

    /** `query_feeding_status`. */
    method QueryFeedingStatus(linkOk: bool)
      modifies this
      ensures sentFrames == old(sentFrames) + (if linkOk then [[Header, CmdFeedingStatus, 0, CrcPlaceholder, Footer]] else [])
      ensures receivedData == old(receivedData) && hasClient == old(hasClient) && Flags() == old(Flags())
    {
      SendQuery(CmdFeedingStatus, linkOk);
    }

    /** `send_sync_time` for an explicit time: command 0x05, length 6, the six time bytes. */
    method SendSyncTime(dt: DateTime, linkOk: bool)
      requires dt.Valid()
      modifies this
      ensures sentFrames == old(sentFrames) + (if linkOk then [Frame(CmdSyncTime, 6, SyncTimePayload(dt))] else [])
      ensures receivedData == old(receivedData) && hasClient == old(hasClient) && Flags() == old(Flags())
    {
      if !linkOk {
        assert sentFrames == old(sentFrames) + [];
        return;
      }
      var actionBytes := [dt.year % 100, dt.month, dt.day, dt.hour, dt.minute, dt.second];
      var command := EncodeCommand(CmdSyncTime, Some(6), actionBytes);
      Write(command);
    }
  }

  /** The default verification frame is `EA 06 04 00 00 00 00 00 AE`. */
  lemma DefaultVerificationFrame()
    ensures Frame(CmdSetFamilyId, 4, DefaultVerificationCode) == [0xEA, 0x06, 0x04, 0, 0, 0, 0, 0x00, 0xAE]
  {
  }

  /** A sync-time frame decodes back to command 0x05 with the six time bytes as its data. */
  lemma SyncTimeFrameDecodes(dt: DateTime)
    requires dt.Valid()
    ensures var d := Decode(Frame(CmdSyncTime, 6, SyncTimePayload(dt)));
      d.Notification? && d.command == CmdSyncTime && d.body.Some? &&
      d.body.value.length == 6 && d.body.value.data == SyncTimePayload(dt)
  {
    EncodeDecodeRoundTrip(CmdSyncTime, 6, SyncTimePayload(dt));
  }
}
