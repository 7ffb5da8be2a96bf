/**
 * The `FeederDevice` controller of feeder.py: the `_connected` flag that
 * guards every operation, the frames each operation writes through its
 * `FeederBLEProtocol`, and the answers `feed`, `get_device_info` and
 * `query_schedule` read from the notifications that arrive after their
 * mark. Waiting is not modelled: the notifications that arrive during an
 * operation are a parameter, and whether `_ensure_connected` finds the
 * link up is the parameter `linkOk`.
 */
module Device {
  import opened Common
  import opened Codec
  import opened Schedule
  import opened Protocol

  /** The two `RuntimeError`s raised before anything is written. */
  datatype Failure = NotConnected | ConnectionLost

  datatype Result<T> = Ok(value: T) | Err(error: Failure)

  /** The dictionary `get_device_info` returns. */
  datatype DeviceInfo = DeviceInfo(deviceName: string, deviceVersion: string)

  /** A query frame: the command with length 0 and no payload. */
  function QueryFrame(command: byte): (f: seq<byte>)
    ensures f == Frame(command, 0, [])
  {
    [Header, command, 0, CrcPlaceholder, Footer]
  }

  /** The frame `feed` writes: command 0x08, length 1, the portions byte. */
  function FeedFrame(portions: byte): seq<byte> {
    Frame(CmdFeeding, 1, [portions])
  }

  /** The frame of a one-byte on/off setting: 01 for on, 00 for off. */
  function SwitchFrame(command: byte, on: bool): seq<byte> {
    Frame(command, 1, [if on then 1 else 0])
  }

  /** The frame `set_schedule` writes: command 0x07, length 5 per schedule, the concatenated slots. */
  function ScheduleFrame(schedules: seq<FeedSchedule>): seq<byte>
    requires AllEncodable(schedules) && 5 * |schedules| < 256
  {
    Frame(CmdSetFeederPlan, 5 * |schedules|, SchedulePayload(schedules))
  }

  /**
   * The command frames have the documented bytes: `EA 08 01 <portions> 00 AE`
   * for a feed and `EA 0D|12 01 01|00 00 AE` for the child lock and the tone.
   */
  lemma CommandFrameBytes(portions: byte, on: bool)
    ensures FeedFrame(portions) == [0xEA, 0x08, 0x01, portions, 0x00, 0xAE]
    ensures SwitchFrame(CmdChildLock, on) == [0xEA, 0x0D, 0x01, if on then 0x01 else 0x00, 0x00, 0xAE]
    ensures SwitchFrame(CmdReminderTone, on) == [0xEA, 0x12, 0x01, if on then 0x01 else 0x00, 0x00, 0xAE]
  {
  }

  /**
   * A schedule frame decodes back to command 0x07 whose length byte counts
   * the slot bytes and whose data is the payload, in list order.
   */
  lemma ScheduleFrameDecodes(schedules: seq<FeedSchedule>)
    requires AllEncodable(schedules) && 1 <= |schedules| && 5 * |schedules| < 256
    ensures var d := Decode(ScheduleFrame(schedules));
      d.Notification? && d.command == CmdSetFeederPlan && d.body.Some? &&
      d.body.value.length == 5 * |schedules| && d.body.value.data == SchedulePayload(schedules)
  {
    FrameDecodes(CmdSetFeederPlan, 5 * |schedules|, SchedulePayload(schedules));
  }

  /** A frame with a payload decodes to its command, its length byte and its payload. */
  lemma FrameDecodes(command: byte, length: byte, payload: seq<byte>)
    requires 1 <= |payload|
    ensures var d := Decode(Frame(command, length, payload));
      d.Notification? && d.command == command && d.body.Some? &&
      d.body.value.length == length && d.body.value.data == payload
  {
    EncodeDecodeRoundTrip(command, length, payload);
  }

  // ---------------------------------------------------------------- reading the buffer

  /** `decoded.get("command")`: the command byte, absent for a frame too short to decode. */
  function CommandOf(data: seq<byte>): (c: Option<byte>)
    ensures c.Some? <==> |data| >= 4
    ensures c.Some? ==> c.value == data[1]
  {
    var d := Decode(data);
    if d.Notification? then Some(d.command) else None
  }

  predicate IsFeedReply(data: seq<byte>) {
    CommandOf(data) == Some(CmdFeeding) || CommandOf(data) == Some(CmdManualFeedResult)
  }

  /** `feed`'s answer: some notification after the mark is a feeding (08) or manual-feed-result (0C) reply. */
  predicate FeedAcknowledged(notes: seq<seq<byte>>) {
    exists i :: 0 <= i < |notes| && IsFeedReply(notes[i])
  }

  /**
   * The scan in `feed`: a 0x08 reply sets the flag and the scan goes on,
   * a 0x0C reply answers True at once.
   */
  method ScanFeedReplies(notes: seq<seq<byte>>) returns (acknowledged: bool)
    ensures acknowledged == FeedAcknowledged(notes)
  {
    var feedTriggered := false;
    for i := 0 to |notes|
      invariant feedTriggered <==> exists j :: 0 <= j < i && CommandOf(notes[j]) == Some(CmdFeeding)
      invariant forall j :: 0 <= j < i ==> CommandOf(notes[j]) != Some(CmdManualFeedResult)
    {
      var decoded := DecodeNotification(notes[i]);
      if decoded.Notification? && decoded.command == CmdFeeding {
        feedTriggered := true;
      } else if decoded.Notification? && decoded.command == CmdManualFeedResult {
        assert IsFeedReply(notes[i]);
        return true;
      }
    }
    if feedTriggered {
      var j :| 0 <= j < |notes| && CommandOf(notes[j]) == Some(CmdFeeding);
      assert IsFeedReply(notes[j]);
    }
    return feedTriggered;
  }

  /**
   * Splitting the buffer: the notifications after a mark acknowledge a feed
   * exactly when those before it or those after it do, so nothing before
   * the mark can make up for a silent device.
   */
  lemma FeedAcknowledgedAppend(a: seq<seq<byte>>, b: seq<seq<byte>>)
    ensures FeedAcknowledged(a + b) <==> FeedAcknowledged(a) || FeedAcknowledged(b)
  {
    if FeedAcknowledged(a + b) {
      var i :| 0 <= i < |a + b| && IsFeedReply((a + b)[i]);
      if i < |a| {
        assert (a + b)[i] == a[i];
      } else {
        assert (a + b)[i] == b[i - |a|];
      }
    }
    if FeedAcknowledged(a) {
      var i :| 0 <= i < |a| && IsFeedReply(a[i]);
      assert (a + b)[i] == a[i];
    }
    if FeedAcknowledged(b) {
      var i :| 0 <= i < |b| && IsFeedReply(b[i]);
      assert (a + b)[|a| + i] == b[i];
    }
  }

  /**
   * Frames of fewer than 4 bytes never count, and a frame counts exactly
   * when its second byte is 0x08 or 0x0C.
   */
  lemma FeedReplyRule(notes: seq<seq<byte>>, data: seq<byte>)
    ensures |data| < 4 ==> (FeedAcknowledged(notes + [data]) <==> FeedAcknowledged(notes))
    ensures FeedAcknowledged([data]) <==> |data| >= 4 && (data[1] == 0x08 || data[1] == 0x0C)
  {
    FeedAcknowledgedAppend(notes, [data]);
    if FeedAcknowledged([data]) {
      var i :| 0 <= i < 1 && IsFeedReply([data][i]);
    }
    if |data| >= 4 && (data[1] == 0x08 || data[1] == 0x0C) {
      assert IsFeedReply([data][0]);
    }
  }

  /** The fields of a name/version reply, each "" when the decoder left it out. */
  function InfoFrom(d: Decoded): DeviceInfo {
    if d.Notification? && d.body.Some? && d.body.value.fields.NameVersion? then
      var f := d.body.value.fields;
      DeviceInfo(f.deviceName.GetOr(""), f.deviceVersion.GetOr(""))
    else DeviceInfo("", "")
  }

  /** `get_device_info`'s answer: the first reply with command 0x00 decides, and none gives two empty strings. */
  function DeviceInfoOf(notes: seq<seq<byte>>): DeviceInfo {
    if notes == [] then DeviceInfo("", "")
    else if CommandOf(notes[0]) == Some(CmdQueryNameVersion) then InfoFrom(Decode(notes[0]))
    else DeviceInfoOf(notes[1..])
  }

  /** The scan in `get_device_info`, which stops at the first 0x00 reply. */
  method ScanDeviceInfo(notes: seq<seq<byte>>) returns (info: DeviceInfo)
    ensures info == DeviceInfoOf(notes)
  {
    info := DeviceInfo("", "");
    var i := 0;
    while i < |notes|
      invariant 0 <= i <= |notes|
      invariant DeviceInfoOf(notes[i..]) == DeviceInfoOf(notes)
      invariant info == DeviceInfo("", "")
    {
      var decoded := DecodeNotification(notes[i]);
      if decoded.Notification? && decoded.command == CmdQueryNameVersion {
        info := InfoFrom(decoded);
        return;
      }
      assert notes[i..][1..] == notes[i + 1..];
      i := i + 1;
    }
  }

  /**
   * The answer comes from the first notification with command 0x00, however
   * many follow it; when there is none, both strings are empty.
   */
  lemma {:induction false} DeviceInfoFirstMatch(notes: seq<seq<byte>>, i: nat)
    requires i < |notes| && CommandOf(notes[i]) == Some(CmdQueryNameVersion)
    requires forall j :: 0 <= j < i ==> CommandOf(notes[j]) != Some(CmdQueryNameVersion)
    ensures DeviceInfoOf(notes) == InfoFrom(Decode(notes[i]))
  {
    if i > 0 {
      DeviceInfoFirstMatch(notes[1..], i - 1);
    }
  }

  lemma {:induction false} DeviceInfoNoMatch(notes: seq<seq<byte>>)
    requires forall j :: 0 <= j < |notes| ==> CommandOf(notes[j]) != Some(CmdQueryNameVersion)
    ensures DeviceInfoOf(notes) == DeviceInfo("", "")
  {
    if notes != [] {
      DeviceInfoNoMatch(notes[1..]);
    }
  }

  /** A 0x00 reply without the 12 name bytes ends the scan with both strings empty. */
  lemma ShortNameReply(notes: seq<seq<byte>>, data: seq<byte>)
    requires |data| >= 4 && data[1] == CmdQueryNameVersion && |data| < 17
    ensures DeviceInfoOf([data] + notes) == DeviceInfo("", "")
  {
    assert ([data] + notes)[0] == data;
  }

  // ---------------------------------------------------------------- the controller

  /** A `FeederDevice`. */
  class FeederDevice {
    const address: string
    /** `verification_code`, as the bytes its hex text encodes. */
    const verificationCode: seq<byte>
    const protocol: FeederProtocol
    /** `_connected`. */
    var connected: bool

    /** `__init__`: a fresh protocol object for the address and device type, not connected. */
    constructor(address: string, verificationCode: seq<byte>, deviceType: Option<string>)
      ensures this.address == address && this.verificationCode == verificationCode
      ensures fresh(protocol) && protocol.deviceAddress == address && protocol.deviceType == DeviceTypeOf(deviceType)
      ensures protocol.uuids == UuidsFor(protocol.deviceType)
      ensures protocol.receivedData == [] && protocol.sentFrames == [] && !protocol.hasClient
      ensures protocol.Flags() == WriteFlags(false, true)
      ensures !connected
    {
      this.address := address;
      this.verificationCode := verificationCode;
      protocol := new FeederProtocol(address, deviceType);
      connected := false;
    }

    /** `is_connected`: the flag, a client, and the link reporting itself up. */
    predicate IsConnected(linkUp: bool)
      reads this, protocol
    {
      connected && protocol.hasClient && linkUp
    }

    /** What the guard at the head of every command method raises, if anything. */
    function GuardFailure(linkOk: bool): (f: Option<Failure>)
      reads this
      ensures f == None <==> connected && linkOk
      ensures f == Some(NotConnected) <==> !connected
    {
      if !connected then Some(NotConnected)
      else if !linkOk then Some(ConnectionLost)
      else None
    }

    /**
     * `connect`: only a successful protocol connect sends the verification
     * code and sets the flag; a failed one leaves the flag as it was.
     */
    method Connect(outcome: LinkOutcome) returns (ok: bool)
      modifies this, protocol
      ensures ok <==> outcome.CharacteristicsFound? && outcome.notifyStarted
      ensures connected == (ok || old(connected))
      ensures protocol.hasClient
      ensures protocol.sentFrames == old(protocol.sentFrames) + (if ok then [Frame(CmdSetFamilyId, 4, verificationCode)] else [])
      ensures protocol.receivedData == old(protocol.receivedData)
      ensures protocol.Flags() == if outcome.CharacteristicsFound? then CapabilityFlags(old(protocol.Flags()), outcome.properties) else old(protocol.Flags())
    {
      ok := protocol.Connect(outcome);
      if ok {
        protocol.SendVerificationCode(verificationCode);
        connected := true;
      } else {
        assert protocol.sentFrames == old(protocol.sentFrames) + [];
      }
    }

    /** `disconnect`, assuming the radio teardown returns: the flag is cleared. */
    method Disconnect()
      modifies this
      ensures !connected && !IsConnected(true)
    {
      connected := false;
    }

    /**
     * `feed`: after the guard, the fault, child-lock and feeding-status
     * queries, then the feed frame; the answer is read only from the
     * notifications after the mark taken just before the feed frame.
     */
    method Feed(portions: byte, linkOk: bool, early: seq<seq<byte>>, replies: seq<seq<byte>>) returns (r: Result<bool>)
      modifies protocol
      ensures r == if GuardFailure(linkOk).Some? then Err(GuardFailure(linkOk).value) else Ok(FeedAcknowledged(replies))
      ensures protocol.sentFrames == old(protocol.sentFrames) +
        (if GuardFailure(linkOk).Some? then []
         else [QueryFrame(CmdFault), QueryFrame(CmdChildLock), QueryFrame(CmdFeedingStatus), FeedFrame(portions)])
      ensures protocol.receivedData == old(protocol.receivedData) + (if GuardFailure(linkOk).Some? then [] else early + replies)
      ensures protocol.hasClient == old(protocol.hasClient) && protocol.Flags() == old(protocol.Flags())
    {
      if !connected {
        return Err(NotConnected);
      }
      if !linkOk {
        return Err(ConnectionLost);
      }
      protocol.QueryFault(true);
      protocol.QueryChildLock(true);
      protocol.QueryFeedingStatus(true);
      protocol.ReceiveAll(early);
      var command := EncodeCommand(CmdFeeding, Some(1), [portions]);
      var before := |protocol.receivedData|;
      protocol.Write(command);
      protocol.ReceiveAll(replies);
      assert protocol.receivedData[before..] == replies;
      var acknowledged := ScanFeedReplies(protocol.receivedData[before..]);
      r := Ok(acknowledged);
    }

    /** `set_schedule`: the slots of every schedule in one frame, answered True once written. */
    method SetSchedule(schedules: seq<FeedSchedule>, linkOk: bool) returns (r: Result<bool>)
      requires AllEncodable(schedules) && 5 * |schedules| < 256
      modifies protocol
      ensures r == if GuardFailure(linkOk).Some? then Err(GuardFailure(linkOk).value) else Ok(true)
      ensures protocol.sentFrames == old(protocol.sentFrames) +
        (if GuardFailure(linkOk).Some? then [] else [ScheduleFrame(schedules)])
      ensures protocol.receivedData == old(protocol.receivedData)
      ensures protocol.hasClient == old(protocol.hasClient) && protocol.Flags() == old(protocol.Flags())
    {
      if !connected {
        return Err(NotConnected);
      }
      if !linkOk {
        return Err(ConnectionLost);
      }
      var scheduleData := BuildSchedulePayload(schedules);
      var command := EncodeCommand(CmdSetFeederPlan, Some(|scheduleData|), scheduleData);
      protocol.Write(command);
      r := Ok(true);
    }

    /** The shared shape of `set_child_lock` and `set_sound`. */
    method SetSwitch(command: byte, on: bool, linkOk: bool) returns (r: Result<bool>)
      modifies protocol
      ensures r == if GuardFailure(linkOk).Some? then Err(GuardFailure(linkOk).value) else Ok(true)
      ensures protocol.sentFrames == old(protocol.sentFrames) +
        (if GuardFailure(linkOk).Some? then [] else [SwitchFrame(command, on)])
      ensures protocol.receivedData == old(protocol.receivedData)
      ensures protocol.hasClient == old(protocol.hasClient) && protocol.Flags() == old(protocol.Flags())
    {
      if !connected {
        return Err(NotConnected);
      }
      if !linkOk {
        return Err(ConnectionLost);
      }
      var value: byte := if on then 1 else 0;
      var frame := EncodeCommand(command, Some(1), [value]);
      protocol.Write(frame);
      r := Ok(true);
    }

    /** `set_child_lock`. */
    method SetChildLock(locked: bool, linkOk: bool) returns (r: Result<bool>)
      modifies protocol
      ensures r == if GuardFailure(linkOk).Some? then Err(GuardFailure(linkOk).value) else Ok(true)
      ensures protocol.sentFrames == old(protocol.sentFrames) +
        (if GuardFailure(linkOk).Some? then [] else [SwitchFrame(CmdChildLock, locked)])
      ensures protocol.receivedData == old(protocol.receivedData)
      ensures protocol.hasClient == old(protocol.hasClient) && protocol.Flags() == old(protocol.Flags())
    {
      r := SetSwitch(CmdChildLock, locked, linkOk);
    }

    /** `set_sound`. */
    method SetSound(enabled: bool, linkOk: bool) returns (r: Result<bool>)
      modifies protocol
      ensures r == if GuardFailure(linkOk).Some? then Err(GuardFailure(linkOk).value) else Ok(true)
      ensures protocol.sentFrames == old(protocol.sentFrames) +
        (if GuardFailure(linkOk).Some? then [] else [SwitchFrame(CmdReminderTone, enabled)])
      ensures protocol.receivedData == old(protocol.receivedData)
      ensures protocol.hasClient == old(protocol.hasClient) && protocol.Flags() == old(protocol.Flags())
    {
      r := SetSwitch(CmdReminderTone, enabled, linkOk);
    }

    /** `query_schedule`: the plan query is written, and the answer is empty whatever comes back. */
    method QuerySchedule(linkOk: bool, replies: seq<seq<byte>>) returns (r: Result<seq<PlanSlot>>)
      modifies protocol
      ensures r == if GuardFailure(linkOk).Some? then Err(GuardFailure(linkOk).value) else Ok([])
      ensures protocol.sentFrames == old(protocol.sentFrames) +
        (if GuardFailure(linkOk).Some? then [] else [QueryFrame(CmdQueryFeederPlan)])
      ensures protocol.receivedData == old(protocol.receivedData) + (if GuardFailure(linkOk).Some? then [] else replies)
      ensures protocol.hasClient == old(protocol.hasClient) && protocol.Flags() == old(protocol.Flags())
    {
      if !connected {
        return Err(NotConnected);
      }
      if !linkOk {
        return Err(ConnectionLost);
      }
      var command := EncodeCommand(CmdQueryFeederPlan, Some(0), []);
      protocol.Write(command);
      protocol.ReceiveAll(replies);
      r := Ok([]);
    }

    /**
     * `get_device_info`: the name/version query, then the first 0x00 reply
     * among the notifications after the mark.
     */
    method GetDeviceInfo(linkOk: bool, replies: seq<seq<byte>>) returns (r: Result<DeviceInfo>)
      modifies protocol
      ensures r == if GuardFailure(linkOk).Some? then Err(GuardFailure(linkOk).value) else Ok(DeviceInfoOf(replies))
      ensures protocol.sentFrames == old(protocol.sentFrames) +
        (if GuardFailure(linkOk).Some? then [] else [QueryFrame(CmdQueryNameVersion)])
      ensures protocol.receivedData == old(protocol.receivedData) + (if GuardFailure(linkOk).Some? then [] else replies)
      ensures protocol.hasClient == old(protocol.hasClient) && protocol.Flags() == old(protocol.Flags())
    {
      if !connected {
        return Err(NotConnected);
      }
      if !linkOk {
        return Err(ConnectionLost);
      }
      var before := |protocol.receivedData|;
      protocol.QueryNameVersion(true);
      protocol.ReceiveAll(replies);
      assert protocol.receivedData[before..] == replies;
      var info := ScanDeviceInfo(protocol.receivedData[before..]);
      r := Ok(info);
    }

    /**
     * `sync_time`: only the flag is checked here; the protocol then writes
     * the time frame if the link holds and silently does nothing if not.
     */
    method SyncTime(dt: DateTime, linkOk: bool) returns (r: Result<()>)
      requires dt.Valid()
      modifies protocol
      ensures r == if connected then Ok(()) else Err(NotConnected)
      ensures protocol.sentFrames == old(protocol.sentFrames) +
        (if connected && linkOk then [Frame(CmdSyncTime, 6, SyncTimePayload(dt))] else [])
      ensures protocol.receivedData == old(protocol.receivedData)
      ensures protocol.hasClient == old(protocol.hasClient) && protocol.Flags() == old(protocol.Flags())
    {
      if !connected {
        return Err(NotConnected);
      }
      protocol.SendSyncTime(dt, linkOk);
      r := Ok(());
    }
  }

  /**
   * A new device refuses every command until it has connected; a
   * successful connect makes the guard depend on the link alone, and a
   * disconnect brings the refusal back.
   */
  lemma GuardLifecycle(d: FeederDevice, linkOk: bool)
    ensures !d.connected ==> d.GuardFailure(linkOk) == Some(NotConnected) && !d.IsConnected(linkOk)
    ensures d.connected ==> (d.GuardFailure(linkOk) == None <==> linkOk)
    ensures d.IsConnected(linkOk) ==> d.GuardFailure(linkOk) == None
  {
  }
}
