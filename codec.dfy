/**
 * The frame codec of protocol.py: building an outbound frame
 * `EA | command | length | payload | 00 | AE` and decoding an inbound
 * notification into a result record, with one parser per command id.
 */
module Codec {
  import opened Common
  import opened Text
  import opened Weekdays

  const Header: byte := 0xEA
  const CrcPlaceholder: byte := 0x00
  const Footer: byte := 0xAE

  const CmdQueryNameVersion: byte := 0x00
  const CmdSetName: byte := 0x01
  const CmdRestoreFactory: byte := 0x02
  const CmdHeartbeat: byte := 0x03
  const CmdQueryMac: byte := 0x04
  const CmdSyncTime: byte := 0x05
  const CmdSetFamilyId: byte := 0x06
  const CmdSetFeederPlan: byte := 0x07
  const CmdFeeding: byte := 0x08
  const CmdFeedingStatus: byte := 0x09
  const CmdFault: byte := 0x0A
  const CmdPlanFeedResult: byte := 0x0B
  const CmdManualFeedResult: byte := 0x0C
  const CmdChildLock: byte := 0x0D
  const CmdPowerSupplyMethod: byte := 0x0E
  const CmdControlLed: byte := 0x0F
  const CmdAutoLock: byte := 0x10
  const CmdQueryFeederPlan: byte := 0x11
  const CmdReminderTone: byte := 0x12
  const CmdAtmosphereLight: byte := 0x13

  /** The decoder's command table, indexed by command id. */
  const CommandNames: seq<string> := [
    "NAME_AND_VERSION", "SET_NAME", "RESTORE_FACTORY", "HEARTBEAT", "QUERY_MAC",
    "SYNC_TIME", "SET_FAMILY_ID", "SET_FEEDER_PLAN", "FEEDING", "FEEDING_STATUS",
    "FAULT", "PLAN_FEED_RESULT", "MANUAL_FEED_RESULT", "CHILD_LOCK", "POWER_SUPPLY_METHOD",
    "CONTROL_LED", "AUTO_LOCK", "QUERY_FEEDER_PLAN", "REMINDER_TONE", "ATMOSPHERE_LIGHT"
  ]

  /** `command_map.get(command_hex, "UNKNOWN")`: only ids past 0x13 are unknown. */
  function CommandName(command: byte): (name: string)
    ensures name == "UNKNOWN" <==> command > 0x13
  {
    if command < |CommandNames| then CommandNames[command] else "UNKNOWN"
  }

  // ---------------------------------------------------------------- encoding

  /** The frame for `command` with the given length byte and payload. */
  function Frame(command: byte, length: byte, payload: seq<byte>): seq<byte> {
    [Header, command, length] + payload + [CrcPlaceholder, Footer]
  }

  /**
   * `encode_command`: the length byte is the payload size unless a length
   * is given, in which case it is written as given, even when it does not
   * match the payload.
   */
  method EncodeCommand(command: byte, length: Option<int>, payload: seq<byte>) returns (frame: seq<byte>)
    requires length.Some? ==> 0 <= length.value < 256
    requires length.None? ==> |payload| < 256
    ensures |frame| == 5 + |payload|
    ensures frame[0] == Header && frame[1] == command
    ensures frame[2] == if length.Some? then length.value else |payload|
    ensures frame[3..3 + |payload|] == payload
    ensures frame[|frame| - 2] == CrcPlaceholder && frame[|frame| - 1] == Footer
    ensures frame == Frame(command, frame[2], payload)
  {
    var len: byte := if length.None? then |payload| else length.value;
    frame := [];
    frame := frame + [Header];
    frame := frame + [command];
    frame := frame + [len];
    if payload != [] {
      frame := frame + payload;
    }
    frame := frame + [CrcPlaceholder];
    frame := frame + [Footer];
  }

  // ---------------------------------------------------------------- decoded record

  datatype PowerMode = Battery | DcPower
  datatype FeedingState = Idle | Feeding | Error | UnknownState(code: byte)
  datatype FeedType = Manual | Plan | UnknownType(code: byte)
  datatype FeedStatus = Success | Failed | UnknownStatus(code: byte)

  /** A time of day as a plan slot carries it. */
  datatype Clock = Clock(hour: byte, minute: byte) {
    /** The `"HH:MM"` text the decoder reports: `f"{hour:02d}:{minute:02d}"`. */
    function Text(): string {
      Pad2(hour) + ":" + Pad2(minute)
    }
  }

  /** The six date and time fields of a feed record; the year is counted from 2000. */
  datatype Stamp = Stamp(year: byte, month: byte, day: byte, hour: byte, minute: byte, second: byte) {
    /** The `"20YY-MM-DD HH:MM:SS"` text the decoder reports. */
    function Text(): string {
      "20" + Pad2(year) + "-" + Pad2(month) + "-" + Pad2(day) + " " + Pad2(hour) + ":" + Pad2(minute) + ":" + Pad2(second)
    }
  }

  /** One 9-byte feed-history record. */
  datatype FeedRecord = FeedRecord(timestamp: Stamp, portions: byte, feedType: FeedType, status: FeedStatus)

  /** One 5-byte feed-plan slot as the decoder reports it; `week` is the raw day mask. */
  datatype PlanSlot = PlanSlot(week: byte, time: Clock, portions: byte, enabled: bool) {
    /** The reported `weekdays` list: the days whose bit is set, sun first. */
    function Weekdays(): seq<Weekday> {
      DaysInMask(week as bv8)
    }
  }

  /** The command-specific keys a decoded notification carries. */
  datatype Fields =
    | NoFields
    | NameVersion(deviceName: Option<string>, deviceVersion: Option<string>)
    | FaultCode(code: byte)
    | PowerSupply(mode: PowerMode)
    | FeedingStatus(status: byte, state: FeedingState)
    | ChildLock(value: byte, locked: bool)
    | PromptSound(value: byte, on: bool)
    | FeedResponse(value: byte, triggered: bool)
    | FeedRecords(records: seq<FeedRecord>)
    | Verification(value: byte, success: bool)
    | FeedPlan(slots: seq<PlanSlot>)

  /** The keys present once a frame has at least 6 bytes. */
  datatype Body = Body(length: byte, crc: byte, footer: byte, data: seq<byte>, fields: Fields)

  /** The result of `decode_notification`. */
  datatype Decoded =
    | TooShort
    | Notification(raw: seq<byte>, header: byte, command: byte, commandName: string, body: Option<Body>)

  // ---------------------------------------------------------------- per-command parsers

  /** Device text: lenient decoding, then NUL padding, then whitespace trimmed. */
  function CleanText(bytes: seq<byte>): string {
    Strip(Trim(DecodeAscii(bytes), IsNul))
  }

  /** Command 0x00: name from the first 12 bytes, version from the rest; empty texts are omitted. */
  function NameVersionFields(s: seq<byte>): Fields
    requires |s| >= 12
  {
    var name := CleanText(s[..12]);
    var version := if |s| > 12 then CleanText(s[12..]) else "";
    if name == "" && version == "" then NoFields
    else NameVersion(if name != "" then Some(name) else None, if version != "" then Some(version) else None)
  }

  function FeedingStateOf(b: byte): FeedingState {
    if b == 0 then Idle else if b == 1 then Feeding else if b == 2 then Error else UnknownState(b)
  }

  function FeedTypeOf(b: byte): FeedType {
    if b == 1 then Manual else if b == 2 then Plan else UnknownType(b)
  }

  function FeedStatusOf(b: byte): FeedStatus {
    if b == 0 then Success else if b == 1 then Failed else UnknownStatus(b)
  }

  /** The feed record held in `s[off..off + 9]`. */
  function RecordAt(s: seq<byte>, off: nat): FeedRecord
    requires off + 9 <= |s|
  {
    var r := s[off..off + 9];
    FeedRecord(Stamp(r[0], r[1], r[2], r[3], r[4], r[5]), r[6], FeedTypeOf(r[7]), FeedStatusOf(r[8]))
  }

  /** Command 0x0C: one record per whole 9 bytes; a trailing partial record is dropped. */
  function FeedRecordsOf(s: seq<byte>): (records: seq<FeedRecord>)
    ensures |records| == |s| / 9
  {
    seq(|s| / 9, i requires 0 <= i < |s| / 9 => RecordAt(s, 9 * i))
  }

  /** The slot held in `s[off..off + 5]`: week mask, hour, minute, portions, enabled. */
  function SlotAt(s: seq<byte>, off: nat): PlanSlot
    requires off + 5 <= |s|
  {
    PlanSlot(s[off], Clock(s[off + 1], s[off + 2]), s[off + 3], s[off + 4] != 0)
  }

  /** The first byte is read as a slot count: it is 1..15 and the payload has room for that many slots. */
  predicate CountPrefixed(s: seq<byte>) {
    |s| >= 1 && 1 <= s[0] <= 15 && |s| >= 1 + 5 * s[0]
  }

  /** Where slot parsing starts: after the count byte when there is one. */
  function PlanOffset(s: seq<byte>): nat {
    if CountPrefixed(s) then 1 else 0
  }

  /** The whole 5-byte slots from `off` on; a trailing partial slot is dropped. */
  function SlotsFrom(s: seq<byte>, off: nat): (slots: seq<PlanSlot>)
    requires off <= |s|
    ensures |slots| == (|s| - off) / 5
  {
    seq((|s| - off) / 5, i requires 0 <= i < (|s| - off) / 5 => SlotAt(s, off + 5 * i))
  }

  /** A list holding the slot at each 5-byte step from `off`, as many as fit, is `SlotsFrom(s, off)`. */
  lemma SlotsFromListing(s: seq<byte>, off: nat, slots: seq<PlanSlot>)
    requires off + 5 * |slots| <= |s| < off + 5 * |slots| + 5
    requires forall k :: 0 <= k < |slots| ==> slots[k] == SlotAt(s, off + 5 * k)
    ensures slots == SlotsFrom(s, off)
  {
    var all := SlotsFrom(s, off);
    assert |all| == |slots|;
    forall k | 0 <= k < |slots| ensures slots[k] == all[k] {
    }
  }

  /** Command 0x11: the slots of a feed-plan payload. */
  function FeedPlanSlots(s: seq<byte>): seq<PlanSlot> {
    SlotsFrom(s, PlanOffset(s))
  }

  /** The keys the `elif` chain adds for `command` and data section `s`. */
  function FieldsOf(command: byte, s: seq<byte>): Fields {
    if command == CmdQueryNameVersion && |s| >= 12 then NameVersionFields(s)
    else if command == CmdFault && |s| >= 1 then FaultCode(s[0])
    else if command == CmdPowerSupplyMethod && |s| >= 1 then PowerSupply(if s[0] == 0 then Battery else DcPower)
    else if command == CmdFeedingStatus && |s| >= 1 then FeedingStatus(s[0], FeedingStateOf(s[0]))
    else if command == CmdChildLock && |s| >= 1 then ChildLock(s[0], s[0] == 1)
    else if command == CmdReminderTone && |s| >= 1 then PromptSound(s[0], s[0] == 1)
    else if command == CmdFeeding && |s| >= 1 then FeedResponse(s[0], s[0] == 1)
    else if command == CmdManualFeedResult && |s| >= 9 then FeedRecords(FeedRecordsOf(s))
    else if command == CmdSetFamilyId && |s| >= 1 then Verification(s[0], s[0] == 1)
    else if command == CmdQueryFeederPlan then
      var slots := FeedPlanSlots(s);
      if slots == [] then NoFields else FeedPlan(slots)
    else NoFields
  }

  /** The data section: always `data[3:-2]` once the frame has 6 bytes. */
  function DataSection(data: seq<byte>): seq<byte>
    requires |data| >= 6
  {
    data[3..|data| - 2]
  }

  /** `decode_notification`. */
  function Decode(data: seq<byte>): Decoded {
    if |data| < 4 then TooShort
    else
      var body :=
        if |data| >= 6 then
          var section := DataSection(data);
          Some(Body(data[2], data[|data| - 2], data[|data| - 1], section, FieldsOf(data[1], section)))
        else None;
      Notification(data, data[0], data[1], CommandName(data[1]), body)
  }

  /** The 0x0C branch of `decode_notification`: a `for` loop over the whole 9-byte records. */
  method DecodeFeedRecords(section: seq<byte>) returns (records: seq<FeedRecord>)
    ensures records == FeedRecordsOf(section)
  {
    records := [];
    var numRecords := |section| / 9;
    for i := 0 to numRecords
      invariant |records| == i
      invariant forall k :: 0 <= k < i ==> records[k] == RecordAt(section, 9 * k)
    {
      var offset := i * 9;
      if offset + 9 <= |section| {
        records := records + [RecordAt(section, offset)];
      }
    }
  }

  /** The 0x11 branch of `decode_notification`: a `while` loop advancing over 5-byte slots. */
  method DecodeFeedPlan(section: seq<byte>) returns (slots: seq<PlanSlot>)
    ensures slots == FeedPlanSlots(section)
  {
    slots := [];
    var offset := 0;
    if |section| >= 1 && 1 <= section[0] <= 15 {
      var n := section[0];
      if |section| >= 1 + 5 * n {
        offset := 1;
      }
    }
    ghost var start := offset;
    while offset + 5 <= |section|
      invariant start == PlanOffset(section) && offset == start + 5 * |slots| && offset <= |section|
      invariant forall k :: 0 <= k < |slots| ==> slots[k] == SlotAt(section, start + 5 * k)
      decreases |section| - offset
    {
      slots := slots + [SlotAt(section, offset)];
      offset := offset + 5;
    }
    SlotsFromListing(section, start, slots);
  }

  /** `decode_notification`, running the two loops above for commands 0x0C and 0x11. */
  method DecodeNotification(data: seq<byte>) returns (d: Decoded)
    ensures d == Decode(data)
  {
    if |data| < 4 {
      return TooShort;
    }
    var header, command := data[0], data[1];
    var body: Option<Body> := None;
    if |data| >= 6 {
      var section := data[3..|data| - 2];
      var fields: Fields;
      if command == CmdManualFeedResult && |section| >= 9 {
        var records := DecodeFeedRecords(section);
        fields := FeedRecords(records);
      } else if command == CmdQueryFeederPlan {
        var slots := DecodeFeedPlan(section);
        fields := if slots != [] then FeedPlan(slots) else NoFields;
      } else {
        fields := FieldsOf(command, section);
      }
      body := Some(Body(data[2], data[|data| - 2], data[|data| - 1], section, fields));
    }
    d := Notification(data, header, command, CommandName(command), body);
  }

  // ---------------------------------------------------------------- properties

  /**
   * Fewer than 4 bytes give only the "too short" error; 4 or 5 bytes give
   * header, command and command name but no length, crc, footer or data.
   */
  lemma DecodeShortFrames(data: seq<byte>)
    ensures |data| < 4 <==> Decode(data) == TooShort
    ensures 4 <= |data| < 6 ==>
              Decode(data) == Notification(data, data[0], data[1], CommandName(data[1]), None)
  {
  }

  /**
   * Decoding an encoded frame with a non-empty payload gives back the
   * command, the length byte as written, the placeholder crc, the footer
   * and exactly the payload, whatever the length byte says.
   */
  lemma EncodeDecodeRoundTrip(command: byte, length: byte, payload: seq<byte>)
    requires 1 <= |payload|
    ensures Decode(Frame(command, length, payload)) ==
              Notification(Frame(command, length, payload), Header, command, CommandName(command),
                Some(Body(length, CrcPlaceholder, Footer, payload, FieldsOf(command, payload))))
  {
    var f := Frame(command, length, payload);
    assert f[3..|f| - 2] == payload;
  }

  /** An encoded frame with an empty payload (a query) has 5 bytes and decodes without data. */
  lemma EncodeDecodeQuery(command: byte)
    ensures Frame(command, 0, []) == [Header, command, 0, CrcPlaceholder, Footer]
    ensures Decode(Frame(command, 0, [])) ==
              Notification(Frame(command, 0, []), Header, command, CommandName(command), None)
  {
  }

  /**
   * Slot parsing skips the first byte exactly when it is a plausible slot
   * count, then yields one slot per whole 5 bytes, dropping a trailing
   * partial slot.
   */
  lemma FeedPlanSlotsShape(s: seq<byte>)
    ensures PlanOffset(s) == 1 <==> |s| >= 1 && 1 <= s[0] <= 15 && |s| >= 1 + 5 * s[0]
    ensures |FeedPlanSlots(s)| == (|s| - PlanOffset(s)) / 5
  {
  }

  /** Filtering that keeps every day returns its input. */
  lemma {:induction false} FilterKeepsAll(days: seq<Weekday>, keep: Weekday -> bool)
    requires forall d :: d in days ==> keep(d)
    ensures FilterDays(days, keep) == days
  {
    if days != [] {
      FilterKeepsAll(days[1..], keep);
    }
  }

  /**
   * The count-prefix ambiguity: `01 7F 08 00 01 01` (one counted slot) and
   * `7F 08 00 01 01` (a bare slot) decode to the same single slot, every
   * day at 08:00, one portion, enabled.
   */
  lemma CountPrefixAmbiguity()
    ensures FeedPlanSlots([0x01, 0x7F, 0x08, 0x00, 0x01, 0x01]) == [PlanSlot(0x7F, Clock(8, 0), 1, true)]
    ensures FeedPlanSlots([0x7F, 0x08, 0x00, 0x01, 0x01]) == [PlanSlot(0x7F, Clock(8, 0), 1, true)]
  {
    var counted: seq<byte> := [0x01, 0x7F, 0x08, 0x00, 0x01, 0x01];
    var bare: seq<byte> := [0x7F, 0x08, 0x00, 0x01, 0x01];
    SingleSlotPlan(counted, 1);
    SingleSlotPlan(bare, 0);
  }

  /** A slot with mask 0x7F is reported for every day of the week. */
  lemma EveryDaySlot(slot: PlanSlot)
    requires slot.week == 0x7F
    ensures slot.Weekdays() == DayOrder
  {
    assert slot.week as bv8 == 0x7F;
    AllDaysMask();
  }

  /** Eight o'clock is reported as `"08:00"`. */
  lemma EightOClockText()
    ensures Clock(8, 0).Text() == "08:00"
  {
    Pad2TwoDigits(8);
    Pad2TwoDigits(0);
  }

  /** A plan payload with room for exactly one slot after its offset decodes to that slot. */
  lemma SingleSlotPlan(s: seq<byte>, o: nat)
    requires o == PlanOffset(s) && |s| == o + 5
    ensures FeedPlanSlots(s) == [SlotAt(s, o)]
  {
    assert FeedPlanSlots(s)[0] == SlotAt(s, o);
  }

  /** The mask 0x7F lists all seven days. */
  lemma AllDaysMask()
    ensures DaysInMask(0x7F) == DayOrder
  {
    BitmaskTable();
    FilterKeepsAll(DayOrder, (d: Weekday) => 0x7F & d.Bit() != 0);
  }

  /** The record `24 01 15 08 00 00 02 01 00` is a successful manual feed of 2 portions. */
  lemma FeedRecordExample()
    ensures FeedRecordsOf([24, 1, 15, 8, 0, 0, 2, 1, 0]) == [FeedRecord(Stamp(24, 1, 15, 8, 0, 0), 2, Manual, Success)]
  {
    var r: seq<byte> := [24, 1, 15, 8, 0, 0, 2, 1, 0];
    assert r[0..9] == r;
  }

  /** That record's time stamp prints as `2024-01-15 08:00:00`. */
  lemma StampTextExample()
    ensures Stamp(24, 1, 15, 8, 0, 0).Text() == "2024-01-15 08:00:00"
  {
    Pad2TwoDigits(24);
    Pad2TwoDigits(1);
    Pad2TwoDigits(15);
    Pad2TwoDigits(8);
    Pad2TwoDigits(0);
  }

  /**
   * The one-byte status fields: each needs one data byte, and its flag is
   * set exactly when that byte has the value the source tests for.
   */
  lemma SingleByteFields(s: seq<byte>)
    ensures |s| == 0 ==> forall c: byte :: c != CmdQueryFeederPlan ==> FieldsOf(c, s) == NoFields
    ensures |s| >= 1 ==>
      && FieldsOf(CmdFault, s) == FaultCode(s[0])
      && (FieldsOf(CmdPowerSupplyMethod, s).mode == Battery <==> s[0] == 0)
      && (FieldsOf(CmdChildLock, s).locked <==> s[0] == 1)
      && (FieldsOf(CmdReminderTone, s).on <==> s[0] == 1)
      && (FieldsOf(CmdFeeding, s).triggered <==> s[0] == 1)
      && (FieldsOf(CmdSetFamilyId, s).success <==> s[0] == 1)
      && FieldsOf(CmdFeedingStatus, s).state ==
           (if s[0] == 0 then Idle else if s[0] == 1 then Feeding else if s[0] == 2 then Error else UnknownState(s[0]))
  {
  }
}
