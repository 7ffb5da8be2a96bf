# Petnetizen feeder protocol model

This project is a Dafny model of `petnetizen_feeder`, the Python library
that drives Petnetizen pet feeders over Bluetooth Low Energy. It covers the
byte-level protocol and the decision rules around it:

- **Frame codec** (`codec.dfy`): `encode_command` builds
  `EA | command | length | payload | 00 | AE`, and `decode_notification`
  turns an inbound notification into a result record. Each command id has
  its own parser: name/version, fault, power supply, feeding status, child
  lock, reminder tone, feed response, verification, feed-history records
  and feed-plan slots.
- **Weekday masks** (`weekdays.dfy`): the `WEEKDAY_BITMASK` table, the
  `Weekday` constants, the `week_value |= ...` fold of `FeedSchedule.to_bytes`,
  and the sun..sat listing of a decoded mask.
- **Schedules** (`schedule.dfy`): `FeedSchedule.to_bytes` and the
  concatenated payload `set_schedule` writes.
- **Discovery** (`discovery.dfy`):
  - recognising a feeder by its advertised name;
  - classifying its device type;
  - normalising a 12-character address;
  - keeping the first sighting of each address.
- **Protocol object** (`protocol.dfy`): a `FeederBLEProtocol` as a class.
  - The UUID triple is chosen by device type.
  - `received_data` is an append-only buffer.
  - `connect` sets the write-capability flags.
  - Each query and command method writes its frame.
  - `send_sync_time` sends a six-byte payload.
- **Device controller** (`device.dfy`): a `FeederDevice` as a class.
  - The `_connected` flag guards every command.
  - Each command writes its frames.
  - `feed`, `get_device_info` and `query_schedule` read their answers from
    the notifications that arrive after a mark.
- **Schedule proof of concept** (`schedule_poc.dfy`): the slot parser in
  `examples/get_schedule_poc.py`, proved to agree with the decoder's 0x11
  branch, and that script's command-line address clean-up.
- **Shared text operations** (`text.dfy`, `common.dfy`): bytes, optional
  values, and the Python string operations the library relies on.

Loops in the source are methods with loop invariants, each proved equal to
a specification function. Examples are the decoder's record and slot loops,
`to_bytes`, the `set_schedule` payload loop, the discovery loop and the
buffer scans. The properties are lemmas about those functions.

The radio is not modelled. What `connect` finds on the device is a
`LinkOutcome` parameter. Whether `_ensure_connected` finds the link up is a
`linkOk` parameter. The notifications that arrive during an operation are a
sequence parameter, appended through `notification_handler`. Every frame
written to the write characteristic is recorded in
`FeederProtocol.sentFrames`.

Two points where the code is narrower than it may look:

- **Short frames.** The `else` branch at `petnetizen_feeder/protocol.py:214`
  would slice `data[3:-1]`, but it sits inside the `len(data) >= 6` guard
  and can never run. So frames of 4 or 5 bytes carry no data fields at all,
  and every longer frame's data is `data[3:-2]`.
- **Discovery addresses.** The docstring's example address
  (`petnetizen_feeder/protocol.py:93`) is upper-case, but `discover_feeders`
  does not upper-case addresses; only the two example scripts
  (`examples/get_schedule_poc.py:61`, `examples/read_settings_and_sync_time.py:24`)
  upper-case their command-line argument.

## Model

| member | source | states |
|---|---|---|
| Text.TrimStartSpec | petnetizen_feeder/protocol.py:221 | left trimming keeps a suffix that starts with a kept character and drops only strippable characters before it |
| Text.TrimEndSpec | petnetizen_feeder/protocol.py:221 | right trimming keeps a prefix that ends with a kept character and drops only strippable characters after it |
| Text.TrimIsSlice | petnetizen_feeder/protocol.py:221 | `strip` returns a slice `s[i..j]` whose end characters are kept, with every character outside it strippable |
| Text.UpperSpec | petnetizen_feeder/protocol.py:80 | upper-casing leaves no lower-case ASCII letter, capitalises each one, keeps every other character, is idempotent, and lower-casing afterwards gives what lower-casing the input gives |
| Text.LowerSpec | petnetizen_feeder/feeder.py:70 | lower-casing leaves no upper-case ASCII letter, turns each into its small letter, keeps every other character, is idempotent, and upper-casing afterwards gives what upper-casing the input gives |
| Text.ContainsSlice | petnetizen_feeder/protocol.py:72 | a string that contains a substring contains every slice of it |
| Text.ReplaceSpec | examples/get_schedule_poc.py:61 | after `replace("-", ":")` no hyphen is left, every other character stays in place, a string without hyphens is unchanged, and a second replace changes nothing |
| Text.Decimal | petnetizen_feeder/protocol.py:288 | decimal text is non-empty, has one digit exactly below 10 and no leading zero above |
| Text.Pad2TwoDigits | petnetizen_feeder/protocol.py:288 | `f"{n:02d}"` below 100 is the tens digit then the units digit |
| Text.DecimalDigits | petnetizen_feeder/feeder.py:75 | decimal text is all digits |
| Text.ParseDecimalOfDecimal | petnetizen_feeder/feeder.py:75 | `int()` reads back the decimal text of any number |
| Text.ParseDecimalLeadingZero | petnetizen_feeder/feeder.py:75 | a leading zero does not change what `int()` reads |
| Text.Pad2RoundTrip | petnetizen_feeder/protocol.py:288 | `int()` reads back `f"{n:02d}"`, which is two characters below 100 and three from 100 to 999 |
| Text.Pad2Injective | petnetizen_feeder/protocol.py:288 | different numbers never print as the same padded text |
| Text.DecodeAscii | petnetizen_feeder/protocol.py:221 | lenient decoding yields only ASCII, is no longer than its input, and is the identity on ASCII bytes |
| Weekdays.BitmaskTable | petnetizen_feeder/feeder.py:23-31 | the table has exactly the seven day names as keys, each mapped to its own distinct bit below 0x80 |
| Weekdays.NameBitOf | petnetizen_feeder/feeder.py:69-72 | a name contributes a day's bit exactly when it lower-cases to that day, and never 0x80 |
| Weekdays.NamesMask | petnetizen_feeder/feeder.py:68-72 | the folded week mask never has bit 0x80 set |
| Weekdays.NamesMaskBit | petnetizen_feeder/feeder.py:68-72 | the mask has a day's bit exactly when some name lower-cases to that day; unknown names add nothing |
| Weekdays.NamesMaskOnlyDependsOnDays | petnetizen_feeder/feeder.py:68-72 | order and repetition of the names do not change the mask |
| Weekdays.FilterDays | petnetizen_feeder/protocol.py:279-285 | the filtered list holds exactly the input days that pass the test |
| Weekdays.FilterDaysInOrder | petnetizen_feeder/protocol.py:279-285 | filtering keeps the sun..sat order |
| Weekdays.DayOrderComplete | petnetizen_feeder/protocol.py:280-283 | the listing order names every day once, sun first |
| Weekdays.DaysInMaskListing | petnetizen_feeder/protocol.py:279-285 | a decoded slot lists a day exactly when its bit is set, in sun..sat order |
| Weekdays.DaysInMaskIgnoresTopBit | petnetizen_feeder/protocol.py:279-285 | bit 0x80 of a slot mask plays no part in the day list |
| Weekdays.DaysOfNamesMask | petnetizen_feeder/feeder.py:68-72 | decoding the mask `to_bytes` builds lists exactly the named days, in sun..sat order |
| Codec.CommandName | petnetizen_feeder/protocol.py:193-202 | a command is "UNKNOWN" exactly when its id is above 0x13 |
| Codec.EncodeCommand | petnetizen_feeder/protocol.py:150-173 | the frame is 5 + payload bytes: EA, the command, the length as given (else the payload size), the payload, 00, AE |
| Codec.FeedRecordsOf | petnetizen_feeder/protocol.py:250-253 | a 0x0C section yields one record per whole 9 bytes |
| Codec.SlotsFrom | petnetizen_feeder/protocol.py:277-292 | one slot per whole 5 bytes after the offset; a trailing partial slot is dropped |
| Codec.SlotsFromListing | petnetizen_feeder/protocol.py:277-292 | a list holding the slot at every 5-byte step, as many as fit, is the slot list |
| Codec.DecodeFeedRecords | petnetizen_feeder/protocol.py:247-263 | the record loop returns the record at each 9-byte step |
| Codec.DecodeFeedPlan | petnetizen_feeder/protocol.py:267-294 | the slot loop starts past a plausible count byte and returns the slot at each 5-byte step |
| Codec.DecodeNotification | petnetizen_feeder/protocol.py:175-298 | decoding with the two loops gives the decoder's result record |
| Codec.DecodeShortFrames | petnetizen_feeder/protocol.py:177-216 | under 4 bytes gives only the too-short error; 4 or 5 bytes give header, command and name but no length, crc, footer or data |
| Codec.EncodeDecodeRoundTrip | petnetizen_feeder/protocol.py:204-216 | decoding an encoded frame with a payload gives back the command, the length byte as written, crc 00, footer AE and exactly the payload |
| Codec.EncodeDecodeQuery | petnetizen_feeder/protocol.py:157-173 | a query frame is 5 bytes with length 0 and decodes without data |
| Codec.FeedPlanSlotsShape | petnetizen_feeder/protocol.py:270-292 | the first byte is skipped exactly when it is 1..15 with room for that many slots; then the slot count is the whole 5-byte steps left |
| Codec.FilterKeepsAll | petnetizen_feeder/protocol.py:279-285 | a test every day passes lists all days |
| Codec.CountPrefixAmbiguity | petnetizen_feeder/protocol.py:272-276 | `01 7F 08 00 01 01` and `7F 08 00 01 01` decode to the same single slot |
| Codec.EveryDaySlot | petnetizen_feeder/protocol.py:279-285 | mask 0x7F lists all seven days, sun first |
| Codec.EightOClockText | petnetizen_feeder/protocol.py:288 | hour 8 minute 0 prints as "08:00" |
| Codec.SingleSlotPlan | petnetizen_feeder/protocol.py:277-292 | a section with room for exactly one slot after its offset decodes to that slot |
| Codec.AllDaysMask | petnetizen_feeder/protocol.py:279-285 | the day list of 0x7F is every day in order |
| Codec.FeedRecordExample | petnetizen_feeder/protocol.py:254-261 | `24 01 15 08 00 00 02 01 00` is a successful manual feed of 2 portions |
| Codec.StampTextExample | petnetizen_feeder/protocol.py:255 | that record's stamp prints as "2024-01-15 08:00:00" |
| Codec.SingleByteFields | petnetizen_feeder/protocol.py:230-266 | each one-byte field needs a data byte; battery iff 0, locked, tone on, triggered and verified iff 1, status 0/1/2 as idle/feeding/error else unknown |
| Schedule.ColonIndex | petnetizen_feeder/feeder.py:75 | the index is the first colon, or the length when there is none |
| Schedule.EncodeSlot | petnetizen_feeder/feeder.py:78-84 | a schedule encodes to exactly five bytes |
| Schedule.ToBytes | petnetizen_feeder/feeder.py:65-84 | the mask loop and time parse give the five bytes mask, hour, minute, portions, 1/0 |
| Schedule.EncodeSlotDecodes | petnetizen_feeder/feeder.py:65-84 | decoding the five bytes gives back the named days in order, hour, minute, portions and enabled, with a mask below 0x80 |
| Schedule.ParseTwoDigits | petnetizen_feeder/feeder.py:75 | `int()` of two digits is ten times the first plus the second |
| Schedule.CanonicalTimeText | petnetizen_feeder/feeder.py:75 | a "HH:MM" text is well formed, reads as its two numbers, and the decoded time prints back as the same text |
| Schedule.TwoDigitText | petnetizen_feeder/feeder.py:75 | two digits read as a number below 100 that pads back to the same digits |
| Schedule.AllDaysMask | petnetizen_feeder/feeder.py:44 | `ALL_DAYS` gives mask 0x7F |
| Schedule.AllDaysAtEightExample | tests/test_import.py:22-31 | every day at "08:00", one portion, enabled encodes as `7F 08 00 01 01` |
| Schedule.SchedulePayload | petnetizen_feeder/feeder.py:218-220 | the payload is five bytes per schedule |
| Schedule.SchedulePayloadAt | petnetizen_feeder/feeder.py:218-220 | byte j of schedule k sits at 5k + j of the payload, in list order |
| Schedule.BuildSchedulePayload | petnetizen_feeder/feeder.py:218-220 | the extend loop builds the concatenated encodings |
| Schedule.PayloadSlotAt | petnetizen_feeder/feeder.py:218-220 | the five bytes at 5k read as schedule k's slot |
| Schedule.SchedulePayloadAsPlan | petnetizen_feeder/feeder.py:217-228 | read back as a plan, the payload gives one slot per schedule in order, unless its first mask looks like a count |
| Schedule.SundayPairMisread | petnetizen_feeder/feeder.py:217-228 | two Sunday-only schedules are read back as a count of 1 and one shifted slot |
| Discovery.UpperPrefixes | petnetizen_feeder/protocol.py:60 | the prefixes compared are DU, JK, ALI, PET and FEED |
| Discovery.FeederNameRule | petnetizen_feeder/protocol.py:76-81 | a name is a feeder's exactly when its trimmed upper-cased form starts with one of those prefixes |
| Discovery.AlibabaContainsAli | petnetizen_feeder/protocol.py:72 | the ALIBABA test is subsumed by the ALI test |
| Discovery.DeviceTypeRule | petnetizen_feeder/protocol.py:63-73 | jk exactly when the name contains JK; ali exactly when it contains ALI but not JK; else standard |
| Discovery.ColonPairs | petnetizen_feeder/protocol.py:104-105 | pairing never shortens the address |
| Discovery.ColonPairsOfTwelve | petnetizen_feeder/protocol.py:104-105 | twelve characters become six pairs joined by five colons, 17 characters |
| Discovery.RemoveColons | petnetizen_feeder/protocol.py:104-105 | dropping colons leaves no colon |
| Discovery.ColonPairsRoundTrip | petnetizen_feeder/protocol.py:104-105 | dropping the inserted colons gives back the colon-free address |
| Discovery.NormaliseAddressIdempotent | petnetizen_feeder/protocol.py:104-105 | normalising a normalised address changes nothing |
| Discovery.FirstSightings | petnetizen_feeder/protocol.py:97-110 | the seen-set filter never lengthens the list |
| Discovery.Discovered | petnetizen_feeder/protocol.py:84-111 | at most one result per scanned device |
| Discovery.DiscoverFeeders | petnetizen_feeder/protocol.py:97-111 | the filter/normalise/deduplicate loop returns the discovery result |
| Discovery.FirstSightingsSources | petnetizen_feeder/protocol.py:97-110 | each kept item is a qualifying item of the scan, taken in order, whose key no earlier qualifying item had |
| Discovery.FirstSightingsComplete | petnetizen_feeder/protocol.py:97-110 | every qualifying item's key is among the kept items |
| Discovery.DiscoveredSpec | petnetizen_feeder/protocol.py:84-111 | results are the first qualifying sighting of each address, in scan order, with distinct addresses, and no qualifying address is missed |
| Protocol.UuidSelection | petnetizen_feeder/protocol.py:117-133 | no device type gives standard; jk and ali get their own triples; every service is a feeder service and determines its triple |
| Protocol.CapabilityFlagsRule | petnetizen_feeder/protocol.py:337-341 | under the rule (response writes when "write" or "write-with-response" is listed, no-response writes when "write-without-response" is), only the set of listed properties matters, applying it twice changes nothing, and without a list the flags are kept |
| Protocol.WriteOnlyCharacteristic | petnetizen_feeder/protocol.py:337-341 | a list of only "write" turns off the no-response default |
| Protocol.SyncTimePayload | petnetizen_feeder/protocol.py:381-388 | the time payload is six bytes |
| Protocol.SyncTimeRoundTrip | petnetizen_feeder/protocol.py:381-388 | the payload loses only the century: read back in the right century it is the time sent |
| Protocol.FeederProtocol.constructor | petnetizen_feeder/protocol.py:117-140 | the device type falls back to detection, the UUIDs follow it, the buffer is empty, no client, and only no-response writes are assumed |
| Protocol.FeederProtocol.NotificationHandler | petnetizen_feeder/protocol.py:300-302 | a notification is appended and nothing else changes |
| Protocol.FeederProtocol.ReceiveAll | petnetizen_feeder/protocol.py:300-302 | a run of notifications is appended in arrival order |
| Protocol.FeederProtocol.Connect | petnetizen_feeder/protocol.py:304-346 | success exactly when the characteristics are found and notifications start; flags are set by the capability rule once the characteristics are found |
| Protocol.FeederProtocol.SendVerificationCode | petnetizen_feeder/protocol.py:354-361 | writes command 06 with length 4 and the code |
| Protocol.FeederProtocol.QueryNameVersion | petnetizen_feeder/protocol.py:363-372 | writes `EA 00 00 00 AE` when the link holds, nothing otherwise |
| Protocol.FeederProtocol.QueryFault | petnetizen_feeder/protocol.py:396-405 | writes `EA 0A 00 00 AE` when the link holds, nothing otherwise |
| Protocol.FeederProtocol.QueryChildLock | petnetizen_feeder/protocol.py:407-416 | writes `EA 0D 00 00 AE` when the link holds, nothing otherwise |
| Protocol.FeederProtocol.QueryReminderTone | petnetizen_feeder/protocol.py:418-427 | writes `EA 12 00 00 AE` when the link holds, nothing otherwise |
| Protocol.FeederProtocol.QueryFeedingStatus | petnetizen_feeder/protocol.py:429-438 | writes `EA 09 00 00 AE` when the link holds, nothing otherwise |
| Protocol.FeederProtocol.SendSyncTime | petnetizen_feeder/protocol.py:374-394 | writes command 05 with length 6 and the time payload when the link holds |
| Protocol.DefaultVerificationFrame | petnetizen_feeder/protocol.py:27 | the default code is sent as `EA 06 04 00 00 00 00 00 AE` |
| Protocol.SyncTimeFrameDecodes | petnetizen_feeder/protocol.py:389 | a sync-time frame decodes to command 05 with the six time bytes |
| Device.QueryFrame | petnetizen_feeder/feeder.py:320 | a query frame is the encoding with length 0 and no payload |
| Device.CommandFrameBytes | petnetizen_feeder/feeder.py:169-170 | feed sends `EA 08 01 <portions> 00 AE`; child lock and tone send `EA 0D/12 01 01/00 00 AE` |
| Device.ScheduleFrameDecodes | petnetizen_feeder/feeder.py:224-228 | the schedule frame decodes to command 07 with length 5 per schedule and the payload |
| Device.FrameDecodes | petnetizen_feeder/protocol.py:204-216 | a frame with a payload decodes to its command, length byte and payload |
| Device.CommandOf | petnetizen_feeder/feeder.py:186-187 | a notification has a command exactly when it has at least 4 bytes, and it is the second byte |
| Device.ScanFeedReplies | petnetizen_feeder/feeder.py:180-194 | the scan answers true exactly when some notification is an 08 or 0C reply |
| Device.FeedAcknowledgedAppend | petnetizen_feeder/feeder.py:172-185 | the buffer after a mark acknowledges exactly when either part does |
| Device.FeedReplyRule | petnetizen_feeder/feeder.py:185-192 | frames under 4 bytes never count; a frame counts exactly when its command byte is 08 or 0C |
| Device.ScanDeviceInfo | petnetizen_feeder/feeder.py:357-364 | the scan returns the first 0x00 reply's name and version |
| Device.DeviceInfoFirstMatch | petnetizen_feeder/feeder.py:358-363 | the first 0x00 reply decides, whatever follows |
| Device.DeviceInfoNoMatch | petnetizen_feeder/feeder.py:357-364 | without a 0x00 reply both strings are empty |
| Device.ShortNameReply | petnetizen_feeder/feeder.py:358-363 | a 0x00 reply without 12 name bytes stops the scan with both strings empty |
| Device.FeederDevice.constructor | petnetizen_feeder/feeder.py:101-118 | a fresh protocol object for the address and type, with empty buffers, no client and the initial write flags (no-response writes only), not connected |
| Device.FeederDevice.GuardFailure | petnetizen_feeder/feeder.py:153-158 | a command proceeds exactly when connected and the link holds; not connected is reported first |
| Device.FeederDevice.Connect | petnetizen_feeder/feeder.py:120-133 | only a successful protocol connect sends the verification code and sets the flag; the write-capability flags follow the properties the connect found |
| Device.FeederDevice.Disconnect | petnetizen_feeder/feeder.py:135-138 | when the radio teardown returns, the flag is cleared and the device reports not connected |
| Device.FeederDevice.Feed | petnetizen_feeder/feeder.py:140-196 | after the guard: fault, child-lock and status queries, the feed frame; true exactly when a reply after the mark is 08 or 0C |
| Device.FeederDevice.SetSchedule | petnetizen_feeder/feeder.py:198-237 | after the guard one frame with all slots is written and true returned |
| Device.FeederDevice.SetSwitch | petnetizen_feeder/feeder.py:239-269 | after the guard one on/off frame is written and true returned |
| Device.FeederDevice.SetChildLock | petnetizen_feeder/feeder.py:239-269 | after the guard `EA 0D 01 01/00 00 AE` is written and true returned |
| Device.FeederDevice.SetSound | petnetizen_feeder/feeder.py:271-301 | after the guard `EA 12 01 01/00 00 AE` is written and true returned |
| Device.FeederDevice.QuerySchedule | petnetizen_feeder/feeder.py:303-341 | after the guard the plan query is written and the answer is empty whatever arrives |
| Device.FeederDevice.GetDeviceInfo | petnetizen_feeder/feeder.py:343-364 | after the guard the name query is written and the first 0x00 reply after the mark decides |
| Device.FeederDevice.SyncTime | petnetizen_feeder/feeder.py:366-375 | only the flag is checked; the time frame is written when the link holds |
| Device.GuardLifecycle | petnetizen_feeder/feeder.py:377-382 | not connected refuses every command; connected, only the link decides; `is_connected` implies the guard passes |
| SchedulePoc.WeekBitsTable | examples/get_schedule_poc.py:35 | entry i of `week_bits` is the bit and name of day i, sun first |
| SchedulePoc.PocSlotsFrom | examples/get_schedule_poc.py:36-45 | one dictionary per whole 5 bytes after the offset |
| SchedulePoc.PocSlotsListing | examples/get_schedule_poc.py:36-45 | a list with the dictionary at each 5-byte step, as many as fit, is the script's result |
| SchedulePoc.DecodeCommand11Payload | examples/get_schedule_poc.py:25-46 | the `while` loop returns the dictionary at each 5-byte step from the offset |
| SchedulePoc.BitNamesAgree | examples/get_schedule_poc.py:38 | reading names from a bit table is filtering the days and naming them |
| SchedulePoc.FilterDaysCons | examples/get_schedule_poc.py:38 | filtering a list is the first day if kept, then the rest filtered |
| SchedulePoc.DayNamesAppend | examples/get_schedule_poc.py:38 | naming a concatenation names each part |
| SchedulePoc.WeekNamesAgree | examples/get_schedule_poc.py:38 | the script's day names are those of the decoder's day list |
| SchedulePoc.SlotDictAgrees | examples/get_schedule_poc.py:37-44 | the dictionary at an offset is the decoder's slot there, written out |
| SchedulePoc.PocAgreesWithDecoder | examples/get_schedule_poc.py:27-46 | the script and the decoder use the same offset, count the same slots, and agree slot by slot |
| SchedulePoc.PocSlotsInDecoderResult | petnetizen_feeder/protocol.py:293-294 | the decoder adds slots exactly when the script's list is non-empty |
| SchedulePoc.NormaliseCliAddress | examples/get_schedule_poc.py:61-63 | the reassignments give strip, upper, hyphens to colons, then pairing |
| SchedulePoc.ColonPairsChars | examples/get_schedule_poc.py:63 | pairing adds only colons |
| SchedulePoc.PairingCondition | examples/get_schedule_poc.py:61-62 | after replacing hyphens, 12 colon-free characters exactly when there were 12 with neither |
| SchedulePoc.PairsOfTwelveLayout | examples/get_schedule_poc.py:62-63 | paired, twelve characters are 17 with a colon exactly at every third place |
| SchedulePoc.CliAddressChars | examples/get_schedule_poc.py:61-63 | the address has no hyphen and no lower-case ASCII letter |
| SchedulePoc.CliAddressPairs | examples/get_schedule_poc.py:61-63 | twelve plain characters become six pairs that give them back without colons; anything else keeps its characters with hyphens made colons |

## Left out

- The radio is not modelled. That covers `BleakScanner.discover`, client creation, service and characteristic lookup, `start_notify`, `stop_notify`, the protocol-level `disconnect` (`petnetizen_feeder/protocol.py:348-352`) and the `write_gatt_char` calls. Each is a parameter (`LinkOutcome`, `linkOk`, the arriving notifications) or a record in `sentFrames`.
- `_ensure_connected` (`petnetizen_feeder/protocol.py:440-457`) is the boolean `linkOk`. Its re-subscription and reconnection, which can change the capability flags again, are not modelled.
- `Device.FeederDevice.Feed`: the fault, child-lock and feeding-status queries it sends are assumed to find the link up, although each re-runs `_ensure_connected` (`petnetizen_feeder/protocol.py:398`, `409`, `431`) on a link just checked.
- `Device.FeederDevice.GetDeviceInfo`: the name/version query it sends is assumed to find the link up, although `query_name_version` re-runs `_ensure_connected` (`petnetizen_feeder/protocol.py:365`) on a link just checked.
- `Device.FeederDevice.Disconnect`: assumes the radio teardown returns. In the source an exception from `stop_notify` or `client.disconnect()` (`petnetizen_feeder/protocol.py:350-352`) propagates out of `disconnect` before `feeder.py:138` runs, leaving `_connected` set; the model does not capture that outcome.
- `asyncio.sleep` and the 20-poll loop of `feed` are timing. The answer is taken over all notifications after the mark. The loop's early `return True` on 0C and its final flag give the same value as one scan of the whole buffer.
- Concurrency is not modelled: `notification_handler` is a sequential append.
- Exceptions from writes, swallowed or re-raised as `RuntimeError`, are not modelled. Only the two guard errors are.
- `Text.DecodeAscii`: UTF-8 decoding with `errors='ignore'` is restricted to ASCII. Bytes of 0x80 and above are dropped rather than combined into characters. Upper and lower casing likewise map ASCII letters only.
- `Schedule.ToBytes`: `int()` is modelled on non-empty ASCII digit strings. Signs, surrounding spaces, underscores and non-ASCII digits are not. A time that is not well formed, or a value above 255, makes the source raise `ValueError`. The model states this as the precondition `Encodable`.
- `Device.FeederDevice.SetSchedule`: the source raises `ValueError` when a schedule is not encodable or when more than 51 schedules overflow the length byte. The model requires neither to happen.
- `Device.FeederDevice.Feed`: portions are a byte (0..255), which covers the documented range 1-15 (`petnetizen_feeder/feeder.py:145`). Outside it the source does not stop at the type: `f"{portions:02X}"` is passed through `hex_string_to_bytes`, which drops every "-" (`petnetizen_feeder/protocol.py:144`). A hex text with an odd digit count makes `bytes.fromhex` raise: 256..4095, and -1..-15 whose text is "-" and one digit. An even digit count is sent as that many bytes under a length byte of 1: 4096..65535 give a two-byte payload such as `EA 08 01 10 00 00 AE`, and a negative value such as -16 sends the same frame as its absolute value. None of these frames is modelled.
- `Codec.EncodeCommand`: payloads are bytes, not hex text, so `hex_string_to_bytes`, `bytes_to_hex_string` and the default length counted from hex characters are not modelled. The decoded record keeps `raw`, `header`, `crc` and `footer` as bytes rather than upper-case hex text.
- Decoded values are kept as structured data rather than strings:
  - slot weekdays as `Weekday` values, named by `SchedulePoc.DayNames`;
  - times and stamps as numbers, with their text given by `Clock.Text` and `Stamp.Text`;
  - status texts as datatype constructors;
  - the device type as a datatype whose `Text` is the library's string.
- The `except Exception` in `decode_notification` cannot fire on byte input, so it is not modelled.
- `send_sync_time` without a time uses `datetime.now()`. The model always takes an explicit time.
- `Text.Pad2RoundTrip` states the length of `f"{n:02d}"` only below 1000, which covers every byte value.
- `examples/read_settings_and_sync_time.py` is not part of this model. Its only logic repeats the address clean-up of `get_schedule_poc.py`. The same goes for `main()` of `get_schedule_poc.py` (I/O), both `__init__.py` files (re-exports) and `tests/test_import.py`, whose to-bytes case is proved as `Schedule.AllDaysAtEightExample`.
- `query_schedule` decodes 0x11 replies but returns `[]` on every path, so the model records the replies and returns the empty list without scanning them.
