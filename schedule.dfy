/**
 * Feed schedules in feeder.py: `FeedSchedule.to_bytes` and the payload
 * `set_schedule` builds by concatenating the encodings. The time text is
 * read the way `map(int, time.split(":"))` reads it, restricted to digit
 * strings.
 */
module Schedule {
  import opened Common
  import opened Text
  import opened Weekdays
  import opened Codec

  /** A `FeedSchedule`: day names, "HH:MM", portions and whether it is on. */
  datatype FeedSchedule = FeedSchedule(weekdays: seq<string>, time: string, portions: int, enabled: bool)

  /** Index of the first ':' in `t`, or `|t|` when there is none. */
  function ColonIndex(t: string): (c: nat)
    ensures c <= |t|
    ensures c < |t| ==> t[c] == ':'
    ensures forall i :: 0 <= i < c ==> t[i] != ':'
  {
    if t == [] then 0
    else if t[0] == ':' then 0
    else 1 + ColonIndex(t[1..])
  }

  /** `time.split(":")` gives exactly two parts, each a non-empty digit string. */
  predicate WellFormedTime(t: string) {
    var c := ColonIndex(t);
    0 < c < |t| - 1 && AllDigits(t[..c]) && AllDigits(t[c + 1..])
  }

  function Hour(t: string): nat
    requires WellFormedTime(t)
  {
    ParseDecimal(t[..ColonIndex(t)])
  }

  function Minute(t: string): nat
    requires WellFormedTime(t)
  {
    ParseDecimal(t[ColonIndex(t) + 1..])
  }

  /** What `to_bytes` needs to return rather than raise: a readable time and every value a byte. */
  predicate Encodable(s: FeedSchedule) {
    WellFormedTime(s.time) && Hour(s.time) < 256 && Minute(s.time) < 256 && 0 <= s.portions < 256
  }

  /** The five bytes of a schedule: week mask, hour, minute, portions, 1 or 0 for enabled. */
  function EncodeSlot(s: FeedSchedule): (raw: seq<byte>)
    requires Encodable(s)
    ensures |raw| == 5
  {
    [NamesMask(s.weekdays) as int, Hour(s.time), Minute(s.time), s.portions, if s.enabled then 1 else 0]
  }

  /** `FeedSchedule.to_bytes`. */
  method ToBytes(s: FeedSchedule) returns (raw: seq<byte>)
    requires Encodable(s)
    ensures raw == EncodeSlot(s)
  {
    var weekValue: bv8 := 0;
    for i := 0 to |s.weekdays|
      invariant weekValue == NamesMask(s.weekdays[..i])
    {
      var day := s.weekdays[i];
      assert s.weekdays[..i + 1][..i] == s.weekdays[..i];
      var dayLower := Lower(day);
      if dayLower in WeekdayBitmask {
        weekValue := weekValue | WeekdayBitmask[dayLower];
      } else {
        assert NameBit(day) == 0;
      }
    }
    assert s.weekdays[..|s.weekdays|] == s.weekdays;
    var c := ColonIndex(s.time);
    var hour := ParseDecimal(s.time[..c]);
    var minute := ParseDecimal(s.time[c + 1..]);
    raw := [weekValue as int, hour, minute, s.portions, if s.enabled then 1 else 0];
  }

  /**
   * A slot decoded from the bytes of a schedule carries the mask of its
   * named days, which lists exactly those days in sun..sat order, its hour
   * and minute, its portions and its enabled flag; the mask never sets 0x80.
   */
  lemma EncodeSlotDecodes(s: FeedSchedule)
    requires Encodable(s)
    ensures var slot := SlotAt(EncodeSlot(s), 0);
      && slot.week == NamesMask(s.weekdays) as int < 0x80
      && slot.Weekdays() == NamedDays(s.weekdays)
      && slot.time == Clock(Hour(s.time), Minute(s.time))
      && slot.portions == s.portions
      && slot.enabled == s.enabled
  {
    MaskAsByte(NamesMask(s.weekdays));
    DaysOfNamesMask(s.weekdays);
  }

  /** A mask without the top bit survives the trip through a byte, and is below 0x80. */
  lemma MaskAsByte(m: bv8)
    requires m & 0x80 == 0
    ensures (m as int) as bv8 == m && m as int < 0x80
  {
  }

  /** `int()` of a two-digit string. */
  lemma ParseTwoDigits(s: string)
    requires |s| == 2 && IsDigit(s[0]) && IsDigit(s[1])
    ensures AllDigits(s)
    ensures ParseDecimal(s) == (s[0] as int - '0' as int) * 10 + (s[1] as int - '0' as int)
  {
    var first := s[..1];
    assert first == [s[0]] && AllDigits(first);
    assert first[..0] == [];
    assert ParseDecimal(first[..0]) == 0;
    assert ParseDecimal(first) == s[0] as int - '0' as int;
    assert ParseDecimal(s) == ParseDecimal(first) * 10 + (s[1] as int - '0' as int);
  }

  /**
   * A time written as two digits, a colon and two digits is read as those
   * two numbers, and the decoded time prints back as the same text.
   */
  lemma CanonicalTimeText(t: string)
    requires |t| == 5 && t[2] == ':'
    requires IsDigit(t[0]) && IsDigit(t[1]) && IsDigit(t[3]) && IsDigit(t[4])
    ensures WellFormedTime(t)
    ensures Hour(t) == (t[0] as int - '0' as int) * 10 + (t[1] as int - '0' as int)
    ensures Minute(t) == (t[3] as int - '0' as int) * 10 + (t[4] as int - '0' as int)
    ensures Clock(Hour(t), Minute(t)).Text() == t
  {
    ColonAtTwo(t);
    TwoDigitText(t[..2]);
    TwoDigitText(t[3..]);
    assert t == t[..2] + ":" + t[3..];
  }

  /** In `"HH:MM"` the first colon is at index 2. */
  lemma ColonAtTwo(t: string)
    requires |t| == 5 && t[2] == ':' && IsDigit(t[0]) && IsDigit(t[1])
    ensures ColonIndex(t) == 2
  {
    assert t[0] != ':' && t[1] != ':';
    assert t[1..][1..] == t[2..];
    assert ColonIndex(t[2..]) == 0;
    assert ColonIndex(t[1..]) == 1 + ColonIndex(t[1..][1..]);
  }

  /** Two digits are read as a number below 100 that `f"{n:02d}"` writes back as the same two digits. */
  lemma TwoDigitText(s: string)
    requires |s| == 2 && IsDigit(s[0]) && IsDigit(s[1])
    ensures AllDigits(s)
    ensures ParseDecimal(s) == (s[0] as int - '0' as int) * 10 + (s[1] as int - '0' as int) < 100
    ensures Pad2(ParseDecimal(s)) == s
  {
    ParseTwoDigits(s);
    var a, b := s[0] as int - '0' as int, s[1] as int - '0' as int;
    var n := ParseDecimal(s);
    assert n == a * 10 + b && 0 <= a < 10 && 0 <= b < 10;
    assert n / 10 == a && n % 10 == b;
    Pad2TwoDigits(n);
    assert DigitChar(a) == s[0] && DigitChar(b) == s[1];
    assert Pad2(n) == [s[0], s[1]] == s;
  }

  /** `Weekday.ALL_DAYS` names every day, so its mask is 0x7F. */
  lemma AllDaysMask()
    ensures NamesMask(AllDays) == 0x7F
  {
    var m := NamesMask(AllDays);
    forall d: Weekday ensures m & d.Bit() != 0 {
      NamesMaskBit(AllDays, d);
      assert Lower(AllDays[d.Index()]) == d.Name();
    }
    assert m & Sun.Bit() != 0 && m & Mon.Bit() != 0 && m & Tue.Bit() != 0 && m & Wed.Bit() != 0;
    assert m & Thu.Bit() != 0 && m & Fri.Bit() != 0 && m & Sat.Bit() != 0;
  }

  /** The every-day, 08:00, one-portion, enabled schedule encodes as `7F 08 00 01 01`. */
  lemma AllDaysAtEightExample(s: FeedSchedule)
    requires s.weekdays == AllDays && s.time == "08:00" && s.portions == 1 && s.enabled
    ensures Encodable(s)
    ensures EncodeSlot(s) == [0x7F, 0x08, 0x00, 0x01, 0x01]
  {
    CanonicalTimeText(s.time);
    assert Hour(s.time) == 8 && Minute(s.time) == 0;
    AllDaysMask();
    assert NamesMask(s.weekdays) as int == 0x7F;
  }

  predicate AllEncodable(schedules: seq<FeedSchedule>) {
    forall k :: 0 <= k < |schedules| ==> Encodable(schedules[k])
  }

  /** The `set_schedule` data: the encodings of the schedules, in list order. */
  function SchedulePayload(schedules: seq<FeedSchedule>): (data: seq<byte>)
    requires AllEncodable(schedules)
    ensures |data| == 5 * |schedules|
  {
    if schedules == [] then []
    else SchedulePayload(schedules[..|schedules| - 1]) + EncodeSlot(schedules[|schedules| - 1])
  }

  /** Byte `j` of schedule `k`'s encoding sits at `5 * k + j` of the payload. */
  lemma {:induction false} SchedulePayloadAt(schedules: seq<FeedSchedule>, k: nat, j: nat)
    requires AllEncodable(schedules) && k < |schedules| && j < 5
    ensures SchedulePayload(schedules)[5 * k + j] == EncodeSlot(schedules[k])[j]
  {
    var n := |schedules| - 1;
    var init := schedules[..n];
    assert AllEncodable(init) by {
      forall i | 0 <= i < |init| ensures Encodable(init[i]) { assert init[i] == schedules[i]; }
    }
    var p, e := SchedulePayload(init), EncodeSlot(schedules[n]);
    assert SchedulePayload(schedules) == p + e;
    BlockAt(p, e, n, k, j);
    if k < n {
      SchedulePayloadAt(init, k, j);
      assert init[k] == schedules[k];
    }
  }

  /** Indexing into `n` five-byte blocks followed by one more. */
  lemma BlockAt(p: seq<byte>, e: seq<byte>, n: nat, k: nat, j: nat)
    requires |p| == 5 * n && |e| == 5 && k <= n && j < 5
    ensures k < n ==> (p + e)[5 * k + j] == p[5 * k + j]
    ensures k == n ==> (p + e)[5 * k + j] == e[j]
  {
    if k < n {
      assert 5 * k + j < 5 * n by { assert 5 * k + 5 <= 5 * n; }
    }
  }

  /** The loop of `set_schedule` that extends `schedule_data` with each schedule's bytes. */
  method BuildSchedulePayload(schedules: seq<FeedSchedule>) returns (data: seq<byte>)
    requires AllEncodable(schedules)
    ensures data == SchedulePayload(schedules)
  {
    data := [];
    for i := 0 to |schedules|
      invariant data == SchedulePayload(schedules[..i])
    {
      var raw := ToBytes(schedules[i]);
      assert schedules[..i + 1][..i] == schedules[..i];
      data := data + raw;
    }
    assert schedules[..|schedules|] == schedules;
  }

  /**
   * Read back as a plan, the payload gives one slot per schedule, in order,
   * unless its first mask looks like a slot count: a mask `m` of 1..15
   * with more than `m` schedules makes the parser skip the first byte.
   */
  lemma SchedulePayloadAsPlan(schedules: seq<FeedSchedule>)
    requires AllEncodable(schedules) && schedules != []
    requires var m := NamesMask(schedules[0].weekdays) as int; !(1 <= m <= 15 && |schedules| > m)
    ensures var plan := FeedPlanSlots(SchedulePayload(schedules));
      && |plan| == |schedules|
      && forall k :: 0 <= k < |schedules| ==> plan[k] == SlotAt(EncodeSlot(schedules[k]), 0)
  {
    var data := SchedulePayload(schedules);
    SchedulePayloadAt(schedules, 0, 0);
    assert PlanOffset(data) == 0;
    forall k | 0 <= k < |schedules| ensures SlotAt(data, 5 * k) == SlotAt(EncodeSlot(schedules[k]), 0) {
      PayloadSlotAt(schedules, k);
    }
  }

  /** The five bytes at `5 * k` of the payload read as the slot of schedule `k`. */
  lemma PayloadSlotAt(schedules: seq<FeedSchedule>, k: nat)
    requires AllEncodable(schedules) && k < |schedules|
    ensures 5 * k + 5 <= |SchedulePayload(schedules)|
    ensures SlotAt(SchedulePayload(schedules), 5 * k) == SlotAt(EncodeSlot(schedules[k]), 0)
  {
    SchedulePayloadAt(schedules, k, 0);
    SchedulePayloadAt(schedules, k, 1);
    SchedulePayloadAt(schedules, k, 2);
    SchedulePayloadAt(schedules, k, 3);
    SchedulePayloadAt(schedules, k, 4);
  }

  /**
   * The other case: two Sunday-only schedules give a payload that the plan
   * parser reads as a count of 1 followed by a single, shifted slot.
   */
  lemma SundayPairMisread(s: FeedSchedule)
    requires Encodable(s) && s.weekdays == ["sun"]
    ensures |FeedPlanSlots(SchedulePayload([s, s]))| == 1
    ensures FeedPlanSlots(SchedulePayload([s, s]))[0].week == Hour(s.time)
  {
    var data := SchedulePayload([s, s]);
    assert NamesMask(["sun"]) == 1 by {
      assert ["sun"][..0] == [];
      assert Lower("sun") == "sun";
    }
    SchedulePayloadAt([s, s], 0, 0);
    SchedulePayloadAt([s, s], 0, 1);
    assert data[0] == 1 && |data| == 10;
    assert PlanOffset(data) == 1;
  }
}
