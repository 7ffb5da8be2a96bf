/**
 * The schedule proof-of-concept script get_schedule_poc.py: its own parser
 * for a QUERY_FEEDER_PLAN (0x11) data section, which builds one dictionary
 * per 5-byte slot, and the clean-up of a MAC address given on the command
 * line. The parser is proved to agree with the decoder's 0x11 branch.
 */
module SchedulePoc {
  import opened Common
  import opened Text
  import opened Weekdays
  import opened Codec
  import opened Discovery

  /** One slot dictionary: day names, `"HH:MM"`, portions, `bool(enabled)`. */
  datatype SlotDict = SlotDict(weekdays: seq<string>, time: string, portions: byte, enabled: bool)

  /** The script's `week_bits` table. */
  const WeekBits: seq<(bv8, string)> :=
    [(1, "sun"), (2, "mon"), (4, "tue"), (8, "wed"), (16, "thu"), (32, "fri"), (64, "sat")]

  /** Entry `i` of `week_bits` is the bit and name of the `i`-th day, sun first. */
  lemma WeekBitsTable()
    ensures |WeekBits| == |DayOrder| == 7
    ensures forall i :: 0 <= i < 7 ==> WeekBits[i] == (DayOrder[i].Bit(), DayOrder[i].Name())
  {
  }

  /** The names in `table` whose bit is set in `weekVal`, in table order. */
  function BitNames(table: seq<(bv8, string)>, weekVal: bv8): seq<string> {
    if table == [] then []
    else (if HasBit(weekVal, table[0].0) then [table[0].1] else []) + BitNames(table[1..], weekVal)
  }

  /** `week_val & bit`, read as a truth value. */
  predicate HasBit(weekVal: bv8, bit: bv8) {
    weekVal & bit != 0
  }

  /** `[d for bit, d in week_bits if week_val & bit]`. */
  function WeekNames(weekVal: byte): seq<string> {
    BitNames(WeekBits, weekVal as bv8)
  }

  /** The names of a list of days. */
  function DayNames(days: seq<Weekday>): seq<string>
  {
    seq(|days|, i requires 0 <= i < |days| => days[i].Name())
  }

  /** The dictionary the script builds for the slot at `off`. */
  function SlotDictAt(s: seq<byte>, off: nat): SlotDict
    requires off + 5 <= |s|
  {
    SlotDict(WeekNames(s[off]), Clock(s[off + 1], s[off + 2]).Text(), s[off + 3], s[off + 4] != 0)
  }

  /** Where the script starts reading slots: 1 when the first byte can be a count of the slots that follow. */
  function PocOffset(s: seq<byte>): nat {
    if |s| >= 1 && 1 <= s[0] <= 15 then
      if |s| >= 1 + 5 * s[0] then 1 else 0
    else 0
  }

  /** The dictionaries at each whole 5-byte step from `off`; a trailing partial slot gives nothing. */
  function PocSlotsFrom(s: seq<byte>, off: nat): (slots: seq<SlotDict>)
    requires off <= |s|
    ensures |slots| == (|s| - off) / 5
  {
    seq((|s| - off) / 5, i requires 0 <= i < (|s| - off) / 5 => SlotDictAt(s, off + 5 * i))
  }

  /** A list holding the dictionary at each 5-byte step from `off`, as many as fit, is `PocSlotsFrom(s, off)`. */
  lemma PocSlotsListing(s: seq<byte>, off: nat, slots: seq<SlotDict>)
    requires off + 5 * |slots| <= |s| < off + 5 * |slots| + 5
    requires forall k :: 0 <= k < |slots| ==> slots[k] == SlotDictAt(s, off + 5 * k)
    ensures slots == PocSlotsFrom(s, off)
  {
    var all := PocSlotsFrom(s, off);
    assert |all| == |slots|;
    forall k | 0 <= k < |slots| ensures slots[k] == all[k] {
    }
  }

  /** What `decode_command_11_payload` returns. */
  function PocSlots(s: seq<byte>): seq<SlotDict> {
    PocSlotsFrom(s, PocOffset(s))
  }

  /** `decode_command_11_payload`: the `while` loop that advances `offset` by 5 and appends a dictionary. */
  method DecodeCommand11Payload(dataSection: seq<byte>) returns (slots: seq<SlotDict>)
    ensures slots == PocSlots(dataSection)
  {
    slots := [];
    var offset := 0;
    if |dataSection| >= 1 && 1 <= dataSection[0] <= 15 {
      var n := dataSection[0];
      if |dataSection| >= 1 + 5 * n {
        offset := 1;
      }
    }
    ghost var start := offset;
    while offset + 5 <= |dataSection|
      invariant start == PocOffset(dataSection) && offset == start + 5 * |slots| && offset <= |dataSection|
      invariant forall k :: 0 <= k < |slots| ==> slots[k] == SlotDictAt(dataSection, start + 5 * k)
      decreases |dataSection| - offset
    {
      var weekVal, hour, minute, portions, enabled :=
        dataSection[offset], dataSection[offset + 1], dataSection[offset + 2], dataSection[offset + 3], dataSection[offset + 4];
      var weekdays := WeekNames(weekVal);
      slots := slots + [SlotDict(weekdays, Clock(hour, minute).Text(), portions, enabled != 0)];
      offset := offset + 5;
    }
    PocSlotsListing(dataSection, start, slots);
  }

  /** A slot as the decoder reports it, written as the script's dictionary. */
  function View(slot: PlanSlot): SlotDict {
    SlotDict(DayNames(slot.Weekdays()), slot.time.Text(), slot.portions, slot.enabled)
  }

  /** Reading names from a table of day bits and names is filtering the days and naming them. */
  lemma {:induction false} BitNamesAgree(table: seq<(bv8, string)>, days: seq<Weekday>, weekVal: bv8, keep: Weekday -> bool)
    requires |table| == |days|
    requires forall j :: 0 <= j < |days| ==> table[j].1 == days[j].Name() && HasBit(weekVal, table[j].0) == keep(days[j])
    ensures BitNames(table, weekVal) == DayNames(FilterDays(days, keep))
  {
    if days != [] {
      var t, ds := table[1..], days[1..];
      forall j | 0 <= j < |ds| ensures t[j].1 == ds[j].Name() && HasBit(weekVal, t[j].0) == keep(ds[j]) {
        assert t[j] == table[j + 1] && ds[j] == days[j + 1];
      }
      BitNamesAgree(t, ds, weekVal, keep);
      var head := if keep(days[0]) then [days[0]] else [];
      FilterDaysCons(days, keep);
      DayNamesAppend(head, FilterDays(ds, keep));
      assert DayNames(head) == if HasBit(weekVal, table[0].0) then [table[0].1] else [];
    }
  }

  /** Filtering a non-empty list: the first day if it is kept, then the rest filtered. */
  lemma FilterDaysCons(days: seq<Weekday>, keep: Weekday -> bool)
    requires days != []
    ensures FilterDays(days, keep) == (if keep(days[0]) then [days[0]] else []) + FilterDays(days[1..], keep)
  {
  }

  /** Naming a concatenation names each part. */
  lemma DayNamesAppend(xs: seq<Weekday>, ys: seq<Weekday>)
    ensures DayNames(xs + ys) == DayNames(xs) + DayNames(ys)
  {
    assert forall i :: 0 <= i < |xs| ==> (xs + ys)[i] == xs[i];
    assert forall i :: |xs| <= i < |xs + ys| ==> (xs + ys)[i] == ys[i - |xs|];
  }

  /** The script's day names are those of the decoder's day list: the set bits, sun first. */
  lemma WeekNamesAgree(weekVal: byte)
    ensures WeekNames(weekVal) == DayNames(DaysInMask(weekVal as bv8))
  {
    WeekBitsTable();
    var mask := weekVal as bv8;
    BitNamesAgree(WeekBits, DayOrder, mask, (d: Weekday) => mask & d.Bit() != 0);
  }

  /** The dictionary at `off` is the decoder's slot at `off`, written as a dictionary. */
  lemma SlotDictAgrees(s: seq<byte>, off: nat)
    requires off + 5 <= |s|
    ensures SlotDictAt(s, off) == View(SlotAt(s, off))
  {
    WeekNamesAgree(s[off]);
  }

  /**
   * The script and the decoder read a 0x11 data section alike: the same
   * offset rule, the same number of slots, and each dictionary is the
   * decoder's slot with its days named and its time written out.
   */
  lemma PocAgreesWithDecoder(s: seq<byte>)
    ensures PocOffset(s) == PlanOffset(s)
    ensures |PocSlots(s)| == |FeedPlanSlots(s)|
    ensures forall k :: 0 <= k < |PocSlots(s)| ==> PocSlots(s)[k] == View(FeedPlanSlots(s)[k])
  {
    var poc, plan := PocSlots(s), FeedPlanSlots(s);
    forall k | 0 <= k < |poc| ensures poc[k] == View(plan[k]) {
      var off := PlanOffset(s) + 5 * k;
      assert poc[k] == SlotDictAt(s, off) && plan[k] == SlotAt(s, off);
      SlotDictAgrees(s, off);
    }
  }

  /** The decoder adds the slots to its result exactly when the script's list is not empty. */
  lemma PocSlotsInDecoderResult(s: seq<byte>)
    ensures FieldsOf(CmdQueryFeederPlan, s) == if PocSlots(s) == [] then NoFields else FeedPlan(FeedPlanSlots(s))
  {
  }

  // ---------------------------------------------------------------- the command-line address

  /** The address argument: trimmed, upper-cased, hyphens made colons, then 12 bare characters paired. */
  function CliAddress(arg: string): string {
    NormaliseAddress(Replace(Upper(Strip(arg)), '-', ':'))
  }

  /** The script's step-by-step reassignment of `address`. */
  method NormaliseCliAddress(arg: string) returns (address: string)
    ensures address == CliAddress(arg)
  {
    address := Strip(arg);
    address := Upper(address);
    address := Replace(address, '-', ':');
    if |address| == 12 && ':' !in address {
      address := ColonPairs(address);
    } else {
      assert ':' in address ==> HasColon(address);
    }
  }

  /** Every character of a pairing is a colon or a character of the input. */
  lemma {:induction false} ColonPairsChars(a: string)
    ensures forall c :: c in ColonPairs(a) ==> c == ':' || c in a
    decreases |a|
  {
    if |a| > 2 {
      ColonPairsChars(a[2..]);
      assert a == a[..2] + a[2..];
      forall c | c in a[2..] ensures c in a {
      }
      forall c | c in a[..2] ensures c in a {
      }
    }
  }

  /** Turning hyphens into colons leaves twelve colon-free characters exactly when there were twelve with neither. */
  lemma PairingCondition(u: string)
    ensures var a := Replace(u, '-', ':');
      (|a| == 12 && !HasColon(a)) <==> (|u| == 12 && '-' !in u && ':' !in u)
    ensures '-' !in u ==> Replace(u, '-', ':') == u
  {
    var a := Replace(u, '-', ':');
    if |u| == 12 && '-' !in u && ':' !in u {
      assert !HasColon(a) by {
        forall i | 0 <= i < |a| ensures a[i] != ':' {
          assert u[i] != ':' && u[i] != '-';
        }
      }
    } else if |a| == 12 {
      if ':' in u {
        var i :| 0 <= i < |u| && u[i] == ':';
        assert a[i] == ':';
      } else {
        var i :| 0 <= i < |u| && u[i] == '-';
        assert a[i] == ':';
      }
    }
    if '-' !in u {
      forall i | 0 <= i < |u| ensures a[i] == u[i] {
        assert u[i] != '-';
      }
    }
  }

  /** Twelve colon-free characters paired: 17 characters with a colon exactly at every third place. */
  lemma PairsOfTwelveLayout(a: string)
    requires |a| == 12 && !HasColon(a)
    ensures |ColonPairs(a)| == 17
    ensures forall i :: 0 <= i < 17 ==> (ColonPairs(a)[i] == ':' <==> i % 3 == 2)
  {
    ColonPairsOfTwelve(a);
    var r := ColonPairs(a);
    forall i | 0 <= i < 17 ensures r[i] == ':' <==> i % 3 == 2 {
      if i % 3 != 2 {
        assert r[i] == a[i - i / 3];
      }
    }
  }

  /** The address holds no hyphen and no lower-case ASCII letter. */
  lemma CliAddressChars(arg: string)
    ensures forall c :: c in CliAddress(arg) ==> c != '-' && !('a' <= c <= 'z')
  {
    var a := Replace(Upper(Strip(arg)), '-', ':');
    forall c | c in a ensures c != '-' && !('a' <= c <= 'z') {
      var i :| 0 <= i < |a| && a[i] == c;
    }
    ColonPairsChars(a);
  }

  /**
   * Twelve characters without a hyphen or colon become six colon-separated
   * pairs that give the characters back once the colons are dropped;
   * anything else is returned with each hyphen turned into a colon.
   */
  lemma CliAddressPairs(arg: string)
    ensures var u := Upper(Strip(arg));
      |u| == 12 && '-' !in u && ':' !in u ==>
        |CliAddress(arg)| == 17 && RemoveColons(CliAddress(arg)) == u &&
        forall i :: 0 <= i < 17 ==> (CliAddress(arg)[i] == ':' <==> i % 3 == 2)
    ensures var u := Upper(Strip(arg));
      !(|u| == 12 && '-' !in u && ':' !in u) ==> CliAddress(arg) == Replace(u, '-', ':')
  {
    var u := Upper(Strip(arg));
    PairingCondition(u);
    if |u| == 12 && '-' !in u && ':' !in u {
      PairsOfTwelveLayout(u);
      ColonPairsRoundTrip(u);
    }
  }
}
