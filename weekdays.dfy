/**
 * Weekdays and the one-byte weekday mask of a feed-plan slot: the
 * `WEEKDAY_BITMASK` table and `Weekday` constants of feeder.py, the
 * `week_value |= ...` accumulation of `FeedSchedule.to_bytes`, and the
 * sun..sat bit listing used when a slot is decoded.
 */
module Weekdays {
  import opened Text

  datatype Weekday = Sun | Mon | Tue | Wed | Thu | Fri | Sat {

    /** The lower-case name used as a key of the bitmask table. */
    function Name(): string {
      match this
      case Sun => "sun"
      case Mon => "mon"
      case Tue => "tue"
      case Wed => "wed"
      case Thu => "thu"
      case Fri => "fri"
      case Sat => "sat"
    }

    /** The day's bit in the week mask. */
    function Bit(): bv8 {
      match this
      case Sun => 1
      case Mon => 2
      case Tue => 4
      case Wed => 8
      case Thu => 16
      case Fri => 32
      case Sat => 64
    }

    /** Position in the sun..sat order. */
    function Index(): nat {
      match this
      case Sun => 0
      case Mon => 1
      case Tue => 2
      case Wed => 3
      case Thu => 4
      case Fri => 5
      case Sat => 6
    }
  }

  /** The order in which a decoded slot lists its days. */
  const DayOrder: seq<Weekday> := [Sun, Mon, Tue, Wed, Thu, Fri, Sat]

  /** `WEEKDAY_BITMASK`: day name to mask bit. */
  const WeekdayBitmask: map<string, bv8> :=
    map["sun" := 1, "mon" := 2, "tue" := 4, "wed" := 8, "thu" := 16, "fri" := 32, "sat" := 64]

  /** `Weekday.ALL_DAYS`, `Weekday.WEEKDAYS` and `Weekday.WEEKEND`. */
  const AllDays: seq<string> := ["sun", "mon", "tue", "wed", "thu", "fri", "sat"]
  const WorkDays: seq<string> := ["mon", "tue", "wed", "thu", "fri"]
  const Weekend: seq<string> := ["sat", "sun"]

  /**
   * The bitmask table has exactly the seven day names as keys, each
   * mapped to that day's bit, and distinct days have distinct bits.
   */
  lemma BitmaskTable()
    ensures forall d: Weekday :: d.Name() in WeekdayBitmask && WeekdayBitmask[d.Name()] == d.Bit()
    ensures forall n :: n in WeekdayBitmask ==> exists d: Weekday :: d.Name() == n
    ensures forall d: Weekday, e: Weekday :: d != e ==> d.Bit() & e.Bit() == 0
    ensures forall d: Weekday :: d.Bit() & 0x80 == 0 && d.Bit() != 0
  {
    forall n | n in WeekdayBitmask ensures exists d: Weekday :: d.Name() == n {
      if n == "sun" { assert Sun.Name() == n; }
      else if n == "mon" { assert Mon.Name() == n; }
      else if n == "tue" { assert Tue.Name() == n; }
      else if n == "wed" { assert Wed.Name() == n; }
      else if n == "thu" { assert Thu.Name() == n; }
      else if n == "fri" { assert Fri.Name() == n; }
      else { assert Sat.Name() == n; }
    }
  }

  /** The bit one name contributes in `to_bytes`: its table value after lower-casing, none if unknown. */
  function NameBit(name: string): bv8 {
    var key := Lower(name);
    if key in WeekdayBitmask then WeekdayBitmask[key] else 0
  }

  /** A name's bit is a day's bit exactly when the name lower-cases to that day. */
  lemma NameBitOf(name: string, d: Weekday)
    ensures NameBit(name) & d.Bit() != 0 <==> Lower(name) == d.Name()
    ensures NameBit(name) & 0x80 == 0
  {
    BitmaskTable();
    var key := Lower(name);
    if key in WeekdayBitmask {
      var e: Weekday :| e.Name() == key;
      assert NameBit(name) == e.Bit();
      assert d.Name() == e.Name() <==> d == e;
    }
  }

  /** `week_value` after `to_bytes` has folded `names` in, left to right. */
  function NamesMask(names: seq<string>): (m: bv8)
    ensures m & 0x80 == 0
  {
    if names == [] then 0
    else
      var last := names[|names| - 1];
      NameBitOf(last, Sun);
      NamesMask(names[..|names| - 1]) | NameBit(last)
  }

  /** Some name in `names` lower-cases to the name of `d`. */
  predicate Named(names: seq<string>, d: Weekday) {
    exists i | 0 <= i < |names| :: Lower(names[i]) == d.Name()
  }

  /**
   * The mask has a day's bit exactly when some name lower-cases to that
   * day; unknown names contribute nothing.
   */
  lemma {:induction false} NamesMaskBit(names: seq<string>, d: Weekday)
    ensures NamesMask(names) & d.Bit() != 0 <==> Named(names, d)
  {
    if names != [] {
      var init, last := names[..|names| - 1], names[|names| - 1];
      NamesMaskBit(init, d);
      NameBitOf(last, d);
      OrHasBit(NamesMask(init), NameBit(last), d.Bit());
      NamedSnoc(init, last, d);
      assert init + [last] == names;
    }
  }

  /** A bit of `x | y` is set exactly when it is set in `x` or in `y`. */
  lemma OrHasBit(x: bv8, y: bv8, b: bv8)
    ensures (x | y) & b != 0 <==> x & b != 0 || y & b != 0
  {
  }

  /** Appending a name adds exactly the day that name refers to. */
  lemma NamedSnoc(init: seq<string>, last: string, d: Weekday)
    ensures Named(init + [last], d) <==> Named(init, d) || Lower(last) == d.Name()
  {
    var names := init + [last];
    if Named(init, d) {
      var i :| 0 <= i < |init| && Lower(init[i]) == d.Name();
      assert names[i] == init[i];
    }
    if Lower(last) == d.Name() {
      assert names[|init|] == last;
    }
    if Named(names, d) && !Named(init, d) {
      var i :| 0 <= i < |names| && Lower(names[i]) == d.Name();
      if i < |init| {
        assert names[i] == init[i];
      }
    }
  }

  /**
   * Order and duplicates of the names do not matter: two lists naming the
   * same days give the same mask.
   */
  lemma NamesMaskOnlyDependsOnDays(names1: seq<string>, names2: seq<string>)
    requires forall d: Weekday :: Named(names1, d) <==> Named(names2, d)
    ensures NamesMask(names1) == NamesMask(names2)
  {
    var m1, m2 := NamesMask(names1), NamesMask(names2);
    NamesMaskBit(names1, Sun); NamesMaskBit(names2, Sun);
    NamesMaskBit(names1, Mon); NamesMaskBit(names2, Mon);
    NamesMaskBit(names1, Tue); NamesMaskBit(names2, Tue);
    NamesMaskBit(names1, Wed); NamesMaskBit(names2, Wed);
    NamesMaskBit(names1, Thu); NamesMaskBit(names2, Thu);
    NamesMaskBit(names1, Fri); NamesMaskBit(names2, Fri);
    NamesMaskBit(names1, Sat); NamesMaskBit(names2, Sat);
    assert m1 & 0x80 == 0 && m2 & 0x80 == 0;
  }

  /** Keeps the days of `days` that satisfy `keep`, in their order. */
  function FilterDays(days: seq<Weekday>, keep: Weekday -> bool): (r: seq<Weekday>)
    ensures forall d :: d in r <==> d in days && keep(d)
  {
    if days == [] then []
    else
      var rest := FilterDays(days[1..], keep);
      assert forall d :: d in days <==> d == days[0] || d in days[1..];
      if keep(days[0]) then [days[0]] + rest else rest
  }

  /** Days listed in strictly increasing sun..sat position. */
  predicate InDayOrder(days: seq<Weekday>) {
    forall i, j :: 0 <= i < j < |days| ==> days[i].Index() < days[j].Index()
  }

  /** Filtering keeps the sun..sat order of its input. */
  lemma {:induction false} FilterDaysInOrder(days: seq<Weekday>, keep: Weekday -> bool)
    requires InDayOrder(days)
    ensures InDayOrder(FilterDays(days, keep))
  {
    if days != [] {
      FilterDaysInOrder(days[1..], keep);
      var rest := FilterDays(days[1..], keep);
      forall k | 0 <= k < |rest| ensures days[0].Index() < rest[k].Index() {
        assert rest[k] in days[1..];
        var m :| 0 <= m < |days[1..]| && days[1..][m] == rest[k];
        assert days[m + 1] == rest[k];
      }
    }
  }

  /** Filtering with two tests that agree on every day gives the same list. */
  lemma {:induction false} FilterDaysAgree(days: seq<Weekday>, p: Weekday -> bool, q: Weekday -> bool)
    requires forall d :: d in days ==> p(d) == q(d)
    ensures FilterDays(days, p) == FilterDays(days, q)
  {
    if days != [] {
      FilterDaysAgree(days[1..], p, q);
    }
  }

  /** `[d for bit, d in ... if week_val & bit]`: the days of a mask, sun first. */
  function DaysInMask(mask: bv8): seq<Weekday> {
    FilterDays(DayOrder, (d: Weekday) => mask & d.Bit() != 0)
  }

  /** The days that some name in `names` refers to, in sun..sat order. */
  function NamedDays(names: seq<string>): seq<Weekday> {
    FilterDays(DayOrder, (d: Weekday) => Named(names, d))
  }

  /** Every day occurs in `DayOrder`, which is in sun..sat order. */
  lemma DayOrderComplete()
    ensures forall d: Weekday :: d in DayOrder
    ensures InDayOrder(DayOrder)
  {
    forall d: Weekday ensures d in DayOrder {
      assert DayOrder[d.Index()] == d;
    }
  }

  /**
   * The decoded day list holds each day whose bit is set, exactly once,
   * in sun..sat order.
   */
  lemma DaysInMaskListing(mask: bv8)
    ensures forall d :: d in DaysInMask(mask) <==> mask & d.Bit() != 0
    ensures InDayOrder(DaysInMask(mask))
  {
    DayOrderComplete();
    FilterDaysInOrder(DayOrder, (d: Weekday) => mask & d.Bit() != 0);
  }

  /** The unused top bit 0x80 of a mask plays no part in decoding. */
  lemma DaysInMaskIgnoresTopBit(mask: bv8)
    ensures DaysInMask(mask) == DaysInMask(mask & 0x7F)
  {
    forall d: Weekday ensures (mask & d.Bit() != 0) == ((mask & 0x7F) & d.Bit() != 0) {
      match d
      case Sun => case Mon => case Tue => case Wed => case Thu => case Fri => case Sat =>
    }
    FilterDaysAgree(DayOrder, (d: Weekday) => mask & d.Bit() != 0, (d: Weekday) => (mask & 0x7F) & d.Bit() != 0);
  }

  /**
   * Decoding the mask that `to_bytes` builds lists exactly the named days,
   * in sun..sat order, whatever the order or repetition of the names.
   */
  lemma DaysOfNamesMask(names: seq<string>)
    ensures DaysInMask(NamesMask(names)) == NamedDays(names)
  {
    var m := NamesMask(names);
    forall d | d in DayOrder ensures (m & d.Bit() != 0) == Named(names, d) {
      NamesMaskBit(names, d);
    }
    FilterDaysAgree(DayOrder, (d: Weekday) => m & d.Bit() != 0, (d: Weekday) => Named(names, d));
  }
}
