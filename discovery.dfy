/**
 * Feeder discovery in protocol.py: recognising a feeder by its advertised
 * name, classifying its device type, normalising its address and keeping
 * the first sighting of each address. The radio scan itself is an input:
 * the sequence of advertisements it returned.
 */
module Discovery {
  import opened Common
  import opened Text

  /** `FEEDER_NAME_PREFIXES`, compared after upper-casing. */
  const FeederNamePrefixes: seq<string> := ["Du", "JK", "ALI", "PET", "FEED"]

  /** The three device types, written "standard", "jk" and "ali" by the library. */
  datatype DeviceType = Standard | Jk | Ali {
    function Text(): string {
      match this
      case Standard => "standard"
      case Jk => "jk"
      case Ali => "ali"
    }
  }

  predicate StartsWith(s: string, prefix: string) {
    |prefix| <= |s| && s[..|prefix|] == prefix
  }

  /** `_is_feeder_by_name`: the trimmed, upper-cased name starts with a known prefix. */
  predicate IsFeederByName(name: string) {
    if name == [] || Strip(name) == [] then false
    else
      var upper := Upper(Strip(name));
      exists p | p in FeederNamePrefixes :: StartsWith(upper, Upper(p))
  }

  /** The prefixes as they are compared. */
  lemma UpperPrefixes()
    ensures Upper(FeederNamePrefixes[0]) == "DU" && Upper(FeederNamePrefixes[1]) == "JK"
    ensures Upper(FeederNamePrefixes[2]) == "ALI" && Upper(FeederNamePrefixes[3]) == "PET"
    ensures Upper(FeederNamePrefixes[4]) == "FEED"
  {
  }

  /** A feeder name is one that, trimmed and upper-cased, starts with DU, JK, ALI, PET or FEED. */
  lemma FeederNameRule(name: string)
    ensures IsFeederByName(name) <==>
      var u := Upper(Strip(name));
      StartsWith(u, "DU") || StartsWith(u, "JK") || StartsWith(u, "ALI") || StartsWith(u, "PET") || StartsWith(u, "FEED")
  {
    UpperPrefixes();
    var u := Upper(Strip(name));
    var ps := FeederNamePrefixes;
    assert forall p :: p in ps <==> p == ps[0] || p == ps[1] || p == ps[2] || p == ps[3] || p == ps[4];
    if name == [] {
      assert Strip(name) == [];
    }
  }

  /**
   * `detect_device_type`: no name gives "standard"; otherwise "jk" when the
   * upper-cased name contains JK, else "ali" when it contains ALI, else
   * "standard".
   */
  function DetectDeviceType(name: Option<string>): DeviceType {
    if name.None? || name.value == [] then Standard
    else
      var upper := Upper(name.value);
      if Contains(upper, "JK") then Jk
      else if Contains(upper, "ALI") || Contains(upper, "ALIBABA") then Ali
      else Standard
  }

  /** The "ALIBABA" test adds nothing: a name containing it already contains ALI. */
  lemma AlibabaContainsAli(s: string)
    ensures Contains(s, "ALIBABA") ==> Contains(s, "ALI")
  {
    if Contains(s, "ALIBABA") {
      ContainsSlice(s, "ALIBABA", 0, 3);
      assert "ALIBABA"[0..3] == "ALI";
    }
  }

  /** Each device type and exactly when it is chosen. */
  lemma DeviceTypeRule(name: Option<string>)
    ensures var t := DetectDeviceType(name);
      && (t == Jk <==> name.Some? && Contains(Upper(name.value), "JK"))
      && (t == Ali <==> name.Some? && !Contains(Upper(name.value), "JK") && Contains(Upper(name.value), "ALI"))
      && (t == Standard <==> name.None? || (!Contains(Upper(name.value), "JK") && !Contains(Upper(name.value), "ALI")))
  {
    if name.Some? {
      AlibabaContainsAli(Upper(name.value));
      if name.value == [] {
        assert !Contains(Upper(name.value), "JK") && !Contains(Upper(name.value), "ALI");
      }
    }
  }

  predicate HasColon(s: string) {
    exists i | 0 <= i < |s| :: s[i] == ':'
  }

  /** `":".join(a[i:i+2] for i in range(0, len(a), 2))`. */
  function ColonPairs(a: string): (r: string)
    ensures |a| <= |r|
    decreases |a|
  {
    if |a| <= 2 then a else a[..2] + ":" + ColonPairs(a[2..])
  }

  /** Twelve characters become the six pairs joined by colons, 17 characters in all. */
  lemma ColonPairsOfTwelve(a: string)
    requires |a| == 12
    ensures ColonPairs(a) == a[0..2] + ":" + a[2..4] + ":" + a[4..6] + ":" + a[6..8] + ":" + a[8..10] + ":" + a[10..12]
    ensures |ColonPairs(a)| == 17
  {
    assert a[2..][2..] == a[4..] && a[4..][2..] == a[6..] && a[6..][2..] == a[8..] && a[8..][2..] == a[10..];
    assert a[2..][..2] == a[2..4] && a[4..][..2] == a[4..6] && a[6..][..2] == a[6..8] && a[8..][..2] == a[8..10];
    assert ColonPairs(a[8..]) == a[8..10] + ":" + a[10..12];
    assert ColonPairs(a[6..]) == a[6..8] + ":" + ColonPairs(a[8..]);
    assert ColonPairs(a[4..]) == a[4..6] + ":" + ColonPairs(a[6..]);
    assert ColonPairs(a[2..]) == a[2..4] + ":" + ColonPairs(a[4..]);
  }

  /** Drops every colon. */
  function RemoveColons(s: string): (r: string)
    ensures !HasColon(r)
    ensures |r| <= |s|
  {
    if s == [] then []
    else (if s[0] == ':' then [] else [s[0]]) + RemoveColons(s[1..])
  }

  lemma {:induction false} RemoveColonsAppend(a: string, b: string)
    ensures RemoveColons(a + b) == RemoveColons(a) + RemoveColons(b)
  {
    if a == [] {
      assert a + b == b;
    } else {
      assert (a + b)[0] == a[0];
      assert (a + b)[1..] == a[1..] + b;
      RemoveColonsAppend(a[1..], b);
    }
  }

  /** Removing the inserted colons gives back the colon-free input. */
  lemma {:induction false} ColonPairsRoundTrip(a: string)
    requires !HasColon(a)
    ensures RemoveColons(ColonPairs(a)) == a
    decreases |a|
  {
    if |a| <= 2 {
      RemoveColonsNone(a);
    } else {
      var head, rest := a[..2], ColonPairs(a[2..]);
      SplitPair(a);
      ColonPairsRoundTrip(a[2..]);
      assert (":" + rest)[1..] == rest;
      assert RemoveColons(":" + rest) == RemoveColons(rest);
      RemoveColonsAppend(head, ":" + rest);
      assert ColonPairs(a) == head + (":" + rest);
      assert a == head + a[2..];
    }
  }

  /** A colon-free string splits into a colon-free pair and a colon-free rest. */
  lemma SplitPair(a: string)
    requires |a| > 2 && !HasColon(a)
    ensures RemoveColons(a[..2]) == a[..2]
    ensures !HasColon(a[2..])
  {
    var head := a[..2];
    assert a[0] != ':' && a[1] != ':';
    assert head[1..] == [a[1]];
    assert head[1..][1..] == [];
    forall i | 0 <= i < |a[2..]| ensures a[2..][i] != ':' {
      assert a[2..][i] == a[i + 2];
    }
  }

  lemma {:induction false} RemoveColonsNone(s: string)
    requires !HasColon(s)
    ensures RemoveColons(s) == s
  {
    if s != [] {
      assert s[0] != ':';
      assert !HasColon(s[1..]) by {
        forall i | 0 <= i < |s[1..]| ensures s[1..][i] != ':' {
          assert s[1..][i] == s[i + 1];
        }
      }
      RemoveColonsNone(s[1..]);
    }
  }

  /** A 12-character address without colons gets a colon after every two characters; others are kept. */
  function NormaliseAddress(addr: string): string {
    if |addr| == 12 && !HasColon(addr) then ColonPairs(addr) else addr
  }

  /** Normalising twice changes nothing further. */
  lemma NormaliseAddressIdempotent(addr: string)
    ensures NormaliseAddress(NormaliseAddress(addr)) == NormaliseAddress(addr)
  {
    if |addr| == 12 && !HasColon(addr) {
      ColonPairsOfTwelve(addr);
    }
  }

  /** One result of a scan as bleak reports it: an address and perhaps a name. */
  datatype Advertisement = Advertisement(address: string, name: Option<string>)

  /** One entry of the discovery result: `(address, name, device_type)`. */
  datatype FoundFeeder = FoundFeeder(address: string, name: string, deviceType: DeviceType)

  /** `(d.name or "").strip()`. */
  function AdvertisedName(ad: Advertisement): string {
    Strip(ad.name.GetOr(""))
  }

  /** A scan result the discovery keeps: its trimmed name is a feeder name. */
  predicate Qualifies(ad: Advertisement) {
    IsFeederByName(AdvertisedName(ad))
  }

  /** The address under which a scan result is reported and deduplicated. */
  function AddressOf(ad: Advertisement): string {
    NormaliseAddress(ad.address)
  }

  /** The entry reported for a kept scan result. */
  function FoundOf(ad: Advertisement): FoundFeeder
  {
    var name := AdvertisedName(ad);
    FoundFeeder(AddressOf(ad), name, DetectDeviceType(Some(name)))
  }

  /**
   * The items of `xs` that pass `keep` and whose key is neither in `seen`
   * nor the key of an earlier kept item, in their order: the seen-set loop
   * of the discovery.
   */
  function FirstSightings<T>(xs: seq<T>, keep: T -> bool, key: T -> string, seen: set<string>): (r: seq<T>)
    ensures |r| <= |xs|
    decreases |xs|
  {
    if xs == [] then []
    else if keep(xs[0]) && key(xs[0]) !in seen then [xs[0]] + FirstSightings(xs[1..], keep, key, seen + {key(xs[0])})
    else FirstSightings(xs[1..], keep, key, seen)
  }

  /** One step of the seen-set loop: the item at `i` is kept or skipped, and the rest follows. */
  lemma FirstSightingsStep<T>(xs: seq<T>, keep: T -> bool, key: T -> string, i: nat, kept: seq<T>, seen: set<string>)
    requires i < |xs| && kept + FirstSightings(xs[i..], keep, key, seen) == FirstSightings(xs, keep, key, {})
    ensures keep(xs[i]) && key(xs[i]) !in seen ==>
      (kept + [xs[i]]) + FirstSightings(xs[i + 1..], keep, key, seen + {key(xs[i])}) == FirstSightings(xs, keep, key, {})
    ensures !(keep(xs[i]) && key(xs[i]) !in seen) ==>
      kept + FirstSightings(xs[i + 1..], keep, key, seen) == FirstSightings(xs, keep, key, {})
  {
    assert xs[i..][0] == xs[i] && xs[i..][1..] == xs[i + 1..];
  }

  /** When the loop has seen every item, the kept items are the whole result. */
  lemma FirstSightingsDone<T>(xs: seq<T>, keep: T -> bool, key: T -> string, kept: seq<T>, seen: set<string>)
    requires kept + FirstSightings(xs[|xs|..], keep, key, seen) == FirstSightings(xs, keep, key, {})
    ensures kept == FirstSightings(xs, keep, key, {})
  {
    assert xs[|xs|..] == [];
  }

  /** The result of `discover_feeders` for the advertisements a scan returned. */
  function Discovered(ads: seq<Advertisement>): (r: seq<FoundFeeder>)
    ensures |r| <= |ads|
  {
    FoundAll(FirstSightings(ads, Qualifies, AddressOf, {}))
  }

  /** The entries reported for the kept scan results, in their order. */
  function FoundAll(kept: seq<Advertisement>): (r: seq<FoundFeeder>)
    ensures |r| == |kept|
  {
    seq(|kept|, k requires 0 <= k < |kept| => FoundOf(kept[k]))
  }

  lemma FoundAllSnoc(kept: seq<Advertisement>, d: Advertisement)
    ensures FoundAll(kept + [d]) == FoundAll(kept) + [FoundOf(d)]
  {
    var l, r := FoundAll(kept + [d]), FoundAll(kept) + [FoundOf(d)];
    forall k | 0 <= k < |l| ensures l[k] == r[k] {
      if k < |kept| {
        assert (kept + [d])[k] == kept[k];
      } else {
        assert (kept + [d])[k] == d;
      }
    }
  }

  function Addresses(found: seq<FoundFeeder>): set<string> {
    set i | 0 <= i < |found| :: found[i].address
  }

  /** `discover_feeders` after the scan: filter, normalise, deduplicate, classify. */
  method DiscoverFeeders(ads: seq<Advertisement>) returns (result: seq<FoundFeeder>)
    ensures result == Discovered(ads)
  {
    result := [];
    var seen: set<string> := {};
    ghost var kept: seq<Advertisement> := [];
    for i := 0 to |ads|
      invariant kept + FirstSightings(ads[i..], Qualifies, AddressOf, seen) == FirstSightings(ads, Qualifies, AddressOf, {})
      invariant result == FoundAll(kept)
    {
      var d := ads[i];
      FirstSightingsStep(ads, Qualifies, AddressOf, i, kept, seen);
      var name := AdvertisedName(d);
      if !IsFeederByName(name) {
        continue;
      }
      var addr := d.address;
      if |addr| == 12 && !HasColon(addr) {
        addr := ColonPairs(addr);
      }
      if addr in seen {
        continue;
      }
      seen := seen + {addr};
      var devType := DetectDeviceType(Some(name));
      FoundAllSnoc(kept, d);
      result := result + [FoundFeeder(addr, name, devType)];
      kept := kept + [d];
    }
    FirstSightingsDone(ads, Qualifies, AddressOf, kept, seen);
  }

  /** The position in `xs` of the `k`-th item `FirstSightings` keeps. */
  function SightingIndex<T>(xs: seq<T>, keep: T -> bool, key: T -> string, seen: set<string>, k: nat): nat
    requires k < |FirstSightings(xs, keep, key, seen)|
    decreases |xs|
  {
    var take := keep(xs[0]) && key(xs[0]) !in seen;
    if take && k == 0 then 0
    else 1 + SightingIndex(xs[1..], keep, key, if take then seen + {key(xs[0])} else seen, if take then k - 1 else k)
  }

  /** The `k`-th kept item is the item at its position; it passes `keep` and its key was not in `seen`. */
  lemma {:induction false} SightingIndexPick<T>(xs: seq<T>, keep: T -> bool, key: T -> string, seen: set<string>, k: nat)
    requires k < |FirstSightings(xs, keep, key, seen)|
    ensures var i := SightingIndex(xs, keep, key, seen, k);
      i < |xs| && keep(xs[i]) && FirstSightings(xs, keep, key, seen)[k] == xs[i] &&
      key(FirstSightings(xs, keep, key, seen)[k]) !in seen
    decreases |xs|
  {
    var take := keep(xs[0]) && key(xs[0]) !in seen;
    if !(take && k == 0) {
      var seen' := if take then seen + {key(xs[0])} else seen;
      var k' := if take then k - 1 else k;
      SightingIndexPick(xs[1..], keep, key, seen', k');
      var i' := SightingIndex(xs[1..], keep, key, seen', k');
      assert xs[1..][i'] == xs[1 + i'];
      assert FirstSightings(xs, keep, key, seen)[k] == FirstSightings(xs[1..], keep, key, seen')[k'];
    }
  }

  /** Later kept items sit at later positions. */
  lemma {:induction false} SightingIndexIncreasing<T>(xs: seq<T>, keep: T -> bool, key: T -> string, seen: set<string>, k: nat, l: nat)
    requires k < l < |FirstSightings(xs, keep, key, seen)|
    ensures SightingIndex(xs, keep, key, seen, k) < SightingIndex(xs, keep, key, seen, l)
    decreases |xs|
  {
    var take := keep(xs[0]) && key(xs[0]) !in seen;
    if !(take && k == 0) {
      var seen' := if take then seen + {key(xs[0])} else seen;
      SightingIndexIncreasing(xs[1..], keep, key, seen', if take then k - 1 else k, if take then l - 1 else l);
    }
  }

  /** No item before a kept item's position passes `keep` with the same key. */
  lemma {:induction false} SightingIndexFirst<T>(xs: seq<T>, keep: T -> bool, key: T -> string, seen: set<string>, k: nat, j: nat)
    requires k < |FirstSightings(xs, keep, key, seen)|
    requires j < SightingIndex(xs, keep, key, seen, k) && j < |xs| && keep(xs[j])
    ensures key(xs[j]) != key(FirstSightings(xs, keep, key, seen)[k])
    decreases |xs|
  {
    var take := keep(xs[0]) && key(xs[0]) !in seen;
    var seen' := if take then seen + {key(xs[0])} else seen;
    var k' := if take then k - 1 else k;
    assert FirstSightings(xs, keep, key, seen)[k] == FirstSightings(xs[1..], keep, key, seen')[k'];
    SightingIndexPick(xs[1..], keep, key, seen', k');
    if j > 0 {
      assert xs[1..][j - 1] == xs[j];
      SightingIndexFirst(xs[1..], keep, key, seen', k', j - 1);
    }
  }

  /**
   * Each kept item is an item of `xs` that passes `keep`, taken in order,
   * whose key was not in `seen` and is not the key of any earlier item
   * that passes `keep`.
   */
  lemma FirstSightingsSources<T>(xs: seq<T>, keep: T -> bool, key: T -> string, seen: set<string>)
      returns (src: seq<nat>)
    ensures var r := FirstSightings(xs, keep, key, seen);
      && |src| == |r|
      && (forall k :: 0 <= k < |src| ==> src[k] < |xs| && keep(xs[src[k]]) && r[k] == xs[src[k]] && key(r[k]) !in seen)
      && (forall k, l :: 0 <= k < l < |src| ==> src[k] < src[l])
      && (forall k, j :: 0 <= k < |src| && 0 <= j < src[k] && keep(xs[j]) ==> key(xs[j]) != key(r[k]))
  {
    var r := FirstSightings(xs, keep, key, seen);
    src := seq(|r|, k requires 0 <= k < |r| => SightingIndex(xs, keep, key, seen, k));
    forall k | 0 <= k < |src|
      ensures src[k] < |xs| && keep(xs[src[k]]) && r[k] == xs[src[k]] && key(r[k]) !in seen
    {
      SightingIndexPick(xs, keep, key, seen, k);
    }
    forall k, l | 0 <= k < l < |src| ensures src[k] < src[l] {
      SightingIndexIncreasing(xs, keep, key, seen, k, l);
    }
    forall k, j | 0 <= k < |src| && 0 <= j < src[k] && keep(xs[j]) ensures key(xs[j]) != key(r[k]) {
      SightingIndexFirst(xs, keep, key, seen, k, j);
    }
  }

  /** Every item that passes `keep` and whose key was not seen before has its key among the kept items. */
  lemma {:induction false} FirstSightingsComplete<T>(xs: seq<T>, keep: T -> bool, key: T -> string, seen: set<string>, j: nat)
    requires j < |xs| && keep(xs[j]) && key(xs[j]) !in seen
    ensures exists k :: 0 <= k < |FirstSightings(xs, keep, key, seen)| && key(FirstSightings(xs, keep, key, seen)[k]) == key(xs[j])
    decreases |xs|
  {
    var take := keep(xs[0]) && key(xs[0]) !in seen;
    var seen' := if take then seen + {key(xs[0])} else seen;
    var r := FirstSightings(xs, keep, key, seen);
    var r' := FirstSightings(xs[1..], keep, key, seen');
    assert r == if take then [xs[0]] + r' else r';
    if j == 0 || (take && key(xs[j]) == key(xs[0])) {
      assert key(r[0]) == key(xs[j]);
    } else {
      assert xs[1..][j - 1] == xs[j];
      FirstSightingsComplete(xs[1..], keep, key, seen', j - 1);
      var k :| 0 <= k < |r'| && key(r'[k]) == key(xs[j]);
      if take {
        assert r[k + 1] == r'[k];
      }
    }
  }

  /**
   * The discovery result lists each feeder address once, for the first
   * qualifying sighting of that address, in scan order, with the trimmed
   * name and its device type, and misses no qualifying address.
   */
  lemma DiscoveredSpec(ads: seq<Advertisement>) returns (src: seq<nat>)
    ensures var r := Discovered(ads);
      && |src| == |r|
      && (forall k :: 0 <= k < |src| ==> src[k] < |ads| && Qualifies(ads[src[k]]) && r[k] == FoundOf(ads[src[k]]))
      && (forall k, l :: 0 <= k < l < |src| ==> src[k] < src[l])
      && (forall k, j :: 0 <= k < |src| && 0 <= j < src[k] && Qualifies(ads[j]) ==> AddressOf(ads[j]) != r[k].address)
      && (forall k, l :: 0 <= k < l < |r| ==> r[k].address != r[l].address)
      && (forall j :: 0 <= j < |ads| && Qualifies(ads[j]) ==> AddressOf(ads[j]) in Addresses(r))
  {
    var kept := FirstSightings(ads, Qualifies, AddressOf, {});
    src := FirstSightingsSources(ads, Qualifies, AddressOf, {});
    var r := Discovered(ads);
    assert r == FoundAll(kept);
    forall k, l | 0 <= k < l < |r| ensures r[k].address != r[l].address {
      assert src[k] < src[l];
      assert Qualifies(ads[src[k]]);
    }
    forall j | 0 <= j < |ads| && Qualifies(ads[j]) ensures AddressOf(ads[j]) in Addresses(r) {
      FirstSightingsComplete(ads, Qualifies, AddressOf, {}, j);
      var k :| 0 <= k < |kept| && AddressOf(kept[k]) == AddressOf(ads[j]);
      assert r[k].address == AddressOf(ads[j]);
    }
  }
}
