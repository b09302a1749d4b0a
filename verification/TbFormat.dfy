/** The timetable broadcast (TB): its bytes, how the master builds them and how a node reads them. */
module TbFormat {
  import opened Bytes

  const PROTOCOL_VERSION := 3
  const TB_TYPE := 5
  const TB_HEADER := 18
  const DEFAULT_VALIDITY_DELAY := 1000  // microseconds
  const DEFAULT_TIMESLOT_SIZE := 200    // milliseconds

  /** The four `unsigned long int` fields of a timetable, times in nanoseconds. */
  datatype TimeTable = TimeTable(localSlot: nat, sync: nat, slotSize: nat, tableSize: nat)

  /** `local_slot = -1` in an unsigned field. */
  const NO_SLOT: nat := U64 - 1

  // Fields, by the offsets at which every reader finds them.

  function Sender(b: seq<byte>): Ip
    requires |b| >= TB_HEADER
  {
    Ip(b[1], b[2])
  }

  function Pbid(b: seq<byte>): int
    requires |b| >= TB_HEADER
  {
    ShortAt(b, 3)
  }

  function Stamp(b: seq<byte>): nat
    requires |b| >= TB_HEADER
  {
    UnLe(b[5..13])
  }

  function Validity(b: seq<byte>): nat
    requires |b| >= TB_HEADER
  {
    U16At(b, 13)
  }

  function SlotMs(b: seq<byte>): nat
    requires |b| >= TB_HEADER
  {
    b[15]
  }

  function Count(b: seq<byte>): int
    requires |b| >= TB_HEADER
  {
    ShortAt(b, 16)
  }

  function BitmapBytes(n: nat): nat {
    (n + 7) / 8
  }

  /** The length that a reader of `b` relies on without checking it. */
  predicate Readable(b: seq<byte>) {
    |b| >= TB_HEADER && (Count(b) > 0 ==> |b| >= TB_HEADER + 2 * Count(b) + BitmapBytes(Count(b)))
  }

  function IpAt(b: seq<byte>, i: nat): Ip
    requires TB_HEADER + 2 * i + 2 <= |b|
  {
    Ip(b[TB_HEADER + 2 * i], b[TB_HEADER + 2 * i + 1])
  }

  /** The addresses a reader loops over: none when the count reads as negative. */
  function Ips(b: seq<byte>): (s: seq<Ip>)
    requires Readable(b)
    ensures |s| == if Count(b) > 0 then Count(b) else 0
  {
    if Count(b) > 0 then seq(Count(b), i requires 0 <= i < Count(b) => IpAt(b, i)) else []
  }

  /** Bit `i` of the bitmap behind `n` addresses: the node listed at `i` still owes a TA. */
  predicate Owes(b: seq<byte>, n: nat, i: nat)
    requires TB_HEADER + 2 * n + i / 8 < |b|
  {
    Bit(b[TB_HEADER + 2 * n + i / 8], i % 8)
  }

  /** The position at which `x` first occurs in `s`, or -1. */
  function First(s: seq<Ip>, x: Ip): (r: int)
    ensures -1 <= r < |s|
    ensures r == -1 <==> x !in s
    ensures r >= 0 ==> s[r] == x && x !in s[..r]
  {
    if s == [] then -1
    else if s[0] == x then 0
    else
      var r := First(s[1..], x);
      assert r >= 0 ==> s[..r + 1] == [s[0]] + s[1..][..r];
      if r == -1 then -1 else r + 1
  }

  lemma FirstIs(s: seq<Ip>, x: Ip, r: nat)
    requires r < |s| && s[r] == x && x !in s[..r]
    ensures First(s, x) == r
  {
  }

  /** No address occurs twice. */
  ghost predicate Distinct(s: seq<Ip>) {
    forall i, j | 0 <= i < j < |s| :: s[i] != s[j]
  }

  lemma FirstOfDistinct(s: seq<Ip>, i: nat)
    requires Distinct(s) && i < |s|
    ensures First(s, s[i]) == i
  {
    FirstIs(s, s[i], i);
  }

  // ---------------------------------------------------------------- building

  /** `b` is a fresh TB of the node `ip` for the slaves `subs`, stamped `now`. */
  ghost predicate Generated(b: seq<byte>, ip: Ip, now: nat, subs: seq<Ip>) {
    var n := |subs| + 1;
    && |b| == TB_HEADER + 2 * n + BitmapBytes(n)
    && b[0] == 0x35
    && Sender(b) == ip
    && Pbid(b) == 0
    && Stamp(b) == now
    && Validity(b) == DEFAULT_VALIDITY_DELAY
    && SlotMs(b) == DEFAULT_TIMESLOT_SIZE
    && Count(b) == Wrap16(n)
    && IpAt(b, 0) == ip
    && (forall i | 0 < i < n :: IpAt(b, i) == subs[i - 1])
    && (forall i | 0 <= i < 8 * BitmapBytes(n) :: Owes(b, n, i) <==> 1 <= i < n)
  }

  /** The size that `generateTB` allocates: `ip_amm * (2*8+1)` bits rounded up, and the header. */
  function AllocatedSize(n: nat): nat {
    var bits := n * (2 * 8 + 1);
    (if 8 * (bits / 8) != bits then bits / 8 + 1 else bits / 8) + TB_HEADER
  }

  /** C division truncates toward zero. */
  function CDiv8(x: int): int {
    if x >= 0 then x / 8 else -((-x) / 8)
  }

  /** `getPacketSize` of a TB; -1 for another protocol version. */
  function TbPacketSize(b: seq<byte>): int
    requires |b| >= TB_HEADER
  {
    if b[0] / 16 != PROTOCOL_VERSION then -1
    else
      var helper := Count(b);
      TB_HEADER + Count(b) * 2 + (if 8 * CDiv8(helper) != helper then CDiv8(helper) + 1 else CDiv8(helper))
  }

  method StoreShort(b: array<byte>, at: nat, x: int)
    requires at + 2 <= b.Length
    modifies b
    ensures forall k | 0 <= k < b.Length && k != at && k != at + 1 :: b[k] == old(b[k])
    ensures U16At(b[..], at) == x % 65536 && ShortAt(b[..], at) == Wrap16(x)
  {
    b[at] := Lo(x);
    b[at + 1] := Hi(x);
    ShortRoundTrip(x);
  }

  method StoreLong(b: array<byte>, at: nat, x: nat)
    requires at + 8 <= b.Length && x < U64
    modifies b
    ensures forall k | 0 <= k < b.Length && !(at <= k < at + 8) :: b[k] == old(b[k])
    ensures UnLe(b[at..at + 8]) == x
  {
    var bytes := Le(x, 8);
    for i := 0 to 8
      invariant forall k | 0 <= k < i :: b[at + k] == bytes[k]
      invariant forall k | 0 <= k < b.Length && !(at <= k < at + i) :: b[k] == old(b[k])
    {
      b[at + i] := bytes[i];
    }
    assert b[at..at + 8] == bytes;
    assert Pow256(8) == U64;
    LeRoundTrip(x, 8);
  }

  /** Two buffers with the same header have the same fields. */
  lemma SameHeader(a: seq<byte>, b: seq<byte>)
    requires |a| >= TB_HEADER && |b| >= TB_HEADER && a[..TB_HEADER] == b[..TB_HEADER]
    ensures a[0] == b[0] && Sender(a) == Sender(b) && Pbid(a) == Pbid(b) && Stamp(a) == Stamp(b)
    ensures Validity(a) == Validity(b) && SlotMs(a) == SlotMs(b) && Count(a) == Count(b)
  {
    assert forall k | 0 <= k < TB_HEADER :: a[k] == a[..TB_HEADER][k] && b[k] == b[..TB_HEADER][k];
    assert a[5..13] == a[..TB_HEADER][5..13] && b[5..13] == b[..TB_HEADER][5..13];
  }

  /** The first byte of a TB: the version in the high half, the type in the low half. */
  function VersionByte(): (r: byte)
    ensures r == 0x35
  {
    16 * PROTOCOL_VERSION + TB_TYPE
  }

  /** Writes the first 18 bytes of a TB for `n` nodes. */
  method StoreHeader(b: array<byte>, ip: Ip, now: nat, n: nat)
    requires b.Length >= TB_HEADER && now < U64
    modifies b
    ensures b[0] == 0x35 && Sender(b[..]) == ip && Pbid(b[..]) == 0 && Stamp(b[..]) == now
    ensures Validity(b[..]) == DEFAULT_VALIDITY_DELAY && SlotMs(b[..]) == DEFAULT_TIMESLOT_SIZE
    ensures Count(b[..]) == Wrap16(n)
  {
    b[0] := VersionByte();
    b[1], b[2] := ip.b0, ip.b1;
    StoreShort(b, 3, 0);
    ghost var first := b[..];
    StoreLong(b, 5, now);
    ghost var stamped := b[..];
    StoreShort(b, 13, DEFAULT_VALIDITY_DELAY);
    ghost var valid := b[..];
    b[15] := DEFAULT_TIMESLOT_SIZE;
    StoreShort(b, 16, n);
    assert b[..][5..13] == stamped[5..13];
    assert b[3] == first[3] && b[4] == first[4];
    assert b[13] == valid[13] && b[14] == valid[14];
  }

  /** Writes the address list: the master first, then its slaves in list order. */
  method StoreIps(b: array<byte>, ip: Ip, subs: seq<Ip>)
    requires b.Length >= TB_HEADER + 2 * (|subs| + 1)
    modifies b
    ensures b[..TB_HEADER] == old(b[..TB_HEADER])
    ensures IpAt(b[..], 0) == ip
    ensures forall i | 0 < i <= |subs| :: IpAt(b[..], i) == subs[i - 1]
  {
    b[TB_HEADER], b[TB_HEADER + 1] := ip.b0, ip.b1;
    for i := 1 to |subs| + 1
      invariant b[..TB_HEADER] == old(b[..TB_HEADER])
      invariant IpAt(b[..], 0) == ip
      invariant forall j | 0 < j < i :: IpAt(b[..], j) == subs[j - 1]
    {
      ghost var before := b[..];
      b[TB_HEADER + 2 * i], b[TB_HEADER + 2 * i + 1] := subs[i - 1].b0, subs[i - 1].b1;
      assert forall j | 0 <= j < i :: IpAt(b[..], j) == IpAt(before, j);
    }
  }

  /** Writes the acknowledgement bitmap for `n` nodes: every listed slave owes a TA, the master does not. */
  method StoreBitmap(b: array<byte>, n: nat)
    requires n >= 1 && b.Length == TB_HEADER + 2 * n + BitmapBytes(n)
    modifies b
    ensures b[..TB_HEADER + 2 * n] == old(b[..TB_HEADER + 2 * n])
    ensures forall i | 0 <= i < 8 * BitmapBytes(n) :: Owes(b[..], n, i) <==> 1 <= i < n
  {
    var base := TB_HEADER + 2 * n;
    for i := 0 to n / 8
      invariant b[..base] == old(b[..base])
      invariant forall k | base <= k < base + i :: b[k] == 0xff
    {
      b[base + i] := 0xff;
    }
    var rest := n - 8 * (n / 8);
    if rest != 0 {
      b[base + n / 8] := ShiftLeft(0xff, 8 - rest);
    }
    ghost var ones := b[..];
    b[base] := Cleared(b[base], 0);
    forall i | 0 <= i < 8 * BitmapBytes(n)
      ensures Owes(b[..], n, i) <==> 1 <= i < n
    {
      LeadingOnes(rest, i % 8);
      LeadingOnes(8, i % 8);
      ClearedBits(ones[base], 0, i % 8);
      if i / 8 < n / 8 {
        assert ones[base + i / 8] == 0xff;
      }
    }
  }

  lemma AllocationMatches(n: nat)
    ensures AllocatedSize(n) == TB_HEADER + 2 * n + BitmapBytes(n)
  {
  }

  /** The buffer part of `generateTB`: `now` is the clock reading, `subs` the sub-slaves in list order. */
  method BuildTb(ip: Ip, now: nat, subs: seq<Ip>) returns (b: array<byte>)
    requires now < U64
    ensures fresh(b)
    ensures Generated(b[..], ip, now, subs)
  {
    var n := |subs| + 1;
    AllocationMatches(n);
    b := new byte[AllocatedSize(n)];
    StoreHeader(b, ip, now, n);
    ghost var header := b[..];
    StoreIps(b, ip, subs);
    ghost var listed := b[..];
    StoreBitmap(b, n);
    assert b[..][..TB_HEADER] == listed[..TB_HEADER + 2 * n][..TB_HEADER] == header[..TB_HEADER];
    SameHeader(b[..], header);
    assert forall k | 0 <= k < TB_HEADER + 2 * n :: b[..][k] == listed[..TB_HEADER + 2 * n][k];
    assert forall i | 0 <= i < n :: IpAt(b[..], i) == IpAt(listed, i);
  }

  // ---------------------------------------------------------------- the same bytes, written down

  function HeaderBytes(ip: Ip, now: nat, n: nat): (h: seq<byte>)
    ensures |h| == TB_HEADER
  {
    [VersionByte(), ip.b0, ip.b1, 0, 0] + Le(now, 8)
    + [Lo(DEFAULT_VALIDITY_DELAY), Hi(DEFAULT_VALIDITY_DELAY), DEFAULT_TIMESLOT_SIZE, Lo(n), Hi(n)]
  }

  function ListBytes(list: seq<Ip>): seq<byte> {
    seq(2 * |list|, k requires 0 <= k < 2 * |list| => if k % 2 == 0 then list[k / 2].b0 else list[k / 2].b1)
  }

  /** Byte `i` of the bitmap for `n` nodes before the master's bit is cleared. */
  function OnesAt(n: nat, i: nat): byte {
    if i < n / 8 then 0xff else ShiftLeft(0xff, 8 - n % 8)
  }

  function BitmapOf(n: nat): seq<byte> {
    seq(BitmapBytes(n), i requires 0 <= i < BitmapBytes(n) => if i == 0 then Cleared(OnesAt(n, 0), 0) else OnesAt(n, i))
  }

  function TbBytes(ip: Ip, now: nat, subs: seq<Ip>): seq<byte> {
    HeaderBytes(ip, now, |subs| + 1) + ListBytes([ip] + subs) + BitmapOf(|subs| + 1)
  }

  lemma HeaderFields(ip: Ip, now: nat, n: nat)
    requires now < U64
    ensures var h := HeaderBytes(ip, now, n);
      && h[0] == 0x35 && Sender(h) == ip && Pbid(h) == 0 && Stamp(h) == now
      && Validity(h) == DEFAULT_VALIDITY_DELAY && SlotMs(h) == DEFAULT_TIMESLOT_SIZE && Count(h) == Wrap16(n)
  {
    var h := HeaderBytes(ip, now, n);
    assert h[5..13] == Le(now, 8);
    assert Pow256(8) == U64;
    LeRoundTrip(now, 8);
    ShortRoundTrip(n);
  }

  lemma OnesBits(n: nat, i: nat)
    requires i < 8 * BitmapBytes(n)
    ensures Bit(OnesAt(n, i / 8), i % 8) <==> i < n
  {
    LeadingOnes(n % 8, i % 8);
    LeadingOnes(8, i % 8);
  }

  lemma BitmapBits(n: nat, i: nat)
    requires n >= 1 && i < 8 * BitmapBytes(n)
    ensures Bit(BitmapOf(n)[i / 8], i % 8) <==> 1 <= i < n
  {
    OnesBits(n, i);
    ClearedBits(OnesAt(n, 0), 0, i % 8);
  }

  lemma ListPart(h: seq<byte>, list: seq<Ip>, m: seq<byte>, i: nat)
    requires |h| == TB_HEADER && i < |list|
    ensures IpAt(h + ListBytes(list) + m, i) == list[i]
  {
    var b, l := h + ListBytes(list) + m, ListBytes(list);
    assert b[TB_HEADER + 2 * i] == l[2 * i] && b[TB_HEADER + 2 * i + 1] == l[2 * i + 1];
  }

  lemma BitmapPart(h: seq<byte>, list: seq<Ip>, i: nat)
    requires |h| == TB_HEADER && list != [] && i < 8 * BitmapBytes(|list|)
    ensures Owes(h + ListBytes(list) + BitmapOf(|list|), |list|, i) <==> 1 <= i < |list|
  {
    var n := |list|;
    assert (h + ListBytes(list) + BitmapOf(n))[TB_HEADER + 2 * n + i / 8] == BitmapOf(n)[i / 8];
    BitmapBits(n, i);
  }

  lemma HeaderPart(h: seq<byte>, rest: seq<byte>)
    requires |h| == TB_HEADER
    ensures (h + rest)[..TB_HEADER] == h
  {
  }

  /** There is a TB for every master, clock reading and list of slaves. */
  lemma TbBytesGenerated(ip: Ip, now: nat, subs: seq<Ip>)
    requires now < U64
    ensures Generated(TbBytes(ip, now, subs), ip, now, subs)
  {
    var n, list := |subs| + 1, [ip] + subs;
    var h, b := HeaderBytes(ip, now, n), TbBytes(ip, now, subs);
    HeaderFields(ip, now, n);
    assert b == h + (ListBytes(list) + BitmapOf(n));
    HeaderPart(h, ListBytes(list) + BitmapOf(n));
    SameHeader(b, h);
    forall i | 0 <= i < n
      ensures IpAt(b, i) == list[i]
    {
      ListPart(h, list, BitmapOf(n), i);
    }
    forall i | 0 <= i < 8 * BitmapBytes(n)
      ensures Owes(b, n, i) <==> 1 <= i < n
    {
      BitmapPart(h, list, i);
    }
  }

  // ---------------------------------------------------------------- reading

  /** The timetable that `b` offers to the node listed at `slot`. */
  function Offer(b: seq<byte>, slot: nat): TimeTable
    requires |b| >= TB_HEADER
  {
    TimeTable(slot, Wrap64(Stamp(b) + Validity(b) * 1000), SlotMs(b) * 1_000_000,
              Wrap64(Count(b) * (SlotMs(b) * 1_000_000)))
  }

  /** A count survives the trip through the `short` at byte 16 exactly up to 32767. */
  lemma CountSurvives(b: seq<byte>, ip: Ip, now: nat, subs: seq<Ip>)
    requires Generated(b, ip, now, subs) && |subs| < 65535
    ensures Count(b) == |subs| + 1 <==> |subs| < 32767
  {
  }

  lemma GeneratedSize(b: seq<byte>, ip: Ip, now: nat, subs: seq<Ip>)
    requires Generated(b, ip, now, subs) && |subs| < 32767
    ensures TbPacketSize(b) == |b| == AllocatedSize(|subs| + 1)
  {
    AllocationMatches(|subs| + 1);
  }

  lemma OfferOf(b: seq<byte>, now: nat, n: nat, slot: nat)
    requires |b| >= TB_HEADER && Stamp(b) == now && Validity(b) == 1000 && SlotMs(b) == 200
    requires Count(b) == n
    ensures Offer(b, slot) == TimeTable(slot, Wrap64(now + 1_000_000), 200_000_000, n * 200_000_000)
  {
    assert SlotMs(b) * 1_000_000 == 200_000_000;
    assert n * 200_000_000 < U64;
  }

  /** Reading back a generated TB gives the master's clock, the slot size and the address list. */
  lemma ReadsBack(b: seq<byte>, ip: Ip, now: nat, subs: seq<Ip>)
    requires Generated(b, ip, now, subs) && |subs| < 32767
    ensures Readable(b) && Ips(b) == [ip] + subs
    ensures TbPacketSize(b) == |b| == AllocatedSize(|subs| + 1)
    ensures forall slot: nat ::
      Offer(b, slot) == TimeTable(slot, Wrap64(now + 1_000_000), 200_000_000, (|subs| + 1) * 200_000_000)
  {
    GeneratedSize(b, ip, now, subs);
    forall slot: nat {
      OfferOf(b, now, |subs| + 1, slot);
    }
    assert Count(b) == |subs| + 1;
  }

  /** A listed node is offered a table of size 0, by which the dispatcher divides, exactly if the slot byte is 0. */
  lemma TableSizeZeroIff(b: seq<byte>, slot: nat)
    requires Readable(b) && Ips(b) != []
    ensures Offer(b, slot).tableSize == 0 <==> SlotMs(b) == 0
  {
    SmallProduct(Count(b), SlotMs(b));
  }

  lemma SmallProduct(n: nat, ms: nat)
    requires 0 < n < 32768 && ms < 256
    ensures Wrap64(n * (ms * 1_000_000)) == 0 <==> ms == 0
  {
    var size := ms * 1_000_000;
    Products(n, size);
  }

  lemma Products(n: nat, size: nat)
    requires 0 < n < 32768 && size < 256_000_000
    ensures n * size <= 32768 * size && (n * size == 0 <==> size == 0)
  {
  }

  lemma PlacesInList(list: seq<Ip>, ip: Ip, subs: seq<Ip>)
    requires list == [ip] + subs && Distinct(list)
    ensures First(list, ip) == 0 && forall i | 0 <= i < |subs| :: First(list, subs[i]) == i + 1
  {
    FirstOfDistinct(list, 0);
    forall i | 0 <= i < |subs|
      ensures First(list, subs[i]) == i + 1
    {
      assert list[i + 1] == subs[i];
      FirstOfDistinct(list, i + 1);
    }
  }

  /** With distinct addresses, each node finds itself where the master put it. */
  lemma ReadsOwnSlot(b: seq<byte>, ip: Ip, now: nat, subs: seq<Ip>)
    requires Generated(b, ip, now, subs) && |subs| < 32767 && Distinct([ip] + subs)
    ensures Readable(b) && First(Ips(b), ip) == 0
    ensures forall i | 0 <= i < |subs| :: First(Ips(b), subs[i]) == i + 1
  {
    ReadsBack(b, ip, now, subs);
    PlacesInList(Ips(b), ip, subs);
  }

  /** The bytes that say who sends when: stamp, validity, slot size, count and address list. */
  function Core(b: seq<byte>): seq<byte>
    requires Readable(b)
  {
    b[5..TB_HEADER + 2 * |Ips(b)|]
  }

  lemma SameFields(a: seq<byte>, b: seq<byte>)
    requires |a| >= TB_HEADER && |b| >= TB_HEADER && a[5..TB_HEADER] == b[5..TB_HEADER]
    ensures Stamp(a) == Stamp(b) && Validity(a) == Validity(b) && SlotMs(a) == SlotMs(b) && Count(a) == Count(b)
  {
    assert forall k | 5 <= k < TB_HEADER :: a[k] == a[5..TB_HEADER][k - 5] && b[k] == b[5..TB_HEADER][k - 5];
    assert a[5..13] == a[5..TB_HEADER][..8] && b[5..13] == b[5..TB_HEADER][..8];
  }

  lemma CoreHeader(a: seq<byte>)
    requires Readable(a)
    ensures |Core(a)| >= TB_HEADER - 5 && Core(a)[..TB_HEADER - 5] == a[5..TB_HEADER]
  {
  }

  lemma SameIps(a: seq<byte>, b: seq<byte>)
    requires Readable(a) && Readable(b) && Count(a) == Count(b) && Core(a) == Core(b)
    ensures Ips(a) == Ips(b)
  {
    var n := |Ips(a)|;
    assert forall k | 5 <= k < TB_HEADER + 2 * n :: a[k] == Core(a)[k - 5] && b[k] == Core(b)[k - 5];
    assert forall i | 0 <= i < n :: IpAt(a, i) == IpAt(b, i);
  }

  /** The core alone decides what every reader computes. */
  lemma CoreDecides(a: seq<byte>, b: seq<byte>)
    requires Readable(a) && Readable(b) && Core(a) == Core(b)
    ensures Count(a) == Count(b) && Ips(a) == Ips(b)
    ensures forall slot: nat :: Offer(a, slot) == Offer(b, slot)
  {
    CoreHeader(a);
    CoreHeader(b);
    SameFields(a, b);
    SameIps(a, b);
  }

  /** Bytes outside 5 up to the bitmap may change without changing the core. */
  lemma CoreKept(a: seq<byte>, b: seq<byte>)
    requires Readable(a) && |a| == |b|
    requires forall k | 5 <= k < TB_HEADER + 2 * |Ips(a)| :: a[k] == b[k]
    ensures Readable(b) && Core(b) == Core(a)
  {
    assert Count(a) == Count(b);
  }

  // ---------------------------------------------------------------- the bitmap

  /** `getBitmapValue`: does the node `ip` still owe a TA? A node that is not listed does not. */
  predicate OwesTa(b: seq<byte>, ip: Ip)
    requires Readable(b)
  {
    var place := First(Ips(b), ip);
    place != -1 && Owes(b, |Ips(b)|, place)
  }

  /** `clearBitmapValue` on the whole TB. */
  function WithoutTaOf(b: seq<byte>, ip: Ip): (r: seq<byte>)
    requires Readable(b)
    ensures |r| == |b|
  {
    var place := First(Ips(b), ip);
    var at := TB_HEADER + 2 * |Ips(b)| + place / 8;
    if place == -1 then b else b[at := Cleared(b[at], place % 8)]
  }

  lemma OwesAfterClearing(b: seq<byte>, n: nat, place: nat, i: nat)
    requires TB_HEADER + 2 * n + place / 8 < |b| && TB_HEADER + 2 * n + i / 8 < |b|
    ensures var at := TB_HEADER + 2 * n + place / 8;
      Owes(b[at := Cleared(b[at], place % 8)], n, i) <==> Owes(b, n, i) && i != place
  {
    ClearedBits(b[TB_HEADER + 2 * n + place / 8], place % 8, i % 8);
  }

  lemma ClearingKeepsCore(b: seq<byte>, ip: Ip)
    requires Readable(b)
    ensures var r := WithoutTaOf(b, ip); Readable(r) && Core(r) == Core(b) && Ips(r) == Ips(b) && r[..5] == b[..5]
  {
    var r := WithoutTaOf(b, ip);
    CoreKept(b, r);
    CoreDecides(b, r);
  }

  lemma ClearsOneBit(b: seq<byte>, ip: Ip, i: nat)
    requires Readable(b) && i < 8 * BitmapBytes(|Ips(b)|)
    ensures Owes(WithoutTaOf(b, ip), |Ips(b)|, i) <==> Owes(b, |Ips(b)|, i) && i != First(Ips(b), ip)
  {
    var place := First(Ips(b), ip);
    if place != -1 {
      OwesAfterClearing(b, |Ips(b)|, place, i);
    }
  }

  /** Clearing touches one bit and nothing that decides a timetable. */
  lemma ClearingIsExact(b: seq<byte>, ip: Ip)
    requires Readable(b)
    ensures var r := WithoutTaOf(b, ip);
      && Readable(r) && Core(r) == Core(b) && Ips(r) == Ips(b)
      && r[..5] == b[..5]
      && (forall i | 0 <= i < 8 * BitmapBytes(|Ips(b)|) ::
            Owes(r, |Ips(b)|, i) <==> Owes(b, |Ips(b)|, i) && i != First(Ips(b), ip))
  {
    ClearingKeepsCore(b, ip);
    forall i | 0 <= i < 8 * BitmapBytes(|Ips(b)|) {
      ClearsOneBit(b, ip, i);
    }
  }

  /** The search loop that the readers of a TB share. */
  method FindPlace(b: array<byte>, ip: Ip) returns (place: int)
    requires Readable(b[..])
    ensures place == First(Ips(b[..]), ip)
  {
    var n := Count(b[..]);
    ghost var ips := Ips(b[..]);
    place := -1;
    var i := 0;
    while i < n
      invariant 0 <= i && (n > 0 ==> i <= n)
      invariant ip !in ips[..if n > 0 then i else 0]
    {
      if IpAt(b[..], i) == ip {
        place := i;
        FirstIs(ips, ip, i);
        return;
      }
      i := i + 1;
    }
    assert ips[..|ips|] == ips;
  }

  method ClearBitmapValue(b: array<byte>, ip: Ip)
    requires Readable(b[..])
    modifies b
    ensures b[..] == WithoutTaOf(old(b[..]), ip)
  {
    var place := FindPlace(b, ip);
    if place == -1 {
      return;
    }
    var at := TB_HEADER + 2 * Count(b[..]) + place / 8;
    place := place - 8 * (place / 8);
    b[at] := Cleared(b[at], place);
  }

  method GetBitmapValue(b: array<byte>, ip: Ip) returns (owes: bool)
    requires Readable(b[..])
    ensures owes == OwesTa(b[..], ip)
  {
    var place := FindPlace(b, ip);
    if place == -1 {
      return false;
    }
    var at := TB_HEADER + 2 * Count(b[..]) + place / 8;
    place := place - 8 * (place / 8);
    return Bit(b[at], place);
  }

  // ---------------------------------------------------------------- rewriting

  /** A relay puts its own address into bytes 1 and 2. */
  function Stamped(b: seq<byte>, ip: Ip): seq<byte>
    requires |b| >= TB_HEADER
  {
    b[1 := ip.b0][2 := ip.b1]
  }

  /** After each transmission the master adds one to the PBID in bytes 3 and 4. */
  function WithNextPbid(b: seq<byte>): seq<byte>
    requires |b| >= TB_HEADER
  {
    b[3 := Lo(Pbid(b) + 1)][4 := Hi(Pbid(b) + 1)]
  }

  lemma NextPbid(b: seq<byte>)
    requires |b| >= TB_HEADER
    ensures Pbid(WithNextPbid(b)) == Wrap16(Pbid(b) + 1)
  {
    ShortRoundTrip(Pbid(b) + 1);
  }

  lemma StampingKeepsCore(b: seq<byte>, ip: Ip)
    requires Readable(b)
    ensures var r := Stamped(b, ip);
      Readable(r) && Core(r) == Core(b) && Sender(r) == ip && Pbid(r) == Pbid(b) && r[0] == b[0]
  {
    CoreKept(b, Stamped(b, ip));
  }

  lemma BumpingKeepsCore(b: seq<byte>)
    requires Readable(b)
    ensures var r := WithNextPbid(b);
      Readable(r) && Core(r) == Core(b) && Sender(r) == Sender(b) && r[0] == b[0]
  {
    CoreKept(b, WithNextPbid(b));
  }
}
