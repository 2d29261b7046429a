/**
 * The control record that crosses the kernel/daemon boundary
 * (kernel/dvb_hdhomerun_control_messages.h), with the layout the C compiler
 * gives it on a little-endian machine with natural alignment:
 *
 *   offset 0   unsigned int type
 *   offset 4   union u (28 bytes, the size of its largest member, reg_data)
 *   offset 32  int id
 *
 * The union is kept as its 28 raw bytes: every member is a view on a prefix
 * of those bytes, and writing a member overwrites only the bytes it covers,
 * exactly as a C assignment to `mesg.u.member` does.
 */
module Wire {
  import opened Wrappers

  type byte = x: int | 0 <= x < 256

  const TWO16: int := 0x1_0000
  const TWO31: int := 0x8000_0000
  const TWO32: int := 0x1_0000_0000

  predicate IsU16(x: int) { 0 <= x < TWO16 }
  predicate IsU32(x: int) { 0 <= x < TWO32 }
  predicate IsI16(x: int) { -0x8000 <= x < 0x8000 }
  predicate IsI32(x: int) { -TWO31 <= x < TWO31 }

  // ---------------------------------------------------------------------
  // Little-endian integers
  // ---------------------------------------------------------------------

  function LE16(x: int): (b: seq<byte>)
    requires IsU16(x)
    ensures |b| == 2
  {
    [x % 256, x / 256]
  }

  function U16(b: seq<byte>): (x: int)
    requires |b| == 2
    ensures IsU16(x)
  {
    (b[0] as int) + 256 * (b[1] as int)
  }

  function LE32(x: int): (b: seq<byte>)
    requires IsU32(x)
    ensures |b| == 4
  {
    LE16(x % TWO16) + LE16(x / TWO16)
  }

  function U32(b: seq<byte>): (x: int)
    requires |b| == 4
    ensures IsU32(x)
  {
    U16(b[..2]) + TWO16 * U16(b[2..])
  }

  lemma U16LE16(x: int)
    requires IsU16(x)
    ensures U16(LE16(x)) == x
  {
  }

  lemma LE16U16(b: seq<byte>)
    requires |b| == 2
    ensures LE16(U16(b)) == b
  {
    var x := U16(b);
    assert x % 256 == b[0] && x / 256 == b[1];
  }

  lemma U32LE32(x: int)
    requires IsU32(x)
    ensures U32(LE32(x)) == x
  {
    var b := LE32(x);
    assert b[..2] == LE16(x % TWO16) && b[2..] == LE16(x / TWO16);
    U16LE16(x % TWO16);
    U16LE16(x / TWO16);
  }

  lemma LE32U32(b: seq<byte>)
    requires |b| == 4
    ensures LE32(U32(b)) == b
  {
    var lo, hi := U16(b[..2]), U16(b[2..]);
    var x := U32(b);
    assert x % TWO16 == lo && x / TWO16 == hi;
    LE16U16(b[..2]);
    LE16U16(b[2..]);
    assert b == b[..2] + b[2..];
  }

  /** Two's complement bit pattern of a signed value, as the C conversions
      between signed and unsigned types of one width produce it. */
  function Bits16(x: int): (u: int)
    requires IsI16(x)
    ensures IsU16(u) && (x >= 0 ==> u == x) && (x < 0 ==> u == x + TWO16)
  {
    if x < 0 then x + TWO16 else x
  }

  function Signed16(u: int): (x: int)
    requires IsU16(u)
    ensures IsI16(x) && Bits16(x) == u
  {
    if u >= 0x8000 then u - TWO16 else u
  }

  function Bits32(x: int): (u: int)
    requires IsI32(x)
    ensures IsU32(u) && (x >= 0 ==> u == x) && (x < 0 ==> u == x + TWO32)
  {
    if x < 0 then x + TWO32 else x
  }

  function Signed32(u: int): (x: int)
    requires IsU32(u)
    ensures IsI32(x) && Bits32(x) == u
  {
    if u >= TWO31 then u - TWO32 else u
  }

  lemma Signed32Bits32(x: int)
    requires IsI32(x)
    ensures Signed32(Bits32(x)) == x
  {
  }

  // ---------------------------------------------------------------------
  // Operation codes (hdhomerun_control_mesg_type_t)
  // ---------------------------------------------------------------------

  datatype MesgType =
    | FeReadStatus
    | FeReadBer
    | FeReadUncorrectedBlocks
    | FeSetFrontend
    | FeReadSignalStrength
    | StartFeed
    | StopFeed
    | DmxSetPesFilter
    | IntRegisterDevice

  /** The enumerators are consecutive from 0, in declaration order. */
  function Code(t: MesgType): (c: int)
    ensures 0 <= c < 9
  {
    match t
    case FeReadStatus => 0
    case FeReadBer => 1
    case FeReadUncorrectedBlocks => 2
    case FeSetFrontend => 3
    case FeReadSignalStrength => 4
    case StartFeed => 5
    case StopFeed => 6
    case DmxSetPesFilter => 7
    case IntRegisterDevice => 8
  }

  /** The operation a raw `type` field names, if any. */
  function FromCode(c: int): (t: Option<MesgType>)
    ensures t.Some? <==> 0 <= c < 9
    ensures t.Some? ==> Code(t.value) == c
  {
    if c == 0 then Some(FeReadStatus)
    else if c == 1 then Some(FeReadBer)
    else if c == 2 then Some(FeReadUncorrectedBlocks)
    else if c == 3 then Some(FeSetFrontend)
    else if c == 4 then Some(FeReadSignalStrength)
    else if c == 5 then Some(StartFeed)
    else if c == 6 then Some(StopFeed)
    else if c == 7 then Some(DmxSetPesFilter)
    else if c == 8 then Some(IntRegisterDevice)
    else None
  }

  lemma FromCodeCode(t: MesgType)
    ensures FromCode(Code(t)) == Some(t)
  {
  }

  // ---------------------------------------------------------------------
  // The record
  // ---------------------------------------------------------------------

  const UNION_SIZE: int := 28
  const RECORD_SIZE: int := 36

  /** `struct dvbhdhomerun_control_mesg`: type, the union bytes, id. */
  datatype Mesg = Mesg(mtype: int, u: seq<byte>, id: int)

  predicate WellFormed(m: Mesg)
  {
    IsU32(m.mtype) && |m.u| == UNION_SIZE && IsI32(m.id)
  }

  /** The `sizeof` raw bytes that `write`/`kfifo_put` ship. */
  function Encode(m: Mesg): (b: seq<byte>)
    requires WellFormed(m)
    ensures |b| == RECORD_SIZE
    ensures b[..4] == LE32(m.mtype) && b[4..32] == m.u && b[32..] == LE32(Bits32(m.id))
  {
    LE32(m.mtype) + m.u + LE32(Bits32(m.id))
  }

  /** Reading a record back: only exactly `sizeof` bytes make one. */
  function Decode(b: seq<byte>): (r: Option<Mesg>)
    ensures r.Some? <==> |b| == RECORD_SIZE
    ensures r.Some? ==> WellFormed(r.value)
  {
    if |b| != RECORD_SIZE then None
    else Some(Mesg(U32(b[..4]), b[4..32], Signed32(U32(b[32..]))))
  }

  lemma DecodeEncode(m: Mesg)
    requires WellFormed(m)
    ensures Decode(Encode(m)) == Some(m)
  {
    var b := Encode(m);
    U32LE32(m.mtype);
    U32LE32(Bits32(m.id));
    Signed32Bits32(m.id);
  }

  lemma EncodeDecode(b: seq<byte>)
    requires |b| == RECORD_SIZE
    ensures Encode(Decode(b).value) == b
  {
    var m := Decode(b).value;
    LE32U32(b[..4]);
    LE32U32(b[32..]);
    assert b == b[..4] + b[4..32] + b[32..];
  }

  /** Encoding is injective: distinct records never share a byte image. */
  lemma EncodeInjective(m1: Mesg, m2: Mesg)
    requires WellFormed(m1) && WellFormed(m2) && Encode(m1) == Encode(m2)
    ensures m1 == m2
  {
    DecodeEncode(m1);
    DecodeEncode(m2);
  }

  /** The concatenated images of a run of records. */
  function EncodeAll(ms: seq<Mesg>): (b: seq<byte>)
    requires forall i :: 0 <= i < |ms| ==> WellFormed(ms[i])
    ensures |b| == RECORD_SIZE * |ms|
  {
    if ms == [] then [] else EncodeAll(ms[..|ms| - 1]) + Encode(ms[|ms| - 1])
  }

  // ---------------------------------------------------------------------
  // Union members as views on the union bytes
  // ---------------------------------------------------------------------

  function U16At(u: seq<byte>, off: int): (x: int)
    requires 0 <= off && off + 2 <= |u|
    ensures IsU16(x)
  {
    U16(u[off..off + 2])
  }

  function U32At(u: seq<byte>, off: int): (x: int)
    requires 0 <= off && off + 4 <= |u|
    ensures IsU32(x)
  {
    U32(u[off..off + 4])
  }

  function WithU16At(u: seq<byte>, off: int, x: int): (r: seq<byte>)
    requires 0 <= off && off + 2 <= |u| && IsU16(x)
    ensures |r| == |u|
    ensures forall k :: 0 <= k < |u| && !(off <= k < off + 2) ==> r[k] == u[k]
    ensures U16At(r, off) == x
  {
    var r := u[..off] + LE16(x) + u[off + 2..];
    assert r[off..off + 2] == LE16(x);
    U16LE16(x);
    r
  }

  function WithU32At(u: seq<byte>, off: int, x: int): (r: seq<byte>)
    requires 0 <= off && off + 4 <= |u| && IsU32(x)
    ensures |r| == |u|
    ensures forall k :: 0 <= k < |u| && !(off <= k < off + 4) ==> r[k] == u[k]
    ensures U32At(r, off) == x
  {
    var r := u[..off] + LE32(x) + u[off + 4..];
    assert r[off..off + 4] == LE32(x);
    U32LE32(x);
    r
  }

  /** `u.frequency` (unsigned int at offset 0). */
  function Frequency(u: seq<byte>): int
    requires |u| == UNION_SIZE
  {
    U32At(u, 0)
  }

  /** `u.fe_status` (a four-byte enum at offset 0). */
  function FeStatus(u: seq<byte>): int
    requires |u| == UNION_SIZE
  {
    U32At(u, 0)
  }

  /** `u.signal_strength` (int16_t at offset 0). */
  function SignalStrength(u: seq<byte>): (s: int)
    requires |u| == UNION_SIZE
    ensures IsI16(s)
  {
    Signed16(U16At(u, 0))
  }

  /** `u.signal_strength = v`: the two bytes of the int16 are rewritten. */
  function WithSignalStrength(u: seq<byte>, v: int): (r: seq<byte>)
    requires |u| == UNION_SIZE && IsI16(v)
    ensures |r| == UNION_SIZE
    ensures SignalStrength(r) == v
    ensures forall k :: 2 <= k < UNION_SIZE ==> r[k] == u[k]
  {
    WithU16At(u, 0, Bits16(v))
  }

  /** `u.fe_status = s`: the four bytes of the enum are rewritten. */
  function WithFeStatus(u: seq<byte>, s: int): (r: seq<byte>)
    requires |u| == UNION_SIZE && IsU32(s)
    ensures |r| == UNION_SIZE
    ensures FeStatus(r) == s
    ensures forall k :: 4 <= k < UNION_SIZE ==> r[k] == u[k]
  {
    WithU32At(u, 0, s)
  }

  /** `u.frequency = f`. */
  function WithFrequency(u: seq<byte>, f: int): (r: seq<byte>)
    requires |u| == UNION_SIZE && IsU32(f)
    ensures |r| == UNION_SIZE
    ensures Frequency(r) == f
    ensures forall k :: 4 <= k < UNION_SIZE ==> r[k] == u[k]
  {
    WithU32At(u, 0, f)
  }

  /**
   * The kernel stores `u.signal_strength` (int16) into a u16; the daemon
   * fills it from a uint16_t. The 16-bit pattern survives the two
   * conversions unchanged.
   */
  lemma StrengthPatternSurvives(u: seq<byte>, strength: int)
    requires |u| == UNION_SIZE && IsU16(strength)
    ensures Bits16(SignalStrength(WithSignalStrength(u, Signed16(strength)))) == strength
  {
  }

  /** `struct hdhomerun_dvb_demux_feed`: uint16_t pid at 0, unsigned int index at 4. */
  datatype DemuxFeed = DemuxFeed(pid: int, index: int)

  predicate FeedOk(f: DemuxFeed) { IsU16(f.pid) && IsU32(f.index) }

  function FeedOf(u: seq<byte>): (f: DemuxFeed)
    requires |u| == UNION_SIZE
    ensures FeedOk(f)
  {
    DemuxFeed(U16At(u, 0), U32At(u, 4))
  }

  /** `u.demux_feed = my_feed`: the struct copy writes all eight bytes. The
      two padding bytes of the initialised local are unspecified in C; the
      model writes them as 0. */
  function WithFeed(u: seq<byte>, f: DemuxFeed): (r: seq<byte>)
    requires |u| == UNION_SIZE && FeedOk(f)
    ensures |r| == UNION_SIZE
    ensures forall k :: 8 <= k < UNION_SIZE ==> r[k] == u[k]
  {
    WithU32At(WithU16At(WithU16At(u, 0, f.pid), 2, 0), 4, f.index)
  }

  lemma FeedOfWithFeed(u: seq<byte>, f: DemuxFeed)
    requires |u| == UNION_SIZE && FeedOk(f)
    ensures FeedOf(WithFeed(u, f)) == f
  {
    var a := WithU16At(u, 0, f.pid);
    var b := WithU16At(a, 2, 0);
    var c := WithU32At(b, 4, f.index);
    assert c[0..2] == b[0..2] == a[0..2];
  }

  /** `struct dmx_pes_filter_params`: pid u16 at 0, then input, output,
      pes_type (four-byte enums) and flags (u32) at 4, 8, 12 and 16. */
  datatype PesFilter = PesFilter(pid: int, input: int, output: int, pesType: int, flags: int)

  predicate PesFilterOk(p: PesFilter)
  {
    IsU16(p.pid) && IsU32(p.input) && IsU32(p.output) && IsU32(p.pesType) && IsU32(p.flags)
  }

  function EncodePesFilter(p: PesFilter): (b: seq<byte>)
    requires PesFilterOk(p)
    ensures |b| == 20
  {
    LE16(p.pid) + [0, 0] + LE32(p.input) + LE32(p.output) + LE32(p.pesType) + LE32(p.flags)
  }

  function PesFilterOf(u: seq<byte>): (p: PesFilter)
    requires |u| == UNION_SIZE
    ensures PesFilterOk(p)
  {
    PesFilter(U16(u[0..2]), U32(u[4..8]), U32(u[8..12]), U32(u[12..16]), U32(u[16..20]))
  }

  /** `u.dmx_pes_filter = p`. */
  function WithPesFilter(u: seq<byte>, p: PesFilter): (r: seq<byte>)
    requires |u| == UNION_SIZE && PesFilterOk(p)
    ensures |r| == UNION_SIZE && r[..20] == EncodePesFilter(p) && r[20..] == u[20..]
  {
    EncodePesFilter(p) + u[20..]
  }

  lemma PesFilterOfWith(u: seq<byte>, p: PesFilter)
    requires |u| == UNION_SIZE && PesFilterOk(p)
    ensures PesFilterOf(WithPesFilter(u, p)) == p
  {
    var r := WithPesFilter(u, p);
    assert r[0..2] == LE16(p.pid);
    assert r[4..8] == LE32(p.input);
    assert r[8..12] == LE32(p.output);
    assert r[12..16] == LE32(p.pesType);
    assert r[16..20] == LE32(p.flags);
    U16LE16(p.pid);
    U32LE32(p.input);
    U32LE32(p.output);
    U32LE32(p.pesType);
    U32LE32(p.flags);
  }

  /**
   * `struct hdhomerun_register_tuner_data`: uint8_t num_of_devices at 0,
   * char name[12] at 1, int id at 16, int type at 20, bool use_full_name at
   * 24; 28 bytes with padding, the same size as the union.
   */
  datatype TunerData = TunerData(numOfDevices: int, name: seq<byte>, id: int, tunerType: int, useFullName: bool)

  const NAME_SIZE: int := 12

  predicate TunerDataOk(d: TunerData)
  {
    0 <= d.numOfDevices < 256 && |d.name| == NAME_SIZE && IsI32(d.id) && IsI32(d.tunerType)
  }

  function EncodeTunerData(d: TunerData): (b: seq<byte>)
    requires TunerDataOk(d)
    ensures |b| == UNION_SIZE
  {
    [d.numOfDevices] + d.name + [0, 0, 0] + LE32(Bits32(d.id)) + LE32(Bits32(d.tunerType))
      + [if d.useFullName then 1 else 0] + [0, 0, 0]
  }

  function DecodeTunerData(b: seq<byte>): (d: TunerData)
    requires |b| == UNION_SIZE
    ensures TunerDataOk(d)
  {
    TunerData(b[0], b[1..13], Signed32(U32(b[16..20])), Signed32(U32(b[20..24])), b[24] != 0)
  }

  lemma DecodeEncodeTunerData(d: TunerData)
    requires TunerDataOk(d)
    ensures DecodeTunerData(EncodeTunerData(d)) == d
  {
    var b := EncodeTunerData(d);
    assert b[1..13] == d.name;
    assert b[16..20] == LE32(Bits32(d.id));
    assert b[20..24] == LE32(Bits32(d.tunerType));
    U32LE32(Bits32(d.id));
    U32LE32(Bits32(d.tunerType));
  }

  /** `u.reg_data`: the member covers the whole union. */
  function RegDataOf(u: seq<byte>): TunerData
    requires |u| == UNION_SIZE
  {
    DecodeTunerData(u)
  }
}
