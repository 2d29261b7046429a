/**
 * The daemon's side of tuner registration (Control::Ioctl in
 * userhdhomerun/hdhomerun_control.cpp): it fills a
 * `hdhomerun_register_tuner_data` on its stack and issues the
 * HDHOMERUN_REGISTER_TUNER ioctl, here served by the kernel model's
 * handler on the registry itself.
 */
module UserIoctl {
  import opened Wire
  import opened KernelRegistry
  import opened KernelIoctl

  /** The bytes of a C++ string, one per char. */
  function Bytes(s: string): (b: seq<byte>)
    ensures |b| == |s|
  {
    seq(|s|, i requires 0 <= i < |s| => (s[i] as int) % 256)
  }

  /** strncpy(dst, src, n): the bytes of src up to its first NUL, at most
      n of them, the rest of the n bytes NUL. */
  function Strncpy(src: seq<byte>, n: nat): (dst: seq<byte>)
    ensures |dst| == n
    decreases n
  {
    if n == 0 then []
    else if src != [] && src[0] != 0 then [src[0]] + Strncpy(src[1..], n - 1)
    else [0] + Strncpy([], n - 1)
  }

  /** strncpy copies the C string src holds and pads it with NULs. */
  lemma {:induction false} StrncpyIsCString(src: seq<byte>, n: nat)
    ensures var c := CString(src + [0], |src| + 1);
      forall i :: 0 <= i < n ==> Strncpy(src, n)[i] == if i < |c| then c[i] else 0
    decreases n
  {
    if n > 0 {
      var c := CString(src + [0], |src| + 1);
      if src != [] && src[0] != 0 {
        assert (src + [0])[1..] == src[1..] + [0];
        StrncpyIsCString(src[1..], n - 1);
        assert c == [src[0]] + CString(src[1..] + [0], |src[1..]| + 1);
      } else {
        assert c == [] by { assert (src + [0])[0] == 0; }
        StrncpyIsCString([], n - 1);
        assert CString([] + [0], 1) == [];
      }
    }
  }

  /** The registration record Control::Ioctl hands to the kernel: `junk` is
      the uninitialised stack record; num_of_devices, the name field's first
      11 bytes (strncpy's, the 11th then cleared) and type are written over
      it. */
  function Request(numOfTuners: int, name: string, tunerType: int, junk: seq<byte>): (b: seq<byte>)
    requires |junk| == UNION_SIZE && IsI32(tunerType)
    ensures |b| == UNION_SIZE
  {
    var copied := Strncpy(Bytes(name), 11);
    [numOfTuners % 256] + copied[..10] + [0] + junk[12..20] + LE32(Bits32(tunerType)) + junk[24..]
  }

  /** The name as the kernel compares it: the bytes of `name` before any
      NUL, cut to 10. */
  function ComparedName(name: string): (s: seq<byte>)
  {
    var c := CString(Bytes(name) + [0], |name| + 1);
    if |c| <= NAME_COMPARE then c else c[..NAME_COMPARE]
  }

  /** What the kernel reads from the record: the truncated count, the type,
      and a name that holds at most the first 10 characters. */
  lemma RequestReadsBack(numOfTuners: int, name: string, tunerType: int, junk: seq<byte>)
    requires |junk| == UNION_SIZE && IsI32(tunerType)
    ensures var d := DecodeTunerData(Request(numOfTuners, name, tunerType, junk));
      d.numOfDevices == numOfTuners % 256 && d.tunerType == tunerType
      && CString(d.name, NAME_COMPARE) == ComparedName(name)
  {
    var b := Request(numOfTuners, name, tunerType, junk);
    var d := DecodeTunerData(b);
    var copied := Strncpy(Bytes(name), 11);
    assert b == [numOfTuners % 256] + copied[..10] + [0] + junk[12..20] + LE32(Bits32(tunerType)) + junk[24..];
    assert b[20..24] == LE32(Bits32(tunerType));
    U32LE32(Bits32(tunerType));
    assert d.name == b[1..13];
    assert forall i :: 0 <= i < 10 ==> d.name[i] == copied[i];
    assert d.name[10] == 0;
    StrncpyIsCString(Bytes(name), 11);
    var c := CString(Bytes(name) + [0], |name| + 1);
    CStringOfPrefix(d.name, c);
  }

  /** Helper for RequestReadsBack: the name field holds `c` (cut to 10)
      followed by NUL where `c` is shorter. */
  lemma CStringOfPrefix(field: seq<byte>, c: seq<byte>)
    requires |field| == NAME_SIZE && field[10] == 0
    requires forall i :: 0 <= i < |c| ==> c[i] != 0
    requires forall i :: 0 <= i < 10 ==> field[i] == if i < |c| then c[i] else 0
    ensures CString(field, NAME_COMPARE) == if |c| <= NAME_COMPARE then c else c[..NAME_COMPARE]
  {
    var want := if |c| <= NAME_COMPARE then c else c[..NAME_COMPARE];
    assert field[..|want|] == want;
    CStringIs(field, NAME_COMPARE, |want|);
  }

  /** The C string in the first n bytes of a is a[..k] when those k bytes
      are not NUL and a NUL (or the limit) follows. */
  lemma {:induction false} CStringIs(a: seq<byte>, n: nat, k: nat)
    requires k <= n <= |a| && (forall i :: 0 <= i < k ==> a[i] != 0) && (k < n ==> a[k] == 0)
    ensures CString(a, n) == a[..k]
    decreases k
  {
    if k > 0 {
      CStringIs(a[1..], n - 1, k - 1);
      assert a[..k] == [a[0]] + a[1..][..k - 1];
    }
  }

  /** The kernel takes two daemon-side names for the same tuner exactly
      when their first 10 characters agree. */
  lemma SameTunerIffSameTenCharacters(n1: string, n2: string, t1: int, t2: int, j1: seq<byte>, j2: seq<byte>,
                                      k1: int, k2: int)
    requires |j1| == UNION_SIZE && |j2| == UNION_SIZE && IsI32(t1) && IsI32(t2)
    ensures var d1 := DecodeTunerData(Request(k1, n1, t1, j1));
      var d2 := DecodeTunerData(Request(k2, n2, t2, j2));
      StrnEqual(d1.name, d2.name, NAME_COMPARE) <==> ComparedName(n1) == ComparedName(n2)
  {
    RequestReadsBack(k1, n1, t1, j1);
    RequestReadsBack(k2, n2, t2, j2);
    var d1 := DecodeTunerData(Request(k1, n1, t1, j1));
    var d2 := DecodeTunerData(Request(k2, n2, t2, j2));
    StrnEqualIsCStringEqual(d1.name, d2.name, NAME_COMPARE);
  }

  /** ioctl(2) as the daemon sees it: a negative handler result becomes -1. */
  function Syscall(ret: int): int
  {
    if ret < 0 then -1 else ret
  }

  /** A successful registration gives the daemon the kernel's id for the
      name: the id of the tuner already registered under it, or the next
      free one. */
  lemma RegisteredIdIsKernels(slots: seq<Slot>, numOfTuners: int, name: string, tunerType: int,
                              junk: seq<byte>, env: Env)
    requires SlotsOk(slots) && |junk| == UNION_SIZE && IsI32(tunerType) && EnvOk(env)
    ensures var req := Request(numOfTuners, name, tunerType, junk);
      var a := AfterIoctl(slots, HDHOMERUN_REGISTER_TUNER, req, env);
      var d := DecodeTunerData(req);
      Syscall(a.ret) == 0 ==>
        var id := DecodeTunerData(a.mem).id;
        (Lookup(slots, d.name).Some? ==> id == Lookup(slots, d.name).value)
        && (Lookup(slots, d.name).None? ==> id == |slots| && |a.slots| == |slots| + 1)
  {
  }

  /**
   * Control::Ioctl: true with the kernel's id when the ioctl returns 0,
   * false with `id` untouched otherwise (a copy-back that left bytes
   * uncopied returns their positive count, also a failure here).
   */
  method Ioctl(registry: Registry, numOfTuners: int, name: string, id: int, tunerType: int,
               junk: seq<byte>, env: Env) returns (ok: bool, idOut: int)
    requires registry.Valid() && |junk| == UNION_SIZE && IsI32(tunerType) && EnvOk(env)
    modifies registry, registry.devices
    ensures registry.Valid()
    ensures var a := AfterIoctl(old(registry.Slots()), HDHOMERUN_REGISTER_TUNER, Request(numOfTuners, name, tunerType, junk), env);
      registry.Slots() == a.slots && (ok <==> a.ret == 0)
      && (ok ==> idOut == DecodeTunerData(a.mem).id) && (!ok ==> idOut == id)
  {
    var tunerData := Request(numOfTuners, name, tunerType, junk);
    var ret, mem := KernelIoctl.Ioctl(registry, HDHOMERUN_REGISTER_TUNER, tunerData, env);
    if Syscall(ret) != 0 {
      return false, id;
    }
    idOut := DecodeTunerData(mem).id;
    ok := true;
  }
}
