/**
 * The kernel's tuner registry and demux callbacks
 * (kernel/dvb_hdhomerun_init.c).
 *
 * `platform_device[]` holds up to HDHOMERUN_MAX_TUNERS platform devices;
 * the first `hdhomerun_num_of_devices` of them are in use. Each device's
 * driver data holds a copy of the registration record it was created for,
 * or is NULL after the DVB plumbing for it failed. The model keeps, per
 * slot, `Some(record)` or `None` for that NULL.
 */
module KernelRegistry {
  import opened Wrappers
  import opened Wire
  import opened KernelBase
  import opened KernelChannel

  /** kernel/dvb_hdhomerun_core.h */
  const HDHOMERUN_MAX_TUNERS: nat := 8

  /** Names are compared on their first 10 characters. */
  const NAME_COMPARE: nat := 10

  // ---------------------------------------------------------------------
  // strncmp
  // ---------------------------------------------------------------------

  /** strncmp(a, b, n) == 0: equal up to n characters or up to a common NUL. */
  function StrnEqual(a: seq<byte>, b: seq<byte>, n: nat): bool
    requires n <= |a| && n <= |b|
  {
    n == 0 || (a[0] == b[0] && (a[0] == 0 || StrnEqual(a[1..], b[1..], n - 1)))
  }

  /** The C string held in the first n bytes of a: the bytes before the
      first NUL, at most n of them. */
  function CString(a: seq<byte>, n: nat): (s: seq<byte>)
    requires n <= |a|
    ensures |s| <= n && s == a[..|s|]
    ensures forall i :: 0 <= i < |s| ==> s[i] != 0
    ensures |s| < n ==> a[|s|] == 0
  {
    if n == 0 || a[0] == 0 then [] else [a[0]] + CString(a[1..], n - 1)
  }

  /** strncmp compares the C strings the two buffers hold, cut at n. */
  lemma {:induction false} StrnEqualIsCStringEqual(a: seq<byte>, b: seq<byte>, n: nat)
    requires n <= |a| && n <= |b|
    ensures StrnEqual(a, b, n) <==> CString(a, n) == CString(b, n)
  {
    if n == 0 || a[0] == 0 || b[0] == 0 {
    } else if a[0] != b[0] {
      assert CString(a, n)[0] != CString(b, n)[0];
    } else {
      StrnEqualIsCStringEqual(a[1..], b[1..], n - 1);
      var sa, sb := CString(a[1..], n - 1), CString(b[1..], n - 1);
      assert CString(a, n) == [a[0]] + sa && CString(b, n) == [b[0]] + sb;
      assert ([a[0]] + sa == [a[0]] + sb) ==> sa == sb by {
        if [a[0]] + sa == [a[0]] + sb {
          assert sa == ([a[0]] + sa)[1..];
        }
      }
    }
  }

  lemma {:induction false} StrnEqualReflexive(a: seq<byte>, n: nat)
    requires n <= |a|
    ensures StrnEqual(a, a, n)
  {
    if n > 0 && a[0] != 0 {
      StrnEqualReflexive(a[1..], n - 1);
    }
  }

  // ---------------------------------------------------------------------
  // The registry as a value
  // ---------------------------------------------------------------------

  type Slot = Option<TunerData>

  /** Every live slot holds a well-formed record whose id is its index. */
  predicate SlotsOk(slots: seq<Slot>)
  {
    |slots| <= HDHOMERUN_MAX_TUNERS
    && forall i :: 0 <= i < |slots| && slots[i].Some? ==> slots[i].value.id == i && TunerDataOk(slots[i].value)
  }

  predicate Matches(slot: Slot, name: seq<byte>)
    requires |name| == NAME_SIZE
  {
    slot.Some? && |slot.value.name| == NAME_SIZE && StrnEqual(name, slot.value.name, NAME_COMPARE)
  }

  /** The "already registered" scan, skipping slots whose driver data is
      gone: the id of the first live slot with the same name. */
  function Lookup(slots: seq<Slot>, name: seq<byte>): (r: Option<int>)
    requires |name| == NAME_SIZE
    ensures r.None? <==> forall i :: 0 <= i < |slots| ==> !Matches(slots[i], name)
    ensures r.Some? ==> exists i :: 0 <= i < |slots| && Matches(slots[i], name) && r.value == slots[i].value.id
                          && forall j :: 0 <= j < i ==> !Matches(slots[j], name)
  {
    if slots == [] then None
    else if Matches(slots[0], name) then Some(slots[0].value.id)
    else
      var r := Lookup(slots[1..], name);
      assert forall i :: 1 <= i < |slots| ==> slots[i] == slots[1..][i - 1];
      r
  }

  /** Scanning a longer registry: the first part is searched first. */
  lemma {:induction false} LookupAppend(a: seq<Slot>, b: seq<Slot>, name: seq<byte>)
    requires |name| == NAME_SIZE
    ensures Lookup(a + b, name) == if Lookup(a, name).Some? then Lookup(a, name) else Lookup(b, name)
  {
    if a == [] {
      assert a + b == b;
    } else {
      assert (a + b)[0] == a[0] && (a + b)[1..] == a[1..] + b;
      LookupAppend(a[1..], b, name);
    }
  }

  datatype Registration = Registration(slots: seq<Slot>, ret: int, id: int)

  /**
   * dvb_hdhomerun_register_hdhomerun for the record `d`: `platOk` is the
   * outcome of platform_device_register_simple and `dvbOk` that of
   * dvb_hdhomerun_register. The result carries `tuner_data->id` afterwards.
   * This is the corrected definition (see the two functions below).
   */
  function AfterRegister(slots: seq<Slot>, d: TunerData, platOk: bool, dvbOk: bool): (r: Registration)
    requires SlotsOk(slots) && TunerDataOk(d)
    ensures SlotsOk(r.slots) && (r.ret == 0 || r.ret == -ENODEV)
    ensures Lookup(slots, d.name).Some? ==> r == Registration(slots, 0, Lookup(slots, d.name).value)
    ensures Lookup(slots, d.name).None? && |slots| == HDHOMERUN_MAX_TUNERS ==> r == Registration(slots, -ENODEV, d.id)
    ensures Lookup(slots, d.name).None? && |slots| < HDHOMERUN_MAX_TUNERS && !platOk ==>
      r == Registration(slots, -ENODEV, d.id)
    ensures Lookup(slots, d.name).None? && |slots| < HDHOMERUN_MAX_TUNERS && platOk ==>
      r.ret == 0 && r.id == |slots| && |r.slots| == |slots| + 1 && r.slots[..|slots|] == slots
      && r.slots[|slots|] == (if dvbOk then Some(d.(id := |slots|)) else None)
  {
    match Lookup(slots, d.name)
    case Some(id) => Registration(slots, 0, id)
    case None =>
      if |slots| < HDHOMERUN_MAX_TUNERS then
        if !platOk then Registration(slots, -ENODEV, d.id)
        else
          var added: Slot := if dvbOk then Some(d.(id := |slots|)) else None;
          assert (slots + [added])[..|slots|] == slots;
          Registration(slots + [added], 0, |slots|)
      else Registration(slots, -ENODEV, d.id)
  }

  // ---------------------------------------------------------------------
  // The registration code as written
  // ---------------------------------------------------------------------

  datatype Scan = Found(id: int) | NotFound | NullDeref

  /** The scan at lines 336-346 as written: it takes the driver data of
      every slot below the count without checking it for NULL. */
  function ScanAsWritten(slots: seq<Slot>, name: seq<byte>): (r: Scan)
    requires |name| == NAME_SIZE
    ensures r.NullDeref? <==> exists i :: 0 <= i < |slots| && slots[i].None?
                                  && forall j :: 0 <= j < i ==> !Matches(slots[j], name)
  {
    if slots == [] then NotFound
    else if slots[0].None? then NullDeref
    else if Matches(slots[0], name) then Found(slots[0].value.id)
    else
      var r := ScanAsWritten(slots[1..], name);
      assert forall i :: 1 <= i < |slots| ==> slots[i] == slots[1..][i - 1];
      if r.NullDeref? then
        assert exists i :: 0 <= i < |slots| && slots[i].None? && forall j :: 0 <= j < i ==> !Matches(slots[j], name) by {
          var k :| 0 <= k < |slots[1..]| && slots[1..][k].None? && forall j :: 0 <= j < k ==> !Matches(slots[1..][j], name);
          assert slots[k + 1].None?;
          forall j | 0 <= j < k + 1 ensures !Matches(slots[j], name) {
            if j > 0 { assert slots[j] == slots[1..][j - 1]; }
          }
        }
        r
      else r
  }

  /** Where no slot has lost its driver data, the scan as written finds
      exactly what the corrected lookup finds. */
  lemma {:induction false} ScanAsWrittenAgrees(slots: seq<Slot>, name: seq<byte>)
    requires |name| == NAME_SIZE && forall i :: 0 <= i < |slots| ==> slots[i].Some?
    ensures Lookup(slots, name).Some? ==> ScanAsWritten(slots, name) == Found(Lookup(slots, name).value)
    ensures Lookup(slots, name).None? ==> ScanAsWritten(slots, name) == NotFound
  {
    if slots != [] {
      ScanAsWrittenAgrees(slots[1..], name);
    }
  }

  datatype Outcome = Done(reg: Registration) | Oops

  /** dvb_hdhomerun_register_hdhomerun as written: the NULL driver data of a
      failed slot is dereferenced by the next scan, and the error check of
      platform_device_register_simple tests the array (never an error
      pointer) instead of the new element, so a failed registration goes on
      to dereference the error pointer. */
  function RegisterAsWritten(slots: seq<Slot>, d: TunerData, platOk: bool, dvbOk: bool): Outcome
    requires SlotsOk(slots) && TunerDataOk(d)
  {
    match ScanAsWritten(slots, d.name)
    case NullDeref => Oops
    case Found(id) => Done(Registration(slots, 0, id))
    case NotFound =>
      if |slots| < HDHOMERUN_MAX_TUNERS then
        if !platOk then Oops
        else
          var added: Slot := if dvbOk then Some(d.(id := |slots|)) else None;
          Done(Registration(slots + [added], 0, |slots|))
      else Done(Registration(slots, -ENODEV, d.id))
  }

  /** A tuner whose DVB plumbing failed leaves a NULL slot; registering any
      tuner afterwards, the same one retried included, dereferences it. */
  lemma NullSlotCrashesNextRegistration(d: TunerData, e: TunerData, platOk: bool)
    requires TunerDataOk(d) && TunerDataOk(e)
    ensures AfterRegister([], d, true, false).slots == [None]
    ensures RegisterAsWritten([None], e, platOk, true) == Oops
    ensures AfterRegister([None], e, true, true) == Registration([None, Some(e.(id := 1))], 0, 1)
  {
    assert ScanAsWritten([None], e.name) == NullDeref;
    assert [None] + [Some(e.(id := 1))] == [None, Some(e.(id := 1))];
  }

  /** A failing platform_device_register_simple is not caught. */
  lemma PlatformFailureUnchecked(d: TunerData)
    requires TunerDataOk(d)
    ensures RegisterAsWritten([], d, false, true) == Oops
    ensures AfterRegister([], d, false, true) == Registration([], -ENODEV, d.id)
  {
  }

  /** Wherever the code as written neither crashes nor hits a failed
      platform registration, it agrees with the corrected definition. */
  lemma RegisterAsWrittenAgrees(slots: seq<Slot>, d: TunerData, dvbOk: bool)
    requires SlotsOk(slots) && TunerDataOk(d) && forall i :: 0 <= i < |slots| ==> slots[i].Some?
    ensures RegisterAsWritten(slots, d, true, dvbOk) == Done(AfterRegister(slots, d, true, dvbOk))
  {
    ScanAsWrittenAgrees(slots, d.name);
  }

  // ---------------------------------------------------------------------
  // Properties of registration
  // ---------------------------------------------------------------------

  /** A daemon restart registers the same tuner again: it gets the id it
      had, and the registry does not change. */
  lemma ReRegistrationIsIdempotent(slots: seq<Slot>, d: TunerData, again: TunerData, platOk: bool, dvbOk: bool)
    requires SlotsOk(slots) && TunerDataOk(d) && TunerDataOk(again) && again.name == d.name
    requires AfterRegister(slots, d, platOk, dvbOk).ret == 0
    requires Lookup(slots, d.name).Some? || dvbOk
    ensures var r := AfterRegister(slots, d, platOk, dvbOk);
      AfterRegister(r.slots, again, platOk, dvbOk) == Registration(r.slots, 0, r.id)
  {
    var r := AfterRegister(slots, d, platOk, dvbOk);
    if Lookup(slots, d.name).None? {
      StrnEqualReflexive(d.name, NAME_COMPARE);
      assert Matches(r.slots[|slots|], again.name);
      LookupAppend(slots, [r.slots[|slots|]], again.name);
      assert r.slots == slots + [r.slots[|slots|]];
    }
  }

  /** The ids handed out to a run of registrations. */
  function RegisterAll(slots: seq<Slot>, ds: seq<TunerData>, dvbOk: bool): (r: (seq<Slot>, seq<int>))
    requires SlotsOk(slots) && forall i :: 0 <= i < |ds| ==> TunerDataOk(ds[i])
    ensures SlotsOk(r.0) && |r.1| == |ds|
    decreases |ds|
  {
    if ds == [] then (slots, [])
    else
      var a := AfterRegister(slots, ds[0], true, dvbOk);
      var rest := RegisterAll(a.slots, ds[1..], dvbOk);
      (rest.0, [a.id] + rest.1)
  }

  predicate NewNames(slots: seq<Slot>, ds: seq<TunerData>)
  {
    (forall i :: 0 <= i < |ds| ==> TunerDataOk(ds[i]) && Lookup(slots, ds[i].name).None?)
    && forall i, j :: 0 <= i < j < |ds| && TunerDataOk(ds[i]) && TunerDataOk(ds[j]) ==>
         !StrnEqual(ds[j].name, ds[i].name, NAME_COMPARE)
  }

  /** Distinct new names registered in turn get the ids |slots|, |slots|+1,
      ... in registration order: sequential, pairwise distinct, below the
      maximum of 8. */
  lemma {:induction false} SequentialIds(slots: seq<Slot>, ds: seq<TunerData>)
    requires SlotsOk(slots) && forall i :: 0 <= i < |ds| ==> TunerDataOk(ds[i])
    requires NewNames(slots, ds) && |slots| + |ds| <= HDHOMERUN_MAX_TUNERS
    ensures var r := RegisterAll(slots, ds, true);
      |r.0| == |slots| + |ds| && forall k :: 0 <= k < |ds| ==> r.1[k] == |slots| + k
    decreases |ds|
  {
    if ds != [] {
      var a := AfterRegister(slots, ds[0], true, true);
      var tail := ds[1..];
      assert a.slots == slots + [Some(ds[0].(id := |slots|))];
      forall i | 0 <= i < |tail|
        ensures Lookup(a.slots, tail[i].name).None?
      {
        assert tail[i] == ds[i + 1];
        LookupAppend(slots, [Some(ds[0].(id := |slots|))], tail[i].name);
        assert !Matches(Some(ds[0].(id := |slots|)), tail[i].name);
      }
      forall i, j | 0 <= i < j < |tail|
        ensures !StrnEqual(tail[j].name, tail[i].name, NAME_COMPARE)
      {
        assert tail[i] == ds[i + 1] && tail[j] == ds[j + 1];
      }
      SequentialIds(a.slots, tail);
    }
  }

  // ---------------------------------------------------------------------
  // The registry in place
  // ---------------------------------------------------------------------

  class Registry {
    /** Per platform_device[i]: its driver data's record, or None (NULL). */
    const devices: array<Slot>
    /** hdhomerun_num_of_devices */
    var count: nat

    ghost predicate Valid()
      reads this, devices
    {
      devices.Length == HDHOMERUN_MAX_TUNERS && count <= HDHOMERUN_MAX_TUNERS && SlotsOk(devices[..count])
    }

    function Slots(): seq<Slot>
      reads this, devices
      requires count <= devices.Length
    {
      devices[..count]
    }

    constructor ()
      ensures Valid() && Slots() == [] && fresh(devices)
    {
      devices := new Slot[HDHOMERUN_MAX_TUNERS](_ => None);
      count := 0;
    }

    /** dvb_hdhomerun_register_hdhomerun, with NULL driver data skipped by
        the scan and the new element checked for an error pointer. */
    method Register(d: TunerData, platOk: bool, dvbOk: bool) returns (ret: int, id: int)
      requires Valid() && TunerDataOk(d)
      modifies this, devices
      ensures Valid() && Registration(Slots(), ret, id) == AfterRegister(old(Slots()), d, platOk, dvbOk)
    {
      ghost var slots := devices[..count];
      var i := 0;
      while i < count
        invariant Valid() && 0 <= i <= count && devices[..count] == slots
        invariant forall j :: 0 <= j < i ==> !Matches(slots[j], d.name)
      {
        if devices[i].Some? && StrnEqual(d.name, devices[i].value.name, NAME_COMPARE) {
          // Already have that tuner.
          assert Matches(slots[i], d.name);
          return 0, devices[i].value.id;
        }
        i := i + 1;
      }
      if count < HDHOMERUN_MAX_TUNERS {
        if !platOk {
          return -ENODEV, d.id;
        }
        id := count;
        devices[count] := if dvbOk then Some(d.(id := count)) else None;
        assert devices[..count + 1] == slots + [devices[count]];
        count := count + 1;
        ret := 0;
      } else {
        ret, id := -ENODEV, d.id;
      }
    }
  }

  // ---------------------------------------------------------------------
  // Demux callbacks and frontend selection
  // ---------------------------------------------------------------------

  /** The record the feed callbacks build: the operation, the platform
      id and the feed's pid and index. `u0` is the uninitialised rest of the
      local record's union. */
  function FeedRequest(t: MesgType, platformId: int, feed: DemuxFeed, u0: seq<byte>): (m: Mesg)
    requires |u0| == UNION_SIZE && FeedOk(feed) && IsI32(platformId)
    ensures WellFormed(m) && FromCode(m.mtype) == Some(t) && m.id == platformId
    ensures FeedOf(m.u) == feed
  {
    FeedOfWithFeed(u0, feed);
    Mesg(Code(t), WithFeed(u0, feed), platformId)
  }

  /** dvb_hdhomerun_start_feed: `priv` is the platform id of the adapter
      behind demux->priv (None for NULL), `connected` whether the demux has
      a frontend. */
  method StartFeed(ch: ControlChannel, priv: Option<int>, connected: bool, feed: DemuxFeed,
                   u0: seq<byte>, w: Wake<seq<byte>>) returns (ret: int)
    requires ch.Valid() && ArrivalOk(ch.kernelFifo, w)
    requires |u0| == UNION_SIZE && FeedOk(feed) && (priv.Some? ==> IsI32(priv.value))
    modifies ch
    ensures ch.Valid()
    ensures priv.None? || !connected ==> ret == -EINVAL && ch.State() == old(ch.State())
    ensures priv.Some? && connected ==>
      var r := AfterPostAndWait(old(ch.State()), FeedRequest(MesgType.StartFeed, priv.value, feed, u0), w);
      ch.State() == r.chan && ret == r.ret
  {
    if priv.None? {
      return -EINVAL;
    }
    if !connected {
      return -EINVAL;
    }
    var mesg := FeedRequest(MesgType.StartFeed, priv.value, feed, u0);
    var reply;
    ret, reply := ch.PostAndWait(mesg, w);
  }

  /** dvb_hdhomerun_stop_feed: as start_feed, without the frontend check. */
  method StopFeed(ch: ControlChannel, priv: Option<int>, feed: DemuxFeed,
                  u0: seq<byte>, w: Wake<seq<byte>>) returns (ret: int)
    requires ch.Valid() && ArrivalOk(ch.kernelFifo, w)
    requires |u0| == UNION_SIZE && FeedOk(feed) && (priv.Some? ==> IsI32(priv.value))
    modifies ch
    ensures ch.Valid()
    ensures priv.None? ==> ret == -EINVAL && ch.State() == old(ch.State())
    ensures priv.Some? ==>
      var r := AfterPostAndWait(old(ch.State()), FeedRequest(MesgType.StopFeed, priv.value, feed, u0), w);
      ch.State() == r.chan && ret == r.ret
  {
    if priv.None? {
      return -EINVAL;
    }
    var mesg := FeedRequest(MesgType.StopFeed, priv.value, feed, u0);
    var reply;
    ret, reply := ch.PostAndWait(mesg, w);
  }

  datatype Delivery = DvbC | DvbT | Atsc

  /** The frontend attached for a registered tuner type (lines 199-207). */
  function FrontendFor(tunerType: int): (f: Delivery)
    ensures f == DvbC <==> tunerType == 1
    ensures f == DvbT <==> tunerType == 2
    ensures f == Atsc <==> tunerType != 1 && tunerType != 2
  {
    if tunerType == 1 then DvbC
    else if tunerType == 2 then DvbT
    else if tunerType == 3 then Atsc
    else Atsc
  }
}
