/**
 * The daemon's tuner set (HdhomerunController in
 * userhdhomerun/hdhomerun_controller.cpp): one HdhomerunTuner per tuner of
 * every discovered device, minus those the configuration disables, each
 * registered with the kernel, and the search by kernel id the dispatcher
 * uses.
 *
 * Discovery is an input: the devices libhdhomerun reports, and for each
 * tuner the name and model string it gives.
 */
module Controller {
  import opened Wrappers
  import opened Wire
  import opened Text
  import opened Tuner
  import opened KernelRegistry
  import opened KernelIoctl
  import opened UserIoctl

  /** Tuners per device when the library does not report tuner_count. */
  const MAX_TUNERS: nat := 2
  /** The sanity bound on a reported tuner_count. */
  const MAX_TUNER_COUNT: nat := 10

  /** What libhdhomerun answers about one tuner. */
  datatype Probe = Probe(name: string, modelStr: Option<string>)

  /** A discovered device: `idValid` is hdhomerun_discover_validate_device_id,
      `probes` what each of the tuners the constructor creates reports. */
  datatype Device = Device(deviceId: int, ipAddr: int, tunerCount: nat, idValid: bool, probes: seq<Probe>)

  function TunersOf(d: Device, haveTunerCount: bool): nat
  {
    if haveTunerCount then d.tunerCount else MAX_TUNERS
  }

  predicate DevicesOk(devices: seq<Device>, haveTunerCount: bool)
  {
    forall i :: 0 <= i < |devices| ==> |devices[i].probes| == TunersOf(devices[i], haveTunerCount)
  }

  /** With tuner_count, a device with an invalid id or more than 10 tuners
      makes the daemon exit. */
  predicate Rejected(d: Device, haveTunerCount: bool)
  {
    haveTunerCount && !(d.idValid && d.tunerCount <= MAX_TUNER_COUNT)
  }

  /** A tuner the constructor keeps. */
  datatype Made = Made(deviceId: int, ipAddr: int, tuner: int, name: string, config: Config)

  /** The tuners kept for the first k tuners of device d; None when one of
      them makes the daemon exit. */
  function MadeFor(d: Device, k: nat, conf: Option<seq<string>>): (r: Option<seq<Made>>)
    requires k <= |d.probes|
    ensures r.Some? ==> |r.value| <= k
    ensures r.Some? ==> forall i :: 0 <= i < |r.value| ==>
      (!r.value[i].config.disabled && 0 <= r.value[i].tuner < k && r.value[i].deviceId == d.deviceId)
    decreases k
  {
    if k == 0 then Some([])
    else
      match MadeFor(d, k - 1, conf)
      case None => None
      case Some(ms) =>
        var p := d.probes[k - 1];
        match Configure(conf, p.name, p.modelStr)
        case None => None
        case Some(c) =>
          if c.disabled then Some(ms) else Some(ms + [Made(d.deviceId, d.ipAddr, k - 1, p.name, c)])
  }

  /** The tuners kept for all devices, device by device. */
  function Plan(devices: seq<Device>, haveTunerCount: bool, conf: Option<seq<string>>): (r: Option<seq<Made>>)
    requires DevicesOk(devices, haveTunerCount)
    ensures r.Some? ==> forall i :: 0 <= i < |r.value| ==> !r.value[i].config.disabled
    ensures r.Some? ==> forall i :: 0 <= i < |devices| ==> !Rejected(devices[i], haveTunerCount)
    decreases |devices|
  {
    if devices == [] then Some([])
    else
      var init := devices[..|devices| - 1];
      var d := devices[|devices| - 1];
      match Plan(init, haveTunerCount, conf)
      case None => None
      case Some(ms) =>
        if Rejected(d, haveTunerCount) then None
        else
          match MadeFor(d, TunersOf(d, haveTunerCount), conf)
          case None => None
          case Some(more) =>
            assert forall i :: 0 <= i < |init| ==> init[i] == devices[i];
            Some(ms + more)
  }

  /** `found` is what hdhomerun_discover_find_devices_custom returns and
      `devices` the entries the creation loops visit: none for a negative
      (error) count, otherwise the first `found`. */
  predicate Listed(found: int, devices: seq<Device>)
  {
    if found < 0 then devices == [] else |devices| == found
  }

  /** A count of 0 makes the daemon exit; a negative one skips both loops,
      and the daemon goes on without tuners. */
  function Discovered(found: int, devices: seq<Device>, haveTunerCount: bool, conf: Option<seq<string>>): (r: Option<seq<Made>>)
    requires DevicesOk(devices, haveTunerCount) && Listed(found, devices)
    ensures found == 0 ==> r.None?
    ensures found < 0 ==> r == Some([])
    ensures found > 0 ==> r == Plan(devices, haveTunerCount, conf)
  {
    if found == 0 then None else Plan(devices, haveTunerCount, conf)
  }

  /** How many tuners at most: two per device without tuner_count, and
      at most 10 per device with it. */
  lemma {:induction false} PlanBound(devices: seq<Device>, haveTunerCount: bool, conf: Option<seq<string>>)
    requires DevicesOk(devices, haveTunerCount) && Plan(devices, haveTunerCount, conf).Some?
    ensures |Plan(devices, haveTunerCount, conf).value|
            <= (if haveTunerCount then MAX_TUNER_COUNT else MAX_TUNERS) * |devices|
    decreases |devices|
  {
    if devices != [] {
      var n := |devices| - 1;
      var init, d := devices[..n], devices[n];
      assert DevicesOk(init, haveTunerCount) by {
        assert forall j :: 0 <= j < n ==> init[j] == devices[j];
      }
      PlanBound(init, haveTunerCount, conf);
      var more := MadeFor(d, TunersOf(d, haveTunerCount), conf).value;
      assert Plan(devices, haveTunerCount, conf).value == Plan(init, haveTunerCount, conf).value + more;
      if haveTunerCount {
        assert |more| <= MAX_TUNER_COUNT;
        assert MAX_TUNER_COUNT * |devices| == MAX_TUNER_COUNT * n + MAX_TUNER_COUNT;
      } else {
        assert |more| <= MAX_TUNERS;
        assert MAX_TUNERS * |devices| == MAX_TUNERS * n + MAX_TUNERS;
      }
    }
  }

  /** Without tuner_count, a device whose two tuners are both configured
      and enabled contributes exactly tuners 0 and 1, in that order. */
  lemma TwoTunersWithoutTunerCount(d: Device, conf: Option<seq<string>>, c0: Config, c1: Config)
    requires |d.probes| == MAX_TUNERS
    requires Configure(conf, d.probes[0].name, d.probes[0].modelStr) == Some(c0) && !c0.disabled
    requires Configure(conf, d.probes[1].name, d.probes[1].modelStr) == Some(c1) && !c1.disabled
    ensures MadeFor(d, TunersOf(d, false), conf)
            == Some([Made(d.deviceId, d.ipAddr, 0, d.probes[0].name, c0), Made(d.deviceId, d.ipAddr, 1, d.probes[1].name, c1)])
  {
    var m0 := Made(d.deviceId, d.ipAddr, 0, d.probes[0].name, c0);
    var m1 := Made(d.deviceId, d.ipAddr, 1, d.probes[1].name, c1);
    assert MadeFor(d, 0, conf) == Some([]);
    assert [] + [m0] == [m0];
    assert MadeFor(d, 1, conf) == Some([m0]);
    assert [m0] + [m1] == [m0, m1];
  }

  /** What the constructor of tuner j of device d makes of the
      configuration; None when it makes the daemon exit. */
  function ConfigAt(d: Device, j: nat, conf: Option<seq<string>>): Option<Config>
    requires j < |d.probes|
  {
    Configure(conf, d.probes[j].name, d.probes[j].modelStr)
  }

  /** Tuner j of device d is configured and not disabled. */
  predicate Enabled(d: Device, j: nat, conf: Option<seq<string>>)
    requires j < |d.probes|
  {
    ConfigAt(d, j, conf).Some? && !ConfigAt(d, j, conf).value.disabled
  }

  /** The tuner kept for tuner j of device d. */
  function KeptAt(d: Device, j: nat, conf: Option<seq<string>>): Made
    requires j < |d.probes| && ConfigAt(d, j, conf).Some?
  {
    Made(d.deviceId, d.ipAddr, j, d.probes[j].name, ConfigAt(d, j, conf).value)
  }

  /** The first k tuners of a device give an outcome exactly when each of
      them configures. */
  lemma {:induction false} MadeForSomeIff(d: Device, k: nat, conf: Option<seq<string>>)
    requires k <= |d.probes|
    ensures MadeFor(d, k, conf).Some? <==> forall j :: 0 <= j < k ==> ConfigAt(d, j, conf).Some?
    decreases k
  {
    if k > 0 {
      MadeForSomeIff(d, k - 1, conf);
      if MadeFor(d, k - 1, conf).None? {
        var j :| 0 <= j < k - 1 && ConfigAt(d, j, conf).None?;
      } else {
        assert MadeFor(d, k, conf).Some? <==> ConfigAt(d, k - 1, conf).Some?;
      }
    }
  }

  /** Every tuner MadeFor keeps is an enabled one, with its own name and
      configuration, and they come in increasing tuner order. */
  lemma {:induction false} MadeForSound(d: Device, k: nat, conf: Option<seq<string>>)
    requires k <= |d.probes| && MadeFor(d, k, conf).Some?
    ensures var r := MadeFor(d, k, conf).value;
      (forall i :: 0 <= i < |r| ==>
         0 <= r[i].tuner < k && Enabled(d, r[i].tuner, conf) && r[i] == KeptAt(d, r[i].tuner, conf))
      && (forall i, i' :: 0 <= i < i' < |r| ==> r[i].tuner < r[i'].tuner)
    decreases k
  {
    if k > 0 {
      MadeForSound(d, k - 1, conf);
      var ms := MadeFor(d, k - 1, conf).value;
      if Enabled(d, k - 1, conf) {
        assert MadeFor(d, k, conf).value == ms + [KeptAt(d, k - 1, conf)];
      } else {
        assert MadeFor(d, k, conf).value == ms;
      }
    }
  }

  /** Every enabled tuner among the first k is kept. */
  lemma {:induction false} MadeForComplete(d: Device, k: nat, conf: Option<seq<string>>)
    requires k <= |d.probes| && MadeFor(d, k, conf).Some?
    ensures forall j :: 0 <= j < k && Enabled(d, j, conf) ==> KeptAt(d, j, conf) in MadeFor(d, k, conf).value
    decreases k
  {
    if k > 0 {
      MadeForComplete(d, k - 1, conf);
      var ms := MadeFor(d, k - 1, conf).value;
      var r := MadeFor(d, k, conf).value;
      assert forall m :: m in ms ==> m in r;
      if Enabled(d, k - 1, conf) {
        assert r == ms + [KeptAt(d, k - 1, conf)];
      }
    }
  }

  /** Helper for the Plan lemmas: the list without its last device. */
  lemma InitOk(devices: seq<Device>, haveTunerCount: bool)
    requires DevicesOk(devices, haveTunerCount) && devices != []
    ensures var init := devices[..|devices| - 1];
      DevicesOk(init, haveTunerCount) && forall i :: 0 <= i < |init| ==> init[i] == devices[i]
  {
  }

  /** Discovery as a whole gives an outcome exactly when no device is
      rejected and every tuner of every device configures. */
  lemma {:induction false} PlanSomeIff(devices: seq<Device>, haveTunerCount: bool, conf: Option<seq<string>>)
    requires DevicesOk(devices, haveTunerCount)
    ensures Plan(devices, haveTunerCount, conf).Some? <==>
      forall i :: 0 <= i < |devices| ==> Accepted(devices[i], haveTunerCount, conf)
    decreases |devices|
  {
    if devices != [] {
      var n := |devices| - 1;
      var init, d := devices[..n], devices[n];
      InitOk(devices, haveTunerCount);
      PlanSomeIff(init, haveTunerCount, conf);
      MadeForSomeIff(d, TunersOf(d, haveTunerCount), conf);
      if Plan(init, haveTunerCount, conf).None? {
        var i :| 0 <= i < n && !Accepted(init[i], haveTunerCount, conf);
        assert !Accepted(devices[i], haveTunerCount, conf);
      } else {
        assert Plan(devices, haveTunerCount, conf).Some? <==> Accepted(d, haveTunerCount, conf);
      }
    }
  }

  /** Every enabled tuner of every device is among the tuners kept. */
  lemma {:induction false} PlanComplete(devices: seq<Device>, haveTunerCount: bool, conf: Option<seq<string>>)
    requires DevicesOk(devices, haveTunerCount) && Plan(devices, haveTunerCount, conf).Some?
    ensures forall i, j :: 0 <= i < |devices| && 0 <= j < |devices[i].probes| && Enabled(devices[i], j, conf) ==>
              KeptAt(devices[i], j, conf) in Plan(devices, haveTunerCount, conf).value
    decreases |devices|
  {
    if devices != [] {
      var n := |devices| - 1;
      var init, d := devices[..n], devices[n];
      InitOk(devices, haveTunerCount);
      PlanComplete(init, haveTunerCount, conf);
      MadeForComplete(d, TunersOf(d, haveTunerCount), conf);
      var ms := Plan(init, haveTunerCount, conf).value;
      var more := MadeFor(d, TunersOf(d, haveTunerCount), conf).value;
      var r := Plan(devices, haveTunerCount, conf).value;
      assert r == ms + more;
      forall i, j | 0 <= i < |devices| && 0 <= j < |devices[i].probes| && Enabled(devices[i], j, conf)
        ensures KeptAt(devices[i], j, conf) in r
      {
        if i < n {
          assert init[i] == devices[i];
          assert KeptAt(init[i], j, conf) in ms;
        } else {
          assert KeptAt(d, j, conf) in more;
        }
      }
    }
  }

  /** Every tuner kept is the kept tuner of an enabled tuner of some
      device. */
  lemma {:induction false} PlanSound(devices: seq<Device>, haveTunerCount: bool, conf: Option<seq<string>>)
    requires DevicesOk(devices, haveTunerCount) && Plan(devices, haveTunerCount, conf).Some?
    ensures forall m :: m in Plan(devices, haveTunerCount, conf).value ==> Contributes(devices, m, conf)
    decreases |devices|
  {
    if devices != [] {
      var n := |devices| - 1;
      var init, d := devices[..n], devices[n];
      InitOk(devices, haveTunerCount);
      PlanSound(init, haveTunerCount, conf);
      MadeForSound(d, TunersOf(d, haveTunerCount), conf);
      var ms := Plan(init, haveTunerCount, conf).value;
      var more := MadeFor(d, TunersOf(d, haveTunerCount), conf).value;
      var r := Plan(devices, haveTunerCount, conf).value;
      assert r == ms + more;
      forall m | m in r
        ensures Contributes(devices, m, conf)
      {
        if m in ms {
          var i, j :| 0 <= i < |init| && 0 <= j < |init[i].probes| && Enabled(init[i], j, conf) && m == KeptAt(init[i], j, conf);
          assert init[i] == devices[i];
        } else {
          var k :| 0 <= k < |more| && more[k] == m;
          assert devices[n] == d;
          assert 0 <= m.tuner < |d.probes| && Enabled(d, m.tuner, conf) && m == KeptAt(d, m.tuner, conf);
        }
      }
    }
  }

  /** The device is not rejected, and each of its tuners configures. */
  predicate Accepted(d: Device, haveTunerCount: bool, conf: Option<seq<string>>)
  {
    !Rejected(d, haveTunerCount) && forall j :: 0 <= j < |d.probes| ==> ConfigAt(d, j, conf).Some?
  }

  /** m is the kept tuner of some enabled tuner of some device. */
  predicate Contributes(devices: seq<Device>, m: Made, conf: Option<seq<string>>)
  {
    exists i, j :: 0 <= i < |devices| && 0 <= j < |devices[i].probes| && Enabled(devices[i], j, conf)
      && m == KeptAt(devices[i], j, conf)
  }

  /** A failed discovery goes on with no tuners; finding no device exits. */
  lemma DiscoveryOutcomes(haveTunerCount: bool, conf: Option<seq<string>>)
    ensures Discovered(-1, [], haveTunerCount, conf) == Some([])
    ensures Discovered(0, [], haveTunerCount, conf).None?
  {
  }

  /** What a tuner object was made as. */
  function Describe(t: HdhomerunTuner): Made
  {
    Made(t.deviceId, t.deviceIp, t.tuner, t.name, Config(t.tunerType, t.useFullName, t.isDisabled))
  }

  // ---------------------------------------------------------------------
  // Search by kernel id
  // ---------------------------------------------------------------------

  function KernelIds(ts: seq<HdhomerunTuner>): (ids: seq<int>)
    reads ts
    ensures |ids| == |ts| && forall i :: 0 <= i < |ts| ==> ids[i] == ts[i].kernelId
  {
    if ts == [] then [] else [ts[0].kernelId] + KernelIds(ts[1..])
  }

  /** The position of the first tuner with kernel id `id`. */
  function FirstWithId(ids: seq<int>, id: int): (r: Option<nat>)
    ensures r.None? <==> id !in ids
    ensures r.Some? ==> r.value < |ids| && ids[r.value] == id && id !in ids[..r.value]
  {
    if ids == [] then None
    else if ids[0] == id then Some(0)
    else
      var r := FirstWithId(ids[1..], id);
      if r.Some? then
        assert ids[..r.value + 1] == [ids[0]] + ids[1..][..r.value];
        Some(r.value + 1)
      else None
  }

  lemma {:induction false} FirstWithIdIs(ids: seq<int>, id: int, i: nat)
    requires i < |ids| && ids[i] == id && id !in ids[..i]
    ensures FirstWithId(ids, id) == Some(i)
    decreases i
  {
    if i > 0 {
      assert ids[0] in ids[..i];
      assert ids[1..][..i - 1] == ids[..i][1..];
      FirstWithIdIs(ids[1..], id, i - 1);
    }
  }

  // ---------------------------------------------------------------------
  // Registration with the kernel, as a value
  // ---------------------------------------------------------------------

  /** What one tuner sends: its name and the kernel's code for its type. */
  datatype Req = Req(name: string, tunerType: int)

  function Reqs(ts: seq<HdhomerunTuner>): (rs: seq<Req>)
    ensures |rs| == |ts| && forall i :: 0 <= i < |ts| ==> rs[i] == Req(ts[i].name, TypeCode(ts[i].tunerType))
  {
    if ts == [] then [] else [Req(ts[0].name, TypeCode(ts[0].tunerType))] + Reqs(ts[1..])
  }

  predicate CallsOk(rs: seq<Req>, junks: seq<seq<byte>>, envs: seq<Env>)
  {
    |junks| == |rs| && |envs| == |rs|
    && forall i :: 0 <= i < |rs| ==> |junks[i]| == UNION_SIZE && IsI32(rs[i].tunerType) && EnvOk(envs[i])
  }

  datatype Registered = Registered(slots: seq<Slot>, ids: seq<Option<int>>)

  /**
   * The registration loop on the kernel registry `slots`: `count` is the
   * number of tuners passed with every request, `junks` the uninitialised
   * records and `envs` the kernel's outcomes, request by request. Pass k
   * is the kernel's answer to the k-th request; RegisterEach the registry
   * after the first k requests, with the ids obtained (None where the
   * ioctl failed).
   */
  function Pass(slots: seq<Slot>, count: int, rs: seq<Req>, junks: seq<seq<byte>>, envs: seq<Env>, k: nat): (a: Answer)
    requires SlotsOk(slots) && CallsOk(rs, junks, envs) && k < |rs|
    ensures SlotsOk(a.slots) && |a.mem| == UNION_SIZE
    decreases 2 * k + 1
  {
    var r := RegisterEach(slots, count, rs, junks, envs, k);
    AfterIoctl(r.slots, HDHOMERUN_REGISTER_TUNER, Request(count, rs[k].name, rs[k].tunerType, junks[k]), envs[k])
  }

  /** What the daemon takes from an answer: the id when the ioctl returned 0. */
  function IdOf(a: Answer): Option<int>
    requires |a.mem| == UNION_SIZE
  {
    if a.ret == 0 then Some(DecodeTunerData(a.mem).id) else None
  }

  function RegisterEach(slots: seq<Slot>, count: int, rs: seq<Req>, junks: seq<seq<byte>>, envs: seq<Env>, k: nat): (r: Registered)
    requires SlotsOk(slots) && CallsOk(rs, junks, envs) && k <= |rs|
    ensures SlotsOk(r.slots) && |r.ids| == k
    decreases 2 * k
  {
    if k == 0 then Registered(slots, [])
    else
      var a := Pass(slots, count, rs, junks, envs, k - 1);
      Registered(a.slots, RegisterEach(slots, count, rs, junks, envs, k - 1).ids + [IdOf(a)])
  }

  /** Every kernel outcome a success. */
  predicate AllSucceed(envs: seq<Env>)
  {
    forall i :: 0 <= i < |envs| ==>
      var e := envs[i];
      e.accessOk && e.copyInOk && e.dataInitOk && e.platOk && e.dvbOk && e.copyOutLeft == 0
  }

  /** The record the kernel keeps for the k-th request of a clean run. */
  function Kept(count: int, rs: seq<Req>, junks: seq<seq<byte>>, k: nat): (s: Slot)
    requires k < |rs| && |junks| == |rs| && |junks[k]| == UNION_SIZE && IsI32(rs[k].tunerType)
  {
    Some(DecodeTunerData(Request(count, rs[k].name, rs[k].tunerType, junks[k])).(id := k))
  }

  /** One step of a clean run: a new name goes into the next slot and gets
      its index as id. */
  lemma FreshStep(slots: seq<Slot>, count: int, rs: seq<Req>, junks: seq<seq<byte>>, env: Env, n: nat)
    requires n < |rs| <= HDHOMERUN_MAX_TUNERS && |junks| == |rs|
    requires forall i :: 0 <= i < |rs| ==> |junks[i]| == UNION_SIZE && IsI32(rs[i].tunerType)
    requires env.accessOk && env.copyInOk && env.dataInitOk && env.platOk && env.dvbOk && env.copyOutLeft == 0
    requires forall i :: 0 <= i < n ==> ComparedName(rs[i].name) != ComparedName(rs[n].name)
    requires SlotsOk(slots) && |slots| == n && forall k :: 0 <= k < n ==> slots[k] == Kept(count, rs, junks, k)
    ensures var a := AfterIoctl(slots, HDHOMERUN_REGISTER_TUNER, Request(count, rs[n].name, rs[n].tunerType, junks[n]), env);
      a.ret == 0 && a.slots == slots + [Kept(count, rs, junks, n)] && DecodeTunerData(a.mem).id == n
  {
    var req := Request(count, rs[n].name, rs[n].tunerType, junks[n]);
    var d := DecodeTunerData(req);
    forall k | 0 <= k < n ensures !Matches(slots[k], d.name) {
      SameTunerIffSameTenCharacters(rs[n].name, rs[k].name, rs[n].tunerType, rs[k].tunerType,
                                    junks[n], junks[k], count, count);
    }
    assert Lookup(slots, d.name).None?;
    assert AfterRegister(slots, d, true, true).slots == slots + [Some(d.(id := n))];
  }

  /** The first n passes of a clean run: slot k holds request k with id k,
      and the k-th id obtained is k. */
  predicate Clean(r: Registered, count: int, rs: seq<Req>, junks: seq<seq<byte>>, n: nat)
    requires n <= |rs| && |junks| == |rs|
    requires forall i :: 0 <= i < |rs| ==> |junks[i]| == UNION_SIZE && IsI32(rs[i].tunerType)
  {
    |r.slots| == n && |r.ids| == n
    && forall k :: 0 <= k < n ==> r.slots[k] == Kept(count, rs, junks, k) && r.ids[k] == Some(k)
  }

  lemma CleanNext(count: int, rs: seq<Req>, junks: seq<seq<byte>>, envs: seq<Env>, m: nat)
    requires CallsOk(rs, junks, envs) && AllSucceed(envs) && m < |rs| <= HDHOMERUN_MAX_TUNERS
    requires forall i :: 0 <= i < m ==> ComparedName(rs[i].name) != ComparedName(rs[m].name)
    requires Clean(RegisterEach([], count, rs, junks, envs, m), count, rs, junks, m)
    ensures Clean(RegisterEach([], count, rs, junks, envs, m + 1), count, rs, junks, m + 1)
  {
    var r := RegisterEach([], count, rs, junks, envs, m);
    FreshStep(r.slots, count, rs, junks, envs[m], m);
    var a := Pass([], count, rs, junks, envs, m);
    assert a == AfterIoctl(r.slots, HDHOMERUN_REGISTER_TUNER, Request(count, rs[m].name, rs[m].tunerType, junks[m]), envs[m]);
    var r' := RegisterEach([], count, rs, junks, envs, m + 1);
    assert r'.slots == r.slots + [Kept(count, rs, junks, m)] && r'.ids == r.ids + [Some(m)];
    forall k | 0 <= k < m + 1
      ensures r'.slots[k] == Kept(count, rs, junks, k) && r'.ids[k] == Some(k)
    {
      if k < m {
        assert r'.slots[k] == r.slots[k] && r'.ids[k] == r.ids[k];
      }
    }
  }

  /**
   * On a fresh kernel registry, tuners whose names differ in their first
   * 10 characters, at most 8 of them, all register, and get the ids 0, 1,
   * 2, ... in loop order.
   */
  lemma {:induction false} FreshRegistrationIds(count: int, rs: seq<Req>, junks: seq<seq<byte>>, envs: seq<Env>, n: nat)
    requires CallsOk(rs, junks, envs) && AllSucceed(envs) && n <= |rs| <= HDHOMERUN_MAX_TUNERS
    requires forall i, j :: 0 <= i < j < |rs| ==> ComparedName(rs[i].name) != ComparedName(rs[j].name)
    ensures var r := RegisterEach([], count, rs, junks, envs, n);
      |r.slots| == n && (forall k :: 0 <= k < n ==> r.slots[k] == Kept(count, rs, junks, k))
      && forall k :: 0 <= k < n ==> r.ids[k] == Some(k)
    decreases n
  {
    if n > 0 {
      var m := n - 1;
      FreshRegistrationIds(count, rs, junks, envs, m);
      var r := RegisterEach([], count, rs, junks, envs, m);
      assert Clean(r, count, rs, junks, m);
      assert forall i :: 0 <= i < m ==> ComparedName(rs[i].name) != ComparedName(rs[m].name);
      CleanNext(count, rs, junks, envs, m);
      var r' := RegisterEach([], count, rs, junks, envs, n);
      assert Clean(r', count, rs, junks, n);
    }
  }

  /** The tuners a device contributes, created one by one (the inner loop
      of the controller's constructor); false when a tuner makes the daemon
      exit. */
  method CreateDeviceTuners(d: Device, count: nat, conf: Option<seq<string>>) returns (ok: bool, made: seq<HdhomerunTuner>)
    requires count <= |d.probes|
    ensures ok <==> MadeFor(d, count, conf).Some?
    ensures ok ==> |made| == |MadeFor(d, count, conf).value|
    ensures ok ==> forall i, j :: 0 <= i < j < |made| ==> made[i] != made[j]
    ensures ok ==> forall k :: 0 <= k < |made| ==>
      (Describe(made[k]) == MadeFor(d, count, conf).value[k] && fresh(made[k]) && made[k].Valid()
       && made[k].State() == Initial && made[k].kernelId == -1)
  {
    made := [];
    var j := 0;
    while j < count
      invariant 0 <= j <= count && MadeFor(d, j, conf).Some? && |made| == |MadeFor(d, j, conf).value|
      invariant forall i, i' :: 0 <= i < i' < |made| ==> made[i] != made[i']
      invariant forall k :: 0 <= k < |made| ==>
        (Describe(made[k]) == MadeFor(d, j, conf).value[k] && fresh(made[k]) && made[k].Valid()
         && made[k].State() == Initial && made[k].kernelId == -1)
    {
      var p := d.probes[j];
      if Configure(conf, p.name, p.modelStr).None? {
        MadeForStaysNone(d, j + 1, count, conf);
        return false, made;
      }
      ghost var ms := MadeFor(d, j, conf).value;
      var tuner := new HdhomerunTuner(d.deviceId, d.ipAddr, j, p.name, conf, p.modelStr);
      if !tuner.isDisabled {
        ghost var prev := made;
        made := made + [tuner];
        ghost var next := ms + [Describe(tuner)];
        assert MadeFor(d, j + 1, conf) == Some(next);
        forall i, i' | 0 <= i < i' < |made|
          ensures made[i] != made[i']
        {
          if i' < |prev| {
            assert made[i] == prev[i] && made[i'] == prev[i'];
          } else {
            assert made[i] == prev[i] && made[i'] == tuner;
          }
        }
        forall k | 0 <= k < |made|
          ensures Describe(made[k]) == next[k] && fresh(made[k]) && made[k].Valid()
                  && made[k].State() == Initial && made[k].kernelId == -1
        {
          if k < |prev| {
            assert made[k] == prev[k] && next[k] == ms[k];
          } else {
            assert made[k] == tuner && next[k] == Describe(tuner);
          }
        }
      } else {
        assert MadeFor(d, j + 1, conf) == Some(ms);
      }
      j := j + 1;
    }
    return true, made;
  }

  /** Helper for CreateTuners: the next prefix of the device list. */
  lemma PrefixOk(devices: seq<Device>, haveTunerCount: bool, i: nat)
    requires DevicesOk(devices, haveTunerCount) && i < |devices|
    ensures devices[..i + 1][..i] == devices[..i] && devices[..i + 1][i] == devices[i]
    ensures DevicesOk(devices[..i], haveTunerCount) && DevicesOk(devices[..i + 1], haveTunerCount)
  {
    assert forall j :: 0 <= j <= i ==> devices[..i + 1][j] == devices[j];
  }

  /** Helper for CreateTuners: a device that is accepted and whose tuners
      all configure adds its kept tuners after the earlier devices'. */
  lemma PlanNext(devices: seq<Device>, haveTunerCount: bool, conf: Option<seq<string>>, i: nat)
    requires DevicesOk(devices, haveTunerCount) && i < |devices|
    requires DevicesOk(devices[..i], haveTunerCount) && Plan(devices[..i], haveTunerCount, conf).Some?
    requires !Rejected(devices[i], haveTunerCount)
    requires MadeFor(devices[i], TunersOf(devices[i], haveTunerCount), conf).Some?
    ensures DevicesOk(devices[..i + 1], haveTunerCount)
    ensures Plan(devices[..i + 1], haveTunerCount, conf)
      == Some(Plan(devices[..i], haveTunerCount, conf).value
              + MadeFor(devices[i], TunersOf(devices[i], haveTunerCount), conf).value)
  {
    PrefixOk(devices, haveTunerCount, i);
  }

  /** Once a tuner makes the daemon exit, so does every longer prefix. */
  lemma {:induction false} MadeForStaysNone(d: Device, j: nat, count: nat, conf: Option<seq<string>>)
    requires 0 < j <= count <= |d.probes| && MadeFor(d, j, conf).None?
    ensures MadeFor(d, count, conf).None?
    decreases count - j
  {
    if j < count {
      MadeForStaysNone(d, j + 1, count, conf);
    }
  }

  /** A device list whose prefix already makes the daemon exit does so as a
      whole. */
  lemma {:induction false} PlanStaysNone(devices: seq<Device>, haveTunerCount: bool, conf: Option<seq<string>>, i: nat)
    requires DevicesOk(devices, haveTunerCount) && 0 < i <= |devices|
    requires Plan(devices[..i], haveTunerCount, conf).None?
    ensures Plan(devices, haveTunerCount, conf).None?
    decreases |devices| - i
  {
    if i < |devices| {
      assert devices[..i + 1][..i] == devices[..i];
      PlanStaysNone(devices, haveTunerCount, conf, i + 1);
    } else {
      assert devices[..i] == devices;
    }
  }

  /** One pass of the registration loop: the ioctl, then on success the
      data device name and the kernel id. */
  method RegisterOne(t: HdhomerunTuner, registry: Registry, count: int, junk: seq<byte>, env: Env) returns (id: Option<int>)
    requires registry.Valid() && |junk| == UNION_SIZE && IsI32(TypeCode(t.tunerType)) && EnvOk(env)
    modifies registry, registry.devices, t
    ensures registry.Valid()
    ensures var a := AfterIoctl(old(registry.Slots()), HDHOMERUN_REGISTER_TUNER, Request(count, t.name, TypeCode(t.tunerType), junk), env);
      registry.Slots() == a.slots && id == (if a.ret == 0 then Some(DecodeTunerData(a.mem).id) else None)
    ensures t.State() == old(t.State())
    ensures t.kernelId == (if id.Some? then id.value else old(t.kernelId))
    ensures t.nameDataDevice == (if id.Some? then "/dev/hdhomerun_data" + Decimal(id.value) else old(t.nameDataDevice))
  {
    var kernelId := 0;
    var ok;
    ok, kernelId := UserIoctl.Ioctl(registry, count, t.name, kernelId, TypeCode(t.tunerType), junk, env);
    if ok {
      t.SetDataDeviceName("/dev/hdhomerun_data" + Decimal(kernelId));
      t.SetKernelId(kernelId);
      id := Some(kernelId);
    } else {
      id := None;
    }
  }

  /** RegisterOne as the k-th pass of the loop RegisterEach describes. */
  method RegisterNext(t: HdhomerunTuner, registry: Registry, count: int, ghost slots0: seq<Slot>, ghost rs: seq<Req>,
                      junks: seq<seq<byte>>, envs: seq<Env>, k: nat, ghost ids: seq<Option<int>>) returns (id: Option<int>)
    requires SlotsOk(slots0) && CallsOk(rs, junks, envs) && k < |rs| && rs[k] == Req(t.name, TypeCode(t.tunerType))
    requires registry.Valid() && RegisterEach(slots0, count, rs, junks, envs, k) == Registered(registry.Slots(), ids)
    modifies registry, registry.devices, t
    ensures registry.Valid() && RegisterEach(slots0, count, rs, junks, envs, k + 1) == Registered(registry.Slots(), ids + [id])
    ensures t.State() == old(t.State())
    ensures t.kernelId == (if id.Some? then id.value else old(t.kernelId))
    ensures t.nameDataDevice == (if id.Some? then "/dev/hdhomerun_data" + Decimal(id.value) else old(t.nameDataDevice))
  {
    id := RegisterOne(t, registry, count, junks[k], envs[k]);
    assert Pass(slots0, count, rs, junks, envs, k).slots == registry.Slots();
  }

  /** The id obtained by the j-th pass, None for a pass not yet made. */
  function IdAt(ids: seq<Option<int>>, j: nat): Option<int>
  {
    if j < |ids| then ids[j] else None
  }

  /** A tuner after its pass of the registration loop: the kernel id and
      data device name it got, or those it had. */
  ghost predicate Assigned(t: HdhomerunTuner, id: Option<int>, kernelId: int, nameDataDevice: string)
    reads t
  {
    t.kernelId == (if id.Some? then id.value else kernelId)
    && t.nameDataDevice == (if id.Some? then "/dev/hdhomerun_data" + Decimal(id.value) else nameDataDevice)
  }

  // ---------------------------------------------------------------------
  // The controller in place
  // ---------------------------------------------------------------------

  class HdhomerunController {
    /** m_tuners */
    var tuners: seq<HdhomerunTuner>
    /** m_maxDevices: the size of the discovery array */
    const maxDevices: int

    ghost predicate Valid()
      reads this, tuners
    {
      (forall i, j :: 0 <= i < j < |tuners| ==> tuners[i] != tuners[j])
      && forall i :: 0 <= i < |tuners| ==> tuners[i].Valid()
    }

    constructor (maxDevices: int)
      ensures Valid() && tuners == [] && this.maxDevices == maxDevices
    {
      this.maxDevices := maxDevices;
      tuners := [];
    }

    /** The tuners are those `plan` describes, each as its constructor
        left it. */
    ghost predicate Holds(plan: seq<Made>)
      reads this, tuners
    {
      Valid() && |tuners| == |plan|
      && forall k :: 0 <= k < |tuners| ==>
           Describe(tuners[k]) == plan[k] && tuners[k].State() == Initial && tuners[k].kernelId == -1
    }

    /** m_tuners.push_back for each tuner a device contributes. */
    method Append(made: seq<HdhomerunTuner>, ghost plan: seq<Made>, ghost more: seq<Made>)
      requires Holds(plan) && |made| == |more|
      requires forall i, j :: 0 <= i < j < |made| ==> made[i] != made[j]
      requires forall i, j :: 0 <= i < |tuners| && 0 <= j < |made| ==> tuners[i] != made[j]
      requires forall k :: 0 <= k < |made| ==>
        (Describe(made[k]) == more[k] && made[k].Valid() && made[k].State() == Initial && made[k].kernelId == -1)
      modifies this
      ensures tuners == old(tuners) + made && Holds(plan + more)
    {
      ghost var before := tuners;
      tuners := tuners + made;
      var n := |before|;
      forall i, j | 0 <= i < j < |tuners|
        ensures tuners[i] != tuners[j]
      {
        if j < n {
          assert tuners[i] == before[i] && tuners[j] == before[j];
        } else if i < n {
          assert tuners[i] == before[i] && tuners[j] == made[j - n];
        } else {
          assert tuners[i] == made[i - n] && tuners[j] == made[j - n];
        }
      }
      forall k | 0 <= k < |tuners|
        ensures tuners[k].Valid() && Describe(tuners[k]) == (plan + more)[k]
                && tuners[k].State() == Initial && tuners[k].kernelId == -1
      {
        if k < n {
          assert tuners[k] == before[k] && (plan + more)[k] == plan[k];
        } else {
          assert tuners[k] == made[k - n] && (plan + more)[k] == more[k - n];
        }
      }
    }

    /** The tuners are those the first n devices contribute. */
    ghost predicate Built(devices: seq<Device>, haveTunerCount: bool, conf: Option<seq<string>>, n: nat)
      reads this, tuners
    {
      n <= |devices| && DevicesOk(devices[..n], haveTunerCount) && Plan(devices[..n], haveTunerCount, conf).Some?
      && Holds(Plan(devices[..n], haveTunerCount, conf).value)
    }

    /** One pass of the constructor's device loop: the device's kept
        tuners are created and appended, or false when the daemon exits
        instead. */
    method AddDevice(devices: seq<Device>, haveTunerCount: bool, conf: Option<seq<string>>, i: nat) returns (ok: bool)
      requires DevicesOk(devices, haveTunerCount) && i < |devices| && Built(devices, haveTunerCount, conf, i)
      modifies this
      ensures !ok ==> Plan(devices, haveTunerCount, conf).None?
      ensures ok ==> Built(devices, haveTunerCount, conf, i + 1)
      ensures ok ==> |old(tuners)| <= |tuners| && tuners[..|old(tuners)|] == old(tuners)
      ensures ok ==> forall k :: |old(tuners)| <= k < |tuners| ==> fresh(tuners[k])
    {
      var d := devices[i];
      PrefixOk(devices, haveTunerCount, i);
      if Rejected(d, haveTunerCount) {
        PlanStaysNone(devices, haveTunerCount, conf, i + 1);
        return false;
      }
      var created, made := CreateDeviceTuners(d, TunersOf(d, haveTunerCount), conf);
      if !created {
        PlanStaysNone(devices, haveTunerCount, conf, i + 1);
        return false;
      }
      ghost var plan := Plan(devices[..i], haveTunerCount, conf).value;
      ghost var more := MadeFor(d, TunersOf(d, haveTunerCount), conf).value;
      PlanNext(devices, haveTunerCount, conf, i);
      Append(made, plan, more);
      return true;
    }

    /**
     * The constructor's discovery and creation loops: false when the
     * daemon exits instead (no device found, a rejected device, or a
     * tuner without a type and a model string). The library fills at most
     * maxDevices entries.
     */
    method CreateTuners(found: int, devices: seq<Device>, haveTunerCount: bool, conf: Option<seq<string>>) returns (ok: bool)
      requires tuners == [] && DevicesOk(devices, haveTunerCount) && Listed(found, devices) && found <= maxDevices
      modifies this
      ensures ok <==> Discovered(found, devices, haveTunerCount, conf).Some?
      ensures ok ==> Holds(Discovered(found, devices, haveTunerCount, conf).value)
      ensures ok ==> forall k :: 0 <= k < |tuners| ==> fresh(tuners[k])
      ensures ok ==> |tuners| <= (if haveTunerCount then MAX_TUNER_COUNT else MAX_TUNERS) * |devices|
    {
      if found == 0 {
        return false;
      }
      var i := 0;
      while i < |devices|
        invariant 0 <= i <= |devices| && Built(devices, haveTunerCount, conf, i)
        invariant forall k :: 0 <= k < |tuners| ==> fresh(tuners[k])
      {
        ghost var before := tuners;
        var added := AddDevice(devices, haveTunerCount, conf, i);
        if !added {
          return false;
        }
        assert forall k :: 0 <= k < |before| ==> tuners[k] == before[k];
        i := i + 1;
      }
      assert devices[..i] == devices;
      PlanBound(devices, haveTunerCount, conf);
      return true;
    }

    /** HdhomerunController::GetTuner: the first tuner with the kernel id,
        or null. */
    method GetTuner(id: int) returns (t: HdhomerunTuner?)
      ensures t == null <==> id !in KernelIds(tuners)
      ensures t != null ==> t == tuners[FirstWithId(KernelIds(tuners), id).value]
    {
      var i := 0;
      while i < |tuners|
        invariant 0 <= i <= |tuners| && id !in KernelIds(tuners)[..i]
      {
        if tuners[i].kernelId == id {
          FirstWithIdIs(KernelIds(tuners), id, i);
          return tuners[i];
        }
        assert KernelIds(tuners)[..i + 1] == KernelIds(tuners)[..i] + [KernelIds(tuners)[i]];
        i := i + 1;
      }
      assert KernelIds(tuners)[..i] == KernelIds(tuners);
      return null;
    }

    /** The registration loop after its first k passes. */
    ghost predicate RegisteredUpTo(registry: Registry, junks: seq<seq<byte>>, envs: seq<Env>, k: nat, slots0: seq<Slot>,
                                   ids: seq<Option<int>>, states0: seq<Session>, kids0: seq<int>, names0: seq<string>)
      reads this, tuners, registry, registry.devices
    {
      k <= |tuners| && |ids| == k && |states0| == |kids0| == |names0| == |tuners|
      && (forall i, j :: 0 <= i < j < |tuners| ==> tuners[i] != tuners[j])
      && registry.Valid() && SlotsOk(slots0) && CallsOk(Reqs(tuners), junks, envs)
      && RegisterEach(slots0, |tuners|, Reqs(tuners), junks, envs, k) == Registered(registry.Slots(), ids)
      && forall j :: 0 <= j < |tuners| ==>
           tuners[j].State() == states0[j] && Assigned(tuners[j], IdAt(ids, j), kids0[j], names0[j])
    }

    /** Pass k of the registration loop. */
    method RegisterAt(registry: Registry, junks: seq<seq<byte>>, envs: seq<Env>, k: nat, ghost slots0: seq<Slot>,
                      ghost ids: seq<Option<int>>, ghost states0: seq<Session>, ghost kids0: seq<int>, ghost names0: seq<string>)
      returns (id: Option<int>)
      requires k < |tuners| && RegisteredUpTo(registry, junks, envs, k, slots0, ids, states0, kids0, names0)
      modifies registry, registry.devices, tuners[k]
      ensures RegisteredUpTo(registry, junks, envs, k + 1, slots0, ids + [id], states0, kids0, names0)
    {
      var t := tuners[k];
      id := RegisterNext(t, registry, |tuners|, slots0, Reqs(tuners), junks, envs, k, ids);
      forall j | 0 <= j < |tuners|
        ensures tuners[j].State() == states0[j]
        ensures Assigned(tuners[j], IdAt(ids + [id], j), kids0[j], names0[j])
      {
        if j != k {
          assert tuners[j] != t by { if j < k { assert tuners[j] != tuners[k]; } else { assert tuners[k] != tuners[j]; } }
          assert IdAt(ids + [id], j) == IdAt(ids, j);
        }
      }
    }

    /**
     * The constructor's registration loop: each tuner is registered with
     * the number of tuners, its name and its type; a success sets its data
     * device name and kernel id, a failure leaves both as they were.
     */
    method RegisterTuners(registry: Registry, junks: seq<seq<byte>>, envs: seq<Env>)
      requires registry.Valid() && CallsOk(Reqs(tuners), junks, envs)
      requires forall i, j :: 0 <= i < j < |tuners| ==> tuners[i] != tuners[j]
      modifies registry, registry.devices, tuners
      ensures registry.Valid()
      ensures var r := RegisterEach(old(registry.Slots()), |tuners|, Reqs(tuners), junks, envs, |tuners|);
        registry.Slots() == r.slots
        && forall k :: 0 <= k < |tuners| ==>
             tuners[k].State() == old(tuners[k].State())
             && Assigned(tuners[k], r.ids[k], old(tuners[k].kernelId), old(tuners[k].nameDataDevice))
    {
      ghost var ts := tuners;
      ghost var slots0 := registry.Slots();
      ghost var ids: seq<Option<int>> := [];
      ghost var states0 := seq(|ts|, j requires 0 <= j < |ts| reads ts => ts[j].State());
      ghost var kids0 := seq(|ts|, j requires 0 <= j < |ts| reads ts => ts[j].kernelId);
      ghost var names0 := seq(|ts|, j requires 0 <= j < |ts| reads ts => ts[j].nameDataDevice);
      var k := 0;
      while k < |tuners|
        invariant tuners == ts && RegisteredUpTo(registry, junks, envs, k, slots0, ids, states0, kids0, names0)
      {
        var id := RegisterAt(registry, junks, envs, k, slots0, ids, states0, kids0, names0);
        ids := ids + [id];
        k := k + 1;
      }
      forall j | 0 <= j < |tuners|
        ensures tuners[j].State() == old(tuners[j].State())
        ensures Assigned(tuners[j], ids[j], old(tuners[j].kernelId), old(tuners[j].nameDataDevice))
      {
        assert IdAt(ids, j) == ids[j];
      }
    }
  }
}
