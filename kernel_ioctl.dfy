/**
 * The control device's ioctl (hdhomerun_control_ioctl in
 * kernel/dvb_hdhomerun_control.c): it checks the user buffer against the
 * direction and size encoded in the command and serves one command,
 * HDHOMERUN_REGISTER_TUNER, by registering the tuner described in the
 * user's `hdhomerun_register_tuner_data` and copying the record, with the
 * kernel id filled in, back.
 */
module KernelIoctl {
  import opened Wire
  import opened KernelBase
  import opened KernelRegistry

  /** The Linux ioctl number layout: nr in bits 0-7, type in 8-15, size in
      16-29 and the direction in 30-31. */
  const IOC_WRITE: int := 1
  const IOC_READ: int := 2

  function IoctlCode(dir: int, kind: int, nr: int, size: int): (cmd: int)
    requires 0 <= dir < 4 && 0 <= kind < 256 && 0 <= nr < 256 && 0 <= size < 0x4000
    ensures IsU32(cmd)
  {
    dir * 0x4000_0000 + size * 0x1_0000 + kind * 0x100 + nr
  }

  function IocDir(cmd: int): int
    requires IsU32(cmd)
  {
    cmd / 0x4000_0000
  }

  function IocSize(cmd: int): int
    requires IsU32(cmd)
  {
    cmd / 0x1_0000 % 0x4000
  }

  /** _IOWR('v', 0, struct hdhomerun_register_tuner_data) */
  const HDHOMERUN_REGISTER_TUNER: int := IoctlCode(IOC_READ + IOC_WRITE, 0x76, 0, UNION_SIZE)

  /** The command reads and writes exactly one registration record. */
  lemma RegisterTunerCode()
    ensures HDHOMERUN_REGISTER_TUNER == 0xC01C_7600
    ensures IocDir(HDHOMERUN_REGISTER_TUNER) == IOC_READ + IOC_WRITE
    ensures IocSize(HDHOMERUN_REGISTER_TUNER) == UNION_SIZE
  {
  }

  /** Outcomes of the calls the handler makes into the rest of the kernel:
      access_ok on the buffer, copy_from_user, dvb_hdhomerun_data_init,
      platform_device_register_simple, dvb_hdhomerun_register, and the
      number of bytes copy_to_user could not copy. */
  datatype Env = Env(accessOk: bool, copyInOk: bool, dataInitOk: bool, platOk: bool, dvbOk: bool, copyOutLeft: nat)

  predicate EnvOk(env: Env) { env.copyOutLeft <= UNION_SIZE }

  /** `err` before the command switch: a command without a direction bit
      keeps the initial err = 1. */
  predicate AccessFails(cmd: int, env: Env)
    requires IsU32(cmd)
  {
    var dir := IocDir(cmd);
    if dir == IOC_READ || dir == IOC_READ + IOC_WRITE then !env.accessOk
    else if dir == IOC_WRITE then !env.accessOk
    else true
  }

  datatype Answer = Answer(slots: seq<Slot>, ret: int, mem: seq<byte>)

  /** The ioctl on the registry `slots`, with `mem` the user's record. */
  function AfterIoctl(slots: seq<Slot>, cmd: int, mem: seq<byte>, env: Env): (r: Answer)
    requires SlotsOk(slots) && IsU32(cmd) && |mem| == UNION_SIZE && EnvOk(env)
    ensures SlotsOk(r.slots) && |r.mem| == UNION_SIZE
    ensures AccessFails(cmd, env) ==> r == Answer(slots, -EFAULT, mem)
    ensures !AccessFails(cmd, env) && cmd != HDHOMERUN_REGISTER_TUNER ==> r == Answer(slots, -ENOTTY, mem)
    ensures !AccessFails(cmd, env) && cmd == HDHOMERUN_REGISTER_TUNER && !env.copyInOk ==>
      r == Answer(slots, -ENOTTY, mem)
    ensures cmd == HDHOMERUN_REGISTER_TUNER && env.copyInOk && !env.dataInitOk ==> r.ret == -EFAULT
    ensures r.ret == 0 <==> !AccessFails(cmd, env) && cmd == HDHOMERUN_REGISTER_TUNER && env.copyInOk
                            && env.dataInitOk && env.copyOutLeft == 0
                            && AfterRegister(slots, DecodeTunerData(mem), env.platOk, env.dvbOk).ret == 0
    ensures r.ret == 0 ==>
      var reg := AfterRegister(slots, DecodeTunerData(mem), env.platOk, env.dvbOk);
      r.slots == reg.slots && DecodeTunerData(r.mem) == DecodeTunerData(mem).(id := reg.id)
    ensures r.ret != 0 ==> r.ret == -EFAULT || r.ret == -ENOTTY || 0 < r.ret <= UNION_SIZE
  {
    if AccessFails(cmd, env) then Answer(slots, -EFAULT, mem)
    else if cmd != HDHOMERUN_REGISTER_TUNER then Answer(slots, -ENOTTY, mem)
    else if !env.copyInOk then
      // A failed copy breaks out of the inner block only and falls
      // through to the default label.
      Answer(slots, -ENOTTY, mem)
    else
      var d := DecodeTunerData(mem);
      if !env.dataInitOk then Answer(slots, -EFAULT, mem)
      else
        var reg := AfterRegister(slots, d, env.platOk, env.dvbOk);
        if reg.ret != 0 then Answer(reg.slots, -EFAULT, mem)
        else
          var out := EncodeTunerData(d.(id := reg.id));
          var copied := UNION_SIZE - env.copyOutLeft;
          DecodeEncodeTunerData(d.(id := reg.id));
          assert env.copyOutLeft == 0 ==> out[..copied] + mem[copied..] == out;
          Answer(reg.slots, env.copyOutLeft, out[..copied] + mem[copied..])
  }

  /** The ioctl served on the registry object. */
  method Ioctl(registry: Registry, cmd: int, mem: seq<byte>, env: Env) returns (ret: int, memOut: seq<byte>)
    requires registry.Valid() && IsU32(cmd) && |mem| == UNION_SIZE && EnvOk(env)
    modifies registry, registry.devices
    ensures registry.Valid()
    ensures Answer(registry.Slots(), ret, memOut) == AfterIoctl(old(registry.Slots()), cmd, mem, env)
  {
    memOut := mem;
    var err := true;
    var dir := IocDir(cmd);
    if dir == IOC_READ || dir == IOC_READ + IOC_WRITE {
      err := !env.accessOk;
    } else if dir == IOC_WRITE {
      err := !env.accessOk;
    }
    if err {
      return -EFAULT, memOut;
    }
    ret := -ENOTTY;
    if cmd == HDHOMERUN_REGISTER_TUNER && env.copyInOk {
      var tunerData := DecodeTunerData(mem);
      if !env.dataInitOk {
        return -EFAULT, memOut;
      }
      var r, id := registry.Register(tunerData, env.platOk, env.dvbOk);
      if r != 0 {
        return -EFAULT, memOut;
      }
      var out := EncodeTunerData(tunerData.(id := id));
      var copied := UNION_SIZE - env.copyOutLeft;
      memOut := out[..copied] + mem[copied..];
      DecodeEncodeTunerData(tunerData.(id := id));
      assert env.copyOutLeft == 0 ==> memOut == out;
      ret := env.copyOutLeft;
    }
  }
}
