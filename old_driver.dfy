/**
 * The earlier single-tuner driver (old/dvbhdhomerun.c). It has two parts:
 *
 *  - a loopback FIFO behind the frontend, demux and DVR nodes, filled by
 *    `my_write` and drained by `my_read`, with the two load-time counters
 *    `fifo_current_size` and `fifo_max_size` that the writer keeps;
 *  - two control FIFOs to the daemon: `control_fifo_user` carries the
 *    requests the ioctls post, `control_fifo_kernel` the replies.
 *
 * Unlike the later driver there are no `userspace_ready`/`wait_for_write`
 * gates: a request is queued whether or not a daemon is reading, reading
 * an empty control FIFO returns 0 at once, and a control write is never
 * held back. The record layout of this driver's message header is not part
 * of this model: records are byte strings of a fixed `recordSize`.
 *
 * As in the kernel channel model, each operation is a function on a state
 * value, and a class holding that state in fields has a method per
 * operation proved to move it exactly as the function says.
 */
module OldDriver {
  import opened Wrappers
  import Wire
  import opened Kfifo
  import opened KernelBase
  import KernelChannel

  type byte = Wire.byte

  /** `fifo_bufsize`, the size the loopback FIFO is asked for (188 is the
      size of an MPEG transport stream packet). */
  const FIFO_BUFSIZE: nat := 188 * 1024 * 2

  /** The loopback FIFO's real capacity: kfifo_alloc rounds a size that is
      not a power of two up to the next one. */
  const FIFO_CAPACITY: nat := 524288

  // ---------------------------------------------------------------------
  // The loopback FIFO
  // ---------------------------------------------------------------------

  /** The loopback FIFO and the two counters only `my_write` updates. */
  datatype Loop = Loop(fifo: seq<byte>, currentSize: int, maxSize: int)

  /** `fifo_current_size` never exceeds `fifo_max_size`, and neither
      exceeds the FIFO's capacity. */
  predicate LoopInv(l: Loop)
  {
    |l.fifo| <= FIFO_CAPACITY && 0 <= l.currentSize <= l.maxSize <= FIFO_CAPACITY
  }

  /** The state at load: an empty FIFO and both counters 0. */
  const LoopBoot: Loop := Loop([], 0, 0)

  datatype LoopTaken = LoopTaken(loop: Loop, ret: int, got: seq<byte>)

  datatype LoopPut = LoopPut(loop: Loop, ret: int)

  /** A wake for `wait_event_interruptible(readq, len >= count)`: the
      writers brought the FIFO up to at least `count` bytes. */
  predicate FillOk(fifo: seq<byte>, count: nat, w: Wake<seq<byte>>)
  {
    w.Ready? ==> count <= |fifo| + |w.effect| <= FIFO_CAPACITY
  }

  /** A wake for `wait_event_interruptible(writeq, len < fifo_bufsize)`
      entered on a full FIFO: the reader took enough from the front. */
  predicate EmptyOk(fifo: seq<byte>, w: Wake<nat>)
  {
    w.Ready? ==> w.effect <= |fifo| && |fifo| - w.effect < FIFO_BUFSIZE
  }

  /** The FIFO once the read-side wait has returned 0, or None when it was
      interrupted. */
  function AwaitCount(fifo: seq<byte>, count: nat, w: Wake<seq<byte>>): (r: Option<seq<byte>>)
    requires |fifo| <= FIFO_CAPACITY && FillOk(fifo, count, w)
    ensures r.Some? <==> (|fifo| >= count || w.Ready?)
    ensures r.Some? ==> count <= |r.value| <= FIFO_CAPACITY && fifo <= r.value
    ensures |fifo| >= count ==> r == Some(fifo)
  {
    if |fifo| >= count then Some(fifo)
    else match w
      case Interrupted => None
      case Ready(arrived) => Some(fifo + arrived)
  }

  /** The FIFO a write's `kfifo_put` finds: the current one while it has
      room, otherwise what the reader left once the wait returned. */
  function Room(fifo: seq<byte>, w: Wake<nat>): (r: Option<seq<byte>>)
    requires |fifo| <= FIFO_CAPACITY && EmptyOk(fifo, w)
    ensures r.Some? <==> (|fifo| < FIFO_CAPACITY || w.Ready?)
    ensures r.Some? ==> |r.value| < FIFO_CAPACITY && |r.value| <= |fifo| && r.value == fifo[|fifo| - |r.value|..]
    ensures |fifo| < FIFO_CAPACITY ==> r == Some(fifo)
  {
    if |fifo| < FIFO_CAPACITY then Some(fifo)
    else match w
      case Interrupted => None
      case Ready(drained) => Some(fifo[drained..])
  }

  /** my_read: `got` is what reaches the user buffer. */
  function MyRead(l: Loop, call: KernelChannel.Call, count: nat, w: Wake<seq<byte>>): (r: LoopTaken)
    requires LoopInv(l) && FillOk(l.fifo, count, w)
    ensures LoopInv(r.loop)
    ensures r.loop.currentSize == l.currentSize && r.loop.maxSize == l.maxSize
    ensures !call.bufNonNull ==> r == LoopTaken(l, -EINVAL, [])
    ensures call.bufNonNull && count == 0 ==> r == LoopTaken(l, 0, [])
    ensures call.bufNonNull && count > 0 && |l.fifo| == 0 && call.nonblock ==> r == LoopTaken(l, -EAGAIN, [])
    ensures call.bufNonNull && 0 < |l.fifo| < count && w.Interrupted? ==> r == LoopTaken(l, -ERESTARTSYS, [])
    ensures r.ret > 0 <==>
      call.bufNonNull && count > 0 && !(|l.fifo| == 0 && call.nonblock)
      && (|l.fifo| >= count || w.Ready?) && call.allocOk && call.copyOk
    ensures r.ret > 0 ==>
      r.ret == count == |r.got| && r.got + r.loop.fifo == AwaitCount(l.fifo, count, w).value
    ensures r.ret == -EFAULT ==>
      AwaitCount(l.fifo, count, w).Some? && r.loop.fifo == AwaitCount(l.fifo, count, w).value[count..]
      && r.got == []
  {
    if !call.bufNonNull then LoopTaken(l, -EINVAL, [])
    else if count == 0 then LoopTaken(l, 0, [])
    else if |l.fifo| == 0 && call.nonblock then LoopTaken(l, -EAGAIN, [])
    else match AwaitCount(l.fifo, count, w)
      case None => LoopTaken(l, -ERESTARTSYS, [])
      case Some(q) =>
        if !call.allocOk then LoopTaken(l.(fifo := q), -ENOMEM, [])
        else
          var g := Get(q, count);
          if !call.copyOk then LoopTaken(l.(fifo := g.fifo), -EFAULT, [])
          else LoopTaken(l.(fifo := g.fifo), |g.out|, g.out)
  }

  function Max(a: int, b: int): int { if a >= b then a else b }

  /** The FIFO and the counters once a write has looked at its length. */
  function Observe(l: Loop, q: seq<byte>): (r: Loop)
    requires LoopInv(l) && |q| <= FIFO_CAPACITY
    ensures LoopInv(r) && r.fifo == q && r.currentSize == |q| && r.maxSize == Max(l.maxSize, |q|)
  {
    Loop(q, |q|, Max(l.maxSize, |q|))
  }

  /** my_write of the bytes `data` (its count is |data|). */
  function MyWrite(l: Loop, call: KernelChannel.Call, data: seq<byte>, w: Wake<nat>): (r: LoopPut)
    requires LoopInv(l) && EmptyOk(l.fifo, w)
    ensures LoopInv(r.loop)
    ensures |data| == 0 ==> r == LoopPut(l, 0)
    ensures |data| > 0 && !call.allocOk ==> r == LoopPut(l, -ENOMEM)
    ensures |data| > 0 && call.allocOk && !call.copyOk ==> r == LoopPut(l, -EFAULT)
    ensures r.ret > 0 <==>
      |data| > 0 && call.allocOk && call.copyOk && (|l.fifo| < FIFO_CAPACITY || (!call.nonblock && w.Ready?))
    ensures r.ret > 0 ==>
      var q := Room(l.fifo, w).value;
      r.ret <= |data| && r.loop.fifo == q + data[..r.ret]
      && (r.ret < |data| ==> |r.loop.fifo| == FIFO_CAPACITY)
    ensures |data| > 0 && call.allocOk && call.copyOk && |l.fifo| == FIFO_CAPACITY && call.nonblock ==>
      r == LoopPut(Observe(l, l.fifo), -EAGAIN)
    ensures (|data| > 0 && call.allocOk && call.copyOk && |l.fifo| == FIFO_CAPACITY && !call.nonblock
             && w.Interrupted?) ==> r == LoopPut(Observe(l, l.fifo), -ERESTARTSYS)
    // Every length the write looked at is folded into the high-water mark.
    ensures |data| > 0 && call.allocOk && call.copyOk ==>
      r.loop.currentSize == |r.loop.fifo|
      && r.loop.maxSize == Max(Max(l.maxSize, |Put(l.fifo, data, FIFO_CAPACITY).fifo|), |r.loop.fifo|)
  {
    if |data| == 0 then LoopPut(l, 0)
    else if !call.allocOk then LoopPut(l, -ENOMEM)
    else if !call.copyOk then LoopPut(l, -EFAULT)
    else
      var p := Put(l.fifo, data, FIFO_CAPACITY);
      var l1 := Observe(l, p.fifo);
      if p.stored > 0 then LoopPut(l1, p.stored)
      else if call.nonblock then LoopPut(l1, -EAGAIN)
      else match w
        case Interrupted => LoopPut(l1, -ERESTARTSYS)
        case Ready(drained) =>
          var p2 := Put(l1.fifo[drained..], data, FIFO_CAPACITY);
          LoopPut(Observe(l1, p2.fifo), p2.stored)
  }

  /** The two ways a successful my_write ends: its first put stored
      something, or it found the FIFO full, waited, and its second put did. */
  lemma WriteRounds(l: Loop, call: KernelChannel.Call, data: seq<byte>, w: Wake<nat>)
    requires LoopInv(l) && EmptyOk(l.fifo, w) && |data| > 0 && call.allocOk && call.copyOk
    ensures |l.fifo| < FIFO_CAPACITY ==>
      var p := Put(l.fifo, data, FIFO_CAPACITY);
      MyWrite(l, call, data, w) == LoopPut(Observe(l, p.fifo), p.stored)
    ensures |l.fifo| == FIFO_CAPACITY && !call.nonblock && w.Ready? ==>
      var l1 := Observe(l, l.fifo);
      var p := Put(l.fifo[w.effect..], data, FIFO_CAPACITY);
      MyWrite(l, call, data, w) == LoopPut(Observe(l1, p.fifo), p.stored)
  {
    if |l.fifo| == FIFO_CAPACITY {
      assert Put(l.fifo, data, FIFO_CAPACITY) == PutResult(l.fifo, 0);
    }
  }

  /** The device node a file operation was issued on. */
  datatype Node = Frontend | Demux | Dvr

  /** The poll operations: only the demux reports readiness, readable when
      the loopback FIFO holds data; nothing is ever reported writable. */
  function PollMask(l: Loop, node: Node): (mask: bv32)
    ensures (mask & (POLLIN | POLLRDNORM) != 0) <==> (node == Demux && |l.fifo| > 0)
    ensures mask & (POLLIN | POLLRDNORM) == 0 || mask & (POLLIN | POLLRDNORM) == POLLIN | POLLRDNORM
    ensures mask & (POLLOUT | POLLWRNORM) == 0
    ensures mask & !(POLLIN | POLLRDNORM | POLLOUT | POLLWRNORM) == 0
  {
    if node == Demux && |l.fifo| > 0 then POLLIN | POLLRDNORM else 0
  }

  // ---------------------------------------------------------------------
  // Properties of the loopback FIFO
  // ---------------------------------------------------------------------

  /** What is written into an empty loopback FIFO is read back whole by a
      read of the same count, and the FIFO is empty again. */
  lemma LoopbackRoundTrip(l: Loop, data: seq<byte>, wc: KernelChannel.Call, rc: KernelChannel.Call,
                          ww: Wake<nat>, rw: Wake<seq<byte>>)
    requires LoopInv(l) && l.fifo == [] && 0 < |data| <= FIFO_CAPACITY
    requires wc.allocOk && wc.copyOk && rc.bufNonNull && rc.allocOk && rc.copyOk && EmptyOk(l.fifo, ww)
    requires FillOk(MyWrite(l, wc, data, ww).loop.fifo, |data|, rw)
    ensures MyWrite(l, wc, data, ww).ret == |data|
    ensures var r := MyRead(MyWrite(l, wc, data, ww).loop, rc, |data|, rw);
      r.ret == |data| && r.got == data && r.loop.fifo == []
  {
    WriteIntoEmpty(l, wc, data, ww);
    ReadWhole(Observe(l, data), rc, rw);
  }

  /** Helper for LoopbackRoundTrip: a write that fits an empty FIFO. */
  lemma WriteIntoEmpty(l: Loop, wc: KernelChannel.Call, data: seq<byte>, ww: Wake<nat>)
    requires LoopInv(l) && l.fifo == [] && 0 < |data| <= FIFO_CAPACITY
    requires wc.allocOk && wc.copyOk && EmptyOk(l.fifo, ww)
    ensures MyWrite(l, wc, data, ww) == LoopPut(Observe(l, data), |data|)
  {
    PutFits(l.fifo, data, FIFO_CAPACITY);
    assert l.fifo + data == data;
    WriteRounds(l, wc, data, ww);
  }

  /** Helper for LoopbackRoundTrip: a read of everything the FIFO holds. */
  lemma ReadWhole(l: Loop, rc: KernelChannel.Call, rw: Wake<seq<byte>>)
    requires LoopInv(l) && |l.fifo| > 0 && rc.bufNonNull && rc.allocOk && rc.copyOk
    requires FillOk(l.fifo, |l.fifo|, rw)
    ensures MyRead(l, rc, |l.fifo|, rw) == LoopTaken(l.(fifo := []), |l.fifo|, l.fifo)
  {
    assert AwaitCount(l.fifo, |l.fifo|, rw) == Some(l.fifo);
    assert l.fifo[..|l.fifo|] == l.fifo && l.fifo[|l.fifo|..] == [];
    assert Get(l.fifo, |l.fifo|) == GetResult(l.fifo, []);
  }

  /** O_NONBLOCK only matters while the FIFO is empty: a non-blocking read
      that finds fewer bytes than it asked for still waits for the full
      count, and a signal ends it with -ERESTARTSYS. */
  lemma NonblockingReadWaitsForCount(l: Loop, call: KernelChannel.Call, count: nat, arrived: seq<byte>)
    requires LoopInv(l) && call.bufNonNull && call.nonblock && call.allocOk && call.copyOk
    requires 0 < |l.fifo| < count && count <= |l.fifo| + |arrived| <= FIFO_CAPACITY
    ensures MyRead(l, call, count, Interrupted).ret == -ERESTARTSYS
    ensures var r := MyRead(l, call, count, Ready(arrived));
      r.ret == count && r.got == (l.fifo + arrived)[..count]
  {
    var r := MyRead(l, call, count, Ready(arrived));
    assert r.got + r.loop.fifo == l.fifo + arrived;
    assert (l.fifo + arrived)[..count] == (r.got + r.loop.fifo)[..|r.got|];
  }

  /** A blocking write that finds the FIFO full records the full capacity
      as the high-water mark, whatever happens after the wait. */
  lemma FullWriteRaisesHighWater(l: Loop, call: KernelChannel.Call, data: seq<byte>, w: Wake<nat>)
    requires LoopInv(l) && EmptyOk(l.fifo, w) && |l.fifo| == FIFO_CAPACITY
    requires |data| > 0 && call.allocOk && call.copyOk
    ensures MyWrite(l, call, data, w).loop.maxSize == FIFO_CAPACITY
  {
    assert Put(l.fifo, data, FIFO_CAPACITY).fifo == l.fifo;
  }

  // ---------------------------------------------------------------------
  // The control FIFOs
  // ---------------------------------------------------------------------

  /** The request FIFO (`control_fifo_user`) and the reply FIFO
      (`control_fifo_kernel`). */
  datatype Control = Control(user: seq<byte>, kernel: seq<byte>)

  predicate ControlInv(c: Control)
  {
    |c.user| <= KernelChannel.CONTROL_BUFSIZE && |c.kernel| <= KernelChannel.CONTROL_BUFSIZE
  }

  /** dvbhdhomerun_post_message: the record is queued whether or not a
      daemon has the control device open; when it does not fit, the part
      that fits stays queued and only a log line tells. */
  function Post(c: Control, rec: seq<byte>): (r: Control)
    requires ControlInv(c)
    ensures ControlInv(r) && r.kernel == c.kernel
    ensures |c.user| + |rec| <= KernelChannel.CONTROL_BUFSIZE ==> r.user == c.user + rec
    ensures |c.user| + |rec| > KernelChannel.CONTROL_BUFSIZE ==> |r.user| == KernelChannel.CONTROL_BUFSIZE
    ensures |c.user| <= |r.user| && r.user == c.user + rec[..|r.user| - |c.user|]
  {
    c.(user := Put(c.user, rec, KernelChannel.CONTROL_BUFSIZE).fifo)
  }

  /** dvbhdhomerun_wait_for_message, taking at most `size` bytes: `got` is
      what was copied over the front of the caller's record. */
  function Wait(c: Control, size: nat, w: Wake<seq<byte>>): (r: KernelChannel.Taken)
    requires ControlInv(c) && size > 0 && KernelChannel.ArrivalOk(c.kernel, w)
    ensures |r.chan.user| <= KernelChannel.CONTROL_BUFSIZE && |r.chan.kernel| <= KernelChannel.CONTROL_BUFSIZE
    ensures r.chan.user == c.user
    ensures r.ret == -ERESTARTSYS <==> (|c.kernel| == 0 && w.Interrupted?)
    ensures r.ret == -ERESTARTSYS ==> r.chan.kernel == c.kernel && r.got == []
    // The "shouldn't happen" case, a message of 0 bytes, does not happen.
    ensures r.ret != -ERESTARTSYS ==>
      var q := KernelChannel.AwaitData(c.kernel, w).value;
      0 < r.ret <= size && r.ret == |r.got| && r.got + r.chan.kernel == q
      && (r.ret < size ==> r.chan.kernel == [])
  {
    var ch := KernelChannel.Channel(c.user, c.kernel, false, false);
    match KernelChannel.AwaitData(c.kernel, w)
    case None => KernelChannel.Taken(ch, -ERESTARTSYS, [])
    case Some(q) =>
      var g := Get(q, size);
      KernelChannel.Taken(ch.(kernel := g.fifo), |g.out|, g.out)
  }

  /** The control FIFOs of a `Taken` result. */
  function Queues(t: KernelChannel.Taken): Control
  {
    Control(t.chan.user, t.chan.kernel)
  }

  /** hdhomerun_control_read: never waits; an empty request FIFO gives 0. */
  function ControlRead(c: Control, call: KernelChannel.Call, count: nat): (r: KernelChannel.Taken)
    requires ControlInv(c)
    ensures ControlInv(Queues(r)) && r.chan.kernel == c.kernel
    ensures !call.bufNonNull ==> r.ret == -EINVAL && Queues(r) == c
    ensures call.bufNonNull && (count == 0 || |c.user| == 0) ==> r.ret == 0 && Queues(r) == c && r.got == []
    ensures r.ret > 0 <==> call.bufNonNull && count > 0 && |c.user| > 0 && call.allocOk && call.copyOk
    ensures r.ret > 0 ==>
      r.ret == |r.got| <= count && r.got + r.chan.user == c.user && (r.ret < count ==> r.chan.user == [])
    ensures r.ret == -EFAULT ==> r.chan.user == c.user[Min(count, |c.user|)..]
  {
    var ch := KernelChannel.Channel(c.user, c.kernel, false, false);
    if !call.bufNonNull then KernelChannel.Taken(ch, -EINVAL, [])
    else if count == 0 then KernelChannel.Taken(ch, 0, [])
    else if |c.user| == 0 then KernelChannel.Taken(ch, 0, [])
    else if !call.allocOk then KernelChannel.Taken(ch, -ENOMEM, [])
    else
      var g := Get(c.user, count);
      if !call.copyOk then KernelChannel.Taken(ch.(user := g.fifo), -EFAULT, [])
      else KernelChannel.Taken(ch.(user := g.fifo), |g.out|, g.out)
  }

  datatype ControlPut = ControlPut(ctl: Control, ret: int)

  /** hdhomerun_control_write: never waits; as much of the data as fits is
      queued and its count returned (0 when the reply FIFO is full). */
  function ControlWrite(c: Control, call: KernelChannel.Call, data: seq<byte>): (r: ControlPut)
    requires ControlInv(c)
    ensures ControlInv(r.ctl) && r.ctl.user == c.user
    ensures !call.allocOk ==> r == ControlPut(c, -ENOMEM)
    ensures call.allocOk && !call.copyOk ==> r == ControlPut(c, -EFAULT)
    ensures call.allocOk && call.copyOk ==>
      0 <= r.ret <= |data| && r.ctl.kernel == c.kernel + data[..r.ret]
      && (r.ret < |data| ==> |r.ctl.kernel| == KernelChannel.CONTROL_BUFSIZE)
      && (|c.kernel| + |data| <= KernelChannel.CONTROL_BUFSIZE ==> r.ret == |data|)
  {
    if !call.allocOk then ControlPut(c, -ENOMEM)
    else if !call.copyOk then ControlPut(c, -EFAULT)
    else
      var p := Put(c.kernel, data, KernelChannel.CONTROL_BUFSIZE);
      ControlPut(c.(kernel := p.fifo), p.stored)
  }

  // ---------------------------------------------------------------------
  // The ioctls of the three nodes
  // ---------------------------------------------------------------------

  /** The ioctl commands the nodes tell apart; every other command number
      is `OtherCommand`. */
  datatype Command =
    | FeGetInfo | FeSetFrontend | FeReadStatus | FeReadBer | FeReadSignalStrength | FeReadSnr
    | FeReadUncorrectedBlocks | DmxStop | DmxSetFilter | DmxSetPesFilter | DmxSetBufferSize | OtherCommand

  /** The static `frontend_info` the frontend hands out; `feType` is its
      `fe_type_t`. */
  datatype FrontendInfo = FrontendInfo(name: string, feType: int, frequencyMin: int, frequencyMax: int,
                                       frequencyStepsize: int, symbolRateMin: int, symbolRateMax: int, caps: bv32)

  /** FE_QAM in `fe_type_t` (FE_QPSK, FE_QAM, FE_OFDM, FE_ATSC): a DVB-C
      frontend. */
  const FE_QAM: int := 1

  const FE_CAN_INVERSION_AUTO: bv32 := 0x1
  const FE_CAN_FEC_2_3: bv32 := 0x4

  /** The info after FE_GET_INFO has set its capabilities. */
  const INFO: FrontendInfo :=
    FrontendInfo("dvbhdhomerun", FE_QAM, 80000000, 990000000, 8000000, 5217, 6900, FE_CAN_INVERSION_AUTO | FE_CAN_FEC_2_3)

  /** What an ioctl leaves in the caller's argument. */
  datatype Out = NoOut | Info(info: FrontendInfo) | Zero | FromReply(record: seq<byte>)

  datatype Answer = Answer(ctl: Control, ret: int, out: Out)

  /** The commands a node answers by a round trip through the daemon. */
  predicate Asks(node: Node, cmd: Command)
  {
    (node == Frontend && (cmd == FeSetFrontend || cmd == FeReadStatus || cmd == FeReadSignalStrength))
    || (node == Demux && cmd == DmxSetPesFilter)
  }

  /** The commands a node answers without the daemon. */
  predicate AnswersLocally(node: Node, cmd: Command)
  {
    (node == Frontend && cmd in {FeGetInfo, FeReadBer, FeReadSnr, FeReadUncorrectedBlocks})
    || (node == Demux && cmd in {DmxStop, DmxSetFilter, DmxSetBufferSize})
  }

  /** post_message, then wait_for_message into the same record. */
  function Exchange(c: Control, request: seq<byte>, w: Wake<seq<byte>>): (r: (Control, seq<byte>))
    requires ControlInv(c) && |request| > 0 && KernelChannel.ArrivalOk(Post(c, request).kernel, w)
    ensures ControlInv(r.0) && |r.1| == |request|
  {
    var t := Wait(Post(c, request), |request|, w);
    (Queues(t), KernelChannel.Overlay(t.got, request))
  }

  /**
   * hdhomerun_frontend_ioctl, hdhomerun_demux_ioctl and
   * hdhomerun_dvr_ioctl. `userOk` says whether the copy to or from the
   * caller's argument succeeds; `request` is the message record the ioctl
   * posts, whatever its stack held besides the type and parameters.
   */
  function IoctlAnswer(c: Control, node: Node, cmd: Command, userOk: bool, request: seq<byte>,
                 w: Wake<seq<byte>>): (r: Answer)
    requires ControlInv(c) && |request| > 0 && KernelChannel.ArrivalOk(Post(c, request).kernel, w)
    ensures ControlInv(r.ctl)
    ensures !Asks(node, cmd) ==> r.ctl == c
    ensures Asks(node, cmd) ==> r.ctl == Exchange(c, request, w).0
    ensures !Asks(node, cmd) && !AnswersLocally(node, cmd) ==> r == Answer(c, -ENOTTY, NoOut)
    ensures node == Demux && AnswersLocally(node, cmd) ==> r == Answer(c, 0, NoOut)
    ensures (Asks(node, cmd) || (node == Frontend && AnswersLocally(node, cmd))) ==>
      (r.ret == 0 <==> userOk) && (!userOk ==> r.ret == -EFAULT && r.out == NoOut)
    ensures node == Frontend && userOk && cmd in {FeReadBer, FeReadSnr, FeReadUncorrectedBlocks} ==> r.out == Zero
    ensures node == Frontend && userOk && cmd == FeGetInfo ==> r.out == Info(INFO)
    ensures node == Frontend && userOk && cmd in {FeReadStatus, FeReadSignalStrength} ==>
      r.out == FromReply(Exchange(c, request, w).1)
  {
    var ret := if userOk then 0 else -EFAULT;
    match node
    case Frontend =>
      (match cmd
       case FeGetInfo => Answer(c, ret, if userOk then Info(INFO) else NoOut)
       case FeSetFrontend => Answer(Exchange(c, request, w).0, ret, NoOut)
       case FeReadStatus =>
         var e := Exchange(c, request, w);
         Answer(e.0, ret, if userOk then FromReply(e.1) else NoOut)
       case FeReadSignalStrength =>
         var e := Exchange(c, request, w);
         Answer(e.0, ret, if userOk then FromReply(e.1) else NoOut)
       case FeReadBer => Answer(c, ret, if userOk then Zero else NoOut)
       case FeReadSnr => Answer(c, ret, if userOk then Zero else NoOut)
       case FeReadUncorrectedBlocks => Answer(c, ret, if userOk then Zero else NoOut)
       case _ => Answer(c, -ENOTTY, NoOut))
    case Demux =>
      (match cmd
       case DmxStop => Answer(c, 0, NoOut)
       case DmxSetFilter => Answer(c, 0, NoOut)
       case DmxSetPesFilter => Answer(Exchange(c, request, w).0, ret, NoOut)
       case DmxSetBufferSize => Answer(c, 0, NoOut)
       case _ => Answer(c, -ENOTTY, NoOut))
    case Dvr => Answer(c, -ENOTTY, NoOut)
  }

  // ---------------------------------------------------------------------
  // Properties of the control FIFOs and the ioctls
  // ---------------------------------------------------------------------

  /** A request posted on an empty request FIFO is what a record-sized
      control read hands the daemon, and the FIFO is empty again. */
  lemma PostThenReadDelivers(c: Control, rec: seq<byte>, call: KernelChannel.Call)
    requires ControlInv(c) && c.user == [] && 0 < |rec| <= KernelChannel.CONTROL_BUFSIZE
    requires call.bufNonNull && call.allocOk && call.copyOk
    ensures var r := ControlRead(Post(c, rec), call, |rec|);
      r.ret == |rec| && r.got == rec && r.chan.user == []
  {
    assert Post(c, rec).user == rec;
    var r := ControlRead(Post(c, rec), call, |rec|);
    assert r.got + r.chan.user == rec;
  }

  /** A record-sized reply written on an empty reply FIFO is what the
      waiting ioctl takes out. */
  lemma WriteThenWaitDelivers(c: Control, call: KernelChannel.Call, reply: seq<byte>, w: Wake<seq<byte>>)
    requires ControlInv(c) && c.kernel == [] && 0 < |reply| <= KernelChannel.CONTROL_BUFSIZE
    requires call.allocOk && call.copyOk
    requires KernelChannel.ArrivalOk(ControlWrite(c, call, reply).ctl.kernel, w)
    ensures ControlWrite(c, call, reply).ret == |reply|
    ensures var t := Wait(ControlWrite(c, call, reply).ctl, |reply|, w);
      t.ret == |reply| && t.got == reply && t.chan.kernel == []
  {
    var p := ControlWrite(c, call, reply);
    assert p.ctl.kernel == reply;
    assert KernelChannel.AwaitData(reply, w) == Some(reply);
    var t := Wait(p.ctl, |reply|, w);
    assert t.got + t.chan.kernel == reply;
  }

  /** A whole exchange: with room for the request and a reply of one record
      arriving, the request is queued for the daemon and the caller's
      record becomes the reply. */
  lemma ExchangeReturnsReply(c: Control, request: seq<byte>, reply: seq<byte>)
    requires ControlInv(c) && c.kernel == [] && |request| > 0 && |reply| == |request|
    requires |c.user| + |request| <= KernelChannel.CONTROL_BUFSIZE && |reply| <= KernelChannel.CONTROL_BUFSIZE
    ensures var e := Exchange(c, request, Ready(reply));
      e.1 == reply && e.0 == Control(c.user + request, [])
  {
    var t := Wait(Post(c, request), |request|, Ready(reply));
    assert KernelChannel.AwaitData([], Ready(reply)).value == reply;
    assert t.got + t.chan.kernel == reply;
    assert t.got == reply;
  }

  /** The ioctls ignore how the wait for the daemon ended: the return
      value never depends on it, so an interrupted wait still returns 0
      and a status read then reports whatever the record still holds. */
  lemma IoctlIgnoresWaitOutcome(c: Control, node: Node, cmd: Command, userOk: bool, request: seq<byte>,
                                w1: Wake<seq<byte>>, w2: Wake<seq<byte>>)
    requires ControlInv(c) && |request| > 0
    requires KernelChannel.ArrivalOk(Post(c, request).kernel, w1) && KernelChannel.ArrivalOk(Post(c, request).kernel, w2)
    ensures IoctlAnswer(c, node, cmd, userOk, request, w1).ret == IoctlAnswer(c, node, cmd, userOk, request, w2).ret
  {
  }

  /** An interrupted status read on an empty reply FIFO returns success
      and hands back the request record it posted. */
  lemma InterruptedStatusReadReportsRequest(c: Control, request: seq<byte>)
    requires ControlInv(c) && c.kernel == [] && |request| > 0
    ensures IoctlAnswer(c, Frontend, FeReadStatus, true, request, Interrupted) == Answer(Post(c, request), 0, FromReply(request))
  {
    var t := Wait(Post(c, request), |request|, Interrupted);
    assert t.got == [];
    assert KernelChannel.Overlay([], request) == request;
  }

  /** A failed copy of the tuning parameters still sends the request to
      the daemon; only the return value reports the failure. */
  lemma FailedCopyStillPosts(c: Control, request: seq<byte>, w: Wake<seq<byte>>)
    requires ControlInv(c) && |request| > 0 && KernelChannel.ArrivalOk(Post(c, request).kernel, w)
    requires |c.user| + |request| <= KernelChannel.CONTROL_BUFSIZE
    ensures var r := IoctlAnswer(c, Frontend, FeSetFrontend, false, request, w);
      r.ret == -EFAULT && r.ctl.user == c.user + request
  {
    var t := Wait(Post(c, request), |request|, w);
    assert t.chan.user == c.user + request;
  }

  // ---------------------------------------------------------------------
  // The state in place
  // ---------------------------------------------------------------------

  /** `devinfo->fifo` with `fifo_current_size` and `fifo_max_size`. */
  class Loopback {
    var fifo: seq<byte>
    var currentSize: int
    var maxSize: int

    function State(): Loop
      reads this
    {
      Loop(fifo, currentSize, maxSize)
    }

    ghost predicate Valid()
      reads this
    {
      LoopInv(State())
    }

    /** hdhomerun_create_tuner's kfifo_alloc, with the counters at their
        load-time 0. */
    constructor ()
      ensures Valid() && State() == LoopBoot
    {
      fifo := [];
      currentSize := 0;
      maxSize := 0;
    }

    method Read(call: KernelChannel.Call, count: nat, w: Wake<seq<byte>>) returns (ret: int, got: seq<byte>)
      requires Valid() && FillOk(fifo, count, w)
      modifies this
      ensures Valid() && LoopTaken(State(), ret, got) == MyRead(old(State()), call, count, w)
    {
      if !call.bufNonNull {
        return -EINVAL, [];
      }
      if count == 0 {
        return 0, [];
      }
      // The do-while around wait_event_interruptible(readq, len >= count):
      // its `len == 0` guard never holds once the wait has returned 0, so
      // the loop is the wait's own test-and-sleep.
      while |fifo| < count
        invariant Valid() && State() == old(State()).(fifo := fifo)
        invariant |fifo| < count ==> fifo == old(fifo)
        invariant |fifo| >= count ==> Some(fifo) == AwaitCount(old(fifo), count, w)
        invariant |fifo| >= count && |old(fifo)| == 0 ==> !call.nonblock
        decreases if |fifo| < count then 1 else 0
      {
        if |fifo| == 0 && call.nonblock {
          return -EAGAIN, [];
        }
        match w
        case Interrupted =>
          return -ERESTARTSYS, [];
        case Ready(arrived) =>
          fifo := fifo + arrived;
      }
      if !call.allocOk {
        return -ENOMEM, [];
      }
      var g := Get(fifo, count);
      fifo := g.fifo;
      if !call.copyOk {
        return -EFAULT, [];
      }
      ret, got := |g.out|, g.out;
    }

    /** One kfifo_put of the write loop, with the counters updated from
        the length it leaves. */
    method PutOnce(data: seq<byte>) returns (stored: nat)
      requires Valid()
      modifies this
      ensures Valid()
      ensures var p := Put(old(fifo), data, FIFO_CAPACITY);
        stored == p.stored && State() == Observe(old(State()), p.fifo)
    {
      var p := Put(fifo, data, FIFO_CAPACITY);
      fifo := p.fifo;
      stored := p.stored;
      currentSize := |fifo|;
      if |fifo| > maxSize {
        maxSize := |fifo|;
      }
    }

    method Write(call: KernelChannel.Call, data: seq<byte>, w: Wake<nat>) returns (ret: int)
      requires Valid() && EmptyOk(fifo, w)
      modifies this
      ensures Valid() && LoopPut(State(), ret) == MyWrite(old(State()), call, data, w)
    {
      if |data| == 0 {
        return 0;
      }
      if !call.allocOk {
        return -ENOMEM;
      }
      if !call.copyOk {
        return -EFAULT;
      }
      ghost var l0 := State();
      ghost var full := Observe(l0, l0.fifo);
      ret := 0;
      while ret == 0
        invariant Valid()
        invariant ret == 0 ==>
          (State() == l0
           || (w.Ready? && !call.nonblock && |l0.fifo| == FIFO_CAPACITY && State() == full.(fifo := l0.fifo[w.effect..])))
        invariant ret != 0 ==> LoopPut(State(), ret) == MyWrite(l0, call, data, w)
        decreases if ret != 0 then 0 else if |fifo| == FIFO_CAPACITY then 2 else 1
      {
        ghost var before := fifo;
        var stored := PutOnce(data);
        ret := stored;
        if ret != 0 {
          WriteRounds(l0, call, data, w);
        }
        if ret == 0 {
          assert before == l0.fifo && |before| == FIFO_CAPACITY;
          if call.nonblock {
            return -EAGAIN;
          }
          match w
          case Interrupted =>
            return -ERESTARTSYS;
          case Ready(drained) =>
            fifo := fifo[drained..];
        }
      }
    }

    method Poll(node: Node) returns (mask: bv32)
      ensures mask == PollMask(State(), node)
    {
      mask := 0;
      if node == Demux && |fifo| > 0 {
        mask := mask | POLLIN | POLLRDNORM;
      }
    }
  }

  /** `control_fifo_user` and `control_fifo_kernel`; `recordSize` is the
      size of the driver's message record. */
  class ControlQueues {
    var userFifo: seq<byte>
    var kernelFifo: seq<byte>
    const recordSize: nat

    function State(): Control
      reads this
    {
      Control(userFifo, kernelFifo)
    }

    ghost predicate Valid()
      reads this
    {
      ControlInv(State()) && recordSize > 0
    }

    /** hdhomerun_init's two kfifo_alloc calls. */
    constructor (recordSize: nat)
      requires recordSize > 0
      ensures Valid() && State() == Control([], []) && this.recordSize == recordSize
    {
      userFifo := [];
      kernelFifo := [];
      this.recordSize := recordSize;
    }

    method PostMessage(rec: seq<byte>)
      requires Valid()
      modifies this
      ensures Valid() && State() == Post(old(State()), rec)
    {
      var p := Put(userFifo, rec, KernelChannel.CONTROL_BUFSIZE);
      userFifo := p.fifo;
      if p.stored < |rec| {
        // "No buffer space": logged only.
      }
    }

    method WaitForMessage(w: Wake<seq<byte>>) returns (ret: int, got: seq<byte>)
      requires Valid() && KernelChannel.ArrivalOk(kernelFifo, w)
      modifies this
      ensures Valid()
      ensures var t := Wait(old(State()), recordSize, w);
        State() == Queues(t) && ret == t.ret && got == t.got
    {
      while |kernelFifo| == 0
        invariant Valid() && userFifo == old(userFifo)
        invariant |kernelFifo| == 0 ==> kernelFifo == old(kernelFifo)
        invariant |kernelFifo| > 0 ==> Some(kernelFifo) == KernelChannel.AwaitData(old(kernelFifo), w)
        decreases if |kernelFifo| == 0 then 1 else 0
      {
        match w
        case Interrupted =>
          return -ERESTARTSYS, [];
        case Ready(arrived) =>
          kernelFifo := kernelFifo + arrived;
      }
      var g := Get(kernelFifo, recordSize);
      kernelFifo := g.fifo;
      ret, got := |g.out|, g.out;
    }

    method Read(call: KernelChannel.Call, count: nat) returns (ret: int, got: seq<byte>)
      requires Valid()
      modifies this
      ensures Valid()
      ensures var t := ControlRead(old(State()), call, count);
        State() == Queues(t) && ret == t.ret && got == t.got
    {
      if !call.bufNonNull {
        return -EINVAL, [];
      }
      if count == 0 {
        return 0, [];
      }
      if |userFifo| == 0 {
        return 0, [];
      }
      if !call.allocOk {
        return -ENOMEM, [];
      }
      var g := Get(userFifo, count);
      userFifo := g.fifo;
      if !call.copyOk {
        return -EFAULT, [];
      }
      ret, got := |g.out|, g.out;
    }

    method Write(call: KernelChannel.Call, data: seq<byte>) returns (ret: int)
      requires Valid()
      modifies this
      ensures Valid() && ControlPut(State(), ret) == ControlWrite(old(State()), call, data)
    {
      if !call.allocOk {
        return -ENOMEM;
      }
      if !call.copyOk {
        return -EFAULT;
      }
      var p := Put(kernelFifo, data, KernelChannel.CONTROL_BUFSIZE);
      kernelFifo := p.fifo;
      ret := p.stored;
    }

    /** The round trip of an ioctl that asks the daemon: the record after
        the wait, the wait's own result ignored. */
    method PostAndWait(request: seq<byte>, w: Wake<seq<byte>>) returns (reply: seq<byte>)
      requires Valid() && |request| == recordSize && KernelChannel.ArrivalOk(Post(State(), request).kernel, w)
      modifies this
      ensures Valid() && (State(), reply) == Exchange(old(State()), request, w)
    {
      PostMessage(request);
      var ret, got := WaitForMessage(w);
      reply := KernelChannel.Overlay(got, request);
    }

    method Ioctl(node: Node, cmd: Command, userOk: bool, request: seq<byte>, w: Wake<seq<byte>>)
      returns (ret: int, out: Out)
      requires Valid() && |request| == recordSize && KernelChannel.ArrivalOk(Post(State(), request).kernel, w)
      modifies this
      ensures Valid() && Answer(State(), ret, out) == IoctlAnswer(old(State()), node, cmd, userOk, request, w)
    {
      ret := if userOk then 0 else -EFAULT;
      out := NoOut;
      match node
      case Frontend =>
        match cmd {
          case FeGetInfo =>
            if userOk { out := Info(INFO); }
          case FeSetFrontend =>
            var reply := PostAndWait(request, w);
          case FeReadStatus =>
            var reply := PostAndWait(request, w);
            if userOk { out := FromReply(reply); }
          case FeReadSignalStrength =>
            var reply := PostAndWait(request, w);
            if userOk { out := FromReply(reply); }
          case FeReadBer =>
            if userOk { out := Zero; }
          case FeReadSnr =>
            if userOk { out := Zero; }
          case FeReadUncorrectedBlocks =>
            if userOk { out := Zero; }
          case _ =>
            ret := -ENOTTY;
        }
      case Demux =>
        match cmd {
          case DmxStop =>
            ret := 0;
          case DmxSetFilter =>
            ret := 0;
          case DmxSetPesFilter =>
            var reply := PostAndWait(request, w);
          case DmxSetBufferSize =>
            ret := 0;
          case _ =>
            ret := -ENOTTY;
        }
      case Dvr =>
        ret := -ENOTTY;
    }
  }
}
