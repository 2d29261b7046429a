/**
 * The kernel side of the control channel (kernel/dvb_hdhomerun_core.c and
 * the file operations of kernel/dvb_hdhomerun_control.c).
 *
 * Two bounded FIFOs of `control_bufsize` bytes connect the driver and the
 * daemon: `control_fifo_user` carries requests from the kernel to the
 * daemon, `control_fifo_kernel` carries the daemon's replies back. Two flags
 * gate them: `userspace_ready` (the daemon has the device open) and
 * `wait_for_write` (a kernel thread is waiting for a reply).
 *
 * The behaviour of every operation is first given as a function on a
 * `Channel` value; the class `ControlChannel` holds the same state in
 * fields, and each of its methods is proved to move that state exactly as
 * the function says.
 */
module KernelChannel {
  import opened Wrappers
  import opened Wire
  import opened Kfifo
  import opened KernelBase

  /** `control_bufsize`, the capacity of each control FIFO. */
  const CONTROL_BUFSIZE: nat := 32768

  datatype Channel = Channel(user: seq<byte>, kernel: seq<byte>, waitForWrite: bool, userspaceReady: bool)

  predicate Inv(c: Channel)
  {
    |c.user| <= CONTROL_BUFSIZE && |c.kernel| <= CONTROL_BUFSIZE
  }

  /** The state at module load: empty FIFOs, both flags clear. */
  const Boot: Channel := Channel([], [], false, false)

  /** Parameters of one read or write call that come from its caller or
      from the allocator: a non-null user buffer, O_NONBLOCK, `kmalloc`
      success and `copy_to_user`/`copy_from_user` success. */
  datatype Call = Call(bufNonNull: bool, nonblock: bool, allocOk: bool, copyOk: bool)

  datatype Posted = Posted(chan: Channel, ret: int)

  datatype Taken = Taken(chan: Channel, ret: int, got: seq<byte>)

  // ---------------------------------------------------------------------
  // Waiting
  // ---------------------------------------------------------------------

  /** A wake for "the FIFO becomes non-empty": whatever arrives is at least
      one byte and fits. */
  predicate ArrivalOk(fifo: seq<byte>, w: Wake<seq<byte>>)
  {
    w.Ready? ==> 0 < |w.effect| && |fifo| + |w.effect| <= CONTROL_BUFSIZE
  }

  /** A wake for "the FIFO is no longer full": the consumer took a
      non-empty front part away. */
  predicate DrainOk(fifo: seq<byte>, w: Wake<nat>)
  {
    w.Ready? ==> 0 < w.effect <= |fifo|
  }

  /** The FIFO once `wait_event_interruptible(q, len != 0)` has returned 0,
      or None when the wait was interrupted. */
  function AwaitData(fifo: seq<byte>, w: Wake<seq<byte>>): (r: Option<seq<byte>>)
    requires |fifo| <= CONTROL_BUFSIZE && ArrivalOk(fifo, w)
    ensures r.Some? <==> (|fifo| > 0 || w.Ready?)
    ensures r.Some? ==> |r.value| <= CONTROL_BUFSIZE
    ensures r.Some? ==> |r.value| > 0 && fifo <= r.value
    ensures |fifo| > 0 ==> r == Some(fifo)
  {
    if |fifo| > 0 then Some(fifo)
    else match w
      case Interrupted => None
      case Ready(arrived) => Some(fifo + arrived)
  }

  /** The FIFO once `wait_event_interruptible(q, len < control_bufsize)`
      has returned 0, or None when the wait was interrupted. */
  function AwaitRoom(fifo: seq<byte>, w: Wake<nat>): (r: Option<seq<byte>>)
    requires |fifo| <= CONTROL_BUFSIZE && DrainOk(fifo, w)
    ensures r.Some? <==> (|fifo| < CONTROL_BUFSIZE || w.Ready?)
    ensures r.Some? ==> |r.value| < CONTROL_BUFSIZE && |r.value| <= |fifo| && r.value == fifo[|fifo| - |r.value|..]
    ensures |fifo| < CONTROL_BUFSIZE ==> r == Some(fifo)
  {
    if |fifo| < CONTROL_BUFSIZE then Some(fifo)
    else match w
      case Interrupted => None
      case Ready(drained) => Some(fifo[drained..])
  }

  // ---------------------------------------------------------------------
  // Kernel-facing operations (dvb_hdhomerun_core.c)
  // ---------------------------------------------------------------------

  /** hdhomerun_control_post_message. */
  function AfterPost(c: Channel, m: Mesg): (r: Posted)
    requires Inv(c) && WellFormed(m)
    ensures Inv(r.chan)
    ensures r.ret == 1 || r.ret == -1
    ensures r.chan.kernel == c.kernel && r.chan.waitForWrite == c.waitForWrite
    ensures r.chan.userspaceReady == c.userspaceReady
    ensures !c.userspaceReady ==> r == Posted(c, -1)
    ensures c.userspaceReady ==> (r.ret == 1 <==> |c.user| + RECORD_SIZE <= CONTROL_BUFSIZE)
    ensures r.ret == 1 ==> r.chan.user == c.user + Encode(m)
    ensures c.userspaceReady && r.ret == -1 ==>
      |r.chan.user| == CONTROL_BUFSIZE && r.chan.user == c.user + Encode(m)[..CONTROL_BUFSIZE - |c.user|]
  {
    if !c.userspaceReady then Posted(c, -1)
    else
      var p := Put(c.user, Encode(m), CONTROL_BUFSIZE);
      Posted(c.(user := p.fifo), if p.stored < RECORD_SIZE then -1 else 1)
  }

  /** hdhomerun_control_wait_for_message: `got` is what was copied over
      the front of the caller's record. */
  function AfterWait(c: Channel, w: Wake<seq<byte>>): (r: Taken)
    requires Inv(c) && ArrivalOk(c.kernel, w)
    ensures Inv(r.chan)
    ensures r.chan.user == c.user && r.chan.userspaceReady == c.userspaceReady
    ensures r.ret == -ERESTARTSYS <==> (|c.kernel| == 0 && w.Interrupted?)
    ensures r.ret == -ERESTARTSYS ==> r == Taken(c.(waitForWrite := false), -ERESTARTSYS, [])
    ensures r.ret != -ERESTARTSYS ==>
      var q := AwaitData(c.kernel, w).value;
      r.chan.waitForWrite && 0 < r.ret <= RECORD_SIZE && r.ret == |r.got|
      && r.got + r.chan.kernel == q && (r.ret < RECORD_SIZE ==> r.chan.kernel == [])
  {
    match AwaitData(c.kernel, w)
    case None => Taken(c.(waitForWrite := false), -ERESTARTSYS, [])
    case Some(q) =>
      var g := Get(q, RECORD_SIZE);
      Taken(c.(kernel := g.fifo, waitForWrite := true), |g.out|, g.out)
  }

  /** The caller's record after `got` has been copied over its front. */
  function Overlay(got: seq<byte>, request: seq<byte>): (b: seq<byte>)
    requires |got| <= |request|
    ensures |b| == |request| && b[..|got|] == got && b[|got|..] == request[|got|..]
  {
    got + request[|got|..]
  }

  datatype Exchanged = Exchanged(chan: Channel, ret: int, reply: seq<byte>)

  /** hdhomerun_control_post_and_wait: `reply` is the caller's record
      afterwards, as bytes. */
  function AfterPostAndWait(c: Channel, m: Mesg, w: Wake<seq<byte>>): (r: Exchanged)
    requires Inv(c) && WellFormed(m) && ArrivalOk(c.kernel, w)
    ensures Inv(r.chan) && |r.reply| == RECORD_SIZE
    ensures AfterPost(c, m).ret != 1 ==>
      r == Exchanged(AfterPost(c, m).chan, -1, Encode(m))
    ensures AfterPost(c, m).ret == 1 ==>
      var t := AfterWait(AfterPost(c, m).chan, w);
      r.chan == t.chan && r.ret == t.ret && r.reply[..|t.got|] == t.got
      && r.reply[|t.got|..] == Encode(m)[|t.got|..]
  {
    var p := AfterPost(c, m);
    if p.ret != 1 then Exchanged(p.chan, p.ret, Encode(m))
    else
      var t := AfterWait(p.chan, w);
      Exchanged(t.chan, t.ret, Overlay(t.got, Encode(m)))
  }

  // ---------------------------------------------------------------------
  // Daemon-facing file operations (dvb_hdhomerun_control.c)
  // ---------------------------------------------------------------------

  /** hdhomerun_control_poll. */
  function PollMask(c: Channel): (mask: bv32)
    ensures (mask & (POLLIN | POLLRDNORM) != 0) <==> |c.user| != 0
    ensures mask & (POLLIN | POLLRDNORM) == 0 || mask & (POLLIN | POLLRDNORM) == POLLIN | POLLRDNORM
    ensures mask & (POLLOUT | POLLWRNORM) == POLLOUT | POLLWRNORM
    ensures mask & !(POLLIN | POLLRDNORM | POLLOUT | POLLWRNORM) == 0
  {
    (if |c.user| != 0 then POLLIN | POLLRDNORM else 0) | POLLOUT | POLLWRNORM
  }

  /** hdhomerun_control_read: `got` is what reaches the user buffer. */
  function AfterRead(c: Channel, call: Call, count: nat, w: Wake<seq<byte>>): (r: Taken)
    requires Inv(c) && ArrivalOk(c.user, w)
    ensures Inv(r.chan)
    ensures r.chan.kernel == c.kernel && r.chan.waitForWrite == c.waitForWrite
    ensures r.chan.userspaceReady == c.userspaceReady
    ensures !call.bufNonNull ==> r == Taken(c, -EINVAL, [])
    ensures call.bufNonNull && count == 0 ==> r == Taken(c, 0, [])
    ensures call.bufNonNull && count > 0 && |c.user| == 0 && call.nonblock ==> r == Taken(c, -EAGAIN, [])
    ensures call.bufNonNull && count > 0 && |c.user| == 0 && !call.nonblock && w.Interrupted? ==>
      r == Taken(c, -ERESTARTSYS, [])
    ensures call.bufNonNull && count > 0 && !(|c.user| == 0 && call.nonblock) && AwaitData(c.user, w).Some? ==>
      var q := AwaitData(c.user, w).value;
      (!call.allocOk ==> r == Taken(c.(user := q), -ENOMEM, []))
      && (call.allocOk && !call.copyOk ==> r == Taken(c.(user := Get(q, count).fifo), -EFAULT, []))
    ensures r.ret > 0 ==>
      var q := AwaitData(c.user, w).value;
      r.ret == |r.got| <= count && r.got + r.chan.user == q && (r.ret < count ==> r.chan.user == [])
  {
    if !call.bufNonNull then Taken(c, -EINVAL, [])
    else if count == 0 then Taken(c, 0, [])
    else if |c.user| == 0 && call.nonblock then Taken(c, -EAGAIN, [])
    else match AwaitData(c.user, w)
      case None => Taken(c, -ERESTARTSYS, [])
      case Some(q) =>
        if !call.allocOk then Taken(c.(user := q), -ENOMEM, [])
        else
          var g := Get(q, count);
          if !call.copyOk then Taken(c.(user := g.fifo), -EFAULT, [])
          else Taken(c.(user := g.fifo), |g.out|, g.out)
  }

  /** hdhomerun_control_write of the bytes `data` (its count is |data|). */
  function AfterWrite(c: Channel, call: Call, data: seq<byte>, w: Wake<nat>): (r: Posted)
    requires Inv(c) && DrainOk(c.kernel, w)
    ensures Inv(r.chan)
    ensures r.chan.user == c.user && r.chan.waitForWrite == c.waitForWrite
    ensures r.chan.userspaceReady == c.userspaceReady
    ensures !call.allocOk ==> r == Posted(c, -ENOMEM)
    ensures call.allocOk && !call.copyOk ==> r == Posted(c, -EFAULT)
    ensures call.allocOk && call.copyOk && !c.waitForWrite ==> r == Posted(c, |data|)
    ensures call.allocOk && call.copyOk && c.waitForWrite && |c.kernel| == CONTROL_BUFSIZE && call.nonblock ==>
      r == Posted(c, -EAGAIN)
    ensures (call.allocOk && call.copyOk && c.waitForWrite && |c.kernel| == CONTROL_BUFSIZE && !call.nonblock
             && w.Interrupted?) ==> r == Posted(c, -ERESTARTSYS)
    ensures r.ret >= 0 && c.waitForWrite ==>
      var q := AwaitRoom(c.kernel, w).value;
      r.ret <= |data| && r.chan.kernel == q + data[..r.ret]
      && (r.ret < |data| ==> |r.chan.kernel| == CONTROL_BUFSIZE)
  {
    if !call.allocOk then Posted(c, -ENOMEM)
    else if !call.copyOk then Posted(c, -EFAULT)
    else if !c.waitForWrite then Posted(c, |data|)
    else if |c.kernel| == CONTROL_BUFSIZE && call.nonblock then Posted(c, -EAGAIN)
    else match AwaitRoom(c.kernel, w)
      case None => Posted(c, -ERESTARTSYS)
      case Some(q) =>
        var p := Put(q, data, CONTROL_BUFSIZE);
        Posted(c.(kernel := p.fifo), p.stored)
  }

  // ---------------------------------------------------------------------
  // Properties relating several operations
  // ---------------------------------------------------------------------

  /** With the daemon gone, posting fails and changes nothing, and
      post_and_wait returns at once without touching the reply side. */
  lemma PostWithoutDaemon(c: Channel, m: Mesg, w: Wake<seq<byte>>)
    requires Inv(c) && WellFormed(m) && ArrivalOk(c.kernel, w) && !c.userspaceReady
    ensures AfterPost(c, m) == Posted(c, -1)
    ensures AfterPostAndWait(c, m, w) == Exchanged(c, -1, Encode(m))
  {
  }

  /** After a release nothing can be posted until the next open. */
  lemma ReleaseClosesChannel(m: Mesg)
    requires WellFormed(m)
    ensures AfterPost(Boot, m) == Posted(Boot, -1)
  {
  }

  /** A request posted on an otherwise empty request FIFO is read back by a
      record-sized read as exactly that request. */
  lemma PostThenReadDeliversRecord(c: Channel, m: Mesg, call: Call, w: Wake<seq<byte>>)
    requires Inv(c) && WellFormed(m) && c.userspaceReady && c.user == []
    requires call.bufNonNull && call.allocOk && call.copyOk
    requires ArrivalOk(AfterPost(c, m).chan.user, w)
    ensures AfterPost(c, m).ret == 1
    ensures var t := AfterRead(AfterPost(c, m).chan, call, RECORD_SIZE, w);
      t.ret == RECORD_SIZE && Decode(t.got) == Some(m) && t.chan.user == []
  {
    var p := AfterPost(c, m);
    assert p.chan.user == Encode(m);
    var t := AfterRead(p.chan, call, RECORD_SIZE, w);
    assert t.got == Encode(m);
    DecodeEncode(m);
  }

  /** A record-sized write while the kernel waits on an empty FIFO is
      exactly what the waiting kernel thread takes out. */
  lemma WriteThenWaitDelivers(c: Channel, call: Call, e: seq<byte>, dw: Wake<nat>, aw: Wake<seq<byte>>)
    requires Inv(c) && |e| == RECORD_SIZE && c.waitForWrite && c.kernel == []
    requires call.allocOk && call.copyOk && DrainOk(c.kernel, dw)
    requires ArrivalOk(AfterWrite(c, call, e, dw).chan.kernel, aw)
    ensures AfterWrite(c, call, e, dw).ret == RECORD_SIZE
    ensures var t := AfterWait(AfterWrite(c, call, e, dw).chan, aw);
      t.ret == RECORD_SIZE && t.got == e && t.chan.kernel == []
  {
    assert AwaitRoom(c.kernel, dw) == Some([]);
    PutFits([], e, CONTROL_BUFSIZE);
    var p := AfterWrite(c, call, e, dw);
    assert p == Posted(c.(kernel := e), RECORD_SIZE);
    assert AwaitData(p.chan.kernel, aw) == Some(e);
    assert e[..RECORD_SIZE] == e && e[RECORD_SIZE..] == [];
    assert Get(e, RECORD_SIZE) == GetResult(e, []);
  }

  /** The daemon's record-sized reply written while the kernel waits is the
      record the waiting kernel thread gets back. */
  lemma WriteThenWaitDeliversReply(c: Channel, call: Call, reply: Mesg, dw: Wake<nat>, aw: Wake<seq<byte>>)
    requires Inv(c) && WellFormed(reply) && c.waitForWrite && c.kernel == []
    requires call.allocOk && call.copyOk && DrainOk(c.kernel, dw)
    requires ArrivalOk(AfterWrite(c, call, Encode(reply), dw).chan.kernel, aw)
    ensures AfterWrite(c, call, Encode(reply), dw).ret == RECORD_SIZE
    ensures var t := AfterWait(AfterWrite(c, call, Encode(reply), dw).chan, aw);
      t.ret == RECORD_SIZE && Decode(t.got) == Some(reply) && t.chan.kernel == []
  {
    WriteThenWaitDelivers(c, call, Encode(reply), dw, aw);
    DecodeEncode(reply);
  }

  /** One full exchange: the request reaches the daemon's FIFO and the
      caller's record becomes the reply, when the reply arrives as one
      record while the kernel waits. */
  lemma ExchangeReturnsReply(c: Channel, m: Mesg, reply: Mesg)
    requires Inv(c) && WellFormed(m) && WellFormed(reply) && c.userspaceReady && c.kernel == []
    requires |c.user| + RECORD_SIZE <= CONTROL_BUFSIZE
    ensures var r := AfterPostAndWait(c, m, Ready(Encode(reply)));
      r.ret == RECORD_SIZE && Decode(r.reply) == Some(reply)
      && r.chan.user == c.user + Encode(m) && r.chan.kernel == [] && r.chan.waitForWrite
  {
    var e := Encode(reply);
    var t := AfterWait(AfterPost(c, m).chan, Ready(e));
    assert AwaitData([], Ready(e)).value == e;
    assert t.got == e;
    assert Overlay(t.got, Encode(m)) == e;
    DecodeEncode(reply);
  }

  /** A reply shorter than a record leaves the tail of the request in the
      caller's record. */
  lemma ShortReplyKeepsRequestTail(c: Channel, m: Mesg, part: seq<byte>)
    requires Inv(c) && WellFormed(m) && c.userspaceReady && c.kernel == []
    requires |c.user| + RECORD_SIZE <= CONTROL_BUFSIZE
    requires 0 < |part| < RECORD_SIZE
    ensures var r := AfterPostAndWait(c, m, Ready(part));
      r.ret == |part| && r.reply == part + Encode(m)[|part|..]
  {
  }

  // ---------------------------------------------------------------------
  // The state in place
  // ---------------------------------------------------------------------

  class ControlChannel {
    var userFifo: seq<byte>
    var kernelFifo: seq<byte>
    var waitForWrite: bool
    var userspaceReady: bool

    function State(): Channel
      reads this
    {
      Channel(userFifo, kernelFifo, waitForWrite, userspaceReady)
    }

    ghost predicate Valid()
      reads this
    {
      Inv(State())
    }

    /** Module load: the FIFOs are allocated empty and both flags are 0. */
    constructor ()
      ensures Valid() && State() == Boot
    {
      userFifo := [];
      kernelFifo := [];
      waitForWrite := false;
      userspaceReady := false;
    }

    method PostMessage(m: Mesg) returns (ret: int)
      requires Valid() && WellFormed(m)
      modifies this
      ensures Valid() && Posted(State(), ret) == AfterPost(old(State()), m)
    {
      ret := -1;
      if userspaceReady {
        var p := Put(userFifo, Encode(m), CONTROL_BUFSIZE);
        userFifo := p.fifo;
        if p.stored < RECORD_SIZE {
          // "No buffer space": the stored part of the record stays queued.
        } else {
          ret := 1;
        }
      }
    }

    method WaitForMessage(w: Wake<seq<byte>>) returns (ret: int, got: seq<byte>)
      requires Valid() && ArrivalOk(kernelFifo, w)
      modifies this
      ensures Valid() && Taken(State(), ret, got) == AfterWait(old(State()), w)
    {
      waitForWrite := true;
      // do { wait_event_interruptible(...) } while (len == 0); the wait
      // returns at once while the FIFO is non-empty.
      while |kernelFifo| == 0
        invariant Valid() && waitForWrite
        invariant userFifo == old(userFifo) && userspaceReady == old(userspaceReady)
        invariant |kernelFifo| == 0 ==> kernelFifo == old(kernelFifo)
        invariant |kernelFifo| > 0 ==> Some(kernelFifo) == AwaitData(old(kernelFifo), w)
        decreases if |kernelFifo| == 0 then 1 else 0
      {
        match w
        case Interrupted =>
          waitForWrite := false;
          return -ERESTARTSYS, [];
        case Ready(arrived) =>
          kernelFifo := kernelFifo + arrived;
      }
      var g := Get(kernelFifo, RECORD_SIZE);
      kernelFifo := g.fifo;
      ret, got := |g.out|, g.out;
    }

    method PostAndWait(m: Mesg, w: Wake<seq<byte>>) returns (ret: int, reply: seq<byte>)
      requires Valid() && WellFormed(m) && ArrivalOk(kernelFifo, w)
      modifies this
      ensures Valid() && Exchanged(State(), ret, reply) == AfterPostAndWait(old(State()), m, w)
    {
      reply := Encode(m);
      ret := PostMessage(m);
      if ret == 1 {
        var got;
        ret, got := WaitForMessage(w);
        reply := Overlay(got, reply);
      }
    }

    method Poll() returns (mask: bv32)
      ensures mask == PollMask(State())
    {
      mask := 0;
      if |userFifo| != 0 {
        mask := mask | POLLIN | POLLRDNORM;
      }
      mask := mask | POLLOUT | POLLWRNORM;
    }

    method Read(call: Call, count: nat, w: Wake<seq<byte>>) returns (ret: int, got: seq<byte>)
      requires Valid() && ArrivalOk(userFifo, w)
      modifies this
      ensures Valid() && Taken(State(), ret, got) == AfterRead(old(State()), call, count, w)
    {
      if !call.bufNonNull {
        return -EINVAL, [];
      }
      if count == 0 {
        return 0, [];
      }
      while |userFifo| == 0
        invariant Valid() && State() == old(State()).(user := userFifo)
        invariant |userFifo| == 0 ==> userFifo == old(userFifo)
        invariant |userFifo| > 0 ==> Some(userFifo) == AwaitData(old(userFifo), w)
        invariant |userFifo| > 0 && |old(userFifo)| == 0 ==> !call.nonblock
        decreases if |userFifo| == 0 then 1 else 0
      {
        if call.nonblock {
          return -EAGAIN, [];
        }
        match w
        case Interrupted =>
          return -ERESTARTSYS, [];
        case Ready(arrived) =>
          userFifo := userFifo + arrived;
      }
      if !call.allocOk {
        return -ENOMEM, [];
      }
      var g := Get(userFifo, count);
      userFifo := g.fifo;
      if !call.copyOk {
        return -EFAULT, [];
      }
      ret, got := |g.out|, g.out;
    }

    method Write(call: Call, data: seq<byte>, w: Wake<nat>) returns (ret: int)
      requires Valid() && DrainOk(kernelFifo, w)
      modifies this
      ensures Valid() && Posted(State(), ret) == AfterWrite(old(State()), call, data, w)
    {
      ret := |data|;
      if !call.allocOk {
        return -ENOMEM;
      }
      if !call.copyOk {
        return -EFAULT;
      }
      if waitForWrite {
        while |kernelFifo| == CONTROL_BUFSIZE
          invariant Valid() && State() == old(State()).(kernel := kernelFifo)
          invariant |kernelFifo| == CONTROL_BUFSIZE ==> kernelFifo == old(kernelFifo)
          invariant |kernelFifo| < CONTROL_BUFSIZE ==> Some(kernelFifo) == AwaitRoom(old(kernelFifo), w)
          invariant |kernelFifo| < CONTROL_BUFSIZE && |old(kernelFifo)| == CONTROL_BUFSIZE ==> !call.nonblock
          decreases if |kernelFifo| == CONTROL_BUFSIZE then 1 else 0
        {
          if call.nonblock {
            return -EAGAIN;
          }
          match w
          case Interrupted =>
            return -ERESTARTSYS;
          case Ready(drained) =>
            kernelFifo := kernelFifo[drained..];
        }
        var p := Put(kernelFifo, data, CONTROL_BUFSIZE);
        kernelFifo := p.fifo;
        ret := p.stored;
      }
    }

    /** hdhomerun_control_open. */
    method Open()
      requires Valid()
      modifies this
      ensures Valid() && State() == old(State()).(userspaceReady := true)
    {
      userspaceReady := true;
    }

    /** hdhomerun_control_release: both FIFOs are reset and both flags
        cleared, so the next session starts from the load-time state. */
    method Release()
      modifies this
      ensures Valid() && State() == Boot
    {
      kernelFifo := [];
      userFifo := [];
      waitForWrite := false;
      userspaceReady := false;
    }
  }
}
