/**
 * The daemon's message loop (Control in userhdhomerun/hdhomerun_control.cpp).
 * Records read whole from the control device are queued. ProcessMessages
 * drains the queue front to back and hands each record to the handler for
 * its type. A handler asks the tuner with the record's kernel id to act,
 * then writes the record back to the device, with the status or the
 * signal strength filled in where the request asks for one.
 *
 * What the device answers while one record is handled (the tuner status
 * and set_tuner_channel's result) is a parameter, one per queued record.
 */
module Dispatcher {
  import opened Wrappers
  import opened Wire
  import opened Tuner
  import opened Controller
  import opened KernelChannel
  import opened KernelFrontend
  import opened KernelBase

  /** A record as it crosses the boundary: every field within its C type. */
  type Record = m: Mesg | WellFormed(m) witness Mesg(0, seq(UNION_SIZE, i => 0), 0)

  /** The device's answers while one record is handled. */
  datatype Oracle = Oracle(reading: StatusReading, channelRet: int)

  /** Answers whose status fields fit the library's unsigned ints. */
  type Answer = o: Oracle | ReadingOk(o.reading) witness Oracle(StatusReading(0, 0, 0), 0)

  /** The five types ProcessMessages dispatches; any other is only logged. */
  predicate Handled(mtype: int)
  {
    mtype == Code(FeSetFrontend) || mtype == Code(FeReadStatus) || mtype == Code(FeReadSignalStrength)
    || mtype == Code(StartFeed) || mtype == Code(StopFeed)
  }

  /** Every record a handler takes names a tuner the controller holds. */
  predicate Addressed(ids: seq<int>, ms: seq<Mesg>)
  {
    forall i :: 0 <= i < |ms| && Handled(ms[i].mtype) ==> ms[i].id in ids
  }

  /** `u.signal_strength = strength`, where `strength` is the uint16_t that
      ReadSignalStrength's int result was cut to. */
  function StrengthField(r: StatusReading): (v: int)
    requires ReadingOk(r)
    ensures IsI16(v) && Bits16(v) == StrengthOf(r.signalStrength) % TWO16
  {
    Signed16(StrengthOf(r.signalStrength) % TWO16)
  }

  // ---------------------------------------------------------------------
  // One record
  // ---------------------------------------------------------------------

  /** The record written back for m, None for a type that gets no reply. */
  function Respond(m: Record, o: Answer): Option<Record>
  {
    if m.mtype == Code(FeSetFrontend) then Some(m)
    else if m.mtype == Code(FeReadStatus) then Some(m.(u := WithFeStatus(m.u, StatusOf(o.reading))))
    else if m.mtype == Code(FeReadSignalStrength) then Some(m.(u := WithSignalStrength(m.u, StrengthField(o.reading))))
    else if m.mtype == Code(StartFeed) || m.mtype == Code(StopFeed) then Some(m)
    else None
  }

  /** Exactly the five handled types get a reply. Type and id always come
      back unchanged; READ_STATUS and READ_SIGNAL_STRENGTH overwrite only
      their own union member, with the tuner's status and its strength cut
      to 16 bits; the other three echo the record. */
  lemma RespondMeaning(m: Record, o: Answer)
    ensures var r := Respond(m, o);
      (r.Some? <==> Handled(m.mtype))
      && (r.Some? ==> r.value.mtype == m.mtype && r.value.id == m.id)
      && (r.Some? && m.mtype != Code(FeReadStatus) && m.mtype != Code(FeReadSignalStrength) ==> r.value == m)
      && (m.mtype == Code(FeReadStatus) ==>
            FeStatus(r.value.u) == StatusOf(o.reading) && r.value.u[4..] == m.u[4..])
      && (m.mtype == Code(FeReadSignalStrength) ==>
            Bits16(SignalStrength(r.value.u)) == StrengthOf(o.reading.signalStrength) % TWO16
            && r.value.u[2..] == m.u[2..])
  {
    if m.mtype == Code(FeReadStatus) {
      var u := WithFeStatus(m.u, StatusOf(o.reading));
      assert u[4..] == m.u[4..];
    } else if m.mtype == Code(FeReadSignalStrength) {
      var u := WithSignalStrength(m.u, StrengthField(o.reading));
      assert u[2..] == m.u[2..];
    }
  }

  /** What handling m does to the addressed tuner's session. */
  function Effect(s: Session, m: Record, o: Oracle): Session
  {
    if m.mtype == Code(FeSetFrontend) then AfterTune(s, Signed32(Frequency(m.u)), o.reading, o.channelRet).session
    else if m.mtype == Code(FeReadStatus) || m.mtype == Code(FeReadSignalStrength) then
      s.(calls := s.calls + [GetTunerStatus])
    else if m.mtype == Code(StartFeed) then Started(s, FeedOf(m.u).pid)
    else if m.mtype == Code(StopFeed) then Stopped(s, FeedOf(m.u).pid)
    else s
  }

  /** The sessions of the tuners (whose kernel ids are `ids`) after m: the
      first tuner with m's id takes the effect, every other keeps its own.
      (A handled record whose id no tuner has never gets here: the daemon
      requires a tuner for it.) */
  function Step(ss: seq<Session>, ids: seq<int>, m: Record, o: Oracle): (r: seq<Session>)
    requires |ss| == |ids|
    ensures |r| == |ss|
  {
    if Handled(m.mtype) && m.id in ids then
      var i := FirstWithId(ids, m.id).value;
      ss[i := Effect(ss[i], m, o)]
    else ss
  }

  /** Every handler keeps each session well formed. */
  lemma EffectOk(s: Session, m: Record, o: Oracle)
    requires SessionOk(s)
    ensures SessionOk(Effect(s, m, o))
  {
    if m.mtype == Code(FeSetFrontend) {
      TunedOk(s, Signed32(Frequency(m.u)), o.reading, o.channelRet);
    } else if m.mtype == Code(StartFeed) {
      StartedOk(s, FeedOf(m.u).pid);
    } else if m.mtype == Code(StopFeed) {
      StoppedOk(s, FeedOf(m.u).pid);
    } else {
      PolledOk(s);
    }
  }

  lemma TunedOk(s: Session, freq: int, reading: StatusReading, channelRet: int)
    requires SessionOk(s)
    ensures SessionOk(AfterTune(s, freq, reading, channelRet).session)
  {
    var t := AfterTune(s, freq, reading, channelRet).session;
    assert t.pids == s.pids && t.pumpRunning == s.pumpRunning && t.stream == s.stream;
  }

  lemma PolledOk(s: Session)
    requires SessionOk(s)
    ensures SessionOk(s.(calls := s.calls + [GetTunerStatus]))
  {
  }

  // ---------------------------------------------------------------------
  // A queue of records
  // ---------------------------------------------------------------------

  /** The records written back for a queue, in queue order. */
  function Replies(ms: seq<Record>, os: seq<Answer>): (rs: seq<Record>)
    requires |os| == |ms|
    ensures |rs| <= |ms|
    decreases |ms|
  {
    if ms == [] then []
    else
      var k := |ms| - 1;
      Replies(ms[..k], os[..k]) + Reply(ms[k], os[k])
  }

  /** The sessions after a whole queue, each record applied in turn. */
  function Dispatched(ss: seq<Session>, ids: seq<int>, ms: seq<Record>, os: seq<Oracle>): (r: seq<Session>)
    requires |ss| == |ids| && |os| == |ms|
    ensures |r| == |ss|
    decreases |ms|
  {
    if ms == [] then ss
    else
      var k := |ms| - 1;
      Step(Dispatched(ss, ids, ms[..k], os[..k]), ids, ms[k], os[k])
  }

  /** Handling two queues one after the other answers the first queue's
      records before the second's. */
  lemma {:induction false} RepliesAppend(ms1: seq<Record>, os1: seq<Answer>, ms2: seq<Record>, os2: seq<Answer>)
    requires |os1| == |ms1| && |os2| == |ms2|
    ensures Replies(ms1 + ms2, os1 + os2) == Replies(ms1, os1) + Replies(ms2, os2)
    decreases |ms2|
  {
    if ms2 == [] {
      EmptyRight(ms1);
      EmptyRight(os1);
      EmptyRight(Replies(ms1, os1));
    } else {
      var k := |ms2| - 1;
      var m, o := ms2[k], os2[k];
      RepliesAppend(ms1, os1, ms2[..k], os2[..k]);
      LastSplit(ms2);
      LastSplit(os2);
      Assoc(ms1, ms2[..k], [m]);
      Assoc(os1, os2[..k], [o]);
      RepliesSnoc(ms1 + ms2[..k], os1 + os2[..k], m, o);
      RepliesSnoc(ms2[..k], os2[..k], m, o);
      Assoc(Replies(ms1, os1), Replies(ms2[..k], os2[..k]), Reply(m, o));
    }
  }

  /** The reply to one record, as a sequence of at most one. */
  function Reply(m: Record, o: Answer): seq<Record>
  {
    var r := Respond(m, o);
    if r.Some? then [r.value] else []
  }

  lemma RepliesSnoc(ms: seq<Record>, os: seq<Answer>, m: Record, o: Answer)
    requires |os| == |ms|
    ensures Replies(ms + [m], os + [o]) == Replies(ms, os) + Reply(m, o)
  {
    LastOfSnoc(ms, m);
    LastOfSnoc(os, o);
  }

  lemma LastOfSnoc<T>(s: seq<T>, x: T)
    ensures (s + [x])[..|s|] == s && (s + [x])[|s|] == x
  {
  }

  /** A queue of handled records gets exactly one reply per record, in
      queue order, each the answer to its own record. */
  lemma RepliesInOrder(ms: seq<Record>, os: seq<Answer>)
    requires |os| == |ms|
    requires forall i :: 0 <= i < |ms| ==> Handled(ms[i].mtype)
    ensures |Replies(ms, os)| == |ms|
    ensures forall i :: 0 <= i < |ms| ==> Respond(ms[i], os[i]) == Some(Replies(ms, os)[i])
  {
    RepliesCount(ms, os);
    forall i | 0 <= i < |ms|
      ensures Respond(ms[i], os[i]) == Some(Replies(ms, os)[i])
    {
      ReplyAt(ms, os, i);
    }
  }

  lemma {:induction false} RepliesCount(ms: seq<Record>, os: seq<Answer>)
    requires |os| == |ms|
    requires forall i :: 0 <= i < |ms| ==> Handled(ms[i].mtype)
    ensures |Replies(ms, os)| == |ms|
    decreases |ms|
  {
    if ms != [] {
      var k := |ms| - 1;
      RepliesCount(ms[..k], os[..k]);
    }
  }

  lemma {:induction false} ReplyAt(ms: seq<Record>, os: seq<Answer>, i: nat)
    requires |os| == |ms| && i < |ms|
    requires forall j :: 0 <= j < |ms| ==> Handled(ms[j].mtype)
    ensures |Replies(ms, os)| == |ms| && Respond(ms[i], os[i]) == Some(Replies(ms, os)[i])
    decreases |ms|
  {
    var k := |ms| - 1;
    RepliesCount(ms[..k], os[..k]);
    var rs := Replies(ms[..k], os[..k]);
    var r := Respond(ms[k], os[k]).value;
    assert Replies(ms, os) == rs + [r];
    if i < k {
      ReplyAt(ms[..k], os[..k], i);
      assert ms[..k][i] == ms[i] && os[..k][i] == os[i];
      assert (rs + [r])[i] == rs[i];
    }
  }

  /** Records of any other type get no reply and change no tuner. */
  lemma {:induction false} UnhandledAreDropped(ss: seq<Session>, ids: seq<int>, ms: seq<Record>, os: seq<Answer>)
    requires |ss| == |ids| && |os| == |ms|
    requires forall i :: 0 <= i < |ms| ==> !Handled(ms[i].mtype)
    ensures Replies(ms, os) == [] && Dispatched(ss, ids, ms, os) == ss
    decreases |ms|
  {
    if ms != [] {
      UnhandledAreDropped(ss, ids, ms[..|ms| - 1], os[..|ms| - 1]);
    }
  }

  /** Dispatching keeps every session well formed. */
  lemma {:induction false} DispatchedOk(ss: seq<Session>, ids: seq<int>, ms: seq<Record>, os: seq<Oracle>)
    requires |ss| == |ids| && |os| == |ms|
    requires forall j :: 0 <= j < |ss| ==> SessionOk(ss[j])
    ensures forall j :: 0 <= j < |ss| ==> SessionOk(Dispatched(ss, ids, ms, os)[j])
    decreases |ms|
  {
    if ms != [] {
      var k := |ms| - 1;
      DispatchedOk(ss, ids, ms[..k], os[..k]);
      var before := Dispatched(ss, ids, ms[..k], os[..k]);
      if Handled(ms[k].mtype) && ms[k].id in ids {
        EffectOk(before[FirstWithId(ids, ms[k].id).value], ms[k], os[k]);
      }
    }
  }

  /** A tuner whose kernel id no record names keeps its session. */
  lemma {:induction false} UnaddressedTunerKeepsSession(ss: seq<Session>, ids: seq<int>, ms: seq<Record>, os: seq<Oracle>, j: nat)
    requires |ss| == |ids| && |os| == |ms| && j < |ss|
    requires forall i :: 0 <= i < |ms| ==> ms[i].id != ids[j]
    ensures Dispatched(ss, ids, ms, os)[j] == ss[j]
    decreases |ms|
  {
    if ms != [] {
      var k := |ms| - 1;
      UnaddressedTunerKeepsSession(ss, ids, ms[..k], os[..k], j);
    }
  }

  /** The replies and sessions after one more record of the queue. */
  lemma ProcessedNext(ss: seq<Session>, ids: seq<int>, ms: seq<Record>, os: seq<Answer>, k: nat)
    requires |ss| == |ids| && |os| == |ms| && k < |ms|
    ensures EncodeAll(Replies(ms[..k + 1], os[..k + 1]))
      == EncodeAll(Replies(ms[..k], os[..k])) + (var r := Respond(ms[k], os[k]); if r.Some? then Encode(r.value) else [])
    ensures Dispatched(ss, ids, ms[..k + 1], os[..k + 1]) == Step(Dispatched(ss, ids, ms[..k], os[..k]), ids, ms[k], os[k])
  {
    assert ms[..k + 1][..k] == ms[..k] && os[..k + 1][..k] == os[..k];
    var rs := Replies(ms[..k], os[..k]);
    var r := Respond(ms[k], os[k]);
    if r.Some? {
      assert (rs + [r.value])[..|rs|] == rs;
    } else {
      assert rs + [] == rs;
    }
  }

  /** What has been written and the sessions, before and after the k-th
      record, in terms of the first k and k + 1 records. */
  lemma OutputNext(ss: seq<Session>, ids: seq<int>, ms: seq<Record>, os: seq<Answer>, k: nat,
                   w0: seq<byte>, w: seq<byte>, w': seq<byte>, st: seq<Session>, st': seq<Session>)
    requires |ss| == |ids| && |os| == |ms| && k < |ms|
    requires w == w0 + EncodeAll(Replies(ms[..k], os[..k]))
    requires w' == w + (var r := Respond(ms[k], os[k]); if r.Some? then Encode(r.value) else [])
    requires st == Dispatched(ss, ids, ms[..k], os[..k]) && st' == Step(st, ids, ms[k], os[k])
    ensures w' == w0 + EncodeAll(Replies(ms[..k + 1], os[..k + 1]))
    ensures st' == Dispatched(ss, ids, ms[..k + 1], os[..k + 1])
  {
    ProcessedNext(ss, ids, ms, os, k);
    var r := Respond(ms[k], os[k]);
    Assoc(w0, EncodeAll(Replies(ms[..k], os[..k])), if r.Some? then Encode(r.value) else []);
  }

  /** A round that read no record writes nothing and changes no session. */
  lemma NothingQueued(ss: seq<Session>, ids: seq<int>, ms: seq<Record>, os: seq<Answer>)
    requires |ss| == |ids| && ms == [] && os == []
    ensures EncodeAll(Replies(ms, os)) == [] && Dispatched(ss, ids, ms, os) == ss
  {
  }

  // ---------------------------------------------------------------------
  // Record framing
  // ---------------------------------------------------------------------

  /** A stream of whole records cut into them. */
  function Records(b: seq<byte>): (ms: seq<Record>)
    requires |b| % RECORD_SIZE == 0
    ensures RECORD_SIZE * |ms| == |b|
    decreases |b|
  {
    if b == [] then []
    else Records(b[..|b| - RECORD_SIZE]) + [Decode(b[|b| - RECORD_SIZE..]).value]
  }

  /** Framing undoes the writer's concatenation of records ... */
  lemma {:induction false} RecordsOfEncodeAll(ms: seq<Record>)
    ensures Records(EncodeAll(ms)) == ms
    decreases |ms|
  {
    if ms != [] {
      var k := |ms| - 1;
      RecordsOfEncodeAll(ms[..k]);
      assert EncodeAll(ms) == EncodeAll(ms[..k]) + Encode(ms[k]);
      RecordsAppend(EncodeAll(ms[..k]), ms[k]);
      LastSplit(ms);
    }
  }

  /** ... and loses nothing of a stream of whole records. */
  lemma {:induction false} EncodeAllOfRecords(b: seq<byte>)
    requires |b| % RECORD_SIZE == 0
    ensures EncodeAll(Records(b)) == b
    decreases |b|
  {
    if b != [] {
      var n := |b| - RECORD_SIZE;
      var init, last := b[..n], b[n..];
      assert b == init + last;
      EncodeAllOfRecords(init);
      EncodeDecode(last);
      EncodeAllSnoc(Records(init), Decode(last).value);
    }
  }

  lemma Assoc<T>(a: seq<T>, b: seq<T>, c: seq<T>)
    ensures (a + b) + c == a + (b + c)
  {
  }

  lemma EmptyLeft<T>(s: seq<T>)
    ensures [] + s == s
  {
  }

  lemma EmptyRight<T>(s: seq<T>)
    ensures s + [] == s
  {
  }

  lemma DropNext<T>(s: seq<T>, k: nat)
    requires k < |s|
    ensures s[k..][0] == s[k] && s[k..][1..] == s[k + 1..]
  {
  }

  lemma LastSplit<T>(s: seq<T>)
    requires s != []
    ensures s[..|s| - 1] + [s[|s| - 1]] == s
  {
  }

  lemma EncodeAllSnoc(ms: seq<Record>, m: Record)
    ensures EncodeAll(ms + [m]) == EncodeAll(ms) + Encode(m)
  {
    assert (ms + [m])[..|ms|] == ms;
  }

  /** The records of a stream with whole records appended. */
  lemma RecordsAppend(b: seq<byte>, m: Record)
    requires |b| % RECORD_SIZE == 0
    ensures Records(b + Encode(m)) == Records(b) + [m]
  {
    var c := b + Encode(m);
    assert c[..|c| - RECORD_SIZE] == b && c[|c| - RECORD_SIZE..] == Encode(m);
    DecodeEncode(m);
  }

  /** Reading one more record extends the records read so far by it. */
  lemma RecordsNext(data: seq<byte>, pos: nat)
    requires pos % RECORD_SIZE == 0 && pos + RECORD_SIZE <= |data|
    ensures Records(data[..pos + RECORD_SIZE]) == Records(data[..pos]) + [Decode(data[pos..pos + RECORD_SIZE]).value]
  {
    var b := data[..pos + RECORD_SIZE];
    assert b[..pos] == data[..pos] && b[pos..] == data[pos..pos + RECORD_SIZE];
  }

  /** Where the whole records of a stream end. */
  lemma WholeRecordsEnd(data: seq<byte>, pos: nat)
    requires pos % RECORD_SIZE == 0 && pos <= |data| < pos + RECORD_SIZE
    ensures |data| - |data| % RECORD_SIZE == pos
    ensures |data| % RECORD_SIZE == 0 <==> pos == |data|
  {
  }

  // ---------------------------------------------------------------------
  // The tuners' sessions
  // ---------------------------------------------------------------------

  /** The sessions of a sequence of tuners. */
  function States(ts: seq<HdhomerunTuner>): (ss: seq<Session>)
    reads ts
    ensures |ss| == |ts| && forall i :: 0 <= i < |ts| ==> ss[i] == ts[i].State()
  {
    seq(|ts|, i requires 0 <= i < |ts| reads ts => ts[i].State())
  }

  /** The controller after its a-th tuner alone has moved, keeping its id
      and staying valid. */
  lemma OneTunerMoved(c: HdhomerunController, a: nat, ids: seq<int>, ss: seq<Session>)
    requires |ids| == |c.tuners| && |ss| == |c.tuners| && a < |c.tuners|
    requires forall i, j :: 0 <= i < j < |c.tuners| ==> c.tuners[i] != c.tuners[j]
    requires c.tuners[a].Valid() && c.tuners[a].kernelId == ids[a]
    requires forall j :: 0 <= j < |c.tuners| && j != a ==>
      c.tuners[j].Valid() && c.tuners[j].kernelId == ids[j] && c.tuners[j].State() == ss[j]
    ensures c.Valid() && KernelIds(c.tuners) == ids && States(c.tuners) == ss[a := c.tuners[a].State()]
  {
    assert forall j :: 0 <= j < |c.tuners| ==> KernelIds(c.tuners)[j] == ids[j];
  }

  // ---------------------------------------------------------------------
  // The dispatcher in place
  // ---------------------------------------------------------------------

  class Control {
    const hdhomerun: HdhomerunController
    /** m_messages */
    var messages: seq<Record>
    /** Everything WriteToDevice has written to m_write. */
    var written: seq<byte>

    /** The controller's tuners are distinct and each well formed. */
    ghost predicate Valid()
      reads hdhomerun, hdhomerun.tuners
    {
      hdhomerun.Valid()
    }

    /** The constructor, with the control device opened for writing. */
    constructor (hdhomerun: HdhomerunController)
      requires hdhomerun.Valid()
      ensures Valid() && this.hdhomerun == hdhomerun && messages == [] && written == []
    {
      this.hdhomerun := hdhomerun;
      messages := [];
      written := [];
    }

    /** `run`'s inner loop over what the device delivers before end of file:
        `sizeof` bytes at a time, each whole record queued; a shorter read
        makes the daemon exit (`exited`), with the records before it queued. */
    method Receive(data: seq<byte>) returns (exited: bool)
      modifies this
      ensures written == old(written)
      ensures exited <==> |data| % RECORD_SIZE != 0
      ensures messages == old(messages) + Records(data[..|data| - |data| % RECORD_SIZE])
    {
      ghost var m0 := messages;
      var pos := 0;
      while pos < |data|
        invariant 0 <= pos <= |data| && pos % RECORD_SIZE == 0
        invariant messages == m0 + Records(data[..pos]) && written == old(written)
      {
        if |data| - pos < RECORD_SIZE {
          // a short read: gcount is below sizeof
          WholeRecordsEnd(data, pos);
          return true;
        }
        ReadRecord(data, pos, m0);
        pos := pos + RECORD_SIZE;
      }
      WholeRecordsEnd(data, pos);
      return false;
    }

    /** One whole `read` of the inner loop: the record at pos is queued. */
    method ReadRecord(data: seq<byte>, pos: nat, ghost m0: seq<Record>)
      requires pos % RECORD_SIZE == 0 && pos + RECORD_SIZE <= |data|
      requires messages == m0 + Records(data[..pos])
      modifies this
      ensures messages == m0 + Records(data[..pos + RECORD_SIZE]) && written == old(written)
    {
      var mesg := Decode(data[pos..pos + RECORD_SIZE]).value;
      RecordsNext(data, pos);
      Assoc(m0, Records(data[..pos]), [mesg]);
      messages := messages + [mesg];
    }

    method WriteToDevice(m: Record)
      modifies this
      ensures written == old(written) + Encode(m) && messages == old(messages)
    {
      written := written + Encode(m);
    }

    /** The tuner GetTuner(id) finds is the a-th. */
    ghost predicate Addressee(id: int, a: nat)
      reads hdhomerun, hdhomerun.tuners
    {
      FirstWithId(KernelIds(hdhomerun.tuners), id) == Some(a)
    }

    /** FE_SET_Frontend: the addressed tuner tunes to the record's
        frequency, and the record goes back unchanged. */
    method FeSetFrontendHandler(m: Record, o: Answer, ghost a: nat)
      requires Valid() && m.mtype == Code(FeSetFrontend) && Addressee(m.id, a)
      modifies this, hdhomerun.tuners[a]
      ensures messages == old(messages) && written == old(written) + Encode(m)
      ensures var t := hdhomerun.tuners[a];
        t.Valid() && t.kernelId == old(t.kernelId)
        && t.State() == AfterTune(old(t.State()), Signed32(Frequency(m.u)), o.reading, o.channelRet).session
    {
      var tuner := hdhomerun.GetTuner(m.id);
      var ret := tuner.Tune(Signed32(Frequency(m.u)), o.reading, o.channelRet);
      WriteToDevice(m);
    }

    /** FE_READ_Status: the record goes back with `u.fe_status` set to the
        tuner's status. */
    method FeReadStatusHandler(m: Record, o: Answer, ghost a: nat)
      requires Valid() && m.mtype == Code(FeReadStatus) && Addressee(m.id, a)
      modifies this, hdhomerun.tuners[a]
      ensures messages == old(messages) && written == old(written) + Encode(m.(u := WithFeStatus(m.u, StatusOf(o.reading))))
      ensures var t := hdhomerun.tuners[a];
        t.Valid() && t.kernelId == old(t.kernelId) && t.State() == old(t.State()).(calls := old(t.calls) + [GetTunerStatus])
    {
      var tuner := hdhomerun.GetTuner(m.id);
      var status := tuner.ReadStatus(o.reading);
      var reply := m.(u := WithFeStatus(m.u, status));
      WriteToDevice(reply);
    }

    /** FE_READ_SIGNAL_Strength: the record goes back with
        `u.signal_strength` set to the tuner's strength. */
    method FeReadSignalStrengthHandler(m: Record, o: Answer, ghost a: nat)
      requires Valid() && m.mtype == Code(FeReadSignalStrength) && Addressee(m.id, a)
      modifies this, hdhomerun.tuners[a]
      ensures messages == old(messages)
      ensures written == old(written) + Encode(m.(u := WithSignalStrength(m.u, StrengthField(o.reading))))
      ensures var t := hdhomerun.tuners[a];
        t.Valid() && t.kernelId == old(t.kernelId) && t.State() == old(t.State()).(calls := old(t.calls) + [GetTunerStatus])
    {
      var tuner := hdhomerun.GetTuner(m.id);
      var strength := tuner.ReadSignalStrength(o.reading);
      var reply := m.(u := WithSignalStrength(m.u, Signed16(strength % TWO16)));
      WriteToDevice(reply);
    }

    /** StartFeed: the tuner starts streaming the feed's PID, and the
        record goes back unchanged. */
    method StartFeedHandler(m: Record, ghost a: nat)
      requires Valid() && m.mtype == Code(StartFeed) && Addressee(m.id, a)
      modifies this, hdhomerun.tuners[a]
      ensures messages == old(messages) && written == old(written) + Encode(m)
      ensures var t := hdhomerun.tuners[a];
        t.Valid() && t.kernelId == old(t.kernelId) && t.State() == Started(old(t.State()), FeedOf(m.u).pid)
    {
      var feed := FeedOf(m.u);
      var tuner := hdhomerun.GetTuner(m.id);
      tuner.StartStreaming(feed.pid);
      WriteToDevice(m);
    }

    /** StopFeed: the tuner stops streaming the feed's PID, and the record
        goes back unchanged. */
    method StopFeedHandler(m: Record, ghost a: nat)
      requires Valid() && m.mtype == Code(StopFeed) && Addressee(m.id, a)
      modifies this, hdhomerun.tuners[a]
      ensures messages == old(messages) && written == old(written) + Encode(m)
      ensures var t := hdhomerun.tuners[a];
        t.Valid() && t.kernelId == old(t.kernelId) && t.State() == Stopped(old(t.State()), FeedOf(m.u).pid)
    {
      var feed := FeedOf(m.u);
      var tuner := hdhomerun.GetTuner(m.id);
      tuner.StopStreaming(feed.pid);
      WriteToDevice(m);
    }

    /** The switch of ProcessMessages for a record of a handled type, whose
        tuner GetTuner finds at index a. */
    method Dispatch(m: Record, o: Answer, ghost a: nat)
      requires Valid() && Handled(m.mtype) && Addressee(m.id, a)
      modifies this, hdhomerun.tuners[a]
      ensures messages == old(messages) && written == old(written) + Encode(Respond(m, o).value)
      ensures var t := hdhomerun.tuners[a];
        t.Valid() && t.kernelId == old(t.kernelId) && t.State() == Effect(old(t.State()), m, o)
    {
      if m.mtype == Code(FeSetFrontend) {
        FeSetFrontendHandler(m, o, a);
      } else if m.mtype == Code(FeReadStatus) {
        FeReadStatusHandler(m, o, a);
      } else if m.mtype == Code(FeReadSignalStrength) {
        FeReadSignalStrengthHandler(m, o, a);
      } else if m.mtype == Code(StartFeed) {
        StartFeedHandler(m, a);
      } else {
        StopFeedHandler(m, a);
      }
    }

    /** One record of ProcessMessages: a record of another type is only
        logged; any other changes the session of its tuner alone. */
    method Handle(m: Record, o: Answer)
      requires Valid() && (Handled(m.mtype) ==> m.id in KernelIds(hdhomerun.tuners))
      modifies this, hdhomerun.tuners
      ensures Valid() && messages == old(messages) && KernelIds(hdhomerun.tuners) == old(KernelIds(hdhomerun.tuners))
      ensures written == old(written) + (var r := Respond(m, o); if r.Some? then Encode(r.value) else [])
      ensures States(hdhomerun.tuners) == Step(old(States(hdhomerun.tuners)), KernelIds(hdhomerun.tuners), m, o)
    {
      if !Handled(m.mtype) {
        EmptyRight(written);
        return;
      }
      ghost var ts := hdhomerun.tuners;
      ghost var ids, ss := KernelIds(ts), States(ts);
      ghost var a := FirstWithId(ids, m.id).value;
      Dispatch(m, o, a);
      forall j | 0 <= j < |ts| && j != a
        ensures ts[j].Valid() && ts[j].kernelId == ids[j] && ts[j].State() == ss[j]
      {
        assert ts[j] != ts[a];
      }
      OneTunerMoved(hdhomerun, a, ids, ss);
    }

    /** The first k records of `queue` have been handled, starting from
        sessions s0 and output w0; the rest are still queued. */
    ghost predicate HandledUpTo(queue: seq<Record>, oracles: seq<Answer>, k: nat, ids: seq<int>,
                                s0: seq<Session>, w0: seq<byte>)
      reads this, hdhomerun, hdhomerun.tuners
    {
      |oracles| == |queue| && k <= |queue| && |s0| == |ids| && Addressed(ids, queue)
      && messages == queue[k..] && written == w0 + EncodeAll(Replies(queue[..k], oracles[..k]))
      && TunersAt(ids, Dispatched(s0, ids, queue[..k], oracles[..k]))
    }

    /** The tuners are valid, with kernel ids `ids` and sessions `ss`. */
    ghost predicate TunersAt(ids: seq<int>, ss: seq<Session>)
      reads hdhomerun, hdhomerun.tuners
    {
      Valid() && KernelIds(hdhomerun.tuners) == ids && States(hdhomerun.tuners) == ss
    }

    /** One turn of ProcessMessages' loop: the front record is handled and
        popped. */
    method HandleFront(oracles: seq<Answer>, k: nat, ghost queue: seq<Record>, ghost ids: seq<int>,
                       ghost s0: seq<Session>, ghost w0: seq<byte>)
      requires HandledUpTo(queue, oracles, k, ids, s0, w0) && k < |queue|
      modifies this, hdhomerun.tuners
      ensures HandledUpTo(queue, oracles, k + 1, ids, s0, w0)
    {
      DropNext(queue, k);
      var mesg := messages[0];
      ghost var w, st := written, States(hdhomerun.tuners);
      Handle(mesg, oracles[k]);
      OutputNext(s0, ids, queue, oracles, k, w0, w, written, st, States(hdhomerun.tuners));
      assert TunersAt(ids, Dispatched(s0, ids, queue[..k + 1], oracles[..k + 1]));
      messages := messages[1..];
    }

    /** ProcessMessages: the queue is drained front to back, each record
        handled once; the replies are written in queue order. */
    method ProcessMessages(oracles: seq<Answer>)
      requires Valid() && |oracles| == |messages|
      requires Addressed(KernelIds(hdhomerun.tuners), messages)
      modifies this, hdhomerun.tuners
      ensures Valid() && messages == [] && KernelIds(hdhomerun.tuners) == old(KernelIds(hdhomerun.tuners))
      ensures written == old(written) + EncodeAll(Replies(old(messages), oracles))
      ensures States(hdhomerun.tuners)
        == Dispatched(old(States(hdhomerun.tuners)), KernelIds(hdhomerun.tuners), old(messages), oracles)
    {
      ghost var queue := messages;
      ghost var ids := KernelIds(hdhomerun.tuners);
      ghost var s0 := States(hdhomerun.tuners);
      ghost var w0 := written;
      assert queue[..0] == [] && oracles[..0] == [];
      var k := 0;
      while messages != []
        invariant HandledUpTo(queue, oracles, k, ids, s0, w0)
        decreases |queue| - k
      {
        HandleFront(oracles, k, queue, ids, s0, w0);
        k := k + 1;
      }
      assert queue[..k] == queue && oracles[..k] == oracles;
    }

    /** One pass of `run`'s outer loop: read until end of file, then
        process what was queued (ProcessMessages only when the queue is not
        empty). A trailing partial record ends the daemon. */
    method Round(data: seq<byte>, oracles: seq<Answer>) returns (exited: bool)
      requires Valid() && messages == [] && |oracles| == |data| / RECORD_SIZE
      requires Addressed(KernelIds(hdhomerun.tuners), Records(data[..|data| - |data| % RECORD_SIZE]))
      modifies this, hdhomerun.tuners
      ensures exited <==> |data| % RECORD_SIZE != 0
      ensures !exited ==> Valid() && messages == [] && KernelIds(hdhomerun.tuners) == old(KernelIds(hdhomerun.tuners))
      ensures !exited ==> written == old(written) + EncodeAll(Replies(Records(data), oracles))
      ensures !exited ==>
        States(hdhomerun.tuners) == Dispatched(old(States(hdhomerun.tuners)), KernelIds(hdhomerun.tuners), Records(data), oracles)
    {
      ghost var ids, st := KernelIds(hdhomerun.tuners), States(hdhomerun.tuners);
      exited := Receive(data);
      if exited {
        return;
      }
      assert KernelIds(hdhomerun.tuners) == ids && States(hdhomerun.tuners) == st;
      assert data[..|data| - |data| % RECORD_SIZE] == data;
      ghost var ms := Records(data);
      EmptyLeft(ms);
      if |messages| > 0 {
        ProcessMessages(oracles);
      } else {
        NothingQueued(st, ids, ms, oracles);
        EmptyRight(written);
      }
    }
  }

  // ---------------------------------------------------------------------
  // Across the boundary
  // ---------------------------------------------------------------------

  /** A READ_STATUS the kernel's frontend posts, answered by the daemon,
      reports the addressed tuner's status. */
  lemma KernelSeesTunerStatus(c: Channel, st: FeState, u0: seq<byte>, o: Answer)
    requires Inv(c) && IsI32(st.id) && |u0| == UNION_SIZE
    requires c.userspaceReady && c.kernel == [] && |c.user| + RECORD_SIZE <= CONTROL_BUFSIZE
    ensures var req := StatusRequest(st, u0);
      Records(Encode(req)) == [req]
      && FeStatus(ReplyUnion(AfterPostAndWait(c, req, Ready(Encode(Respond(req, o).value))).reply)) == StatusOf(o.reading)
  {
    var req := StatusRequest(st, u0);
    RecordsAppend([], req);
    assert [] + Encode(req) == Encode(req);
    RespondMeaning(req, o);
    StatusIsDaemonAnswer(c, st, u0, Respond(req, o).value);
  }

  /** A READ_SIGNAL_STRENGTH answered by the daemon reports the tuner's
      strength cut to 16 bits. */
  lemma KernelSeesTunerStrength(c: Channel, st: FeState, u0: seq<byte>, o: Answer)
    requires Inv(c) && IsI32(st.id) && |u0| == UNION_SIZE
    requires c.userspaceReady && c.kernel == [] && |c.user| + RECORD_SIZE <= CONTROL_BUFSIZE
    ensures var req := StrengthRequest(st, u0);
      Bits16(SignalStrength(ReplyUnion(AfterPostAndWait(c, req, Ready(Encode(Respond(req, o).value))).reply)))
        == StrengthOf(o.reading.signalStrength) % TWO16
  {
    var req := StrengthRequest(st, u0);
    var answer := Respond(req, o).value;
    RespondMeaning(req, o);
    StrengthIsDaemonAnswer(c, st, u0, answer, StrengthOf(o.reading.signalStrength) % TWO16);
  }
}
