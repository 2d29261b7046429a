/**
 * The DVB frontend operations of the driver (kernel/dvb_hdhomerun_fe.c).
 * Each operation that needs the tuner builds a request record on its
 * stack, hands it to post_and_wait on the control channel, and reads its
 * answer out of the same record. The union of that stack record is never
 * initialised; the model takes its bytes as a parameter `u0`.
 */
module KernelFrontend {
  import opened Wrappers
  import opened Wire
  import opened KernelBase
  import opened KernelChannel

  /** `struct dvb_hdhomerun_fe_state`: the frontend's platform id. */
  datatype FeState = FeState(id: int)

  /** DVBFE_ALGO_HW of the DVB core's `enum dvbfe_algo`. */
  const DVBFE_ALGO_HW: int := 1

  /** dvb_hdhomerun_fe_attach: NULL when the allocation fails, otherwise a
      state that remembers the id. */
  function Attach(id: int, allocOk: bool): (st: Option<FeState>)
    ensures st.Some? <==> allocOk
    ensures st.Some? ==> st.value.id == id
  {
    if allocOk then Some(FeState(id)) else None
  }

  /** The union of the record as post_and_wait leaves it. */
  function ReplyUnion(reply: seq<byte>): (u: seq<byte>)
    requires |reply| == RECORD_SIZE
    ensures |u| == UNION_SIZE && u == Decode(reply).value.u
  {
    reply[4..32]
  }

  function StatusRequest(st: FeState, u0: seq<byte>): (m: Mesg)
    requires IsI32(st.id) && |u0| == UNION_SIZE
    ensures WellFormed(m) && FromCode(m.mtype) == Some(FeReadStatus) && m.id == st.id
  {
    Mesg(Code(FeReadStatus), u0, st.id)
  }

  function StrengthRequest(st: FeState, u0: seq<byte>): (m: Mesg)
    requires IsI32(st.id) && |u0| == UNION_SIZE
    ensures WellFormed(m) && FromCode(m.mtype) == Some(FeReadSignalStrength) && m.id == st.id
  {
    Mesg(Code(FeReadSignalStrength), u0, st.id)
  }

  /** The SET_FRONTEND request carries the parameters' frequency. */
  function FrontendRequest(st: FeState, frequency: int, u0: seq<byte>): (m: Mesg)
    requires IsI32(st.id) && IsU32(frequency) && |u0| == UNION_SIZE
    ensures WellFormed(m) && FromCode(m.mtype) == Some(FeSetFrontend) && m.id == st.id
    ensures Frequency(m.u) == frequency
  {
    Mesg(Code(FeSetFrontend), WithFrequency(u0, frequency), st.id)
  }

  /** dvb_hdhomerun_fe_read_status */
  method ReadStatus(ch: ControlChannel, st: FeState, u0: seq<byte>, w: Wake<seq<byte>>) returns (ret: int, status: int)
    requires ch.Valid() && ArrivalOk(ch.kernelFifo, w) && IsI32(st.id) && |u0| == UNION_SIZE
    modifies ch
    ensures ch.Valid() && ret == 0
    ensures var r := AfterPostAndWait(old(ch.State()), StatusRequest(st, u0), w);
      ch.State() == r.chan && status == FeStatus(ReplyUnion(r.reply))
  {
    var mesg := StatusRequest(st, u0);
    var _, reply := ch.PostAndWait(mesg, w);
    status := FeStatus(ReplyUnion(reply));
    ret := 0;
  }

  /** dvb_hdhomerun_fe_read_signal_strength: the int16 member is stored in
      a u16, so the caller sees its bit pattern. */
  method ReadSignalStrength(ch: ControlChannel, st: FeState, u0: seq<byte>, w: Wake<seq<byte>>)
    returns (ret: int, strength: int)
    requires ch.Valid() && ArrivalOk(ch.kernelFifo, w) && IsI32(st.id) && |u0| == UNION_SIZE
    modifies ch
    ensures ch.Valid() && ret == 0 && IsU16(strength)
    ensures var r := AfterPostAndWait(old(ch.State()), StrengthRequest(st, u0), w);
      ch.State() == r.chan && strength == Bits16(SignalStrength(ReplyUnion(r.reply)))
  {
    var mesg := StrengthRequest(st, u0);
    var _, reply := ch.PostAndWait(mesg, w);
    strength := Bits16(SignalStrength(ReplyUnion(reply)));
    ret := 0;
  }

  /** dvb_hdhomerun_fe_read_ber: answered locally. */
  method ReadBer() returns (ret: int, ber: int)
    ensures ret == 0 && ber == 0
  {
    ber := 0;
    ret := 0;
  }

  /** dvb_hdhomerun_fe_read_snr: answered locally. */
  method ReadSnr() returns (ret: int, snr: int)
    ensures ret == 0 && snr == 0
  {
    snr := 0;
    ret := 0;
  }

  /** dvb_hdhomerun_fe_read_ucblocks: answered locally. */
  method ReadUcblocks() returns (ret: int, ucblocks: int)
    ensures ret == 0 && ucblocks == 0
  {
    ucblocks := 0;
    ret := 0;
  }

  /** dvb_hdhomerun_fe_set_frontend: one request, result ignored. */
  method SetFrontend(ch: ControlChannel, st: FeState, frequency: int, u0: seq<byte>, w: Wake<seq<byte>>)
    returns (ret: int)
    requires ch.Valid() && ArrivalOk(ch.kernelFifo, w) && IsI32(st.id) && IsU32(frequency) && |u0| == UNION_SIZE
    modifies ch
    ensures ch.Valid() && ret == 0
    ensures ch.State() == AfterPostAndWait(old(ch.State()), FrontendRequest(st, frequency, u0), w).chan
  {
    var mesg := FrontendRequest(st, frequency, u0);
    var _, _ := ch.PostAndWait(mesg, w);
    ret := 0;
  }

  /** dvb_hdhomerun_fe_tune: `params` holds the requested frequency, or
      None for a NULL parameter block; `hz` is the kernel's HZ. The two
      exchanges have their own wait outcomes and stack records. */
  method Tune(ch: ControlChannel, st: FeState, params: Option<int>, hz: int,
              u1: seq<byte>, w1: Wake<seq<byte>>, u2: seq<byte>, w2: Wake<seq<byte>>)
    returns (ret: int, delay: int, status: int)
    requires ch.Valid() && IsI32(st.id) && |u1| == UNION_SIZE && |u2| == UNION_SIZE
    requires params.Some? ==> IsU32(params.value) && ArrivalOk(ch.kernelFifo, w1)
    requires params.Some? ==>
      ArrivalOk(AfterPostAndWait(ch.State(), FrontendRequest(st, params.value, u1), w1).chan.kernel, w2)
    requires params.None? ==> ArrivalOk(ch.kernelFifo, w2)
    modifies ch
    ensures ch.Valid() && ret == 0 && delay == 60 * hz
    ensures var c := if params.Some?
                     then AfterPostAndWait(old(ch.State()), FrontendRequest(st, params.value, u1), w1).chan
                     else old(ch.State());
      var r := AfterPostAndWait(c, StatusRequest(st, u2), w2);
      ch.State() == r.chan && status == FeStatus(ReplyUnion(r.reply))
  {
    delay := 60 * hz;
    if params.Some? {
      ret := SetFrontend(ch, st, params.value, u1, w1);
      if ret != 0 {
        return ret, delay, 0;
      }
    }
    ret, status := ReadStatus(ch, st, u2, w2);
  }

  /** dvb_hdhomerun_fe_get_frontend_algo */
  method GetFrontendAlgo() returns (algo: int)
    ensures algo == DVBFE_ALGO_HW
  {
    algo := DVBFE_ALGO_HW;
  }

  // ---------------------------------------------------------------------
  // What the frontend reports
  // ---------------------------------------------------------------------

  /** When the daemon answers with one whole record, read_status reports
      that record's fe_status. */
  lemma StatusIsDaemonAnswer(c: Channel, st: FeState, u0: seq<byte>, answer: Mesg)
    requires Inv(c) && IsI32(st.id) && |u0| == UNION_SIZE && WellFormed(answer)
    requires c.userspaceReady && c.kernel == [] && |c.user| + RECORD_SIZE <= CONTROL_BUFSIZE
    ensures FeStatus(ReplyUnion(AfterPostAndWait(c, StatusRequest(st, u0), Ready(Encode(answer))).reply))
            == FeStatus(answer.u)
  {
    ExchangeReturnsReply(c, StatusRequest(st, u0), answer);
  }

  /** When the daemon answers with one whole record, read_signal_strength
      reports the u16 pattern the daemon stored in it. */
  lemma StrengthIsDaemonAnswer(c: Channel, st: FeState, u0: seq<byte>, answer: Mesg, strength: int)
    requires Inv(c) && IsI32(st.id) && |u0| == UNION_SIZE && WellFormed(answer) && IsU16(strength)
    requires c.userspaceReady && c.kernel == [] && |c.user| + RECORD_SIZE <= CONTROL_BUFSIZE
    requires SignalStrength(answer.u) == Signed16(strength)
    ensures Bits16(SignalStrength(ReplyUnion(AfterPostAndWait(c, StrengthRequest(st, u0), Ready(Encode(answer))).reply)))
            == strength
  {
    ExchangeReturnsReply(c, StrengthRequest(st, u0), answer);
  }

  /** With the daemon not connected, read_status still returns 0 and
      reports whatever the uninitialised union held. */
  lemma StatusWithoutDaemonIsUninitialised(c: Channel, st: FeState, u0: seq<byte>, w: Wake<seq<byte>>)
    requires Inv(c) && IsI32(st.id) && |u0| == UNION_SIZE && ArrivalOk(c.kernel, w) && !c.userspaceReady
    ensures FeStatus(ReplyUnion(AfterPostAndWait(c, StatusRequest(st, u0), w).reply)) == FeStatus(u0)
    ensures AfterPostAndWait(c, StatusRequest(st, u0), w).chan == c
  {
    PostWithoutDaemon(c, StatusRequest(st, u0), w);
  }
}
