/**
 * One tuner of an HDHomeRun device as the daemon drives it
 * (userhdhomerun/hdhomerun_tuner.cpp): the PID filter list it keeps, the
 * stream on/off rule, the filter string sent to the device, the tune-skip
 * rule and the translation of the device's status into DVB terms.
 *
 * Every libhdhomerun call is recorded, in order, as a `DeviceCall` in the
 * tuner's `calls`; what the device answers is an input. The pump thread
 * that copies the stream to the data device is only a flag, `pumpRunning`.
 */
module Tuner {
  import opened Wrappers
  import opened Text
  import opened IniFile
  import KernelRegistry

  /** The "pass-all" pseudo PID of the DVB demux. */
  const PASS_ALL_PID: int := 0x2000
  /** The largest PID of an MPEG-2 transport stream: 13 bits. */
  const MAX_PID: nat := 0x1FFF
  /** The device filter meaning every PID. */
  const PASS_ALL_FILTER: string := "0x0000-0x1FFF"

  /** The fe_status bits of the DVB frontend API. */
  const FE_HAS_SIGNAL: int := 0x01
  const FE_HAS_CARRIER: int := 0x02
  const FE_HAS_VITERBI: int := 0x04
  const FE_HAS_SYNC: int := 0x08
  const FE_HAS_LOCK: int := 0x10
  const FULL_LOCK: int := 0x1F

  lemma FullLockIsAllFiveBits()
    ensures FULL_LOCK == FE_HAS_SIGNAL + FE_HAS_CARRIER + FE_HAS_VITERBI + FE_HAS_SYNC + FE_HAS_LOCK
    ensures (FULL_LOCK as bv8) == (FE_HAS_SIGNAL as bv8) | (FE_HAS_CARRIER as bv8) | (FE_HAS_VITERBI as bv8)
                                  | (FE_HAS_SYNC as bv8) | (FE_HAS_LOCK as bv8)
  {
  }

  /** The pass-all filter spells out the whole 13-bit PID range. */
  lemma PassAllIsFullRange()
    ensures PASS_ALL_FILTER == "0x0000-0x" + Render(MAX_PID, 16)
    ensures MAX_PID + 1 == 0x2000 == PASS_ALL_PID
  {
    assert Render(MAX_PID, 16) == "1FFF" by {
      assert Render(0x1, 16) == "1";
      assert Render(0x1F, 16) == "1F";
      assert Render(0x1FF, 16) == "1FF";
    }
  }

  // ---------------------------------------------------------------------
  // Tuner type
  // ---------------------------------------------------------------------

  /** HdhomerunTuner::Type, numbered as the kernel expects it. */
  datatype TunerType = NotSet | Dvbc | Dvbt | Atsc

  function TypeCode(t: TunerType): (c: int)
    ensures 0 <= c < 4
  {
    match t
    case NotSet => 0
    case Dvbc => 1
    case Dvbt => 2
    case Atsc => 3
  }

  /** The kernel attaches the frontend the daemon's type names; a tuner
      whose type stayed unset is given an ATSC frontend. */
  lemma KernelFrontendMatchesType(t: TunerType)
    ensures KernelRegistry.FrontendFor(TypeCode(t)) == match t
      case Dvbc => KernelRegistry.DvbC
      case Dvbt => KernelRegistry.DvbT
      case _ => KernelRegistry.Atsc
  {
  }

  /** What the constructor reads from the configuration file and the
      device. */
  datatype Config = Config(tunerType: TunerType, useFullName: bool, disabled: bool)

  function TypeNamed(s: Option<string>): (t: TunerType)
    ensures t == Dvbc <==> s == Some("DVB-C")
    ensures t == Dvbt <==> s == Some("DVB-T")
    ensures t == Atsc <==> s == Some("ATSC")
  {
    if s == Some("DVB-C") then Dvbc
    else if s == Some("DVB-T") then Dvbt
    else if s == Some("ATSC") then Atsc
    else NotSet
  }

  /**
   * The constructor's configuration for the tuner called `name`: the
   * section of that name in the configuration file (`conf`, None when it
   * cannot be opened) sets the type, use_full_name and disable; an unset
   * type is then taken from the model string (hdhomerun_dvbt is set to
   * DVB-C, hdhomerun_atsc to ATSC). None when the type is unset and the
   * device gives no model string: the daemon exits.
   */
  function Configure(conf: Option<seq<string>>, name: string, modelStr: Option<string>): (r: Option<Config>)
    ensures r.None? <==> TypeNamed(ConfValue(conf, name, "tuner_type")) == NotSet && modelStr.None?
    ensures r.Some? ==> (r.value.useFullName <==> ConfValue(conf, name, "use_full_name") == Some("true"))
    ensures r.Some? ==> (r.value.disabled <==> ConfValue(conf, name, "disable") == Some("true"))
    ensures r.Some? && TypeNamed(ConfValue(conf, name, "tuner_type")) != NotSet ==>
      r.value.tunerType == TypeNamed(ConfValue(conf, name, "tuner_type"))
  {
    var t := TypeNamed(ConfValue(conf, name, "tuner_type"));
    var useFullName := ConfValue(conf, name, "use_full_name") == Some("true");
    var disabled := ConfValue(conf, name, "disable") == Some("true");
    if t != NotSet then Some(Config(t, useFullName, disabled))
    else if modelStr.None? then None
    else
      var detected := if modelStr.value == "hdhomerun_dvbt" then Dvbc
                      else if modelStr.value == "hdhomerun_atsc" then Atsc
                      else NotSet;
      Some(Config(detected, useFullName, disabled))
  }

  /** A value of the configuration file, as GetSecValue finds it. */
  function ConfValue(conf: Option<seq<string>>, section: string, key: string): Option<string>
  {
    if conf.Some? then Lookup(Parse(conf.value).sections, section, key) else None
  }

  // ---------------------------------------------------------------------
  // The PID filter list
  // ---------------------------------------------------------------------

  predicate NoDup(s: seq<int>)
  {
    forall i, j :: 0 <= i < j < |s| ==> s[i] != s[j]
  }

  /** AddPidToFilter: the pass-all PID clears the list; any other PID is
      appended unless it is already there. */
  function AddPid(pids: seq<int>, pid: int): (r: seq<int>)
    ensures pid == PASS_ALL_PID ==> r == []
    ensures pid != PASS_ALL_PID ==> pids <= r && pid in r && forall p :: p in r <==> p in pids || p == pid
    ensures pid != PASS_ALL_PID ==> |r| == if pid in pids then |pids| else |pids| + 1
  {
    if pid == PASS_ALL_PID then []
    else if pid in pids then pids
    else pids + [pid]
  }

  /** The position std::find finds: the first occurrence. */
  function IndexOf(pids: seq<int>, pid: int): (i: nat)
    requires pid in pids
    ensures i < |pids| && pids[i] == pid && pid !in pids[..i]
  {
    if pids[0] == pid then 0
    else
      var i := IndexOf(pids[1..], pid);
      assert pids[..i + 1] == [pids[0]] + pids[1..][..i];
      i + 1
  }

  /** Only one position holds the first occurrence. */
  lemma FirstOccurrenceUnique(pids: seq<int>, pid: int, i: nat)
    requires i < |pids| && pids[i] == pid && pid !in pids[..i]
    ensures IndexOf(pids, pid) == i
  {
  }

  /** RemovePidFromFilter: the first occurrence is erased, if any. */
  function RemovePid(pids: seq<int>, pid: int): (r: seq<int>)
    ensures pid !in pids ==> r == pids
    ensures pid in pids ==> |r| == |pids| - 1
  {
    if pid in pids then
      var i := IndexOf(pids, pid);
      pids[..i] + pids[i + 1..]
    else pids
  }

  lemma AddPidKeepsNoDup(pids: seq<int>, pid: int)
    requires NoDup(pids)
    ensures NoDup(AddPid(pids, pid))
  {
  }

  /** Removing a PID keeps a session well-formed. */
  lemma RemovedSessionOk(s: Session, pid: nat)
    requires SessionOk(s)
    ensures SessionOk(s.(pids := RemovePid(s.pids, pid)))
  {
    RemovePidKeepsNoDup(s.pids, pid);
  }

  /** Removal keeps the list duplicate-free, drops exactly `pid`, and
      keeps the other PIDs in their order. */
  lemma RemovePidKeepsNoDup(pids: seq<int>, pid: int)
    requires NoDup(pids)
    ensures NoDup(RemovePid(pids, pid))
    ensures pid !in RemovePid(pids, pid)
    ensures forall p :: p in RemovePid(pids, pid) <==> p in pids && p != pid
    ensures forall a, b :: 0 <= a < b < |pids| && pids[a] != pid && pids[b] != pid ==>
      exists a', b' :: 0 <= a' < b' < |RemovePid(pids, pid)| && RemovePid(pids, pid)[a'] == pids[a]
                       && RemovePid(pids, pid)[b'] == pids[b]
  {
    var r := RemovePid(pids, pid);
    if pid in pids {
      var i := IndexOf(pids, pid);
      assert forall k :: 0 <= k < |r| ==> r[k] == if k < i then pids[k] else pids[k + 1];
      forall p | p in pids && p != pid ensures p in r {
        var k :| 0 <= k < |pids| && pids[k] == p;
        if k < i { assert r[k] == p; } else { assert k > i && r[k - 1] == p; }
      }
      forall a, b | 0 <= a < b < |pids| && pids[a] != pid && pids[b] != pid
        ensures exists a', b' :: 0 <= a' < b' < |r| && r[a'] == pids[a] && r[b'] == pids[b]
      {
        var a' := if a < i then a else a - 1;
        var b' := if b < i then b else b - 1;
        assert r[a'] == pids[a] && r[b'] == pids[b];
      }
    } else {
      forall a, b | 0 <= a < b < |pids| && pids[a] != pid && pids[b] != pid
        ensures exists a', b' :: 0 <= a' < b' < |r| && r[a'] == pids[a] && r[b'] == pids[b]
      {
        assert r[a] == pids[a] && r[b] == pids[b];
      }
    }
  }

  /** Adding a PID twice is adding it once. */
  lemma AddPidIdempotent(pids: seq<int>, pid: int)
    ensures AddPid(AddPid(pids, pid), pid) == AddPid(pids, pid)
  {
  }

  /** Removing a PID just added to a list without it gives the list back. */
  lemma RemoveUndoesAdd(pids: seq<int>, pid: int)
    requires pid != PASS_ALL_PID && pid !in pids
    ensures RemovePid(AddPid(pids, pid), pid) == pids
  {
    var r := AddPid(pids, pid);
    assert r[..|pids|] == pids;
    FirstOccurrenceUnique(r, pid, |pids|);
  }

  // ---------------------------------------------------------------------
  // The filter string
  // ---------------------------------------------------------------------

  /** `str << "0x" << hex << uppercase << pid << " "` for one PID. */
  function FilterEntry(pid: nat): (s: string)
  {
    "0x" + Render(pid, 16) + " "
  }

  function Entries(pids: seq<nat>): (s: string)
    decreases |pids|
  {
    if pids == [] then [] else FilterEntry(pids[0]) + Entries(pids[1..])
  }

  lemma {:induction false} EntriesAppend(pids: seq<nat>, pid: nat)
    ensures Entries(pids + [pid]) == Entries(pids) + FilterEntry(pid)
    decreases |pids|
  {
    if pids == [] {
      assert [pid][1..] == [];
    } else {
      assert (pids + [pid])[1..] == pids[1..] + [pid];
      EntriesAppend(pids[1..], pid);
    }
  }

  /** GetStrFromPidFilter: pass-all for an empty list, else every PID in
      list order. */
  function FilterString(pids: seq<nat>): (s: string)
  {
    if pids == [] then PASS_ALL_FILTER else Entries(pids)
  }

  /** Reading the PIDs back out of a list of filter entries. */
  function ParseEntries(s: string): (r: Option<seq<nat>>)
    decreases |s|
  {
    if s == [] then Some([])
    else if |s| >= 2 && s[0] == '0' && s[1] == 'x' then
      var (d, rest) := TakeDigits(s[2..], 16);
      if d != [] && rest != [] && rest[0] == ' ' then
        match ParseEntries(rest[1..])
        case Some(ps) => Some([Value(d, 16) as nat] + ps)
        case None => None
      else None
    else None
  }

  function ParseFilter(s: string): (r: Option<seq<nat>>)
  {
    if s == PASS_ALL_FILTER then Some([]) else ParseEntries(s)
  }

  lemma {:induction false} ParseEntriesOf(pids: seq<nat>)
    ensures ParseEntries(Entries(pids)) == Some(pids)
    decreases |pids|
  {
    if pids != [] {
      var d := Render(pids[0], 16);
      var tail := Entries(pids[1..]);
      var s := Entries(pids);
      assert s == "0x" + (d + (" " + tail));
      assert s[2..] == d + (" " + tail);
      TakeDigitsOf(d, " " + tail, 16);
      assert (" " + tail)[1..] == tail;
      ParseEntriesOf(pids[1..]);
      ValueRender(pids[0], 16);
      assert [pids[0]] + pids[1..] == pids;
    }
  }

  /** The filter string determines the PID list: every list, the empty one
      included, is read back from its string. */
  lemma FilterStringRoundTrip(pids: seq<nat>)
    ensures ParseFilter(FilterString(pids)) == Some(pids)
  {
    if pids != [] {
      var s := Entries(pids);
      assert s != PASS_ALL_FILTER by {
        EntriesAppend(pids[..|pids| - 1], pids[|pids| - 1]);
        assert pids[..|pids| - 1] + [pids[|pids| - 1]] == pids;
        assert s[|s| - 1] == ' ';
      }
      ParseEntriesOf(pids);
    }
  }

  // ---------------------------------------------------------------------
  // Device readings and their translation
  // ---------------------------------------------------------------------

  /** hdhomerun_device_get_tuner_status: its return value and the fields of
      `hdhomerun_tuner_status_t` the daemon reads (unsigned ints). */
  datatype StatusReading = StatusReading(ret: int, signalStrength: nat, symbolErrorQuality: nat)

  predicate ReadingOk(r: StatusReading)
  {
    r.signalStrength < 0x1_0000_0000 && r.symbolErrorQuality < 0x1_0000_0000
  }

  /** ReadStatus: full lock exactly when the status call succeeded and the
      symbol error quality is 100, otherwise nothing. */
  function StatusOf(r: StatusReading): (status: int)
    ensures status == 0 || status == FULL_LOCK
    ensures status == FULL_LOCK <==> r.ret > 0 && r.symbolErrorQuality == 100
  {
    if r.ret > 0 && r.symbolErrorQuality == 100 then FULL_LOCK else 0
  }

  /** ReadSignalStrength: `(0xffff * s) / 100`, a product computed in
      32-bit unsigned arithmetic. */
  function StrengthOf(s: nat): (v: int)
    requires s < 0x1_0000_0000
    ensures 0 <= v < 0x1_0000_0000 / 100 + 1
  {
    (0xffff * s) % 0x1_0000_0000 / 100
  }

  /** A percentage maps monotonically onto 0..65535, 0 to 0 and 100 to
      65535. */
  lemma StrengthScale(s: nat, t: nat)
    requires s <= t <= 100
    ensures StrengthOf(s) <= StrengthOf(t) <= 0xffff
    ensures StrengthOf(0) == 0 && StrengthOf(100) == 0xffff
  {
    assert 0xffff * s <= 0xffff * t <= 0xffff * 100 < 0x1_0000_0000;
  }

  // ---------------------------------------------------------------------
  // The session as a value
  // ---------------------------------------------------------------------

  /** The libhdhomerun calls a tuner makes. */
  datatype DeviceCall =
    | SetTunerFilter(filter: string)
    | StreamStart
    | StreamFlush
    | StreamStop
    | GetVideoStats
    | GetTunerStatus
    | SetTunerChannel(channel: string)
    | WaitForLock

  datatype Session = Session(pids: seq<nat>, stream: bool, pumpRunning: bool, prevFreq: int, calls: seq<DeviceCall>)

  /** The PID list is duplicate-free and holds 16-bit PIDs; the pump runs
      exactly while streaming. */
  predicate SessionOk(s: Session)
  {
    NoDup(s.pids) && (forall i :: 0 <= i < |s.pids| ==> s.pids[i] < 0x1_0000) && s.pumpRunning == s.stream
  }

  /** The session of a freshly constructed tuner: the pass-all filter has
      been set. */
  const Initial: Session := Session([], false, false, 0, [SetTunerFilter(PASS_ALL_FILTER)])

  /** StartStreaming(pid) */
  function Started(s: Session, pid: nat): (r: Session)
  {
    var pids := AddPid(s.pids, pid);
    var start := if s.stream then [] else [StreamStart, StreamFlush];
    Session(pids, true, if s.stream then s.pumpRunning else true, s.prevFreq,
            s.calls + [SetTunerFilter(FilterString(pids))] + start + [GetVideoStats])
  }

  /** StopStreaming(pid) */
  function Stopped(s: Session, pid: nat): (r: Session)
  {
    var pids := RemovePid(s.pids, pid);
    if pids != [] || !s.stream then s.(pids := pids)
    else Session(pids, false, false, s.prevFreq, s.calls + [StreamStop, GetVideoStats])
  }

  datatype Tuned = Tuned(session: Session, ret: int)

  /** The channel string for a frequency. */
  function Channel(freq: int): string
  {
    "auto:" + Decimal(freq)
  }

  /** Tune(freq): `reading` is what the status query answers, `channelRet`
      what set_tuner_channel returns. */
  function AfterTune(s: Session, freq: int, reading: StatusReading, channelRet: int): (r: Tuned)
  {
    var polled := s.(calls := s.calls + [GetTunerStatus]);
    if s.prevFreq == freq && StatusOf(reading) == FULL_LOCK then Tuned(polled, 0)
    else Tuned(polled.(prevFreq := freq, calls := polled.calls + [SetTunerChannel(Channel(freq)), WaitForLock]),
               channelRet)
  }

  lemma InitialOk()
    ensures SessionOk(Initial)
  {
  }

  lemma StartedOk(s: Session, pid: nat)
    requires SessionOk(s) && pid < 0x1_0000
    ensures SessionOk(Started(s, pid))
  {
    AddPidKeepsNoDup(s.pids, pid);
  }

  lemma StoppedOk(s: Session, pid: nat)
    requires SessionOk(s)
    ensures SessionOk(Stopped(s, pid))
  {
    RemovePidKeepsNoDup(s.pids, pid);
  }

  /** After StartStreaming the tuner streams; the device stream is started
      (and the pump launched) only when it was not streaming before, and
      the device filter is the new list's. */
  lemma StartStreamingRule(s: Session, pid: nat)
    ensures var r := Started(s, pid);
      r.stream && r.pumpRunning == (s.pumpRunning || !s.stream)
      && (StreamStart in r.calls[|s.calls|..] <==> !s.stream)
      && r.calls[|s.calls|] == SetTunerFilter(FilterString(r.pids))
      && r.calls[..|s.calls|] == s.calls
  {
    var r := Started(s, pid);
    assert r.calls[|s.calls|..] == [SetTunerFilter(FilterString(r.pids))]
      + (if s.stream then [] else [StreamStart, StreamFlush]) + [GetVideoStats];
  }

  /** StopStreaming turns the stream off only once the list is empty; then
      the pump has finished before the device stream is stopped. */
  lemma StopStreamingRule(s: Session, pid: nat)
    ensures var r := Stopped(s, pid);
      r.pids == RemovePid(s.pids, pid)
      && (r.pids != [] ==> r.stream == s.stream && r.calls == s.calls && r.pumpRunning == s.pumpRunning)
      && (r.pids == [] ==> !r.stream)
      && (StreamStop in r.calls[|s.calls|..] <==> s.stream && r.pids == [])
      && (s.stream && r.pids == [] ==> !r.pumpRunning && r.calls == s.calls + [StreamStop, GetVideoStats])
  {
    var r := Stopped(s, pid);
    if s.stream && r.pids == [] {
      assert r.calls[|s.calls|..] == [StreamStop, GetVideoStats];
    } else {
      assert r.calls[|s.calls|..] == [];
    }
  }

  /** Feeding the same PID twice changes the list and the stream state only
      once. */
  lemma StartStreamingTwice(s: Session, pid: nat)
    ensures var r := Started(Started(s, pid), pid);
      r.pids == Started(s, pid).pids && r.stream && r.pumpRunning == Started(s, pid).pumpRunning
      && StreamStart !in r.calls[|Started(s, pid).calls|..]
  {
    AddPidIdempotent(s.pids, pid);
    var t := Started(s, pid);
    var r := Started(t, pid);
    assert r.calls[|t.calls|..] == [SetTunerFilter(FilterString(r.pids)), GetVideoStats];
  }

  /** The tune-skip rule: an unchanged frequency with full lock is not
      tuned again; anything else tunes "auto:<freq>" and remembers freq. */
  lemma TuneSkipRule(s: Session, freq: int, reading: StatusReading, channelRet: int)
    ensures var r := AfterTune(s, freq, reading, channelRet);
      var skip := s.prevFreq == freq && reading.ret > 0 && reading.symbolErrorQuality == 100;
      (skip ==> r.ret == 0 && r.session.prevFreq == s.prevFreq && r.session.calls == s.calls + [GetTunerStatus])
      && (!skip ==> r.ret == channelRet && r.session.prevFreq == freq
                    && r.session.calls == s.calls + [GetTunerStatus, SetTunerChannel(Channel(freq)), WaitForLock])
      && r.session.pids == s.pids && r.session.stream == s.stream
  {
  }

  /** The device is told the frequency asked for: the channel string reads
      back as it. */
  lemma ChannelNamesFrequency(freq: int)
    ensures Channel(freq)[..5] == "auto:" && ParseDecimal(Channel(freq)[5..]) == Some(freq)
  {
    assert Channel(freq)[5..] == Decimal(freq);
    ParseDecimalOf(freq);
  }

  // ---------------------------------------------------------------------
  // The tuner in place
  // ---------------------------------------------------------------------

  class HdhomerunTuner {
    const deviceId: int
    const deviceIp: int
    const tuner: int
    /** The name libhdhomerun gives the tuner. */
    const name: string
    const tunerType: TunerType
    const useFullName: bool
    const isDisabled: bool

    var pidFilters: seq<nat>
    var stream: bool
    var pumpRunning: bool
    var prevFreq: int
    var calls: seq<DeviceCall>
    var kernelId: int
    var nameDataDevice: string

    function State(): Session
      reads this
    {
      Session(pidFilters, stream, pumpRunning, prevFreq, calls)
    }

    ghost predicate Valid()
      reads this
    {
      SessionOk(State())
    }

    /** The constructor for tuner `tuner` of a device, called `name`, with
        the configuration file `conf` and the device's model string. */
    constructor (deviceId: int, deviceIp: int, tuner: int, name: string,
                 conf: Option<seq<string>>, modelStr: Option<string>)
      requires Configure(conf, name, modelStr).Some?
      ensures Valid() && State() == Initial && kernelId == -1 && nameDataDevice == ""
      ensures this.deviceId == deviceId && this.deviceIp == deviceIp && this.tuner == tuner && this.name == name
      ensures Config(tunerType, useFullName, isDisabled) == Configure(conf, name, modelStr).value
    {
      this.deviceId := deviceId;
      this.deviceIp := deviceIp;
      this.tuner := tuner;
      this.name := name;
      var ini := new ConfIniFile();
      var isOpen := ini.OpenIniFile(conf);
      var t := NotSet;
      var full := false;
      var disabled := false;
      if isOpen {
        var found, tunerTypeStr := ini.GetSecValue(name, "tuner_type", "");
        if found {
          t := TypeNamed(Some(tunerTypeStr));
        }
        var foundFull, useFullNameStr := ini.GetSecValue(name, "use_full_name", "");
        if foundFull && useFullNameStr == "true" {
          full := true;
        }
        var foundDisable, disableStr := ini.GetSecValue(name, "disable", "");
        if foundDisable && disableStr == "true" {
          disabled := true;
        }
      }
      if t == NotSet {
        var model := modelStr.value;
        if model == "hdhomerun_dvbt" {
          t := Dvbc;
        } else if model == "hdhomerun_atsc" {
          t := Atsc;
        }
      }
      tunerType := t;
      useFullName := full;
      isDisabled := disabled;
      pidFilters := [];
      stream := false;
      pumpRunning := false;
      prevFreq := 0;
      kernelId := -1;
      nameDataDevice := "";
      calls := [SetTunerFilter(PASS_ALL_FILTER)];
    }

    /** std::find over the PID list. */
    method FindPid(pid: int) returns (i: nat)
      ensures i <= |pidFilters| && (i < |pidFilters| ==> pidFilters[i] == pid)
      ensures pid !in pidFilters[..i]
    {
      i := 0;
      while i < |pidFilters| && pidFilters[i] != pid
        invariant 0 <= i <= |pidFilters| && pid !in pidFilters[..i]
      {
        assert pidFilters[..i + 1] == pidFilters[..i] + [pidFilters[i]];
        i := i + 1;
      }
    }

    method AddPidToFilter(pid: nat)
      requires Valid() && pid < 0x1_0000
      modifies this
      ensures Valid() && State() == old(State()).(pids := AddPid(old(pidFilters), pid))
      ensures kernelId == old(kernelId) && nameDataDevice == old(nameDataDevice)
    {
      AddPidKeepsNoDup(pidFilters, pid);
      if pid == PASS_ALL_PID {
        pidFilters := [];
      } else {
        var i := FindPid(pid);
        if i == |pidFilters| {
          assert pidFilters[..i] == pidFilters;
          pidFilters := pidFilters + [pid];
        }
      }
    }

    method RemovePidFromFilter(pid: nat)
      requires Valid()
      modifies this
      ensures Valid() && State() == old(State()).(pids := RemovePid(old(pidFilters), pid))
      ensures kernelId == old(kernelId) && nameDataDevice == old(nameDataDevice)
    {
      RemovedSessionOk(State(), pid);
      var i := FindPid(pid);
      if i < |pidFilters| {
        FirstOccurrenceUnique(pidFilters, pid, i);
        pidFilters := pidFilters[..i] + pidFilters[i + 1..];
      } else {
        assert pidFilters[..i] == pidFilters;
      }
    }

    method GetStrFromPidFilter() returns (filter: string)
      ensures filter == FilterString(pidFilters)
    {
      if pidFilters == [] {
        return PASS_ALL_FILTER;
      }
      filter := "";
      var i := 0;
      while i < |pidFilters|
        invariant 0 <= i <= |pidFilters| && filter == Entries(pidFilters[..i])
      {
        EntriesAppend(pidFilters[..i], pidFilters[i]);
        assert pidFilters[..i + 1] == pidFilters[..i] + [pidFilters[i]];
        filter := filter + "0x" + Render(pidFilters[i], 16) + " ";
        i := i + 1;
      }
      assert pidFilters[..i] == pidFilters;
    }

    method StartStreaming(pid: nat)
      requires Valid() && pid < 0x1_0000
      modifies this
      ensures Valid() && State() == Started(old(State()), pid)
      ensures kernelId == old(kernelId) && nameDataDevice == old(nameDataDevice)
    {
      ghost var s0 := State();
      StartedOk(s0, pid);
      AddPidToFilter(pid);
      assert pidFilters == AddPid(s0.pids, pid) && calls == s0.calls && stream == s0.stream;
      var filter := GetStrFromPidFilter();
      calls := calls + [SetTunerFilter(filter)];
      if !stream {
        calls := calls + [StreamStart, StreamFlush];
        stream := true;
        pumpRunning := true;
      }
      calls := calls + [GetVideoStats];
      assert State() == Started(s0, pid);
    }

    method StopStreaming(pid: nat)
      requires Valid()
      modifies this
      ensures Valid() && State() == Stopped(old(State()), pid)
      ensures kernelId == old(kernelId) && nameDataDevice == old(nameDataDevice)
    {
      StoppedOk(State(), pid);
      RemovePidFromFilter(pid);
      if pidFilters != [] {
        return;
      }
      if stream {
        stream := false;
        // The pump's loop sees m_stream cleared and ends; isFinished()
        // is awaited before the device stream is stopped.
        pumpRunning := false;
        calls := calls + [StreamStop, GetVideoStats];
      }
    }

    method ReadStatus(reading: StatusReading) returns (status: int)
      requires Valid()
      modifies this
      ensures Valid() && State() == old(State()).(calls := old(calls) + [GetTunerStatus])
      ensures status == StatusOf(reading)
      ensures kernelId == old(kernelId) && nameDataDevice == old(nameDataDevice)
    {
      calls := calls + [GetTunerStatus];
      status := 0;
      if reading.ret > 0 {
        if reading.symbolErrorQuality == 100 {
          status := FULL_LOCK;
        }
      }
    }

    method ReadSignalStrength(reading: StatusReading) returns (strength: int)
      requires Valid() && ReadingOk(reading)
      modifies this
      ensures Valid() && State() == old(State()).(calls := old(calls) + [GetTunerStatus])
      ensures strength == StrengthOf(reading.signalStrength)
      ensures kernelId == old(kernelId) && nameDataDevice == old(nameDataDevice)
    {
      calls := calls + [GetTunerStatus];
      strength := (0xffff * reading.signalStrength) % 0x1_0000_0000 / 100;
    }

    method Tune(freq: int, reading: StatusReading, channelRet: int) returns (ret: int)
      requires Valid()
      modifies this
      ensures Valid()
      ensures var r := AfterTune(old(State()), freq, reading, channelRet); State() == r.session && ret == r.ret
      ensures kernelId == old(kernelId) && nameDataDevice == old(nameDataDevice)
    {
      var status := ReadStatus(reading);
      if prevFreq == freq && status == FULL_LOCK {
        return 0;
      }
      calls := calls + [SetTunerChannel("auto:" + Decimal(freq))];
      ret := channelRet;
      calls := calls + [WaitForLock];
      prevFreq := freq;
    }

    method SetKernelId(id: int)
      modifies this
      ensures kernelId == id && State() == old(State()) && nameDataDevice == old(nameDataDevice)
    {
      kernelId := id;
    }

    method SetDataDeviceName(devName: string)
      modifies this
      ensures nameDataDevice == devName && State() == old(State()) && kernelId == old(kernelId)
    {
      nameDataDevice := devName;
    }

    /** The destructor's StopStreaming(0x2000). */
    method Destroy()
      requires Valid()
      modifies this
      ensures Valid() && State() == Stopped(old(State()), PASS_ALL_PID)
      ensures kernelId == old(kernelId) && nameDataDevice == old(nameDataDevice)
    {
      StopStreaming(PASS_ALL_PID);
    }
  }
}
