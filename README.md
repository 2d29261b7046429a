# dvbhdhomerun in Dafny

A verified model of the control path of dvbhdhomerun, the Linux DVB driver for
HDHomeRun network tuners. The system has three parts, and the model has all three.

* **The kernel driver.** Its modules are `dvb_hdhomerun_core`, `_control`, `_init` and `_fe`.
  It presents each network tuner to Linux as an ordinary DVB adapter.
  The DVB subsystem calls into the frontend and the demux: set frontend, read status,
  read signal strength, start feed, stop feed. Each call becomes one 36-byte
  `dvbhdhomerun_control_mesg` record. The record is posted on a request FIFO that the
  daemon reads from `/dev/hdhomerun_control`. The calling kernel thread then sleeps on a
  reply FIFO until the daemon writes its answer back. The `HDHOMERUN_REGISTER_TUNER`
  ioctl on the same device creates one DVB adapter per tuner. A restarted daemon gets
  the id its tuner already had.
* **The `userhdhomerun` daemon.** It reads `/etc/dvbhdhomerun` (an INI file) and
  discovers the HDHomeRun devices on the network. It creates one `HdhomerunTuner` per
  usable tuner and registers each one with the kernel. It then serves the kernel's
  requests: tune, report status and strength, and maintain the PID filter
  (`filter` = `0x0000-0x1FFF` or a list of PIDs).
* **The old single-tuner driver** (`old/dvbhdhomerun.c`). It has a loopback data
  device and a control device whose ioctls are answered from the same kind of queues.

The modules follow the program.
* `Wire` holds the record layout: little-endian fields and the union as 28 raw bytes,
  with typed views and in-place updates.
* `Kfifo` models the kernel FIFO.
* `KernelChannel` covers the two FIFOs, the post/wait protocol and the control device's
  file operations.
* `KernelRegistry` and `KernelIoctl` cover tuner registration.
* `KernelFrontend` covers the frontend operations.
* `Text`, `IniFile`, `Tuner`, `UserIoctl`, `Controller` and `Dispatcher` model the daemon.
* `OldDriver` models the old driver.

Each kernel operation has two parts: a function on a value of the shared state, and a
class method that updates the state in place and is proved equal to that function.

A `wait_event_interruptible` whose condition is false on entry is given its outcome as a
parameter. The outcome is `Interrupted`, or `Ready` with what the other side did
meanwhile. Calls into code outside the core are parameters too: allocation, `copy_*_user`,
`access_ok`, platform and DVB registration, and libhdhomerun.

## Model

| member | source | states |
|---|---|---|
| Wire.U16LE16 | kernel/dvb_hdhomerun_control_messages.h:46-49 | reading back an encoded 16-bit field gives the value |
| Wire.LE16U16 | kernel/dvb_hdhomerun_control_messages.h:46-49 | every two bytes are the encoding of the 16-bit value they hold |
| Wire.U32LE32 | kernel/dvb_hdhomerun_control_messages.h:59-70 | reading back an encoded 32-bit field gives the value |
| Wire.LE32U32 | kernel/dvb_hdhomerun_control_messages.h:59-70 | every four bytes are the encoding of the 32-bit value they hold |
| Wire.Signed32Bits32 | kernel/dvb_hdhomerun_control_messages.h:69 | a signed `id` survives its trip through its unsigned bit pattern |
| Wire.Code | kernel/dvb_hdhomerun_control_messages.h:33-43 | every message type has a code in 0..8 |
| Wire.FromCode | kernel/dvb_hdhomerun_control_messages.h:33-43 | a raw `type` names an operation exactly when it is in 0..8, and that operation has this code |
| Wire.FromCodeCode | kernel/dvb_hdhomerun_control_messages.h:33-43 | decoding a type's code gives the type back |
| Wire.Encode | kernel/dvb_hdhomerun_control_messages.h:59-70 | a record is 36 bytes: `type`, then the 28-byte union, then `id` |
| Wire.Decode | kernel/dvb_hdhomerun_control_messages.h:59-70 | exactly 36 bytes make a record, and the record is well formed |
| Wire.DecodeEncode | kernel/dvb_hdhomerun_control_messages.h:59-70 | decoding the bytes of a record gives the record back |
| Wire.EncodeDecode | kernel/dvb_hdhomerun_control_messages.h:59-70 | any 36 bytes are the encoding of the record they decode to |
| Wire.EncodeInjective | kernel/dvb_hdhomerun_control_messages.h:59-70 | two records with the same bytes are the same record |
| Wire.EncodeAll | kernel/dvb_hdhomerun_control_messages.h:59-70 | a run of n records takes 36·n bytes |
| Wire.SignalStrength | kernel/dvb_hdhomerun_control_messages.h:64 | `u.signal_strength` reads as an int16 |
| Wire.WithSignalStrength | kernel/dvb_hdhomerun_control_messages.h:64 | storing `u.signal_strength` makes it read back as the value and leaves the rest of the union as it was |
| Wire.WithFeStatus | kernel/dvb_hdhomerun_control_messages.h:63 | storing `u.fe_status` makes it read back as the value and leaves bytes 4 onward as they were |
| Wire.WithFrequency | kernel/dvb_hdhomerun_control_messages.h:62 | storing `u.frequency` makes it read back as the value and leaves bytes 4 onward as they were |
| Wire.StrengthPatternSurvives | kernel/dvb_hdhomerun_control_messages.h:64 | a uint16 strength that the daemon stores in the int16 member reaches a u16 reader with the same bit pattern |
| Wire.FeedOf | kernel/dvb_hdhomerun_control_messages.h:46-49 | `u.demux_feed` reads as a 16-bit pid and a 32-bit index |
| Wire.WithFeed | kernel/dvb_hdhomerun_control_messages.h:46-49 | storing `u.demux_feed` leaves bytes 8 onward of the union as they were (the struct's two padding bytes are written as 0) |
| Wire.FeedOfWithFeed | kernel/dvb_hdhomerun_control_messages.h:46-49 | a stored demux feed reads back unchanged |
| Wire.EncodePesFilter | kernel/dvb_hdhomerun_control_messages.h:65 | `dmx_pes_filter_params` takes 20 bytes |
| Wire.PesFilterOf | kernel/dvb_hdhomerun_control_messages.h:65 | `u.dmx_pes_filter` reads as well-formed parameters |
| Wire.WithPesFilter | kernel/dvb_hdhomerun_control_messages.h:65 | storing `u.dmx_pes_filter` writes its 20 bytes and leaves the rest of the union as it was |
| Wire.PesFilterOfWith | kernel/dvb_hdhomerun_control_messages.h:65 | stored PES filter parameters read back unchanged |
| Wire.EncodeTunerData | kernel/dvb_hdhomerun_control_messages.h:51-57 | a `hdhomerun_register_tuner_data` takes the union's 28 bytes |
| Wire.DecodeTunerData | kernel/dvb_hdhomerun_control_messages.h:51-57 | any 28 bytes read as a well-formed registration record |
| Wire.DecodeEncodeTunerData | kernel/dvb_hdhomerun_control_messages.h:51-57 | decoding an encoded registration record gives it back |
| Kfifo.Put | kernel/dvb_hdhomerun_compat.h:27-35 | `kfifo_in` appends the largest prefix of the data that fits and returns its length; only a full FIFO stores less than all of it |
| Kfifo.Get | kernel/dvb_hdhomerun_compat.h:27-35 | `kfifo_out` takes at most n bytes from the front; it takes fewer only when it empties the FIFO |
| Kfifo.PutFits | kernel/dvb_hdhomerun_compat.h:27-35 | data that fits is stored whole |
| Kfifo.PutThenGet | kernel/dvb_hdhomerun_compat.h:27-35 | the FIFO is first in, first out: the old contents come out first and the stored bytes stay behind |
| KernelChannel.AwaitData | kernel/dvb_hdhomerun_core.c:86-92 | the wait for data succeeds at once on a non-empty FIFO, and otherwise only when data arrives; the queued bytes stay at the front |
| KernelChannel.AwaitRoom | kernel/dvb_hdhomerun_control.c:125-130 | the wait for room succeeds at once below capacity, and otherwise only when the reader drains a front part |
| KernelChannel.AfterPost | kernel/dvb_hdhomerun_core.c:67-80 | with no daemon, posting fails and changes nothing; otherwise it returns 1 exactly when the whole record fits; a failed put still leaves the part that fitted in a now-full FIFO |
| KernelChannel.AfterWait | kernel/dvb_hdhomerun_core.c:83-95 | sets `wait_for_write`; returns -ERESTARTSYS (and clears the flag) exactly when the reply FIFO is empty and the wait is interrupted; otherwise takes up to one record from the front |
| KernelChannel.Overlay | kernel/dvb_hdhomerun_core.c:94 | a short `kfifo_get` overwrites only the front of the caller's record |
| KernelChannel.AfterPostAndWait | kernel/dvb_hdhomerun_core.c:98-111 | a failed post returns -1 and leaves the record as it was; otherwise the result is the wait's, and the record is the reply over the request |
| KernelChannel.PollMask | kernel/dvb_hdhomerun_control.c:56-64 | the device is readable exactly when the request FIFO is non-empty, and always writable; no other poll bit is ever reported |
| KernelChannel.AfterRead | kernel/dvb_hdhomerun_control.c:66-102 | the error cases are -EINVAL (NULL buffer), 0 (count 0), -EAGAIN (nonblocking on empty), -ERESTARTSYS (interrupted), -ENOMEM (queue untouched) and -EFAULT (the bytes taken are lost); a positive result is that many bytes from the front of the queue |
| KernelChannel.AfterWrite | kernel/dvb_hdhomerun_control.c:104-142 | the error cases are -ENOMEM and -EFAULT; with no waiting kernel thread the write is accepted and dropped; otherwise the write waits for room and then appends what fits |
| KernelChannel.PostWithoutDaemon | kernel/dvb_hdhomerun_core.c:67-80 | with the daemon gone, post and post_and_wait fail at once and change nothing |
| KernelChannel.ReleaseClosesChannel | kernel/dvb_hdhomerun_control.c:155-175 | after a release nothing can be posted |
| KernelChannel.PostThenReadDeliversRecord | kernel/dvb_hdhomerun_control.c:66-102 | a request posted on an empty request FIFO is what the daemon's record-sized read returns |
| KernelChannel.WriteThenWaitDelivers | kernel/dvb_hdhomerun_core.c:83-95 | a record-sized write into the empty reply FIFO is what the waiting kernel thread takes |
| KernelChannel.WriteThenWaitDeliversReply | kernel/dvb_hdhomerun_control.c:104-142 | the daemon's reply record reaches the waiting kernel thread intact |
| KernelChannel.ExchangeReturnsReply | kernel/dvb_hdhomerun_core.c:98-111 | post_and_wait returns 36 and leaves the daemon's reply record in the caller's record |
| KernelChannel.ShortReplyKeepsRequestTail | kernel/dvb_hdhomerun_core.c:94 | a reply shorter than a record leaves the tail of the request in the caller's record |
| KernelChannel.ControlChannel.constructor | kernel/dvb_hdhomerun_control.c:268-293 | the module loads with both FIFOs empty and both flags clear |
| KernelChannel.ControlChannel.PostMessage | kernel/dvb_hdhomerun_core.c:67-80 | the post in place, equal to AfterPost |
| KernelChannel.ControlChannel.WaitForMessage | kernel/dvb_hdhomerun_core.c:83-95 | the wait loop in place, equal to AfterWait |
| KernelChannel.ControlChannel.PostAndWait | kernel/dvb_hdhomerun_core.c:98-111 | the exchange in place, equal to AfterPostAndWait |
| KernelChannel.ControlChannel.Poll | kernel/dvb_hdhomerun_control.c:56-64 | the poll mask of the current state |
| KernelChannel.ControlChannel.Read | kernel/dvb_hdhomerun_control.c:66-102 | the read in place, with its wait loop, equal to AfterRead |
| KernelChannel.ControlChannel.Write | kernel/dvb_hdhomerun_control.c:104-142 | the write in place, with its wait loop, equal to AfterWrite |
| KernelChannel.ControlChannel.Open | kernel/dvb_hdhomerun_control.c:144-153 | opening sets `userspace_ready` and changes nothing else |
| KernelChannel.ControlChannel.Release | kernel/dvb_hdhomerun_control.c:155-175 | release resets both FIFOs and clears both flags |
| KernelRegistry.CString | kernel/dvb_hdhomerun_init.c:340 | the C string in the first n bytes: the bytes before the first NUL, at most n |
| KernelRegistry.StrnEqualIsCStringEqual | kernel/dvb_hdhomerun_init.c:340 | `strncmp(a, b, n) == 0` exactly when the C strings in the first n bytes are equal |
| KernelRegistry.StrnEqualReflexive | kernel/dvb_hdhomerun_init.c:340 | every name matches itself |
| KernelRegistry.Lookup | kernel/dvb_hdhomerun_init.c:336-347 | the id of the first live slot whose name matches in 10 characters, or none exactly when no slot matches |
| KernelRegistry.LookupAppend | kernel/dvb_hdhomerun_init.c:337 | the scan runs in slot order |
| KernelRegistry.AfterRegister | kernel/dvb_hdhomerun_init.c:325-374 | a known name returns 0 with its old id and changes nothing; a full registry or a failed platform registration gives -ENODEV; otherwise the new tuner gets the next id, and its slot is NULL when the DVB plumbing failed |
| KernelRegistry.ScanAsWritten | kernel/dvb_hdhomerun_init.c:336-346 | the scan as written dereferences exactly the first NULL slot that comes before any match |
| KernelRegistry.ScanAsWrittenAgrees | kernel/dvb_hdhomerun_init.c:336-346 | without NULL slots, the scan as written finds exactly what Lookup finds |
| KernelRegistry.NullSlotCrashesNextRegistration | kernel/dvb_hdhomerun_init.c:361-367 | a failed DVB registration leaves a NULL slot, and the next registration as written dereferences it |
| KernelRegistry.PlatformFailureUnchecked | kernel/dvb_hdhomerun_init.c:350-356 | as written, a failed platform_device_register_simple is dereferenced; the corrected version returns -ENODEV |
| KernelRegistry.RegisterAsWrittenAgrees | kernel/dvb_hdhomerun_init.c:325-374 | without NULL slots or a platform failure, the code as written agrees with the corrected definition |
| KernelRegistry.ReRegistrationIsIdempotent | kernel/dvb_hdhomerun_init.c:334-346 | after a daemon restart, the same tuner gets its old id and the registry is unchanged |
| KernelRegistry.RegisterAll | kernel/dvb_hdhomerun_init.c:325-374 | a run of registrations gives one id per request |
| KernelRegistry.SequentialIds | kernel/dvb_hdhomerun_init.c:349-367 | new names, up to the maximum of 8, get consecutive ids after those already present |
| KernelRegistry.Registry.constructor | kernel/dvb_hdhomerun_init.c:68-70 | the platform-device array starts with no tuners |
| KernelRegistry.Registry.Register | kernel/dvb_hdhomerun_init.c:325-374 | registration in place on the platform-device array, equal to AfterRegister |
| KernelRegistry.FeedRequest | kernel/dvb_hdhomerun_init.c:97-104 | the feed record carries its type, the platform id and the demux feed |
| KernelRegistry.StartFeed | kernel/dvb_hdhomerun_init.c:75-110 | without driver data or with no frontend connected: -EINVAL and nothing posted; otherwise one START_FEED exchange, and its result |
| KernelRegistry.StopFeed | kernel/dvb_hdhomerun_init.c:112-144 | without driver data: -EINVAL; otherwise one STOP_FEED exchange, and its result |
| KernelRegistry.FrontendFor | kernel/dvb_hdhomerun_init.c:199-207 | type 1 gets a DVB-C frontend and type 2 DVB-T; every other type gets ATSC |
| KernelIoctl.IoctlCode | kernel/dvb_hdhomerun_control_messages.h:73-75 | `_IOC` builds a 32-bit command |
| KernelIoctl.RegisterTunerCode | kernel/dvb_hdhomerun_control_messages.h:75 | HDHOMERUN_REGISTER_TUNER is 0xC01C7600: it reads and writes one 28-byte record |
| KernelIoctl.AfterIoctl | kernel/dvb_hdhomerun_control.c:178-236 | the error cases: a failed access check gives -EFAULT; an unknown command, or a failed copy-in that falls through, gives -ENOTTY; a failed data init or registration gives -EFAULT. Success is 0 exactly when every step succeeds, and the record then carries the registry's id |
| KernelIoctl.Ioctl | kernel/dvb_hdhomerun_control.c:178-236 | the ioctl in place on the registry, equal to AfterIoctl |
| KernelFrontend.Attach | kernel/dvb_hdhomerun_fe.c:196-217 | a frontend exists exactly when the allocation succeeds, and it keeps the id |
| KernelFrontend.ReplyUnion | kernel/dvb_hdhomerun_fe.c:62 | the union of the caller's record after the exchange |
| KernelFrontend.StatusRequest | kernel/dvb_hdhomerun_fe.c:58-59 | a READ_STATUS record for the frontend's id |
| KernelFrontend.StrengthRequest | kernel/dvb_hdhomerun_fe.c:82-83 | a READ_SIGNAL_STRENGTH record for the frontend's id |
| KernelFrontend.FrontendRequest | kernel/dvb_hdhomerun_fe.c:130-133 | a SET_FRONTEND record for the frontend's id that carries the frequency |
| KernelFrontend.ReadStatus | kernel/dvb_hdhomerun_fe.c:51-65 | one exchange; returns 0 with `u.fe_status` of the record afterwards |
| KernelFrontend.ReadSignalStrength | kernel/dvb_hdhomerun_fe.c:75-89 | one exchange; returns 0 with the u16 pattern of `u.signal_strength` |
| KernelFrontend.ReadBer | kernel/dvb_hdhomerun_fe.c:67-73 | answered locally as 0 |
| KernelFrontend.ReadSnr | kernel/dvb_hdhomerun_fe.c:91-96 | answered locally as 0 |
| KernelFrontend.ReadUcblocks | kernel/dvb_hdhomerun_fe.c:98-103 | answered locally as 0 |
| KernelFrontend.SetFrontend | kernel/dvb_hdhomerun_fe.c:111-139 | one SET_FRONTEND exchange whose result is ignored; returns 0 |
| KernelFrontend.Tune | kernel/dvb_hdhomerun_fe.c:173-188 | the delay is 60·HZ; a set-frontend exchange comes first when parameters are given, then a status read |
| KernelFrontend.GetFrontendAlgo | kernel/dvb_hdhomerun_fe.c:166-170 | the algorithm is DVBFE_ALGO_HW |
| KernelFrontend.StatusIsDaemonAnswer | kernel/dvb_hdhomerun_fe.c:51-65 | when the daemon answers with a whole record, read_status reports that record's status |
| KernelFrontend.StrengthIsDaemonAnswer | kernel/dvb_hdhomerun_fe.c:75-89 | when the daemon answers with a whole record, read_signal_strength reports the daemon's u16 strength |
| KernelFrontend.StatusWithoutDaemonIsUninitialised | kernel/dvb_hdhomerun_fe.c:51-65 | with no daemon, read_status still returns 0 and reports the uninitialised stack bytes |
| Text.DigitValue | userhdhomerun/hdhomerun_tuner.cpp:192 | a digit character's value is below 16, or 16 for a non-digit |
| Text.DigitRoundTrip | userhdhomerun/hdhomerun_tuner.cpp:192 | every digit's character reads back as that digit |
| Text.Render | userhdhomerun/hdhomerun_tuner.cpp:192 | `ostream` digits: at least one, all valid, no leading zero, and "0" exactly for zero |
| Text.ValueRender | userhdhomerun/hdhomerun_tuner.cpp:192 | the rendered digits denote the number |
| Text.RenderInjective | userhdhomerun/hdhomerun_tuner.cpp:192 | distinct numbers never print alike |
| Text.TakeDigits | userhdhomerun/hdhomerun_tuner.cpp:191-193 | splits a string into its longest digit prefix and the rest |
| Text.TakeDigitsOf | userhdhomerun/hdhomerun_tuner.cpp:191-193 | digits followed by a non-digit split exactly there |
| Text.ParseDecimalOf | userhdhomerun/hdhomerun_controller.cpp:138-139 | `ostream << int` output, with its sign, reads back as the number |
| IniFile.CPrefix | userhdhomerun/conf_inifile.cpp:24-31 | `strchr` on `c_str()` only sees the characters before the first NUL |
| IniFile.Find | userhdhomerun/conf_inifile.cpp:35 | the first position of a character, or none exactly when it is absent |
| IniFile.Classify | userhdhomerun/conf_inifile.cpp:21-43 | the tests run in order: an empty line or one with '#' is skipped; '[' starts a section named by the line without its first and last character; '=' gives a key with no '=' in it, and everything after the first '=' as the value; any other line is skipped |
| IniFile.Insert | userhdhomerun/conf_inifile.cpp:38-39 | `map::insert` never overwrites: an existing section and an existing key keep what they had, and only the new key is added |
| IniFile.FirstValue | userhdhomerun/conf_inifile.cpp:38-39 | the value of the first assignment to a key in a section, or none exactly when there is none |
| IniFile.ParseNext | userhdhomerun/conf_inifile.cpp:20-46 | the loop reads the lines in order, one at a time |
| IniFile.FirstValueAppend | userhdhomerun/conf_inifile.cpp:38-39 | a later assignment matters only when no earlier one exists |
| IniFile.ParseIsFirstAssignment | userhdhomerun/conf_inifile.cpp:11-51 | after reading a file, the map holds exactly the first value assigned to each key of each section |
| IniFile.SectionsAreThoseAssigned | userhdhomerun/conf_inifile.cpp:38 | a section is in the map exactly when some key is assigned in it; a bare header adds nothing |
| IniFile.LaterLinesKeepValues | userhdhomerun/conf_inifile.cpp:39 | no later line changes a value already read |
| IniFile.CommentLinesAreIgnored | userhdhomerun/conf_inifile.cpp:24 | a line with '#' anywhere in it changes nothing |
| IniFile.ConfIniFile.constructor | userhdhomerun/conf_inifile.cpp:11-13 | a new reader holds no sections |
| IniFile.ConfIniFile.OpenIniFile | userhdhomerun/conf_inifile.cpp:11-51 | true exactly when the file opens; the map is then the file's, and it is empty when the file cannot be opened |
| IniFile.ConfIniFile.GetSecValue | userhdhomerun/conf_inifile.cpp:53-68 | true with the stored value exactly when the section and key exist; otherwise the caller's value is returned untouched |
| Tuner.FullLockIsAllFiveBits | userhdhomerun/hdhomerun_tuner.cpp:285-289 | full lock is the OR of the five FE_HAS bits |
| Tuner.PassAllIsFullRange | userhdhomerun/hdhomerun_tuner.cpp:156-157 | the pass-all filter spells out the whole 13-bit PID range, and 0x2000 is the PID just past it |
| Tuner.TypeCode | userhdhomerun/hdhomerun_tuner.cpp:53-71 | the tuner type sent to the kernel is 0..3 |
| Tuner.KernelFrontendMatchesType | userhdhomerun/hdhomerun_tuner.cpp:53-71 | the kernel attaches the frontend the daemon's type names, and ATSC for an unset type |
| Tuner.TypeNamed | userhdhomerun/hdhomerun_tuner.cpp:53-66 | "DVB-C", "DVB-T" and "ATSC" name their types, each exactly; any other value leaves the type unset |
| Tuner.Configure | userhdhomerun/hdhomerun_tuner.cpp:50-111 | the tuner's section sets the type, use_full_name and disable (each only by the exact value "true"); the daemon exits exactly when the type is still unset and there is no model string |
| Tuner.AddPid | userhdhomerun/hdhomerun_tuner.cpp:154-168 | PID 0x2000 clears the list; any other PID is appended unless already present, and the old list stays a prefix |
| Tuner.IndexOf | userhdhomerun/hdhomerun_tuner.cpp:162 | `std::find` returns the first occurrence |
| Tuner.FirstOccurrenceUnique | userhdhomerun/hdhomerun_tuner.cpp:173 | only one position holds the first occurrence |
| Tuner.RemovePid | userhdhomerun/hdhomerun_tuner.cpp:170-178 | an absent PID changes nothing; a present one removes exactly one entry |
| Tuner.AddPidKeepsNoDup | userhdhomerun/hdhomerun_tuner.cpp:161-166 | adding keeps the list free of duplicates |
| Tuner.RemovedSessionOk | userhdhomerun/hdhomerun_tuner.cpp:170-178 | removing a PID keeps a session well formed |
| Tuner.RemovePidKeepsNoDup | userhdhomerun/hdhomerun_tuner.cpp:170-178 | removal keeps the list duplicate-free, drops exactly that PID, and keeps the others in order |
| Tuner.AddPidIdempotent | userhdhomerun/hdhomerun_tuner.cpp:154-168 | adding a PID twice is the same as adding it once |
| Tuner.RemoveUndoesAdd | userhdhomerun/hdhomerun_tuner.cpp:154-178 | removing a PID just added to a list without it gives the list back |
| Tuner.EntriesAppend | userhdhomerun/hdhomerun_tuner.cpp:191-193 | the filter string grows by one entry per PID, in list order |
| Tuner.ParseEntriesOf | userhdhomerun/hdhomerun_tuner.cpp:188-195 | the entries read back as the PID list |
| Tuner.FilterStringRoundTrip | userhdhomerun/hdhomerun_tuner.cpp:180-200 | the filter string determines the PID list; the empty list included, every list reads back from its string |
| Tuner.StatusOf | userhdhomerun/hdhomerun_tuner.cpp:277-296 | the status is full lock exactly when the status call succeeds with symbol error quality 100, and 0 otherwise |
| Tuner.StrengthOf | userhdhomerun/hdhomerun_tuner.cpp:298-309 | the strength is `(0xffff * s) / 100` in unsigned 32-bit arithmetic |
| Tuner.StrengthScale | userhdhomerun/hdhomerun_tuner.cpp:306 | a percentage maps monotonically onto 0..65535: 0 to 0 and 100 to 65535 |
| Tuner.InitialOk | userhdhomerun/hdhomerun_tuner.cpp:39-118 | a new tuner's session is well formed |
| Tuner.StartedOk | userhdhomerun/hdhomerun_tuner.cpp:202-224 | StartStreaming keeps the session well formed |
| Tuner.StoppedOk | userhdhomerun/hdhomerun_tuner.cpp:226-248 | StopStreaming keeps the session well formed |
| Tuner.StartStreamingRule | userhdhomerun/hdhomerun_tuner.cpp:202-224 | the device filter is set to the new list; the stream is started (and the pump launched) only when it was off; the stream is on afterwards |
| Tuner.StopStreamingRule | userhdhomerun/hdhomerun_tuner.cpp:226-248 | streaming stops only once the list is empty, and then the pump has finished before the device stream is stopped; a non-empty list changes nothing else |
| Tuner.StartStreamingTwice | userhdhomerun/hdhomerun_tuner.cpp:202-224 | feeding the same PID twice changes the list and the stream state only once |
| Tuner.TuneSkipRule | userhdhomerun/hdhomerun_tuner.cpp:251-274 | an unchanged frequency with full lock is not tuned again and returns 0; anything else tunes "auto:<freq>", waits for lock, remembers the frequency and returns set_tuner_channel's result |
| Tuner.ChannelNamesFrequency | userhdhomerun/hdhomerun_tuner.cpp:258-261 | the channel string is "auto:" followed by the frequency, and it reads back as that frequency |
| Tuner.HdhomerunTuner.constructor | userhdhomerun/hdhomerun_tuner.cpp:39-118 | a new tuner has kernel id -1, an empty PID list, the stream off, only the pass-all filter set, and its configuration as Configure gives it |
| Tuner.HdhomerunTuner.FindPid | userhdhomerun/hdhomerun_tuner.cpp:162 | the index of the first occurrence, or the length when the PID is absent |
| Tuner.HdhomerunTuner.AddPidToFilter | userhdhomerun/hdhomerun_tuner.cpp:154-168 | the list becomes AddPid of the old list; nothing else changes |
| Tuner.HdhomerunTuner.RemovePidFromFilter | userhdhomerun/hdhomerun_tuner.cpp:170-178 | the list becomes RemovePid of the old list; nothing else changes |
| Tuner.HdhomerunTuner.GetStrFromPidFilter | userhdhomerun/hdhomerun_tuner.cpp:180-200 | the loop builds FilterString of the list |
| Tuner.HdhomerunTuner.StartStreaming | userhdhomerun/hdhomerun_tuner.cpp:202-224 | the session moves as Started says |
| Tuner.HdhomerunTuner.StopStreaming | userhdhomerun/hdhomerun_tuner.cpp:226-248 | the session moves as Stopped says |
| Tuner.HdhomerunTuner.ReadStatus | userhdhomerun/hdhomerun_tuner.cpp:277-296 | one status query; returns StatusOf of the reading |
| Tuner.HdhomerunTuner.ReadSignalStrength | userhdhomerun/hdhomerun_tuner.cpp:298-309 | one status query; returns StrengthOf of the reported strength |
| Tuner.HdhomerunTuner.Tune | userhdhomerun/hdhomerun_tuner.cpp:251-274 | the session moves as AfterTune says, and the result is its result |
| Tuner.HdhomerunTuner.SetKernelId | userhdhomerun/hdhomerun_tuner.h:62-64 | sets the kernel id only |
| Tuner.HdhomerunTuner.SetDataDeviceName | userhdhomerun/hdhomerun_tuner.cpp:345-348 | sets the data device name only |
| Tuner.HdhomerunTuner.Destroy | userhdhomerun/hdhomerun_tuner.cpp:120-124 | the destructor's StopStreaming(0x2000), which stops the stream only when the list is already empty |
| OldDriver.AwaitCount | old/dvbhdhomerun.c:149-194 | the read-side wait ends once the FIFO holds at least `count` bytes, or is interrupted; the queued bytes stay at the front |
| OldDriver.Room | old/dvbhdhomerun.c:197-252 | the write-side wait succeeds at once below capacity, and otherwise only when the reader drains a front part |
| OldDriver.MyRead | old/dvbhdhomerun.c:149-194 | the error cases are -EINVAL, 0 for count 0, -EAGAIN (nonblocking on empty), -ERESTARTSYS and -ENOMEM; a success returns exactly `count` bytes from the front; -EFAULT still consumes them |
| OldDriver.Observe | old/dvbhdhomerun.c:197-252 | `fifo_current_size` is the length just observed, and `fifo_max_size` its running maximum |
| OldDriver.MyWrite | old/dvbhdhomerun.c:197-252 | the error cases are 0 for an empty write, -ENOMEM, -EFAULT, -EAGAIN and -ERESTARTSYS; a positive result appends what fits after any wait for room; every length looked at updates the high-water mark |
| OldDriver.WriteRounds | old/dvbhdhomerun.c:197-252 | a successful write either stores on its first put, or finds the FIFO full, waits, and stores on its second |
| OldDriver.PollMask | old/dvbhdhomerun.c:489-519 | only the demux reports readiness, readable exactly when the loopback FIFO holds data; nothing is ever reported writable, and no other poll bit is reported |
| OldDriver.LoopbackRoundTrip | old/dvbhdhomerun.c:149-252 | what is written into the empty loopback FIFO is read back whole by a read of the same count, and the FIFO is empty again |
| OldDriver.WriteIntoEmpty | old/dvbhdhomerun.c:197-252 | a write that fits the empty FIFO stores everything at once |
| OldDriver.ReadWhole | old/dvbhdhomerun.c:149-194 | a read of everything queued returns it and empties the FIFO |
| OldDriver.NonblockingReadWaitsForCount | old/dvbhdhomerun.c:164-177 | a nonblocking read that finds some bytes but fewer than it asked for still waits for the full count, and a signal ends it with -ERESTARTSYS |
| OldDriver.FullWriteRaisesHighWater | old/dvbhdhomerun.c:197-252 | a write that finds the FIFO full records the capacity as the high-water mark |
| OldDriver.Post | old/dvbhdhomerun.c:89-93 | posting stores as much of the record as fits, and only a log line reports a record that does not fit |
| OldDriver.Wait | old/dvbhdhomerun.c:95-104 | returns -ERESTARTSYS exactly when the reply FIFO is empty and the wait is interrupted; otherwise takes up to a record's size from the front, never 0 bytes |
| OldDriver.ControlRead | old/dvbhdhomerun.c:642-674 | never waits: an empty request FIFO gives 0. A success returns up to `count` bytes from the front, and -EFAULT still consumes them |
| OldDriver.ControlWrite | old/dvbhdhomerun.c:676-703 | never waits: as much of the data as fits is queued, and its count returned |
| OldDriver.Exchange | old/dvbhdhomerun.c:89-104 | post, then wait into the same record, which keeps its size |
| OldDriver.IoctlAnswer | old/dvbhdhomerun.c:303-486 | the exchanging commands post and wait, and return 0 or -EFAULT by the user copy alone; FE_GET_INFO returns the fixed frontend info (a FE_QAM frontend named "dvbhdhomerun", its frequency and symbol-rate ranges, and the capabilities INVERSION_AUTO and FEC_2_3); BER, SNR and uncorrected blocks are answered with 0; the demux's unimplemented commands return 0; everything else returns -ENOTTY |
| OldDriver.PostThenReadDelivers | old/dvbhdhomerun.c:89-93 | a request posted on an empty request FIFO is what the daemon's read of that size returns |
| OldDriver.WriteThenWaitDelivers | old/dvbhdhomerun.c:95-104 | a reply written on an empty reply FIFO is what the waiting ioctl takes |
| OldDriver.ExchangeReturnsReply | old/dvbhdhomerun.c:89-104 | a whole reply replaces the request record |
| OldDriver.IoctlIgnoresWaitOutcome | old/dvbhdhomerun.c:313-486 | the ioctl's result does not depend on how the wait ended |
| OldDriver.InterruptedStatusReadReportsRequest | old/dvbhdhomerun.c:313-420 | an interrupted status read returns success and reports the request record it posted |
| OldDriver.FailedCopyStillPosts | old/dvbhdhomerun.c:313-420 | a failed copy of the tuning parameters still sends the request; only the result reports the failure |
| OldDriver.Loopback.constructor | old/dvbhdhomerun.c:624-640 | the loopback FIFO starts empty, with both counters at 0 |
| OldDriver.Loopback.Read | old/dvbhdhomerun.c:149-194 | the read in place, with its wait loop, equal to MyRead |
| OldDriver.Loopback.PutOnce | old/dvbhdhomerun.c:197-252 | one `kfifo_put` of the write loop, with the counters updated |
| OldDriver.Loopback.Write | old/dvbhdhomerun.c:197-252 | the write in place, with its loop, equal to MyWrite |
| OldDriver.Loopback.Poll | old/dvbhdhomerun.c:489-519 | the poll mask of the current state |
| OldDriver.ControlQueues.constructor | old/dvbhdhomerun.c:736-768 | both control FIFOs start empty |
| OldDriver.ControlQueues.PostMessage | old/dvbhdhomerun.c:89-93 | the post in place, equal to Post |
| OldDriver.ControlQueues.WaitForMessage | old/dvbhdhomerun.c:95-104 | the wait loop in place, equal to Wait |
| OldDriver.ControlQueues.Read | old/dvbhdhomerun.c:642-674 | the control read in place, equal to ControlRead |
| OldDriver.ControlQueues.Write | old/dvbhdhomerun.c:676-703 | the control write in place, equal to ControlWrite |
| OldDriver.ControlQueues.PostAndWait | old/dvbhdhomerun.c:89-104 | the exchange in place, equal to Exchange |
| OldDriver.ControlQueues.Ioctl | old/dvbhdhomerun.c:303-486 | the ioctl in place, equal to IoctlAnswer, FE_GET_INFO's FE_QAM frontend info included |
| UserIoctl.Bytes | userhdhomerun/hdhomerun_control.cpp:121 | one byte per character of the name |
| UserIoctl.Strncpy | userhdhomerun/hdhomerun_control.cpp:121 | `strncpy` always writes exactly n bytes |
| UserIoctl.StrncpyIsCString | userhdhomerun/hdhomerun_control.cpp:121 | strncpy copies the source's C string and pads it with NULs |
| UserIoctl.Request | userhdhomerun/hdhomerun_control.cpp:119-123 | the record handed to the kernel takes the union's 28 bytes |
| UserIoctl.RequestReadsBack | userhdhomerun/hdhomerun_control.cpp:119-123 | the kernel reads the tuner count cut to 8 bits, the type, and at most the first 10 characters of the name |
| UserIoctl.CStringOfPrefix | userhdhomerun/hdhomerun_control.cpp:121-122 | the name field holds the copied name, cut to 10 characters, followed by NUL |
| UserIoctl.CStringIs | kernel/dvb_hdhomerun_init.c:340 | the C string in a buffer is the bytes before its NUL |
| UserIoctl.SameTunerIffSameTenCharacters | kernel/dvb_hdhomerun_init.c:340 | the kernel takes two daemon names for the same tuner exactly when their first 10 characters agree |
| UserIoctl.RegisteredIdIsKernels | userhdhomerun/hdhomerun_control.cpp:124-132 | a successful registration hands back the id of the tuner already known under that name, or else the next free id with one more slot |
| UserIoctl.Ioctl | userhdhomerun/hdhomerun_control.cpp:111-135 | true exactly when the ioctl returns 0, with the id the kernel wrote; otherwise false, with the id untouched |
| Controller.MadeFor | userhdhomerun/hdhomerun_controller.cpp:94-101 | the tuners kept for a device: at most one per tuner, none disabled, each from this device; none when a tuner makes the daemon exit |
| Controller.MadeForSomeIff | userhdhomerun/hdhomerun_controller.cpp:94-101 | a device's tuners give an outcome exactly when every one of them configures (none makes the daemon exit) |
| Controller.MadeForSound | userhdhomerun/hdhomerun_controller.cpp:94-101 | every kept tuner is an enabled tuner of the device, with its own name and configuration, and the kept tuners come in strictly increasing tuner order |
| Controller.MadeForComplete | userhdhomerun/hdhomerun_controller.cpp:94-101 | every enabled tuner of the device is kept |
| Controller.Plan | userhdhomerun/hdhomerun_controller.cpp:86-121 | the tuners of all devices, device by device; no disabled tuner is kept, and an outcome exists only when no device is rejected |
| Controller.PlanSomeIff | userhdhomerun/hdhomerun_controller.cpp:86-121 | discovery gives an outcome exactly when no device is rejected and every tuner of every device configures |
| Controller.PlanComplete | userhdhomerun/hdhomerun_controller.cpp:86-121 | every enabled tuner of every discovered device is among the tuners kept |
| Controller.PlanSound | userhdhomerun/hdhomerun_controller.cpp:86-121 | every tuner kept is the kept tuner of an enabled tuner of some discovered device |
| Controller.Discovered | userhdhomerun/hdhomerun_controller.cpp:74-80 | a count of 0 makes the daemon exit; a negative (error) count leaves the daemon with no tuners; a positive one gives Plan of the devices found |
| Controller.DiscoveryOutcomes | userhdhomerun/hdhomerun_controller.cpp:74-80 | a failed discovery goes on with no tuners, and finding no device exits |
| Controller.PlanBound | userhdhomerun/hdhomerun_controller.cpp:89-121 | at most 10 tuners per device with tuner_count, and two per device without it |
| Controller.TwoTunersWithoutTunerCount | userhdhomerun/hdhomerun_controller.cpp:110-121 | without tuner_count, a device whose two tuners are both configured and enabled contributes exactly tuners 0 and 1, in that order |
| Controller.KernelIds | userhdhomerun/hdhomerun_controller.cpp:174 | the kernel ids of the tuners, in list order |
| Controller.FirstWithId | userhdhomerun/hdhomerun_controller.cpp:172-178 | the position of the first tuner with the id, or none exactly when no tuner has it |
| Controller.FirstWithIdIs | userhdhomerun/hdhomerun_controller.cpp:172-178 | the first match found by the scan is the one FirstWithId names |
| Controller.Reqs | userhdhomerun/hdhomerun_controller.cpp:137 | each tuner is registered with its own name and type |
| Controller.Pass | userhdhomerun/hdhomerun_controller.cpp:133-143 | the kernel's answer to one registration request, on the registry the earlier passes left |
| Controller.RegisterEach | userhdhomerun/hdhomerun_controller.cpp:133-143 | the registry and one id outcome per tuner, after the first k passes |
| Controller.FreshStep | kernel/dvb_hdhomerun_init.c:349-367 | on a clean registry, a new name goes into the next slot and gets its index as id |
| Controller.CleanNext | userhdhomerun/hdhomerun_controller.cpp:133-143 | a run with every kernel step succeeding stays clean from one pass to the next |
| Controller.FreshRegistrationIds | userhdhomerun/hdhomerun_controller.cpp:133-143 | on a fresh kernel, up to 8 tuners whose names differ in their first 10 characters all register, with ids 0, 1, 2, ... in loop order |
| Controller.CreateDeviceTuners | userhdhomerun/hdhomerun_controller.cpp:94-101 | the loop over one device's tuners creates, as distinct fresh objects, exactly the tuners MadeFor describes, each in its initial state; it fails exactly when MadeFor says the daemon exits |
| Controller.PlanNext | userhdhomerun/hdhomerun_controller.cpp:87-108 | an accepted device adds its kept tuners after those of the earlier devices |
| Controller.MadeForStaysNone | userhdhomerun/hdhomerun_tuner.cpp:107-110 | once one tuner makes the daemon exit, the device's later tuners are never reached |
| Controller.PlanStaysNone | userhdhomerun/hdhomerun_controller.cpp:104-107 | once a device makes the daemon exit, the later devices are never reached |
| Controller.RegisterOne | userhdhomerun/hdhomerun_controller.cpp:135-142 | one ioctl; on success the tuner gets "/dev/hdhomerun_data<id>" and the id, and on failure it keeps both; its streaming session is untouched |
| Controller.RegisterNext | userhdhomerun/hdhomerun_controller.cpp:133-143 | pass k of the loop moves the registry and the ids as RegisterEach says |
| Controller.HdhomerunController.constructor | userhdhomerun/hdhomerun_controller.cpp:36-37 | the controller starts with no tuners and keeps the size of its discovery array |
| Controller.HdhomerunController.Append | userhdhomerun/hdhomerun_controller.cpp:100 | `push_back` appends the device's tuners after the earlier ones, keeping them distinct |
| Controller.HdhomerunController.AddDevice | userhdhomerun/hdhomerun_controller.cpp:87-108 | one device: its kept tuners are appended and the earlier ones kept; or false, and then discovery as a whole makes the daemon exit |
| Controller.HdhomerunController.CreateTuners | userhdhomerun/hdhomerun_controller.cpp:66-121 | true exactly when Discovered has an outcome: a count other than 0, no device rejected, and every tuner configured (a negative count gives no tuners). The tuners are then exactly that outcome, each a fresh object in its initial state, at most 10 (or 2) per device found |
| Controller.HdhomerunController.GetTuner | userhdhomerun/hdhomerun_controller.cpp:168-181 | the first tuner with the kernel id, or null exactly when no tuner has it |
| Controller.HdhomerunController.RegisterAt | userhdhomerun/hdhomerun_controller.cpp:134-143 | pass k registers tuner k only; every other tuner is untouched |
| Controller.HdhomerunController.RegisterTuners | userhdhomerun/hdhomerun_controller.cpp:131-143 | every tuner is registered in list order, with the number of tuners, its name and its type. A success sets its data device name and kernel id; a failure keeps both. The registry ends as RegisterEach says |
| Dispatcher.StrengthField | userhdhomerun/hdhomerun_control.cpp:210-220 | the int16 stored in the reply has the bit pattern of the tuner's strength cut to 16 bits |
| Dispatcher.RespondMeaning | userhdhomerun/hdhomerun_control.cpp:138-264 | a reply is written exactly for the five handled types, with the request's type and id. Set frontend, start feed and stop feed echo the request; read status sets only `u.fe_status`; read signal strength sets only `u.signal_strength`, to the strength cut to 16 bits |
| Dispatcher.Step | userhdhomerun/hdhomerun_control.cpp:138-178 | one record changes at most the session of the tuner it addresses |
| Dispatcher.EffectOk | userhdhomerun/hdhomerun_control.cpp:180-264 | every handler keeps the tuner's session well formed |
| Dispatcher.TunedOk | userhdhomerun/hdhomerun_tuner.cpp:251-274 | tuning keeps a session well formed |
| Dispatcher.PolledOk | userhdhomerun/hdhomerun_tuner.cpp:277-309 | a status query keeps a session well formed |
| Dispatcher.Replies | userhdhomerun/hdhomerun_control.cpp:138-178 | a queue gets at most one reply per record |
| Dispatcher.Dispatched | userhdhomerun/hdhomerun_control.cpp:138-178 | the sessions after a whole queue, with one session per tuner |
| Dispatcher.RepliesAppend | userhdhomerun/hdhomerun_control.cpp:142-177 | two queues handled one after the other are answered in order, the first queue's records before the second's |
| Dispatcher.RepliesSnoc | userhdhomerun/hdhomerun_control.cpp:142-177 | one more record adds its own reply at the end |
| Dispatcher.RepliesInOrder | userhdhomerun/hdhomerun_control.cpp:142-177 | a queue of handled records gets exactly one reply per record, in queue order, each the answer to its own record |
| Dispatcher.RepliesCount | userhdhomerun/hdhomerun_control.cpp:142-177 | every handled record gets a reply |
| Dispatcher.ReplyAt | userhdhomerun/hdhomerun_control.cpp:142-177 | the i-th reply answers the i-th record |
| Dispatcher.UnhandledAreDropped | userhdhomerun/hdhomerun_control.cpp:171-173 | records of any other type get no reply and change no tuner |
| Dispatcher.DispatchedOk | userhdhomerun/hdhomerun_control.cpp:138-178 | dispatching a queue keeps every session well formed |
| Dispatcher.UnaddressedTunerKeepsSession | userhdhomerun/hdhomerun_control.cpp:138-178 | a tuner that no record addresses keeps its session |
| Dispatcher.ProcessedNext | userhdhomerun/hdhomerun_control.cpp:142-177 | the output and the sessions grow one record at a time |
| Dispatcher.OutputNext | userhdhomerun/hdhomerun_control.cpp:142-177 | what has been written and the sessions after k + 1 records, given those after k |
| Dispatcher.NothingQueued | userhdhomerun/hdhomerun_control.cpp:83-85 | a round that read no record writes nothing and changes no session |
| Dispatcher.Records | userhdhomerun/hdhomerun_control.cpp:61-80 | a stream of whole records cut into 36-byte records |
| Dispatcher.RecordsOfEncodeAll | userhdhomerun/hdhomerun_control.cpp:61-80 | framing undoes the writer's concatenation of records |
| Dispatcher.EncodeAllOfRecords | userhdhomerun/hdhomerun_control.cpp:61-80 | framing loses nothing of a stream of whole records |
| Dispatcher.EncodeAllSnoc | userhdhomerun/hdhomerun_control.cpp:97-108 | writing one more record appends its 36 bytes |
| Dispatcher.RecordsAppend | userhdhomerun/hdhomerun_control.cpp:61-80 | a record appended to a stream is read as one more record |
| Dispatcher.RecordsNext | userhdhomerun/hdhomerun_control.cpp:64-79 | each whole `read` queues the next record |
| Dispatcher.WholeRecordsEnd | userhdhomerun/hdhomerun_control.cpp:72-77 | the whole records end where the stream ends, unless a partial record is left |
| Dispatcher.States | userhdhomerun/hdhomerun_control.cpp:138-178 | the sessions of the tuners, in list order |
| Dispatcher.OneTunerMoved | userhdhomerun/hdhomerun_control.cpp:191-261 | a handler that moves one tuner leaves every other tuner's session and every kernel id as they were |
| Dispatcher.KernelSeesTunerStatus | kernel/dvb_hdhomerun_fe.c:51-65 | a status request the kernel posts is one record to the daemon, and the daemon's answer makes read_status report the tuner's status |
| Dispatcher.KernelSeesTunerStrength | kernel/dvb_hdhomerun_fe.c:75-89 | a strength request answered by the daemon makes read_signal_strength report the tuner's strength, cut to 16 bits |
| Dispatcher.Control.constructor | userhdhomerun/hdhomerun_control.cpp:40-44 | the control object starts with an empty queue and nothing written |
| Dispatcher.Control.Receive | userhdhomerun/hdhomerun_control.cpp:61-81 | the inner read loop queues every whole record of the input. The daemon exits exactly when a partial record is left; nothing is written |
| Dispatcher.Control.ReadRecord | userhdhomerun/hdhomerun_control.cpp:64-79 | one successful read appends the next record to the queue |
| Dispatcher.Control.WriteToDevice | userhdhomerun/hdhomerun_control.cpp:97-108 | the record's 36 bytes are appended to what the device has been written |
| Dispatcher.Control.FeSetFrontendHandler | userhdhomerun/hdhomerun_control.cpp:180-195 | the addressed tuner tunes to the record's frequency, and the record goes back unchanged |
| Dispatcher.Control.FeReadStatusHandler | userhdhomerun/hdhomerun_control.cpp:198-208 | the record goes back with `u.fe_status` set to the tuner's status |
| Dispatcher.Control.FeReadSignalStrengthHandler | userhdhomerun/hdhomerun_control.cpp:210-220 | the record goes back with `u.signal_strength` set to the tuner's strength cut to 16 bits |
| Dispatcher.Control.StartFeedHandler | userhdhomerun/hdhomerun_control.cpp:242-252 | the addressed tuner starts streaming the feed's PID, and the record goes back unchanged |
| Dispatcher.Control.StopFeedHandler | userhdhomerun/hdhomerun_control.cpp:254-264 | the addressed tuner stops streaming the feed's PID, and the record goes back unchanged |
| Dispatcher.Control.Dispatch | userhdhomerun/hdhomerun_control.cpp:145-174 | the switch writes Respond's reply and moves the tuner as Effect says |
| Dispatcher.Control.Handle | userhdhomerun/hdhomerun_control.cpp:143-176 | one record: another type is only logged; a handled one changes the session of its tuner alone and writes its reply |
| Dispatcher.Control.HandleFront | userhdhomerun/hdhomerun_control.cpp:142-177 | one turn of the loop handles and pops the front record |
| Dispatcher.Control.ProcessMessages | userhdhomerun/hdhomerun_control.cpp:138-178 | the queue is drained front to back, each record handled once. The replies are written in queue order, and the sessions end as Dispatched says |
| Dispatcher.Control.Round | userhdhomerun/hdhomerun_control.cpp:60-91 | one read and process round: the daemon exits on a partial record; otherwise every whole record read is answered in order and the tuners move as Dispatched says |

## Left out

- Threads and the streaming pump (`HdhomerunTuner::run`, `ThreadPthread`). They are not modelled; "the pump has finished" is a flag that StopStreaming clears before it stops the device stream.
- `main.cpp`, logging, `kernel/dvb_hdhomerun_data.c`, and the DVB framework and platform-device calls (adapter, demux and frontend registration, probe/remove, module init/exit). These are foreign code or I/O. Their outcomes are parameters: `platOk`, `dvbOk`, `dataInitOk` and `Attach`'s `allocOk`.
- `libhdhomerun`. The discovered devices, tuner names, model strings, status readings and set_tuner_channel results are inputs. Calls to the device are recorded as a list of `DeviceCall`s in the tuner's session. The libhdhomerun debug setup at the top of the controller constructor is not modelled.
- Concurrency. Wait queues, wake-ups and the unlocked globals are not modelled. Each `wait_event_interruptible` whose condition is false on entry takes its outcome as a parameter. Every operation runs to completion alone.
- Dispatcher.Control.Round: models one pass of `run`'s outer loop. It does not model the `m_stop` flag, the stream's EOF/clear handling or the 10 ms sleep. The short read that makes the daemon `_exit` is the `exited` result.
- Dispatcher.Control.ProcessMessages: requires that every handled record names a known kernel id. The source dereferences the null tuner that GetTuner returns for an unknown id.
- `HdhomerunTuner::SetPesFilter` and `Control::DMX_SET_PES_Filter`. SetPesFilter begins with `_exit(0)`, and ProcessMessages never dispatches DMX_SET_PES_FILTER. The model drops such records as unhandled.
- Tuner.HdhomerunTuner.constructor: takes the tuner's name, the configuration file's lines (None when it cannot be opened) and the model string as inputs. The source gets them from libhdhomerun and the file system. The daemon's `exit(-1)` on a missing model string is the constructor's precondition, and Controller.MadeFor reports it as None.
- Tuner.TypeCode: the tuner type numbers are NOT_SET = 0, DVBC = 1, DVBT = 2, ATSC = 3. That is the order the kernel's frontend selection and the constructor's use imply. `hdhomerun_tuner.h` declares only `DVBC, ATSC`, which does not match the `.cpp`.
- The sort of `m_tuners` by `CompareHdhomerunTuner`. Its comparator is not part of this model, so the tuners are registered in the order they are given.
- Controller.HdhomerunController.CreateTuners: requires the discovery count to be at most the array's size, as libhdhomerun promises. The array's contents beyond the count, zeroed by the memset, are not modelled.
- `Control::Ioctl` takes four arguments, while the controller passes a fifth (use_full_name). The model follows `Control::Ioctl`: the record's `use_full_name` byte is whatever the stack held. The open of the control device is not modelled: neither the `!m_fdIoctl` test nor the descriptor that is never closed.
- Control's constructor and `run`: the `_exit(-1)` when the control device cannot be opened.
- Tuner.HdhomerunTuner.StopStreaming: follows the code. The shrunken filter is not pushed to the device again.
- `dvb_frontend_parameters`: only its first member, `frequency`, is modelled (the union's `frequency` field). The other members are neither sent nor read.
- Byte order: little-endian (x86). The padding of the registration record follows the usual C layout: `id` at offset 16, `type` at 20 and `use_full_name` at 24, 28 bytes in all.
- Controller.HdhomerunController.RegisterTuners: states the registry's validity and each tuner's session, kernel id and data device name. It does not restate the tuner's own `Valid()`.
- OldDriver: omits the message header and the frontend parameter layouts of the old protocol. Requests and replies are byte strings of one record size.
- OldDriver: the loopback FIFO's capacity is taken as `kfifo_alloc`'s power-of-two rounding of the default `fifo_bufsize` (385024 → 524288), and the module parameter is fixed at that default. The old driver's open and release operations return 0 and have no modelled effect.
- copy_to_user and copy_from_user are modelled only as success or failure. For the REGISTER_TUNER copy-out, the model uses the count of bytes left uncopied, which the ioctl returns.

## Findings

| source | as written | input that shows it | evidently intended | confidence | as-written member | corrected member |
|---|---|---|---|---|---|---|
| kernel/dvb_hdhomerun_init.c:336-367 | after a failed `dvb_hdhomerun_register`, slot i's driver data is set to NULL but the count still grows. The "already registered" scan then dereferences every slot's driver data without a NULL check | register tuner A with the DVB registration failing, then register any tuner: the scan reads `tuner_data` through NULL | the scan skips slots with no driver data | not executed | KernelRegistry.NullSlotCrashesNextRegistration | KernelRegistry.AfterRegister |
| kernel/dvb_hdhomerun_init.c:350-356 | `IS_ERR(platform_device)` tests the array, which is never an error pointer. A failed `platform_device_register_simple` goes on to line 356, which reads `->id` through the error pointer | any registration whose platform registration fails | test the new element, `IS_ERR(platform_device[n])`, and return -ENODEV | not executed | KernelRegistry.PlatformFailureUnchecked | KernelRegistry.AfterRegister |
