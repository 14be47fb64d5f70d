# Tizonia OpenMAX IL: processors, WebM port, Deezer track info and the Vorbis graph

This project models five pieces of the Tizonia OpenMAX IL framework in Dafny:

- **The HTTP source processor** (`httpsrcprc`). It is an output-only processor with a single port. It fills that port's buffer headers with the bytes libcurl delivers, and it is driven by a socket watcher and a timer watcher on the component's event loop.
- **The VP8 encoder processor** (`vp8eprc`). Its `buffers_ready` hook pumps input headers (port 0) against output headers (port 1):
  - it releases empty inputs with `nOffset` reset;
  - at end of stream it releases the held output header with `OMX_BUFFERFLAG_EOS` ORed in.
- **The WebM demuxer port** (`tizwebmport`):
  - its GetParameter/SetParameter dispatch;
  - its tunnel-compatibility check;
  - the Opus index it registers when constructed.
- **The Deezer client's `get_current_track`**:
  - the millisecond-to-`[Nh:][Nm:]SSs` duration rendering, proved to parse back to the whole number of seconds;
  - the user, title, year, permalink, license and likes bookkeeping;
  - the return code.
- **tplay's Vorbis playback graph** (`tizvorbisgraph`):
  - the components and roles it loads;
  - probe acceptance (audio domain, Vorbis coding);
  - the "port settings changed" flag;
  - the expected-transition list after disabling the demuxer's video port.

The runtime kernel is not part of this model. `Runtime.Kernel` is the abstract per-port pool that the processors call into through `tiz_krn_select`, `tiz_krn_claim_buffer` and `tiz_krn_release_buffer`. Every header is pooled on a port, claimed by the processor, or returned through a port. Both processors are classes over that pool. Their invariant is that the headers the kernel counts as claimed are exactly the ones the processor holds.

Calls into code that is not shown become parameters of the operations:
- libcurl's `curl_multi_socket_action` (whether it accepts a call, and the write, socket and timer callbacks it makes meanwhile) and `start_curl_handles`;
- the Python proxy behind boost::python;
- `OMX_GetParameter`/`OMX_SetParameter`;
- the file probe.

The VP8 pump is proved against `Vp8Encoder.Pumped`, a relation between the state before and after the hook. It says four things:
- headers make only the allowed moves;
- untouched headers keep their contents;
- returned inputs carry `nOffset` 0 and returned outputs carry the EOS flag;
- held headers are unchanged copies of what was claimed.

Files:
- `omx.dfy`: shared OpenMAX types;
- `kernel.dfy`: the pool;
- `httpsrc.dfy`, `vp8enc.dfy`, `webmport.dfy`, `deezer.dfy`, `vorbisgraph.dfy`: one per source file.

## Model

| member | source | states |
|---|---|---|
| Omx.WithEos | plugins/vp8_encoder/src/vp8eprc.c:267 | the EOS bit is set in nFlags, every other flag bit and every other field is kept |
| Runtime.Kernel.Select | plugins/vp8_encoder/src/vp8eprc.c:172-173 | the ready set is exactly the ports below the mask width with a pooled header; a width above the port count is a bad port index |
| Runtime.Kernel.Claim | plugins/http_source/src/httpsrcprc.c:567-570 | a claim takes a header out of that port's pool and marks it claimed; an empty pool yields no header and no error |
| Runtime.Kernel.Release | plugins/http_source/src/httpsrcprc.c:549-550 | release succeeds exactly for a header claimed on that port, which becomes returned with its new contents; otherwise nothing changes |
| HttpSource.CurlEventMask | plugins/http_source/src/httpsrcprc.c:712-719 | the IN bit is set iff READ or READ_OR_WRITE was reported, the OUT bit iff WRITE or READ_OR_WRITE; no other bit is set |
| HttpSource.HttpSrcPrc.constructor | plugins/http_source/src/httpsrcprc.c:590-610 | no header held, eos and port-disabled false, first_buffer_ true, sockfd_ -1, both watchers idle, timeout 0 |
| HttpSource.HttpSrcPrc.StartIoWatcher | plugins/http_source/src/httpsrcprc.c:112-119 | awaiting_io_ev_ becomes true, nothing else changes |
| HttpSource.HttpSrcPrc.StopIoWatcher | plugins/http_source/src/httpsrcprc.c:121-132 | awaiting_io_ev_ becomes false, nothing else changes |
| HttpSource.HttpSrcPrc.StartTimerWatcher | plugins/http_source/src/httpsrcprc.c:134-142 | awaiting_timer_ev_ becomes true and the timer is set to the current curl timeout |
| HttpSource.HttpSrcPrc.RestartTimerWatcher | plugins/http_source/src/httpsrcprc.c:144-151 | awaiting_timer_ev_ becomes true, the delay is kept |
| HttpSource.HttpSrcPrc.StopTimerWatcher | plugins/http_source/src/httpsrcprc.c:153-164 | awaiting_timer_ev_ becomes false, nothing else changes |
| HttpSource.HttpSrcPrc.ReleaseBuffer | plugins/http_source/src/httpsrcprc.c:540-554 | a held header is returned through port 0 and p_outhdr_ cleared; with none held the pool is untouched; always success, so a second call is a no-op |
| HttpSource.HttpSrcPrc.BufferNeeded | plugins/http_source/src/httpsrcprc.c:556-584 | nothing while the port is disabled; the held header without a new claim if there is one; else a header claimed from port 0's pool, or none when it is empty; at most one header is ever held |
| HttpSource.HttpSrcPrc.DeliverBytes | plugins/http_source/src/httpsrcprc.c:212-220 | the header buffer_needed yields is returned through port 0 with nFilledLen equal to the byte count, as `Delivered` describes |
| HttpSource.HttpSrcPrc.WriteCallback | plugins/http_source/src/httpsrcprc.c:195-222 | all bytes are reported taken; for a non-empty delivery the socket watcher is reset to read interest and the bytes delivered; an empty one changes nothing |
| HttpSource.HttpSrcPrc.SocketCallback | plugins/http_source/src/httpsrcprc.c:287-303 | only the first socket is recorded and watched for read or write; later calls leave the state unchanged |
| HttpSource.HttpSrcPrc.TimerCallback | plugins/http_source/src/httpsrcprc.c:315-333 | a negative timeout stops the timer and zeroes the stored timeout; otherwise the timeout is stored and the timer armed with it |
| HttpSource.HttpSrcPrc.PrepareToTransfer | plugins/http_source/src/httpsrcprc.c:645-659 | eos false, first_buffer_ true, sockfd_ -1, both watchers idle, timeout 0, success |
| HttpSource.HttpSrcPrc.TransferAndProcess | plugins/http_source/src/httpsrcprc.c:661-665 | success |
| HttpSource.HttpSrcPrc.StopAndReturn | plugins/http_source/src/httpsrcprc.c:667-672 | both watchers idle, no header held and none claimed on port 0; the held header, if any, is returned |
| HttpSource.HttpSrcPrc.BuffersReady | plugins/http_source/src/httpsrcprc.c:678-697 | only while first_buffer_ is set: a start_curl_handles error is returned with processor and pool unchanged; otherwise libcurl is kicked with a timeout action, the callbacks it makes run in order from the state at the call, and first_buffer_ is cleared afterwards only when libcurl accepted; a rejected kick is out of resources |
| HttpSource.HttpSrcPrc.IoReady | plugins/http_source/src/httpsrcprc.c:699-730 | ignored unless awaiting an io event; otherwise libcurl gets the socket and the event mask after the socket watcher is stopped and the timer re-armed, the callbacks it makes run in order from there, and the socket watcher is re-armed after them only when libcurl accepted |
| HttpSource.HttpSrcPrc.TimerReady | plugins/http_source/src/httpsrcprc.c:732-748 | ignored unless awaiting the timer; otherwise the timer is re-armed, libcurl told its timeout expired, and the callbacks it makes run in order and decide the final state; a rejection is out of resources |
| HttpSource.HttpSrcPrc.SocketActionCallbacks | plugins/http_source/src/httpsrcprc.c:195-333 | the write, socket and timer callbacks libcurl makes inside one curl_multi_socket_action call take the processor and pool through a trace of `CallbackStep`s, keeping the class invariant |
| HttpSource.DeliveryKeepsFit | plugins/http_source/src/httpsrcprc.c:209-217 | a delivery only ever writes into the held header or one claimed from port 0, and takes it out of reach, so a later write that fitted before still fits |
| HttpSource.CallbacksKeep | plugins/http_source/src/httpsrcprc.c:195-333 | no sequence of libcurl callbacks changes first_buffer_, eos or the port-disabled flag, and a recorded socket stays recorded |
| HttpSource.HttpSrcPrc.Pause | plugins/http_source/src/httpsrcprc.c:750-755 | success |
| HttpSource.HttpSrcPrc.Resume | plugins/http_source/src/httpsrcprc.c:757-762 | success |
| HttpSource.HttpSrcPrc.PortFlush | plugins/http_source/src/httpsrcprc.c:764-770 | the held header, if any, is returned through port 0 with its contents and p_outhdr_ cleared; every other header keeps its place and contents; nothing stays claimed on port 0 |
| HttpSource.HttpSrcPrc.PortDisable | plugins/http_source/src/httpsrcprc.c:772-779 | the held header, if any, is returned through port 0 with its contents and p_outhdr_ cleared; every other header keeps its place and contents; nothing stays claimed on port 0 |
| HttpSource.HttpSrcPrc.PortEnable | plugins/http_source/src/httpsrcprc.c:781-786 | success |
| Vp8Encoder.Vp8EncPrc.constructor | plugins/vp8_encoder/src/vp8eprc.c:53-63 | no input header, no output header, eos false |
| Vp8Encoder.Vp8EncPrc.TransformBuffer | plugins/vp8_encoder/src/vp8eprc.c:74-81 | success, nothing encoded |
| Vp8Encoder.Vp8EncPrc.AllocateResources | plugins/vp8_encoder/src/vp8eprc.c:88-103 | success, no state change |
| Vp8Encoder.Vp8EncPrc.DeallocateResources | plugins/vp8_encoder/src/vp8eprc.c:106-121 | success, no state change |
| Vp8Encoder.Vp8EncPrc.PrepareToTransfer | plugins/vp8_encoder/src/vp8eprc.c:124-136 | success, no state change |
| Vp8Encoder.Vp8EncPrc.TransferAndProcess | plugins/vp8_encoder/src/vp8eprc.c:139-143 | success, no state change |
| Vp8Encoder.Vp8EncPrc.StopAndReturn | plugins/vp8_encoder/src/vp8eprc.c:146-157 | success, no state change |
| Vp8Encoder.Vp8EncPrc.ClaimInput | plugins/vp8_encoder/src/vp8eprc.c:164-191 | true exactly when port 0 is in the select mask; then a pooled input header is claimed and held; otherwise pinhdr_ and the pool are unchanged |
| Vp8Encoder.Vp8EncPrc.ClaimOutput | plugins/vp8_encoder/src/vp8eprc.c:194-218 | true exactly when port 1 is in the select mask; then a pooled output header is claimed and held; otherwise pouthdr_ and the pool are unchanged |
| Vp8Encoder.Vp8EncPrc.ReleaseEmptyInput | plugins/vp8_encoder/src/vp8eprc.c:251-256 | the held input header is returned through port 0 with nOffset 0 and pinhdr_ cleared |
| Vp8Encoder.Vp8EncPrc.PropagateEos | plugins/vp8_encoder/src/vp8eprc.c:259-270 | the held output header is returned through port 1 with the EOS flag ORed in and pouthdr_ cleared |
| Vp8Encoder.Vp8EncPrc.EnsureInput | plugins/vp8_encoder/src/vp8eprc.c:234-240 | a held input header is reused, with the pool untouched; otherwise exactly one pooled input is claimed, or the loop stops with port 0's pool empty |
| Vp8Encoder.Vp8EncPrc.EnsureOutput | plugins/vp8_encoder/src/vp8eprc.c:242-248 | reached only with an input header held; a held output header is reused, with the pool untouched; otherwise exactly one pooled output is claimed, or the loop stops with port 1's pool empty |
| Vp8Encoder.Vp8EncPrc.ClaimPair | plugins/vp8_encoder/src/vp8eprc.c:234-248 | a round either holds both headers, without growing the loop measure, or stops in a state where a claim failed; a held header is kept, the only moves are claims of pooled headers on their own port, and no header's contents change; an output header is claimed only once an input header is held, and a round that stops with no input held has moved nothing and claimed no output |
| Vp8Encoder.Vp8EncPrc.ReleaseRound | plugins/vp8_encoder/src/vp8eprc.c:250-256 | the (empty) input header goes back through port 0 with nOffset reset to 0, every other header stays where and as it was, the output header stays held, and the loop measure strictly decreases |
| Vp8Encoder.Vp8EncPrc.Pump | plugins/vp8_encoder/src/vp8eprc.c:231-257 | the rounds move headers only as `Pumped` allows, keep the tally of moved headers, and end in a state where a claim failed |
| Vp8Encoder.Vp8EncPrc.BuffersReady | plugins/vp8_encoder/src/vp8eprc.c:221-273 | the loop ends, having moved headers only as `Pumped` allows, and stopped because a claim failed. An input header is left held exactly when no output header was held or pooled and an input header was held or pooled. Without end of stream, an output header is held afterwards exactly when one was held at the start or both an input and an output header were to be had, and it is the only output that moved. At end of stream, exactly one output header moves in that same case and none otherwise, and it has gone back through port 1; no output is held afterwards. With no output header held and no input header to be had, nothing changes at all. With no output header held or pooled, no input header is returned; with no input held, every reachable input header has been returned on port 0 |
| Vp8Encoder.PumpOutcome | plugins/vp8_encoder/src/vp8eprc.c:221-257 | where the loop stops, from the start: an input header is left held exactly when no output header was held or pooled and an input header was; with no output header at the start, none is held at the end |
| Vp8Encoder.OutputOutcome | plugins/vp8_encoder/src/vp8eprc.c:231-257 | where the loop stops, output side: an output header is held exactly when one was held at the start or both an input and an output header were to be had, and it was held or pooled at the start |
| Vp8Encoder.NothingMoved | plugins/vp8_encoder/src/vp8eprc.c:234-240 | with no output header held and no input header to be had, the loop moves and changes nothing |
| Vp8Encoder.HeldInputAvailable | plugins/vp8_encoder/src/vp8eprc.c:234-240 | the input header held during the loop was held or pooled at its start |
| Vp8Encoder.EosOutcome | plugins/vp8_encoder/src/vp8eprc.c:259-270 | after the end-of-stream step the only output header that has moved is the one held when the loop stopped, so at most one; when it was released it has moved and is back on port 1 |
| Vp8Encoder.TallyInputStep | plugins/vp8_encoder/src/vp8eprc.c:234-256 | claiming an input, or returning one while an output header is held, keeps the loop's tally of moved headers |
| Vp8Encoder.TallyClaimOutput | plugins/vp8_encoder/src/vp8eprc.c:242-248 | claiming an output header while none is held, with an input header to be had, keeps the tally, with that header as the only output moved |
| Vp8Encoder.PumpedStart | plugins/vp8_encoder/src/vp8eprc.c:231 | the pump relation holds before the first round |
| Vp8Encoder.ClaimInputStep | plugins/vp8_encoder/src/vp8eprc.c:236 | claiming a pooled input header keeps the pump relation |
| Vp8Encoder.ClaimOutputStep | plugins/vp8_encoder/src/vp8eprc.c:244 | claiming a pooled output header keeps the pump relation |
| Vp8Encoder.ReleaseInputStep | plugins/vp8_encoder/src/vp8eprc.c:251-256 | returning the held input with nOffset 0 keeps the pump relation |
| Vp8Encoder.EosStep | plugins/vp8_encoder/src/vp8eprc.c:259-270 | returning the held output flagged EOS keeps the relation, now allowing end-of-stream moves |
| Vp8Encoder.EmptyInputsKept | plugins/vp8_encoder/src/vp8eprc.c:251 | the pump never fills an input header, so empty inputs stay empty |
| Vp8Encoder.InputsAllReturned | plugins/vp8_encoder/src/vp8eprc.c:236-239 | once the pump stops for lack of input, every input header held or pooled at the start has been returned through port 0 |
| Vp8Encoder.OwnsClaimInput | plugins/vp8_encoder/src/vp8eprc.c:179-180 | after an input claim the claimed sets on both ports are exactly the held headers |
| Vp8Encoder.OwnsReleaseInput | plugins/vp8_encoder/src/vp8eprc.c:254-255 | after the input release no input header is claimed and the output side is unchanged |
| WebmPort.CheckTunnelCompat | libtizonia/src/tizwebmport.c:162-203 | as written: a peer is accepted exactly when its domain is Audio, Video or Other, whatever its encoding and whatever this port's own definition |
| WebmPort.EncodingGuardNeverHolds | libtizonia/src/tizwebmport.c:183-191 | the encoding guard asks for three different domains at once, so it never holds |
| WebmPort.AudioNonWebmAccepted | libtizonia/src/tizwebmport.c:183-197 | an audio peer with a non-WebM encoding is accepted as written and rejected by the intended check |
| WebmPort.CheckTunnelCompatIntended | libtizonia/src/tizwebmport.c:183-197 | intended: accepted exactly for an Audio or Video peer carrying WebM or an Other peer carrying binary; every such peer is also accepted as written |
| WebmPort.GetParameter | libtizonia/src/tizwebmport.c:77-127 | NumAvailableStreams and ActiveStream are answered by the processor, its error returned as is; every other index goes to the tizdemuxerport base |
| WebmPort.SetParameter | libtizonia/src/tizwebmport.c:130-160 | every index, ConfigAudioMute included, goes to the base class and its result is returned |
| WebmPort.Construct | libtizonia/src/tizwebmport.c:52-62 | when registration succeeds the port knows the base indexes plus the Opus index and nothing else; when it fails there is no port |
| Deezer.CDiv | clients/deezer/libtizdeezer/src/tizdeezer.cpp:174-176 | C division truncating toward zero |
| Deezer.CMod | clients/deezer/libtizdeezer/src/tizdeezer.cpp:175 | C remainder: takes the dividend's sign and completes CDiv |
| Deezer.NatToStr | clients/deezer/libtizdeezer/src/tizdeezer.cpp:187 | lexical_cast of a natural number: decimal digits, no leading zero, whose value is the number |
| Deezer.IntToStr | clients/deezer/libtizdeezer/src/tizdeezer.cpp:205 | lexical_cast of an int: decimal digits denoting the value, with a leading '-' for negatives, and no leading zero ("0" for zero) |
| Deezer.Printf02 | clients/deezer/libtizdeezer/src/tizdeezer.cpp:199-200 | "%02i": at least two characters denoting the value; a zero is padded in front of 0..9 only; a negative value is its sign and its digits with no padding |
| Deezer.DurationFields | clients/deezer/libtizdeezer/src/tizdeezer.cpp:172-183 | a non-negative duration splits exactly into hours, minutes below 60 and seconds below 60 of ms/1000; a negative one has no hours and non-positive minutes and seconds summing to the truncated seconds; 0 gives all zeros |
| Deezer.FormatDuration | clients/deezer/libtizdeezer/src/tizdeezer.cpp:171-202 | the string always ends in "s" and is at least three characters long |
| Deezer.SecondsRendering | clients/deezer/libtizdeezer/src/tizdeezer.cpp:174-175 | the last three characters are the seconds, (ms / 1000) mod 60, as two zero-padded digits, then "s" |
| Deezer.UnitsShown | clients/deezer/libtizdeezer/src/tizdeezer.cpp:185-196 | an 'h' appears iff there are hours, an 'm' iff there are minutes |
| Deezer.OneHourRendering | clients/deezer/libtizdeezer/src/tizdeezer.cpp:191-196 | an exact hour renders as "1h:00s" |
| Deezer.ZeroRendering | clients/deezer/libtizdeezer/src/tizdeezer.cpp:170-202 | zero milliseconds render as "00s" |
| Deezer.FormatParseRoundTrip | clients/deezer/libtizdeezer/src/tizdeezer.cpp:172-202 | for a non-negative duration the rendered string parses back to ms/1000 seconds |
| Deezer.FieldsTotal | clients/deezer/libtizdeezer/src/tizdeezer.cpp:174-183 | the hours and minutes weighted by their units plus the seconds make up ms/1000 |
| Deezer.ParseRendered | clients/deezer/libtizdeezer/src/tizdeezer.cpp:185-202 | any rendered field triple parses back to its weighted total |
| Deezer.SplitDuration | clients/deezer/libtizdeezer/src/tizdeezer.cpp:170-183 | the source's truncating divmod steps, with hours split off only from 60 minutes on, give exactly the mixed-radix fields of DurationFields |
| Deezer.TizDeezer.constructor | clients/deezer/libtizdeezer/src/tizdeezer.cpp:87-90 | the token is kept and every track string starts empty |
| Deezer.TizDeezer.AppendDuration | clients/deezer/libtizdeezer/src/tizdeezer.cpp:185-202 | the appends add exactly the rendering of the fields to current_duration_, nothing else changes |
| Deezer.TizDeezer.RebuildDuration | clients/deezer/libtizdeezer/src/tizdeezer.cpp:167-202 | current_duration_ is rebuilt from empty as FormatDuration of the duration; the other strings are unchanged |
| Deezer.TizDeezer.SetUserAndTitle | clients/deezer/libtizdeezer/src/tizdeezer.cpp:150-165 | user and title are cleared, then set only from values that are present |
| Deezer.TizDeezer.SetTrackDetails | clients/deezer/libtizdeezer/src/tizdeezer.cpp:204-222 | year and likes are rendered as decimals; permalink and license change only when a value is present |
| Deezer.TizDeezer.GetCurrentTrack | clients/deezer/libtizdeezer/src/tizdeezer.cpp:147-230 | rc is 0 iff a user or a title was present, else 1; every track string is as the proxy's answers dictate |
| VorbisGraph.Role | examples/tplay/src/tizvorbisgraph.cc:63-65 | a role starts with its component kind and ends with "." and its format |
| VorbisGraph.ComponentName | examples/tplay/src/tizvorbisgraph.cc:58-60 | a component name carries the "OMX.Aratelia." prefix and ends with "." and its format |
| VorbisGraph.DoInit | examples/tplay/src/tizvorbisgraph.cc:55-68 | three components and three roles in matching order: Ogg demuxer, Vorbis decoder, PCM renderer |
| VorbisGraph.RoleNames | examples/tplay/src/tizvorbisgraph.cc:63-65 | the three roles are exactly the source's strings |
| VorbisGraph.DemuxerName | examples/tplay/src/tizvorbisgraph.cc:58 | the demuxer's name is exactly the source's string |
| VorbisGraph.DecoderName | examples/tplay/src/tizvorbisgraph.cc:59 | the decoder's name is exactly the source's string |
| VorbisGraph.RendererName | examples/tplay/src/tizvorbisgraph.cc:60 | the renderer's name is exactly the source's string, the non-blocking one |
| VorbisGraph.DoInitNames | examples/tplay/src/tizvorbisgraph.cc:57-65 | the lists do_init builds are exactly the source's component and role strings |
| VorbisGraph.VorbisDecOps.constructor | examples/tplay/src/tizvorbisgraph.cc:73-79 | the settings-changed flag starts false, with no probe, no expected transitions and no error |
| VorbisGraph.VorbisDecOps.IsPortSettingsEvtRequired | examples/tplay/src/tizvorbisgraph.cc:101-104 | returns the stored flag |
| VorbisGraph.VorbisDecOps.IsDisabledEvtRequired | examples/tplay/src/tizvorbisgraph.cc:106-109 | always true |
| VorbisGraph.VorbisDecOps.DoDisablePorts | examples/tplay/src/tizvorbisgraph.cc:81-89 | on success the expected transitions are exactly the demuxer's port 1 disable; a failure is recorded and the list kept |
| VorbisGraph.VorbisDecOps.ProbeUri | examples/tplay/src/tizvorbisgraph.cc:123-149 | an empty URI succeeds and keeps the probe; otherwise the new probe replaces the old, and the result is success iff it is audio and Vorbis, ContentURIError otherwise |
| VorbisGraph.VorbisDecOps.SetVorbisSettings | examples/tplay/src/tizvorbisgraph.cc:151-183 | a Get error is returned, with nothing sent and the flag kept; otherwise the probed settings are sent to the decoder's port 0; on success the flag is set iff rate or channels differ |
| VorbisGraph.VorbisDecOps.DoProbe | examples/tplay/src/tizvorbisgraph.cc:91-99 | the first failing step's error is recorded and the rest skipped; on success the flag reflects the probed settings |

## Findings

| source | as written | input that shows it | evidently intended | confidence | as-written member | corrected member |
|---|---|---|---|---|---|---|
| libtizonia/src/tizwebmport.c:183-191 | the "unknown encoding" guard joins its three per-domain tests with `&&`, so it needs the domain to be Audio, Video and Other at once and never fires | an audio peer whose eEncoding is not OMX_AUDIO_CodingWEBM is reported compatible | the three tests joined with `\|\|`, so that a known domain whose format is not WebM (binary for Other) is rejected | not executed | WebmPort.CheckTunnelCompat, WebmPort.AudioNonWebmAccepted | WebmPort.CheckTunnelCompatIntended |

## Left out

- The libcurl plumbing is not modelled: global and easy-handle setup, `start_curl_handles`, the header and debug callbacks, `obtain_uri` and the event allocation (httpsrcprc.c:176-538). The result of `start_curl_handles` and whether `curl_multi_socket_action` accepted a call are parameters. The call itself is reported as a `SocketAction`. Which callbacks libcurl makes inside that call, and in what order, is libcurl's choice: each hook is given that list and runs it in place.
- The httpsrc resource hooks `allocate_resources` and `deallocate_resources` and the destructor are not modelled, because they only set up and tear down the curl plumbing above.
- HttpSource.HttpSrcPrc.TimerCallback: the timeout is kept in integer milliseconds. The source stores `timeout_ms / 1000` as a double (seconds), and floating point is not modelled.
- HttpSource.HttpSrcPrc.IoReady: the event loop's watcher start, stop and restart calls are taken to succeed. The early error returns through `tiz_check_omx_err` around them are not modelled.
- HttpSource.HttpSrcPrc.TimerReady: the error that restart_timer_watcher can return through `tiz_check_omx_err` (plugins/http_source/src/httpsrcprc.c:742) before libcurl runs is not modelled; the restart is taken to succeed.
- HttpSource.HttpSrcPrc.ReleaseBuffer: the path where the kernel refuses the release cannot be reached here. The class invariant keeps the held header claimed on port 0. So the "error returned, header kept" branch of release_buffer is not exercised.
- HttpSource.HttpSrcPrc.WriteCallback: the bytes themselves and the memcpy are not modelled, only nFilledLen and the release. Its precondition asks that the data fit the header, because the source does no bound check. HttpSource.HttpSrcPrc.BuffersReady, IoReady and TimerReady ask the same for every write in their callback list, of the held header and of every header still pooled on port 0.
- Vp8Encoder.Vp8EncPrc.BuffersReady: modelled only when every input header the pump can reach is empty. The transform is a no-op, so an input with data is never released and the source loop never ends.
- Vp8Encoder.Vp8EncPrc.ClaimInput: a select or claim error would make the bool function return the error code, which reads as true. With the two-port kernel of this model those calls cannot fail, so that path is not exercised. The same holds for Vp8Encoder.Vp8EncPrc.ClaimOutput.
- Header buffers (pBuffer) and their contents are not modelled. A header is its id and its nFilledLen, nOffset, nAllocLen and nFlags.
- The runtime kernel, ports and state machine are not part of this model. `Runtime.Kernel` stands for the pool they keep, and its claim, release and select contracts are assumptions about them.
- Class registration and object-model glue is not modelled: the `*_class_ctor`, `*_class_init` and `*_init` functions, `super_ctor`/`super_dtor`, and the destructors. WebmPort.Construct takes the base port's index set as given.
- The Deezer `init`, `start`, `stop`, `deinit` and `set_playback_mode` functions are not modelled, because they only wrap calls into the Python proxy. The proxy's answers to `get_current_track` are the fields of `TrackInfo`, and a Python exception during `get_current_track` is not modelled.
- Deezer.Printf02: for seconds from -10 to -59, which arise from negative durations, "%02i" writes four bytes into the three-byte `seconds_str` buffer. The model renders the full text and does not model the overflow.
- Deezer.IntToStr: boost::lexical_cast is modelled as canonical decimal rendering; a `bad_lexical_cast` exception cannot arise for an int and is not modelled.
- The vorbisdecoder constructor (tizvorbisgraph.cc:51-53) only names the graph and is not modelled.
- `do_configure`, the probe's internals, the `dump_*` calls and the `quiet` argument of `probe_uri` are not modelled, because they only control diagnostic output or call into code that is not shown. The probe's report is the `Probe` parameter.
- VorbisGraph.VorbisDecOps.SetVorbisSettings: when no file has been probed yet and GetParameter succeeds, the source calls through a null `probe_ptr_` (tizvorbisgraph.cc:165). The model requires a probe in that case and does not model the crash; with a failing GetParameter it returns the error without a probe, as the source does. VorbisGraph.VorbisDecOps.DoProbe inherits the same requirement for an empty play-list entry.
- The definition of `G_OPS_BAIL_IF_ERROR` is not part of this model. VorbisGraph.VorbisDecOps.DoDisablePorts and VorbisGraph.VorbisDecOps.DoProbe take it to record the error code in `errorCode` and return.
- VorbisGraph.VorbisDecOps: the handles, play list and current file index belong to the graph-ops base class, which is not part of this model. They are given at construction.
