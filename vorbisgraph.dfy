/**
 * The tplay Vorbis playback graph (tizvorbisgraph): the three components
 * it loads, and the graph operations specific to Ogg/Vorbis files that
 * probe the current file, copy its stream settings to the decoder, and
 * disable the demuxer's unused video port.
 */
module VorbisGraph {
  import opened Omx

  /** The vendor prefix every component name of the graph carries. */
  const VENDOR_PREFIX: string := "OMX.Aratelia."

  /** The component names and roles a graph is built from, in graph order. */
  datatype CompLists = CompLists(components: seq<string>, roles: seq<string>)

  /** Whether `name` ends with `suffix`. */
  predicate EndsWith(name: string, suffix: string)
  {
    |suffix| <= |name| && name[|name| - |suffix|..] == suffix
  }

  /** The stream format each stage of the graph handles, in graph order. */
  const FORMATS: seq<string> := ["ogg", "vorbis", "pcm"]

  /** A name built as `head + tail` starts with `head` and ends with `tail`. */
  lemma Affixes(head: string, tail: string)
    ensures head <= head + tail && EndsWith(head + tail, tail)
  {
    assert (head + tail)[..|head|] == head;
    assert (head + tail)[|head|..] == tail;
  }

  /** A name that ends with `suffix` still does after a prefix is put in front. */
  lemma EndsWithPrefixed(head: string, name: string, suffix: string)
    requires EndsWith(name, suffix)
    ensures EndsWith(head + name, suffix)
  {
    assert (head + name)[|head|..] == name;
    assert (head + name)[|head + name| - |suffix|..] == name[|name| - |suffix|..];
  }

  /** A role: the kind of component, a dot, and the format it handles. */
  function Role(kind: string, format: string): (r: string)
    ensures kind <= r && EndsWith(r, "." + format)
  {
    Affixes(kind, "." + format);
    kind + ("." + format)
  }

  /** A component name: the vendor prefix followed by a role-shaped name. */
  function ComponentName(kind: string, format: string): (c: string)
    ensures VENDOR_PREFIX <= c && EndsWith(c, "." + format)
  {
    var r := Role(kind, format);
    Affixes(VENDOR_PREFIX, r);
    EndsWithPrefixed(VENDOR_PREFIX, r, "." + format);
    VENDOR_PREFIX + r
  }

  /**
   * vorbisdecoder::do_init: an Ogg demuxer, a Vorbis decoder and a
   * non-blocking PCM renderer, each listed with the role it is loaded in.
   */
  function DoInit(): (l: CompLists)
    ensures |l.components| == 3 && |l.roles| == 3
    ensures forall i :: 0 <= i < 3 ==> VENDOR_PREFIX <= l.components[i]
    ensures "container_demuxer" <= l.roles[0]
    ensures "audio_decoder" <= l.roles[1]
    ensures "audio_renderer" <= l.roles[2]
    ensures forall i :: 0 <= i < 3 ==>
              EndsWith(l.components[i], "." + FORMATS[i]) && EndsWith(l.roles[i], "." + FORMATS[i])
  {
    CompLists(
      [ComponentName("container_demuxer", FORMATS[0]),
       ComponentName("audio_decoder", FORMATS[1]),
       ComponentName("audio_renderer_nb", FORMATS[2])],
      [Role("container_demuxer", FORMATS[0]),
       Role("audio_decoder", FORMATS[1]),
       Role("audio_renderer", FORMATS[2])])
  }

  /** The three roles spelled out. */
  lemma RoleNames()
    ensures Role("container_demuxer", "ogg") == "container_demuxer.ogg"
    ensures Role("audio_decoder", "vorbis") == "audio_decoder.vorbis"
    ensures Role("audio_renderer", "pcm") == "audio_renderer.pcm"
  {
  }

  /** The demuxer's component name spelled out. */
  lemma DemuxerName()
    ensures ComponentName("container_demuxer", "ogg") == "OMX.Aratelia.container_demuxer.ogg"
  {
    var r := Role("container_demuxer", "ogg");
    assert r == "container_demuxer.ogg";
    assert ComponentName("container_demuxer", "ogg") == VENDOR_PREFIX + r;
  }

  /** The decoder's component name spelled out. */
  lemma DecoderName()
    ensures ComponentName("audio_decoder", "vorbis") == "OMX.Aratelia.audio_decoder.vorbis"
  {
    var r := Role("audio_decoder", "vorbis");
    assert r == "audio_decoder.vorbis";
    assert ComponentName("audio_decoder", "vorbis") == VENDOR_PREFIX + r;
  }

  /** The renderer's component name spelled out: the non-blocking PCM renderer. */
  lemma RendererName()
    ensures ComponentName("audio_renderer_nb", "pcm") == "OMX.Aratelia.audio_renderer_nb.pcm"
  {
    var r := Role("audio_renderer_nb", "pcm");
    assert r == "audio_renderer_nb.pcm";
    assert ComponentName("audio_renderer_nb", "pcm") == VENDOR_PREFIX + r;
  }

  /** The names do_init lists are exactly the component and role strings of the graph. */
  lemma DoInitNames()
    ensures DoInit().components ==
              ["OMX.Aratelia.container_demuxer.ogg",
               "OMX.Aratelia.audio_decoder.vorbis",
               "OMX.Aratelia.audio_renderer_nb.pcm"]
    ensures DoInit().roles == ["container_demuxer.ogg", "audio_decoder.vorbis", "audio_renderer.pcm"]
  {
    RoleNames();
    DemuxerName();
    DecoderName();
    RendererName();
  }

  /** OMX_AUDIO_CODINGTYPE, reduced to the one value the graph tests for. */
  datatype AudioCoding = CodingVorbis | CodingOther(code: nat)

  /** The two fields of OMX_AUDIO_PARAM_VORBISTYPE the graph compares. */
  datatype VorbisSettings = VorbisSettings(sampleRate: nat, channels: nat)

  /** What probing a file reported: its URI, domain, audio coding and Vorbis stream settings. */
  datatype Probe = Probe(uri: string, domain: PortDomain, coding: AudioCoding, vorbis: VorbisSettings)

  /** A SetParameter(OMX_IndexParamAudioVorbis) request: target component, port index, settings. */
  datatype VorbisRequest = VorbisRequest(handle: nat, port: nat, settings: VorbisSettings)

  /** The port commands a graph waits for completion events of. */
  datatype PortCommand = PortDisable | PortEnable

  /** One expected port transition: the component, its port and the command. */
  datatype PortTransition = PortTransition(handle: nat, port: nat, command: PortCommand)

  /** The demuxer's video port, which an audio-only graph disables. */
  const DEMUXER_VIDEO_PORT: nat := 1

  /** Whether a file probed as `p` can be played by this graph. */
  predicate Playable(p: Probe)
  {
    p.domain == Audio && p.coding == CodingVorbis
  }

  /**
   * Whether the decoder's output port will announce new settings once the
   * probed settings replace `orig`: its sample rate or channel count changes.
   */
  predicate SettingsChange(orig: VorbisSettings, probed: VorbisSettings)
  {
    orig.sampleRate != probed.sampleRate || orig.channels != probed.channels
  }

  /**
   * vorbisdecops: the graph operations of the Vorbis graph. The handles,
   * the play list and the current file index belong to the generic
   * operations base class, which fills them in while loading; here they are
   * given at construction. `errorCode` is the last error recorded by a
   * bailing operation.
   */
  class VorbisDecOps {
    const compList: seq<string>
    const roleList: seq<string>
    const handles: seq<nat>
    const fileList: seq<string>
    var currentFileIndex: nat
    var probe: Option<Probe>
    var needPortSettingsChangedEvt: bool
    var expectedTransitions: seq<PortTransition>
    var errorCode: OmxError

    constructor (compList: seq<string>, roleList: seq<string>, handles: seq<nat>, fileList: seq<string>)
      ensures this.compList == compList && this.roleList == roleList
      ensures this.handles == handles && this.fileList == fileList
      ensures currentFileIndex == 0 && probe.None?
      ensures !needPortSettingsChangedEvt
      ensures expectedTransitions == [] && errorCode == ErrorNone
    {
      this.compList := compList;
      this.roleList := roleList;
      this.handles := handles;
      this.fileList := fileList;
      currentFileIndex := 0;
      probe := None;
      needPortSettingsChangedEvt := false;
      expectedTransitions := [];
      errorCode := ErrorNone;
    }

    /** is_port_settings_evt_required: what the last settings update decided. */
    function IsPortSettingsEvtRequired(): (r: bool)
      reads this
      ensures r <==> needPortSettingsChangedEvt
    {
      needPortSettingsChangedEvt
    }

    /** is_disabled_evt_required: disabling the video port always completes with an event. */
    function IsDisabledEvtRequired(): (r: bool)
      ensures r
    {
      true
    }

    /**
     * do_disable_ports: ask the demuxer to disable its video port; once it
     * accepted, the only transition the graph waits for is that port's
     * disable. `disableRc` is what the disable request returned.
     */
    method DoDisablePorts(disableRc: OmxError)
      requires |handles| >= 1
      modifies this
      ensures disableRc != ErrorNone ==>
                errorCode == disableRc && expectedTransitions == old(expectedTransitions)
      ensures disableRc == ErrorNone ==>
                && expectedTransitions == [PortTransition(handles[0], DEMUXER_VIDEO_PORT, PortDisable)]
                && errorCode == old(errorCode)
      ensures probe == old(probe) && currentFileIndex == old(currentFileIndex)
      ensures needPortSettingsChangedEvt == old(needPortSettingsChangedEvt)
    {
      if disableRc != ErrorNone {
        errorCode := disableRc;
        return;
      }
      expectedTransitions := [];
      expectedTransitions := expectedTransitions + [PortTransition(handles[0], DEMUXER_VIDEO_PORT, PortDisable)];
    }

    /**
     * probe_uri: probe the file at `uriIndex` of the play list; `probed` is
     * what probing that file reports. An empty entry keeps the previous
     * probe and succeeds; otherwise the new probe replaces the old one even
     * when the file turns out not to be Ogg/Vorbis audio.
     */
    method ProbeUri(uriIndex: nat, probed: Probe) returns (rc: OmxError)
      requires uriIndex < |fileList|
      requires probed.uri == fileList[uriIndex]
      modifies this
      ensures fileList[uriIndex] == [] ==> rc == ErrorNone && probe == old(probe)
      ensures fileList[uriIndex] != [] ==> probe == Some(probed)
      ensures fileList[uriIndex] != [] ==> (rc == ErrorNone <==> Playable(probed))
      ensures rc == ErrorNone || rc == ErrorContentURIError
      ensures needPortSettingsChangedEvt == old(needPortSettingsChangedEvt)
      ensures expectedTransitions == old(expectedTransitions) && errorCode == old(errorCode)
      ensures currentFileIndex == old(currentFileIndex)
    {
      var uri := fileList[uriIndex];
      if uri != [] {
        probe := None;
        probe := Some(probed);
        if probe.value.domain != Audio || probe.value.coding != CodingVorbis {
          return ErrorContentURIError;
        }
      }
      return ErrorNone;
    }

    /**
     * set_vorbis_settings: read the decoder's current Vorbis settings
     * (`getRc`, `orig`), send it the probed ones on port 0 (`setRc`), and
     * record whether the decoder's output will announce new settings. Either
     * failing call's error is returned as is, with the flag untouched.
     */
    method SetVorbisSettings(getRc: OmxError, orig: VorbisSettings, setRc: OmxError)
      returns (rc: OmxError, sent: Option<VorbisRequest>)
      requires |handles| >= 2 && (getRc == ErrorNone ==> probe.Some?)
      modifies this
      ensures probe == old(probe) && currentFileIndex == old(currentFileIndex)
      ensures getRc != ErrorNone ==> rc == getRc && sent.None?
      ensures getRc == ErrorNone ==> sent == Some(VorbisRequest(handles[1], 0, probe.value.vorbis))
      ensures getRc == ErrorNone ==> rc == setRc
      ensures rc == ErrorNone ==>
                needPortSettingsChangedEvt == SettingsChange(orig, probe.value.vorbis)
      ensures rc != ErrorNone ==> needPortSettingsChangedEvt == old(needPortSettingsChangedEvt)
      ensures expectedTransitions == old(expectedTransitions) && errorCode == old(errorCode)
    {
      if getRc != ErrorNone {
        return getRc, None;
      }
      var settings := probe.value.vorbis;
      sent := Some(VorbisRequest(handles[1], 0, settings));
      if setRc != ErrorNone {
        return setRc, sent;
      }
      if orig.sampleRate != settings.sampleRate || orig.channels != settings.channels {
        needPortSettingsChangedEvt := true;
      } else {
        needPortSettingsChangedEvt := false;
      }
      rc := ErrorNone;
    }

    /**
     * do_probe: probe the current file and hand its settings to the
     * decoder, recording the first error and stopping there. An empty
     * play-list entry reuses the previous probe, which must exist by the
     * time the decoder's settings have been read.
     */
    method DoProbe(probed: Probe, getRc: OmxError, orig: VorbisSettings, setRc: OmxError)
      requires currentFileIndex < |fileList| && |handles| >= 2
      requires probed.uri == fileList[currentFileIndex]
      requires fileList[currentFileIndex] == [] && getRc == ErrorNone ==> probe.Some?
      modifies this
      ensures currentFileIndex == old(currentFileIndex)
      ensures fileList[currentFileIndex] != [] ==> probe == Some(probed)
      ensures fileList[currentFileIndex] == [] ==> probe == old(probe)
      ensures fileList[currentFileIndex] != [] && !Playable(probed) ==>
                errorCode == ErrorContentURIError
                && needPortSettingsChangedEvt == old(needPortSettingsChangedEvt)
      ensures (fileList[currentFileIndex] == [] || Playable(probed)) ==>
                && (getRc != ErrorNone ==>
                      errorCode == getRc && needPortSettingsChangedEvt == old(needPortSettingsChangedEvt))
                && (getRc == ErrorNone ==> probe.Some?)
                && (getRc == ErrorNone && setRc != ErrorNone ==>
                      errorCode == setRc && needPortSettingsChangedEvt == old(needPortSettingsChangedEvt))
                && (getRc == ErrorNone && setRc == ErrorNone ==>
                      && errorCode == old(errorCode)
                      && needPortSettingsChangedEvt == SettingsChange(orig, probe.value.vorbis))
      ensures expectedTransitions == old(expectedTransitions)
    {
      var rc := ProbeUri(currentFileIndex, probed);
      if rc != ErrorNone {
        errorCode := rc;
        return;
      }
      var sent;
      rc, sent := SetVorbisSettings(getRc, orig, setRc);
      if rc != ErrorNone {
        errorCode := rc;
        return;
      }
    }
  }
}
