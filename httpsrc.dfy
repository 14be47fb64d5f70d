/**
 * The HTTP source processor (httpsrcprc): an output-only processor that
 * fills the headers of its single port with data that libcurl hands it,
 * driven by socket and timer watchers registered with the component's
 * event loop. libcurl's multi interface is opaque here: each hook that calls
 * curl_multi_socket_action reports the call as the `SocketAction` it hands
 * to libcurl, is given the list of callbacks (write, socket, timer) libcurl
 * makes from inside that call, which run in place at the call site, and is
 * given whether libcurl accepted the call.
 */
module HttpSource {
  import opened Omx
  import opened Runtime

  /** ARATELIA_HTTP_SOURCE_PORT_INDEX: the processor's only (output) port. */
  const PORT_INDEX: nat := 0

  /** CURL_SOCKET_TIMEOUT, the socket argument that means "a timeout fired". */
  const CURL_SOCKET_TIMEOUT: int := -1
  /** CURL_CSELECT_IN and CURL_CSELECT_OUT, the readiness bits handed to libcurl. */
  const CURL_CSELECT_IN: bv8 := 0x01
  const CURL_CSELECT_OUT: bv8 := 0x02

  /** The readiness a socket watcher reports or is set to wait for (TIZ_EVENT_*). */
  datatype IoEvent = Read | Write | ReadOrWrite

  /** What the socket watcher is set to watch (tiz_event_io_set). */
  datatype IoWatch = IoWatch(fd: int, events: IoEvent)

  /** One call of curl_multi_socket_action: the socket and the readiness bits. */
  datatype SocketAction = SocketAction(fd: int, mask: bv8)

  /** The readiness bits io_ready hands to libcurl for the events the loop reported. */
  function CurlEventMask(events: IoEvent): (mask: bv8)
    ensures mask & CURL_CSELECT_IN != 0 <==> events == Read || events == ReadOrWrite
    ensures mask & CURL_CSELECT_OUT != 0 <==> events == Write || events == ReadOrWrite
    ensures mask & !(CURL_CSELECT_IN | CURL_CSELECT_OUT) == 0
  {
    var inBit := if events == Read || events == ReadOrWrite then CURL_CSELECT_IN else 0;
    var outBit := if events == Write || events == ReadOrWrite then CURL_CSELECT_OUT else 0;
    inBit | outBit
  }

  /** The processor's fields, as one value, to say what a hook leaves alone. */
  datatype PrcState = PrcState(
    outHdr: Option<Header>,
    eos: bool,
    portDisabled: bool,
    firstBuffer: bool,
    sockfd: int,
    awaitingIoEv: bool,
    awaitingTimerEv: bool,
    curlTimeoutMs: int,
    ioWatch: Option<IoWatch>,
    timerDelayMs: int)

  /**
   * What delivering `nbytes` does to the kernel's pool: nothing while the
   * port is disabled; otherwise the held header, or failing that one claimed
   * from the port's pool, is returned through the port with nFilledLen
   * `nbytes`; nothing when neither exists.
   */
  ghost predicate Delivered(held: Option<Header>, disabled: bool, numPorts: nat, nbytes: nat,
                            loc0: map<nat, Loc>, store0: map<nat, Header>,
                            loc1: map<nat, Loc>, store1: map<nat, Header>)
  {
    if disabled then
      loc1 == loc0 && store1 == store0
    else if held.Some? then
      && loc1 == loc0[held.value.id := Returned(PORT_INDEX)]
      && store1 == store0[held.value.id := held.value.(filledLen := nbytes)]
    else if PORT_INDEX < numPorts && Where(loc0, Pooled(PORT_INDEX)) != {} then
      exists id :: id in Where(loc0, Pooled(PORT_INDEX)) && id in store0
        && loc1 == loc0[id := Returned(PORT_INDEX)]
        && store1 == store0[id := store0[id].(filledLen := nbytes)]
    else
      loc1 == loc0 && store1 == store0
  }

  /**
   * One callback libcurl makes from inside curl_multi_socket_action: the
   * write callback with a byte count, the socket callback with a socket and
   * its poll action, or the timer callback with a timeout in milliseconds.
   */
  datatype CurlCallback = WriteCb(nbytes: nat) | SocketCb(s: int, action: int) | TimerCb(ms: int)

  /** The processor's fields together with the kernel's pool, at one moment. */
  datatype Moment = Moment(prc: PrcState, loc: map<nat, Loc>, store: map<nat, Header>)

  /**
   * What one callback does, from moment `m0` to moment `m1`, on a component
   * with `numPorts` ports: curl_write_cback, curl_socket_cback or
   * curl_timer_cback respectively.
   */
  ghost predicate CallbackStep(cb: CurlCallback, numPorts: nat, m0: Moment, m1: Moment)
  {
    match cb
    case WriteCb(n) =>
      if n == 0 then m1 == m0
      else
        && m1.prc == m0.prc.(awaitingIoEv := false, ioWatch := Some(IoWatch(m0.prc.sockfd, Read)),
                             outHdr := if m0.prc.portDisabled then m0.prc.outHdr else None)
        && Delivered(m0.prc.outHdr, m0.prc.portDisabled, numPorts, n, m0.loc, m0.store, m1.loc, m1.store)
    case SocketCb(s, _) =>
      m1 == if m0.prc.sockfd == -1
            then m0.(prc := m0.prc.(sockfd := s, ioWatch := Some(IoWatch(s, ReadOrWrite)), awaitingIoEv := true))
            else m0
    case TimerCb(ms) =>
      m1 == if ms < 0
            then m0.(prc := m0.prc.(awaitingTimerEv := false, curlTimeoutMs := 0))
            else m0.(prc := m0.prc.(curlTimeoutMs := ms, awaitingTimerEv := true, timerDelayMs := ms))
  }

  /**
   * `trace` lists the moments between the callbacks `cbs` that one
   * curl_multi_socket_action call makes, in the order libcurl makes them.
   */
  ghost predicate Ran(cbs: seq<CurlCallback>, numPorts: nat, trace: seq<Moment>)
  {
    && |trace| == |cbs| + 1
    && forall k :: 0 <= k < |cbs| ==> CallbackStep(cbs[k], numPorts, trace[k], trace[k + 1])
  }

  /**
   * Writing `n` bytes fits the held header and every header still in port
   * 0's pool, whichever of them curl_write_cback ends up writing into.
   */
  ghost predicate FitsAt(held: Option<Header>, loc: map<nat, Loc>, store: map<nat, Header>, n: nat)
  {
    && (held.Some? ==> held.value.offset + n <= held.value.allocLen)
    && forall id :: id in loc && loc[id] == Pooled(PORT_INDEX) && id in store ==>
         store[id].offset + n <= store[id].allocLen
  }

  /** A delivery takes the header it writes out of reach: what fitted before still fits. */
  lemma DeliveryKeepsFit(held: Option<Header>, disabled: bool, numPorts: nat, n: nat,
                         loc0: map<nat, Loc>, store0: map<nat, Header>,
                         loc1: map<nat, Loc>, store1: map<nat, Header>, m: nat)
    requires held.Some? ==> held.value.id in loc0 && loc0[held.value.id] == Claimed(PORT_INDEX)
    requires Delivered(held, disabled, numPorts, n, loc0, store0, loc1, store1)
    requires FitsAt(held, loc0, store0, m)
    ensures FitsAt(if disabled then held else None, loc1, store1, m)
  {
    if !disabled && held.None? && PORT_INDEX < numPorts && Where(loc0, Pooled(PORT_INDEX)) != {} {
      var id :| id in Where(loc0, Pooled(PORT_INDEX)) && id in store0
        && loc1 == loc0[id := Returned(PORT_INDEX)]
        && store1 == store0[id := store0[id].(filledLen := n)];
      forall j | j in loc1 && loc1[j] == Pooled(PORT_INDEX) && j in store1
        ensures store1[j].offset + m <= store1[j].allocLen
      {
        assert j != id && loc0[j] == Pooled(PORT_INDEX);
      }
    }
  }

  /** Every write from the `from`-th callback on fits. */
  ghost predicate FitFrom(held: Option<Header>, loc: map<nat, Loc>, store: map<nat, Header>,
                          cbs: seq<CurlCallback>, from: nat)
  {
    forall k :: from <= k < |cbs| && cbs[k].WriteCb? ==> FitsAt(held, loc, store, cbs[k].nbytes)
  }

  lemma DeliveryKeepsFitFrom(held: Option<Header>, disabled: bool, numPorts: nat, n: nat,
                             loc0: map<nat, Loc>, store0: map<nat, Header>,
                             loc1: map<nat, Loc>, store1: map<nat, Header>,
                             cbs: seq<CurlCallback>, from: nat)
    requires held.Some? ==> held.value.id in loc0 && loc0[held.value.id] == Claimed(PORT_INDEX)
    requires Delivered(held, disabled, numPorts, n, loc0, store0, loc1, store1)
    requires FitFrom(held, loc0, store0, cbs, from)
    ensures FitFrom(if disabled then held else None, loc1, store1, cbs, from)
  {
    forall k | from <= k < |cbs| && cbs[k].WriteCb?
      ensures FitsAt(if disabled then held else None, loc1, store1, cbs[k].nbytes)
    {
      DeliveryKeepsFit(held, disabled, numPorts, n, loc0, store0, loc1, store1, cbs[k].nbytes);
    }
  }

  /**
   * The callbacks libcurl makes never touch first_buffer_, eos or the
   * port-disabled flag, and once a socket is recorded it stays recorded.
   */
  lemma {:induction false} CallbacksKeep(cbs: seq<CurlCallback>, numPorts: nat, trace: seq<Moment>, i: nat)
    requires Ran(cbs, numPorts, trace) && i <= |cbs|
    ensures trace[i].prc.firstBuffer == trace[0].prc.firstBuffer
    ensures trace[i].prc.eos == trace[0].prc.eos
    ensures trace[i].prc.portDisabled == trace[0].prc.portDisabled
    ensures trace[0].prc.sockfd != -1 ==> trace[i].prc.sockfd == trace[0].prc.sockfd
  {
    if i > 0 {
      CallbacksKeep(cbs, numPorts, trace, i - 1);
      assert CallbackStep(cbs[i - 1], numPorts, trace[i - 1], trace[i]);
    }
  }

  class HttpSrcPrc {
    /** The component's kernel, through which headers are claimed and released. */
    const krn: Kernel

    /** p_outhdr_: the one output header the processor holds, if any. */
    var outHdr: Option<Header>
    var eos: bool
    var portDisabled: bool
    /** first_buffer_: the transfer has not been kicked off yet. */
    var firstBuffer: bool
    /** sockfd_: the socket libcurl registered first, -1 before that. */
    var sockfd: int
    var awaitingIoEv: bool
    var awaitingTimerEv: bool
    /** curl_timeout_, in milliseconds. */
    var curlTimeoutMs: int
    /** The socket watcher's setting and the timer watcher's delay (ms). */
    var ioWatch: Option<IoWatch>
    var timerDelayMs: int

    function Snapshot(): PrcState
      reads this
    {
      PrcState(outHdr, eos, portDisabled, firstBuffer, sockfd, awaitingIoEv,
               awaitingTimerEv, curlTimeoutMs, ioWatch, timerDelayMs)
    }

    /** The processor's fields and the kernel's pool, now. */
    function Now(): Moment
      reads this, krn
    {
      Moment(Snapshot(), krn.loc, krn.store)
    }

    /** Every write among `cbs` fits whichever header it lands in. */
    ghost predicate WritesFit(cbs: seq<CurlCallback>)
      reads this, krn
    {
      FitFrom(outHdr, krn.loc, krn.store, cbs, 0)
    }

    /** The ids of the headers the processor holds: none or one. */
    function Held(): (ids: set<nat>)
      reads this
      ensures |ids| <= 1
    {
      if outHdr.Some? then {outHdr.value.id} else {}
    }

    /**
     * The processor is the only claimer on its port: the headers the kernel
     * counts as claimed there are exactly the one it holds, if any.
     */
    ghost predicate Valid()
      reads this, krn
    {
      && krn.Valid()
      && krn.At(Claimed(PORT_INDEX)) == Held()
    }

    /** httpsrc_prc_ctor */
    constructor (krn: Kernel)
      requires krn.Valid() && krn.At(Claimed(PORT_INDEX)) == {}
      ensures Valid() && this.krn == krn
      ensures Snapshot() == PrcState(None, false, false, true, -1, false, false, 0, None, 0)
    {
      this.krn := krn;
      outHdr := None;
      eos := false;
      portDisabled := false;
      firstBuffer := true;
      sockfd := -1;
      awaitingIoEv := false;
      awaitingTimerEv := false;
      curlTimeoutMs := 0;
      ioWatch := None;
      timerDelayMs := 0;
    }

    /** start_io_watcher */
    method StartIoWatcher()
      modifies this
      ensures Snapshot() == old(Snapshot()).(awaitingIoEv := true)
    {
      awaitingIoEv := true;
    }

    /** stop_io_watcher */
    method StopIoWatcher()
      modifies this
      ensures Snapshot() == old(Snapshot()).(awaitingIoEv := false)
    {
      awaitingIoEv := false;
    }

    /** start_timer_watcher: arm the timer with the current curl timeout. */
    method StartTimerWatcher()
      modifies this
      ensures Snapshot() == old(Snapshot()).(awaitingTimerEv := true, timerDelayMs := old(curlTimeoutMs))
    {
      awaitingTimerEv := true;
      timerDelayMs := curlTimeoutMs;
    }

    /** restart_timer_watcher: re-arm the timer with its current delay. */
    method RestartTimerWatcher()
      modifies this
      ensures Snapshot() == old(Snapshot()).(awaitingTimerEv := true)
    {
      awaitingTimerEv := true;
    }

    /** stop_timer_watcher */
    method StopTimerWatcher()
      modifies this
      ensures Snapshot() == old(Snapshot()).(awaitingTimerEv := false)
    {
      awaitingTimerEv := false;
    }

    /**
     * release_buffer: hand the held header back through port 0; nothing to
     * do (and success) when none is held.
     */
    method ReleaseBuffer() returns (rc: OmxError)
      requires Valid()
      modifies this, krn
      ensures Valid() && rc == ErrorNone
      ensures Snapshot() == old(Snapshot()).(outHdr := None)
      ensures old(outHdr).None? ==> krn.loc == old(krn.loc) && krn.store == old(krn.store)
      ensures old(outHdr).Some? ==>
                && krn.loc == old(krn.loc)[old(outHdr).value.id := Returned(PORT_INDEX)]
                && krn.store == old(krn.store)[old(outHdr).value.id := old(outHdr).value]
    {
      rc := ErrorNone;
      if outHdr.Some? {
        rc := krn.Release(PORT_INDEX, outHdr.value);
        WhereUpdate(old(krn.loc), outHdr.value.id, Returned(PORT_INDEX), Claimed(PORT_INDEX));
        if rc == ErrorNone {
          outHdr := None;
        }
      }
    }

    /**
     * buffer_needed: the header to write into. None while the port is
     * disabled; the held header if there is one; otherwise one freshly
     * claimed from port 0, if its pool has any.
     */
    method BufferNeeded() returns (h: Option<Header>)
      requires Valid()
      modifies this, krn
      ensures Valid() && krn.store == old(krn.store)
      ensures Snapshot() == old(Snapshot()).(outHdr := outHdr)
      ensures h.Some? ==> h == outHdr
      ensures portDisabled ==> h.None? && outHdr == old(outHdr) && krn.loc == old(krn.loc)
      ensures !portDisabled && old(outHdr).Some? ==> h == old(outHdr) && krn.loc == old(krn.loc)
      ensures !portDisabled && old(outHdr).None? ==>
                if PORT_INDEX < krn.numPorts && old(krn.At(Pooled(PORT_INDEX))) != {} then
                  && h.Some?
                  && h.value.id in old(krn.At(Pooled(PORT_INDEX)))
                  && h.value == krn.store[h.value.id]
                  && krn.loc == old(krn.loc)[h.value.id := Claimed(PORT_INDEX)]
                else
                  h.None? && outHdr.None? && krn.loc == old(krn.loc)
    {
      if !portDisabled {
        if outHdr.Some? {
          return outHdr;
        }
        var rc, claimed := krn.Claim(PORT_INDEX);
        if rc == ErrorNone {
          outHdr := claimed;
          if claimed.Some? {
            WhereUpdate(old(krn.loc), claimed.value.id, Claimed(PORT_INDEX), Claimed(PORT_INDEX));
            return claimed;
          }
        }
      }
      return None;
    }

    /** The memcpy of curl_write_cback fits in the header it would write into. */
    ghost predicate WriteFits(nbytes: nat)
      reads this, krn
    {
      && (outHdr.Some? ==> outHdr.value.offset + nbytes <= outHdr.value.allocLen)
      && (outHdr.None? ==>
            forall id :: id in krn.loc && krn.loc[id] == Pooled(PORT_INDEX) && id in krn.store ==>
              krn.store[id].offset + nbytes <= krn.store[id].allocLen)
    }

    /**
     * The data-delivery part of curl_write_cback: the header buffer_needed
     * yields gets nFilledLen `nbytes` and is released.
     */
    method DeliverBytes(nbytes: nat)
      requires Valid()
      modifies this, krn
      ensures Valid()
      ensures Snapshot() == old(Snapshot()).(outHdr := outHdr)
      ensures outHdr == if portDisabled then old(outHdr) else None
      ensures Delivered(old(outHdr), portDisabled, krn.numPorts, nbytes,
                        old(krn.loc), old(krn.store), krn.loc, krn.store)
    {
      ghost var held, loc0, store0 := outHdr, krn.loc, krn.store;
      var out := BufferNeeded();
      if out.Some? {
        var h := out.value;
        outHdr := Some(h.(filledLen := nbytes));
        var _ := ReleaseBuffer();
        assert krn.store == store0[h.id := h.(filledLen := nbytes)];
        assert held.None? ==> h == store0[h.id];
      }
    }

    /**
     * curl_write_cback: libcurl delivers `nbytes` bytes. The socket watcher
     * is switched to read interest, the bytes go into the header
     * buffer_needed yields, which is then released with nFilledLen set to
     * `nbytes`; all bytes are always reported as taken.
     */
    method WriteCallback(nbytes: nat) returns (taken: nat)
      requires Valid()
      requires nbytes > 0 && !portDisabled ==> WriteFits(nbytes)
      modifies this, krn
      ensures Valid() && taken == nbytes
      ensures nbytes == 0 ==> Snapshot() == old(Snapshot()) && krn.loc == old(krn.loc) && krn.store == old(krn.store)
      ensures nbytes > 0 ==>
                && Snapshot() == old(Snapshot()).(awaitingIoEv := false, ioWatch := Some(IoWatch(old(sockfd), Read)), outHdr := outHdr)
                && outHdr == (if portDisabled then old(outHdr) else None)
                && Delivered(old(outHdr), portDisabled, krn.numPorts, nbytes,
                             old(krn.loc), old(krn.store), krn.loc, krn.store)
    {
      if nbytes > 0 {
        StopIoWatcher();
        ioWatch := Some(IoWatch(sockfd, Read));
        DeliverBytes(nbytes);
      }
      taken := nbytes;
    }

    /**
     * curl_socket_cback: only the first socket libcurl reports is recorded
     * and watched (for read or write); later calls change nothing.
     */
    method SocketCallback(s: int, action: int) returns (r: int)
      modifies this
      ensures r == 0
      ensures old(sockfd) == -1 ==>
                Snapshot() == old(Snapshot()).(sockfd := s, ioWatch := Some(IoWatch(s, ReadOrWrite)), awaitingIoEv := true)
      ensures old(sockfd) != -1 ==> Snapshot() == old(Snapshot())
    {
      if sockfd == -1 {
        sockfd := s;
        ioWatch := Some(IoWatch(s, ReadOrWrite));
        StartIoWatcher();
      }
      r := 0;
    }

    /**
     * curl_timer_cback: a negative timeout stops the timer and zeroes the
     * stored timeout; any other one is stored and the timer armed with it.
     */
    method TimerCallback(timeoutMs: int) returns (r: int)
      modifies this
      ensures r == 0
      ensures timeoutMs < 0 ==> Snapshot() == old(Snapshot()).(awaitingTimerEv := false, curlTimeoutMs := 0)
      ensures timeoutMs >= 0 ==>
                Snapshot() == old(Snapshot()).(curlTimeoutMs := timeoutMs, awaitingTimerEv := true, timerDelayMs := timeoutMs)
    {
      if timeoutMs < 0 {
        StopTimerWatcher();
        curlTimeoutMs := 0;
      } else {
        curlTimeoutMs := timeoutMs;
        StartTimerWatcher();
      }
      r := 0;
    }

    /** httpsrc_prc_prepare_to_transfer: reset the transfer state. */
    method PrepareToTransfer(pid: nat) returns (rc: OmxError)
      modifies this
      ensures rc == ErrorNone
      ensures Snapshot() == old(Snapshot()).(eos := false, firstBuffer := true, sockfd := -1,
                                             awaitingIoEv := false, awaitingTimerEv := false, curlTimeoutMs := 0)
    {
      eos := false;
      firstBuffer := true;
      sockfd := -1;
      awaitingIoEv := false;
      awaitingTimerEv := false;
      curlTimeoutMs := 0;
      rc := ErrorNone;
    }

    /** httpsrc_prc_transfer_and_process: nothing to do. */
    method TransferAndProcess(pid: nat) returns (rc: OmxError)
      ensures rc == ErrorNone
    {
      rc := ErrorNone;
    }

    /**
     * httpsrc_prc_stop_and_return: both watchers stopped, the held header
     * (if any) handed back.
     */
    method StopAndReturn() returns (rc: OmxError)
      requires Valid()
      modifies this, krn
      ensures Valid() && rc == ErrorNone
      ensures Snapshot() == old(Snapshot()).(awaitingIoEv := false, awaitingTimerEv := false, outHdr := None)
      ensures krn.At(Claimed(PORT_INDEX)) == {}
      ensures old(outHdr).None? ==> krn.loc == old(krn.loc) && krn.store == old(krn.store)
      ensures old(outHdr).Some? ==>
                && krn.loc == old(krn.loc)[old(outHdr).value.id := Returned(PORT_INDEX)]
                && krn.store == old(krn.store)[old(outHdr).value.id := old(outHdr).value]
    {
      StopIoWatcher();
      StopTimerWatcher();
      rc := ReleaseBuffer();
    }

    /** curl_write_cback as one step of a callback trace; later writes still fit. */
    method WriteStep(n: nat, ghost cbs: seq<CurlCallback>, ghost from: nat)
      requires Valid() && FitsAt(outHdr, krn.loc, krn.store, n)
      requires FitFrom(outHdr, krn.loc, krn.store, cbs, from)
      modifies this, krn
      ensures Valid() && CallbackStep(WriteCb(n), krn.numPorts, old(Now()), Now())
      ensures FitFrom(outHdr, krn.loc, krn.store, cbs, from)
    {
      ghost var m0 := Now();
      var _ := WriteCallback(n);
      if n > 0 {
        DeliveryKeepsFitFrom(m0.prc.outHdr, m0.prc.portDisabled, krn.numPorts, n, m0.loc, m0.store,
                             krn.loc, krn.store, cbs, from);
      }
    }

    /**
     * The `i`-th callback libcurl makes: one step as `CallbackStep` says,
     * after which every later write still fits.
     */
    method RunCallback(cbs: seq<CurlCallback>, i: nat)
      requires Valid() && i < |cbs| && FitFrom(outHdr, krn.loc, krn.store, cbs, i)
      modifies this, krn
      ensures Valid() && CallbackStep(cbs[i], krn.numPorts, old(Now()), Now())
      ensures FitFrom(outHdr, krn.loc, krn.store, cbs, i + 1)
    {
      match cbs[i] {
        case WriteCb(n) =>
          WriteStep(n, cbs, i + 1);
        case SocketCb(s, a) =>
          var _ := SocketCallback(s, a);
        case TimerCb(ms) =>
          var _ := TimerCallback(ms);
      }
    }

    /**
     * curl_multi_socket_action, as far as it concerns the processor: libcurl
     * makes the callbacks `cbs`, in order, before the call returns.
     */
    method SocketActionCallbacks(cbs: seq<CurlCallback>) returns (ghost trace: seq<Moment>)
      requires Valid() && WritesFit(cbs)
      modifies this, krn
      ensures Valid()
      ensures Ran(cbs, krn.numPorts, trace) && trace[0] == old(Now()) && trace[|cbs|] == Now()
    {
      trace := [Now()];
      var i := 0;
      while i < |cbs|
        invariant i <= |cbs| && Valid()
        invariant |trace| == i + 1 && trace[0] == old(Now()) && trace[i] == Now()
        invariant forall k :: 0 <= k < i ==> CallbackStep(cbs[k], krn.numPorts, trace[k], trace[k + 1])
        invariant FitFrom(outHdr, krn.loc, krn.store, cbs, i)
      {
        RunCallback(cbs, i);
        trace := trace + [Now()];
        i := i + 1;
      }
    }

    /**
     * httpsrc_prc_buffers_ready: the first call after prepare_to_transfer
     * starts the curl handles (`startRc` is start_curl_handles' result) and
     * kicks libcurl with a timeout action, during which libcurl makes the
     * callbacks `cbs`; `curlOk` is whether libcurl accepted the action. Only
     * a fully successful kick-off clears first_buffer_.
     */
    method BuffersReady(startRc: OmxError, cbs: seq<CurlCallback>, curlOk: bool)
      returns (rc: OmxError, action: Option<SocketAction>, ghost trace: seq<Moment>)
      requires Valid() && WritesFit(cbs)
      modifies this, krn
      ensures Valid()
      ensures !old(firstBuffer) ==> rc == ErrorNone && action.None? && Now() == old(Now())
      ensures old(firstBuffer) && startRc != ErrorNone ==>
                rc == startRc && action.None? && Now() == old(Now())
      ensures old(firstBuffer) && startRc == ErrorNone ==>
                && action == Some(SocketAction(CURL_SOCKET_TIMEOUT, 0))
                && Ran(cbs, krn.numPorts, trace) && trace[0] == old(Now())
                && rc == (if curlOk then ErrorNone else ErrorInsufficientResources)
                && Now() == (var last := trace[|cbs|];
                             if curlOk then last.(prc := last.prc.(firstBuffer := false)) else last)
    {
      rc, action, trace := ErrorNone, None, [];
      if firstBuffer {
        if startRc != ErrorNone {
          return startRc, None, [];
        }
        action := Some(SocketAction(CURL_SOCKET_TIMEOUT, 0));
        trace := SocketActionCallbacks(cbs);
        if !curlOk {
          return ErrorInsufficientResources, action, trace;
        }
        firstBuffer := false;
      }
    }

    /**
     * httpsrc_prc_io_ready: ignored unless the processor awaits socket
     * readiness. Otherwise the socket watcher is stopped, the timer re-armed,
     * libcurl told which of read/write is ready (making the callbacks `cbs`
     * meanwhile), and the socket watcher started again once libcurl has
     * accepted the action.
     */
    method IoReady(fd: int, events: IoEvent, cbs: seq<CurlCallback>, curlOk: bool)
      returns (rc: OmxError, action: Option<SocketAction>, ghost trace: seq<Moment>)
      requires Valid() && WritesFit(cbs)
      modifies this, krn
      ensures Valid()
      ensures !old(awaitingIoEv) ==> rc == ErrorNone && action.None? && Now() == old(Now())
      ensures old(awaitingIoEv) ==>
                && action == Some(SocketAction(fd, CurlEventMask(events)))
                && Ran(cbs, krn.numPorts, trace)
                && trace[0] == old(Now()).(prc := old(Snapshot()).(awaitingIoEv := false, awaitingTimerEv := true))
                && rc == (if curlOk then ErrorNone else ErrorInsufficientResources)
                && Now() == (var last := trace[|cbs|];
                             if curlOk then last.(prc := last.prc.(awaitingIoEv := true)) else last)
    {
      rc, action, trace := ErrorNone, None, [];
      if awaitingIoEv {
        var mask := CurlEventMask(events);
        StopIoWatcher();
        RestartTimerWatcher();
        action := Some(SocketAction(fd, mask));
        trace := SocketActionCallbacks(cbs);
        if !curlOk {
          return ErrorInsufficientResources, action, trace;
        }
        StartIoWatcher();
      }
    }

    /**
     * httpsrc_prc_timer_ready: ignored unless the processor awaits the
     * timer; otherwise the timer is re-armed and libcurl told that its
     * timeout expired, making the callbacks `cbs` meanwhile.
     */
    method TimerReady(cbs: seq<CurlCallback>, curlOk: bool)
      returns (rc: OmxError, action: Option<SocketAction>, ghost trace: seq<Moment>)
      requires Valid() && WritesFit(cbs)
      modifies this, krn
      ensures Valid()
      ensures !old(awaitingTimerEv) ==> rc == ErrorNone && action.None? && Now() == old(Now())
      ensures old(awaitingTimerEv) ==>
                && action == Some(SocketAction(CURL_SOCKET_TIMEOUT, 0))
                && Ran(cbs, krn.numPorts, trace) && trace[0] == old(Now())
                && rc == (if curlOk then ErrorNone else ErrorInsufficientResources)
                && Now() == trace[|cbs|]
    {
      rc, action, trace := ErrorNone, None, [];
      if awaitingTimerEv {
        RestartTimerWatcher();
        action := Some(SocketAction(CURL_SOCKET_TIMEOUT, 0));
        trace := SocketActionCallbacks(cbs);
        if !curlOk {
          return ErrorInsufficientResources, action, trace;
        }
      }
    }

    /** httpsrc_prc_pause, httpsrc_prc_resume and httpsrc_prc_port_enable: nothing to do. */
    method Pause() returns (rc: OmxError)
      ensures rc == ErrorNone
    {
      rc := ErrorNone;
    }

    method Resume() returns (rc: OmxError)
      ensures rc == ErrorNone
    {
      rc := ErrorNone;
    }

    method PortEnable(pid: nat) returns (rc: OmxError)
      ensures rc == ErrorNone
    {
      rc := ErrorNone;
    }

    /** httpsrc_prc_port_flush: the held header, if any, is handed back. */
    method PortFlush(pid: nat) returns (rc: OmxError)
      requires Valid()
      modifies this, krn
      ensures Valid() && rc == ErrorNone
      ensures Snapshot() == old(Snapshot()).(outHdr := None)
      ensures krn.At(Claimed(PORT_INDEX)) == {}
      ensures old(outHdr).None? ==> krn.loc == old(krn.loc) && krn.store == old(krn.store)
      ensures old(outHdr).Some? ==>
                && krn.loc == old(krn.loc)[old(outHdr).value.id := Returned(PORT_INDEX)]
                && krn.store == old(krn.store)[old(outHdr).value.id := old(outHdr).value]
    {
      rc := ReleaseBuffer();
    }

    /** httpsrc_prc_port_disable: the held header, if any, is handed back. */
    method PortDisable(pid: nat) returns (rc: OmxError)
      requires Valid()
      modifies this, krn
      ensures Valid() && rc == ErrorNone
      ensures Snapshot() == old(Snapshot()).(outHdr := None)
      ensures krn.At(Claimed(PORT_INDEX)) == {}
      ensures old(outHdr).None? ==> krn.loc == old(krn.loc) && krn.store == old(krn.store)
      ensures old(outHdr).Some? ==>
                && krn.loc == old(krn.loc)[old(outHdr).value.id := Returned(PORT_INDEX)]
                && krn.store == old(krn.store)[old(outHdr).value.id := old(outHdr).value]
    {
      rc := ReleaseBuffer();
    }
  }
}
