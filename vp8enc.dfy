/**
 * The VP8 encoder processor (vp8eprc): a two-port processor whose
 * buffers_ready hook pumps input headers (port 0) against output headers
 * (port 1). Its transform step is a no-op, so an input header is only ever
 * released when it arrives empty, and the output header it holds is only
 * released, flagged end-of-stream, once end of stream has been seen.
 */
module Vp8Encoder {
  import opened Omx
  import opened Runtime

  const INPUT_PORT: nat := 0
  const OUTPUT_PORT: nat := 1
  /** The encoder component's number of ports, the mask width passed to tiz_krn_select. */
  const NUM_PORTS: nat := 2

  /** The header with id `id` as it stood when the hook started: the held one, or the kernel's. */
  function Orig(held: Option<Header>, store0: map<nat, Header>, id: nat): Header
    requires id in store0
  {
    if held.Some? && held.value.id == id then held.value else store0[id]
  }

  /** The moves of one header that buffers_ready may make. */
  predicate Moved(before: Loc, after: Loc, eos: bool)
  {
    || after == before
    || (before == Pooled(INPUT_PORT) && (after == Claimed(INPUT_PORT) || after == Returned(INPUT_PORT)))
    || (before == Claimed(INPUT_PORT) && after == Returned(INPUT_PORT))
    || (before == Pooled(OUTPUT_PORT) && after == Claimed(OUTPUT_PORT))
    || (eos && (before == Pooled(OUTPUT_PORT) || before == Claimed(OUTPUT_PORT)) && after == Returned(OUTPUT_PORT))
  }

  /** The pump neither adds nor drops headers. */
  ghost predicate KeysKept(loc0: map<nat, Loc>, store0: map<nat, Header>, loc1: map<nat, Loc>, store1: map<nat, Header>)
  {
    loc1.Keys == loc0.Keys && store0.Keys == loc0.Keys && store1.Keys == loc1.Keys
  }

  /** Every header made only the moves above. */
  ghost predicate MovesOnly(loc0: map<nat, Loc>, loc1: map<nat, Loc>, eos: bool)
  {
    forall id :: id in loc1 && id in loc0 ==> Moved(loc0[id], loc1[id], eos)
  }

  /** A header that did not move is untouched. */
  ghost predicate StillKept(loc0: map<nat, Loc>, store0: map<nat, Header>, loc1: map<nat, Loc>, store1: map<nat, Header>)
  {
    forall id :: id in loc1 && id in loc0 && id in store0 && id in store1 && loc1[id] == loc0[id] ==>
      store1[id] == store0[id]
  }

  /** An input header newly returned on port 0 went back with nOffset reset to 0. */
  ghost predicate InputsReset(loc0: map<nat, Loc>, store0: map<nat, Header>, in0: Option<Header>,
                              loc1: map<nat, Loc>, store1: map<nat, Header>)
  {
    forall id :: id in loc1 && id in loc0 && id in store0 && id in store1 &&
                 loc1[id] == Returned(INPUT_PORT) && loc0[id] != Returned(INPUT_PORT) ==>
      store1[id] == Orig(in0, store0, id).(offset := 0)
  }

  /** An output header newly returned on port 1 went back with the EOS flag ORed in. */
  ghost predicate OutputsFlagged(loc0: map<nat, Loc>, store0: map<nat, Header>, out0: Option<Header>,
                                 loc1: map<nat, Loc>, store1: map<nat, Header>)
  {
    forall id :: id in loc1 && id in loc0 && id in store0 && id in store1 &&
                 loc1[id] == Returned(OUTPUT_PORT) && loc0[id] != Returned(OUTPUT_PORT) ==>
      store1[id] == WithEos(Orig(out0, store0, id))
  }

  /** The header held now is an unchanged copy of the one it was claimed as. */
  ghost predicate HeldOrig(store0: map<nat, Header>, held0: Option<Header>, held1: Option<Header>)
  {
    held1.Some? ==> held1.value.id in store0 && held1.value == Orig(held0, store0, held1.value.id)
  }

  /**
   * How the pool and the processor's headers after (part of) buffers_ready
   * relate to those before it: headers only make the moves above; an input
   * header returned on port 0 went back unchanged except for nOffset reset
   * to 0; an output header returned on port 1 went back with the EOS flag
   * ORed in; every header that did not move is untouched; and the headers
   * the processor now holds are unchanged copies of what it claimed.
   */
  ghost predicate Pumped(loc0: map<nat, Loc>, store0: map<nat, Header>, in0: Option<Header>, out0: Option<Header>,
                         loc1: map<nat, Loc>, store1: map<nat, Header>, in1: Option<Header>, out1: Option<Header>,
                         eos: bool)
  {
    && KeysKept(loc0, store0, loc1, store1)
    && MovesOnly(loc0, loc1, eos)
    && StillKept(loc0, store0, loc1, store1)
    && InputsReset(loc0, store0, in0, loc1, store1)
    && OutputsFlagged(loc0, store0, out0, loc1, store1)
    && HeldOrig(store0, in0, in1)
    && HeldOrig(store0, out0, out1)
  }

  /** The id of the header held, as a set. */
  function HeldIds(h: Option<Header>): (ids: set<nat>)
    ensures |ids| <= 1
    ensures forall id :: id in ids <==> h.Some? && h.value.id == id
  {
    if h.Some? then {h.value.id} else {}
  }

  /** The headers claimed on the two ports are exactly the ones held. */
  ghost predicate Owns(loc: map<nat, Loc>, inHdr: Option<Header>, outHdr: Option<Header>)
  {
    && Where(loc, Claimed(INPUT_PORT)) == HeldIds(inHdr)
    && Where(loc, Claimed(OUTPUT_PORT)) == HeldIds(outHdr)
  }

  lemma OwnsClaimInput(loc: map<nat, Loc>, outHdr: Option<Header>, h: Header)
    requires Owns(loc, None, outHdr) && h.id in loc && loc[h.id] == Pooled(INPUT_PORT)
    ensures Owns(loc[h.id := Claimed(INPUT_PORT)], Some(h), outHdr)
    ensures Where(loc[h.id := Claimed(INPUT_PORT)], Pooled(INPUT_PORT)) == Where(loc, Pooled(INPUT_PORT)) - {h.id}
  {
    WhereUpdate(loc, h.id, Claimed(INPUT_PORT), Claimed(INPUT_PORT));
    WhereOther(loc, h.id, Claimed(INPUT_PORT), Claimed(OUTPUT_PORT));
    WhereUpdate(loc, h.id, Claimed(INPUT_PORT), Pooled(INPUT_PORT));
  }

  lemma OwnsClaimOutput(loc: map<nat, Loc>, inHdr: Option<Header>, h: Header)
    requires Owns(loc, inHdr, None) && h.id in loc && loc[h.id] == Pooled(OUTPUT_PORT)
    ensures Owns(loc[h.id := Claimed(OUTPUT_PORT)], inHdr, Some(h))
    ensures Where(loc[h.id := Claimed(OUTPUT_PORT)], Pooled(INPUT_PORT)) == Where(loc, Pooled(INPUT_PORT))
  {
    WhereOther(loc, h.id, Claimed(OUTPUT_PORT), Claimed(INPUT_PORT));
    WhereUpdate(loc, h.id, Claimed(OUTPUT_PORT), Claimed(OUTPUT_PORT));
    WhereOther(loc, h.id, Claimed(OUTPUT_PORT), Pooled(INPUT_PORT));
  }

  lemma OwnsReleaseInput(loc: map<nat, Loc>, h: Header, outHdr: Option<Header>)
    requires Owns(loc, Some(h), outHdr)
    ensures h.id in loc && loc[h.id] == Claimed(INPUT_PORT)
    ensures Owns(loc[h.id := Returned(INPUT_PORT)], None, outHdr)
  {
    assert h.id in Where(loc, Claimed(INPUT_PORT));
    WhereUpdate(loc, h.id, Returned(INPUT_PORT), Claimed(INPUT_PORT));
    WhereOther(loc, h.id, Returned(INPUT_PORT), Claimed(OUTPUT_PORT));
  }

  lemma OwnsReleaseOutput(loc: map<nat, Loc>, inHdr: Option<Header>, h: Header)
    requires Owns(loc, inHdr, Some(h))
    ensures h.id in loc && loc[h.id] == Claimed(OUTPUT_PORT)
    ensures Owns(loc[h.id := Returned(OUTPUT_PORT)], inHdr, None)
  {
    assert h.id in Where(loc, Claimed(OUTPUT_PORT));
    WhereOther(loc, h.id, Returned(OUTPUT_PORT), Claimed(INPUT_PORT));
    WhereUpdate(loc, h.id, Returned(OUTPUT_PORT), Claimed(OUTPUT_PORT));
  }

  /**
   * Why the pump stopped: no input header held and none to claim, or an
   * input header held, no output header held and none to claim.
   */
  ghost predicate Stopped(loc: map<nat, Loc>, inHdr: Option<Header>, outHdr: Option<Header>)
  {
    || (inHdr.None? && Where(loc, Pooled(INPUT_PORT)) == {})
    || (inHdr.Some? && outHdr.None? && Where(loc, Pooled(OUTPUT_PORT)) == {})
  }

  /**
   * Once the pump stops with no input header, every input header it could
   * reach (the one held at the start and all the pooled ones) has been
   * returned through port 0.
   */
  lemma InputsAllReturned(loc0: map<nat, Loc>, store0: map<nat, Header>, in0: Option<Header>, out0: Option<Header>,
                          loc1: map<nat, Loc>, store1: map<nat, Header>, out1: Option<Header>, eos: bool)
    requires Pumped(loc0, store0, in0, out0, loc1, store1, None, out1, eos)
    requires Owns(loc1, None, out1) && Stopped(loc1, None, out1)
    ensures forall id :: id in loc0 && loc0[id] in {Pooled(INPUT_PORT), Claimed(INPUT_PORT)} ==>
              loc1[id] == Returned(INPUT_PORT)
  {
    forall id | id in loc0 && loc0[id] in {Pooled(INPUT_PORT), Claimed(INPUT_PORT)}
      ensures loc1[id] == Returned(INPUT_PORT)
    {
      assert Moved(loc0[id], loc1[id], eos);
      assert id !in Where(loc1, Pooled(INPUT_PORT));
      assert id !in Where(loc1, Claimed(INPUT_PORT));
    }
  }

  /** The input header held and every pooled input header are empty. */
  ghost predicate EmptyInputs(loc: map<nat, Loc>, store: map<nat, Header>, inHdr: Option<Header>)
  {
    && (inHdr.Some? ==> inHdr.value.filledLen == 0)
    && (forall id :: id in loc && loc[id] == Pooled(INPUT_PORT) && id in store ==> store[id].filledLen == 0)
  }

  /** The pump never fills an input header: emptiness at the start carries over. */
  lemma EmptyInputsKept(loc0: map<nat, Loc>, store0: map<nat, Header>, in0: Option<Header>, out0: Option<Header>,
                        loc1: map<nat, Loc>, store1: map<nat, Header>, in1: Option<Header>, out1: Option<Header>)
    requires Start(loc0, store0, in0, out0) && EmptyInputs(loc0, store0, in0)
    requires Pumped(loc0, store0, in0, out0, loc1, store1, in1, out1, false) && Owns(loc1, in1, out1)
    ensures EmptyInputs(loc1, store1, in1)
  {
    if in1.Some? {
      var id := in1.value.id;
      assert id in Where(loc1, Claimed(INPUT_PORT));
      assert Moved(loc0[id], loc1[id], false);
      if loc0[id] == Claimed(INPUT_PORT) {
        assert id in Where(loc0, Claimed(INPUT_PORT));
      }
    }
    forall id | id in loc1 && loc1[id] == Pooled(INPUT_PORT) && id in store1
      ensures store1[id].filledLen == 0
    {
      assert Moved(loc0[id], loc1[id], false);
    }
  }

  /** What every step of the pump relies on about the state it started from. */
  ghost predicate Start(loc0: map<nat, Loc>, store0: map<nat, Header>, in0: Option<Header>, out0: Option<Header>)
  {
    && store0.Keys == loc0.Keys
    && (in0.Some? ==> in0.value.id in loc0 && loc0[in0.value.id] == Claimed(INPUT_PORT))
    && (out0.Some? ==> out0.value.id in loc0 && loc0[out0.value.id] == Claimed(OUTPUT_PORT))
    && Owns(loc0, in0, out0)
  }

  lemma PumpedStart(loc0: map<nat, Loc>, store0: map<nat, Header>, in0: Option<Header>, out0: Option<Header>)
    requires Start(loc0, store0, in0, out0)
    ensures Pumped(loc0, store0, in0, out0, loc0, store0, in0, out0, false)
  {
  }

  /** Moving one header to a location it may reach keeps every move legal. */
  lemma MovesStep(loc0: map<nat, Loc>, loc1: map<nat, Loc>, id: nat, l: Loc, eos: bool)
    requires MovesOnly(loc0, loc1, eos) && id in loc0 && Moved(loc0[id], l, eos)
    ensures MovesOnly(loc0, loc1[id := l], eos)
  {
    forall x | x in loc1[id := l] && x in loc0
      ensures Moved(loc0[x], loc1[id := l][x], eos)
    {
      if x != id {
        assert x in loc1;
      }
    }
  }

  /** A move legal before end of stream is legal after it. */
  lemma MovesEos(loc0: map<nat, Loc>, loc1: map<nat, Loc>)
    requires MovesOnly(loc0, loc1, false)
    ensures MovesOnly(loc0, loc1, true)
  {
  }

  /** Moving a header away from where it started leaves the unmoved ones alone. */
  lemma StillKeptStep(loc0: map<nat, Loc>, store0: map<nat, Header>, loc1: map<nat, Loc>, store1: map<nat, Header>,
                      id: nat, l: Loc, h: Header)
    requires StillKept(loc0, store0, loc1, store1) && id in loc0 && l != loc0[id]
    ensures StillKept(loc0, store0, loc1[id := l], store1[id := h])
  {
    forall x | x in loc1[id := l] && x in loc0 && x in store0 && x in store1[id := h] && loc1[id := l][x] == loc0[x]
      ensures store1[id := h][x] == store0[x]
    {
      assert x != id;
      assert x in loc1 && x in store1;
    }
  }

  /**
   * Moving a header keeps the port 0 returns reset, provided a header newly
   * returned on port 0 is stored with nOffset reset.
   */
  lemma InputsResetStep(loc0: map<nat, Loc>, store0: map<nat, Header>, in0: Option<Header>,
                        loc1: map<nat, Loc>, store1: map<nat, Header>, id: nat, l: Loc, h: Header)
    requires InputsReset(loc0, store0, in0, loc1, store1)
    requires l == Returned(INPUT_PORT) ==> id in store0 && h == Orig(in0, store0, id).(offset := 0)
    ensures InputsReset(loc0, store0, in0, loc1[id := l], store1[id := h])
  {
    forall x | x in loc1[id := l] && x in loc0 && x in store0 && x in store1[id := h] &&
               loc1[id := l][x] == Returned(INPUT_PORT) && loc0[x] != Returned(INPUT_PORT)
      ensures store1[id := h][x] == Orig(in0, store0, x).(offset := 0)
    {
      if x != id {
        assert x in loc1 && x in store1;
      }
    }
  }

  /**
   * Moving a header keeps the port 1 returns flagged, provided a header
   * newly returned on port 1 is stored with the EOS flag.
   */
  lemma OutputsFlaggedStep(loc0: map<nat, Loc>, store0: map<nat, Header>, out0: Option<Header>,
                           loc1: map<nat, Loc>, store1: map<nat, Header>, id: nat, l: Loc, h: Header)
    requires OutputsFlagged(loc0, store0, out0, loc1, store1)
    requires l == Returned(OUTPUT_PORT) ==> id in store0 && h == WithEos(Orig(out0, store0, id))
    ensures OutputsFlagged(loc0, store0, out0, loc1[id := l], store1[id := h])
  {
    forall x | x in loc1[id := l] && x in loc0 && x in store0 && x in store1[id := h] &&
               loc1[id := l][x] == Returned(OUTPUT_PORT) && loc0[x] != Returned(OUTPUT_PORT)
      ensures store1[id := h][x] == WithEos(Orig(out0, store0, x))
    {
      if x != id {
        assert x in loc1 && x in store1;
      }
    }
  }

  /**
   * A header still pooled on port `pid` was pooled at the start, is
   * untouched, and is neither of the headers held at the start.
   */
  lemma PooledUntouched(loc0: map<nat, Loc>, store0: map<nat, Header>, in0: Option<Header>, out0: Option<Header>,
                        loc1: map<nat, Loc>, store1: map<nat, Header>, id: nat, pid: nat)
    requires Start(loc0, store0, in0, out0)
    requires KeysKept(loc0, store0, loc1, store1) && MovesOnly(loc0, loc1, false) && StillKept(loc0, store0, loc1, store1)
    requires id in loc1 && loc1[id] == Pooled(pid)
    ensures id in store0 && loc0[id] == Pooled(pid) && store1[id] == store0[id]
    ensures Orig(in0, store0, id) == store0[id] && Orig(out0, store0, id) == store0[id]
  {
    assert Moved(loc0[id], loc1[id], false);
  }

  /** Moving a header that is already there keeps the key sets. */
  lemma KeysStep(loc0: map<nat, Loc>, store0: map<nat, Header>, loc1: map<nat, Loc>, store1: map<nat, Header>,
                 id: nat, l: Loc, h: Header)
    requires KeysKept(loc0, store0, loc1, store1) && id in loc1
    ensures KeysKept(loc0, store0, loc1[id := l], store1[id := h])
  {
  }

  /** Updating a map entry with the value it already holds changes nothing. */
  lemma SameStore(store1: map<nat, Header>, id: nat)
    requires id in store1
    ensures store1[id := store1[id]] == store1
  {
  }

  /** Claiming a pooled input header keeps the pump's relation to its start. */
  lemma ClaimInputStep(loc0: map<nat, Loc>, store0: map<nat, Header>, in0: Option<Header>, out0: Option<Header>,
                       loc1: map<nat, Loc>, store1: map<nat, Header>, out1: Option<Header>, id: nat)
    requires Start(loc0, store0, in0, out0)
    requires Pumped(loc0, store0, in0, out0, loc1, store1, None, out1, false)
    requires id in loc1 && loc1[id] == Pooled(INPUT_PORT) && store1[id].id == id
    ensures Pumped(loc0, store0, in0, out0, loc1[id := Claimed(INPUT_PORT)], store1, Some(store1[id]), out1, false)
  {
    var l := Claimed(INPUT_PORT);
    PooledUntouched(loc0, store0, in0, out0, loc1, store1, id, INPUT_PORT);
    SameStore(store1, id);
    MovesStep(loc0, loc1, id, l, false);
    StillKeptStep(loc0, store0, loc1, store1, id, l, store1[id]);
    InputsResetStep(loc0, store0, in0, loc1, store1, id, l, store1[id]);
    OutputsFlaggedStep(loc0, store0, out0, loc1, store1, id, l, store1[id]);
  }

  /** Claiming a pooled output header keeps the pump's relation to its start. */
  lemma ClaimOutputStep(loc0: map<nat, Loc>, store0: map<nat, Header>, in0: Option<Header>, out0: Option<Header>,
                        loc1: map<nat, Loc>, store1: map<nat, Header>, in1: Option<Header>, id: nat)
    requires Start(loc0, store0, in0, out0)
    requires Pumped(loc0, store0, in0, out0, loc1, store1, in1, None, false)
    requires id in loc1 && loc1[id] == Pooled(OUTPUT_PORT) && store1[id].id == id
    ensures Pumped(loc0, store0, in0, out0, loc1[id := Claimed(OUTPUT_PORT)], store1, in1, Some(store1[id]), false)
  {
    var l := Claimed(OUTPUT_PORT);
    PooledUntouched(loc0, store0, in0, out0, loc1, store1, id, OUTPUT_PORT);
    SameStore(store1, id);
    MovesStep(loc0, loc1, id, l, false);
    StillKeptStep(loc0, store0, loc1, store1, id, l, store1[id]);
    InputsResetStep(loc0, store0, in0, loc1, store1, id, l, store1[id]);
    OutputsFlaggedStep(loc0, store0, out0, loc1, store1, id, l, store1[id]);
  }

  /** Returning the held input header with nOffset reset keeps the relation. */
  lemma ReleaseInputStep(loc0: map<nat, Loc>, store0: map<nat, Header>, in0: Option<Header>, out0: Option<Header>,
                         loc1: map<nat, Loc>, store1: map<nat, Header>, in1: Option<Header>, out1: Option<Header>)
    requires Pumped(loc0, store0, in0, out0, loc1, store1, in1, out1, false)
    requires in1.Some? && in1.value.id in loc1 && loc1[in1.value.id] == Claimed(INPUT_PORT)
    ensures Pumped(loc0, store0, in0, out0, loc1[in1.value.id := Returned(INPUT_PORT)],
                   store1[in1.value.id := in1.value.(offset := 0)], None, out1, false)
  {
    var id, l, h := in1.value.id, Returned(INPUT_PORT), in1.value.(offset := 0);
    assert Moved(loc0[id], loc1[id], false);
    KeysStep(loc0, store0, loc1, store1, id, l, h);
    MovesStep(loc0, loc1, id, l, false);
    StillKeptStep(loc0, store0, loc1, store1, id, l, h);
    InputsResetStep(loc0, store0, in0, loc1, store1, id, l, h);
    OutputsFlaggedStep(loc0, store0, out0, loc1, store1, id, l, h);
  }

  /** Returning the held output header flagged EOS completes the relation. */
  lemma EosStep(loc0: map<nat, Loc>, store0: map<nat, Header>, in0: Option<Header>, out0: Option<Header>,
                loc1: map<nat, Loc>, store1: map<nat, Header>, in1: Option<Header>, out1: Option<Header>)
    requires Pumped(loc0, store0, in0, out0, loc1, store1, in1, out1, false)
    requires out1.Some? && out1.value.id in loc1 && loc1[out1.value.id] == Claimed(OUTPUT_PORT)
    ensures Pumped(loc0, store0, in0, out0, loc1[out1.value.id := Returned(OUTPUT_PORT)],
                   store1[out1.value.id := WithEos(out1.value)], in1, None, true)
  {
    var id, l, h := out1.value.id, Returned(OUTPUT_PORT), WithEos(out1.value);
    assert Moved(loc0[id], loc1[id], false);
    KeysStep(loc0, store0, loc1, store1, id, l, h);
    MovesEos(loc0, loc1);
    MovesStep(loc0, loc1, id, l, true);
    StillKeptStep(loc0, store0, loc1, store1, id, l, h);
    InputsResetStep(loc0, store0, in0, loc1, store1, id, l, h);
    OutputsFlaggedStep(loc0, store0, out0, loc1, store1, id, l, h);
  }

  /** No input header has newly been returned through port 0. */
  ghost predicate NoInputReturned(loc0: map<nat, Loc>, loc1: map<nat, Loc>)
  {
    forall id :: id in loc0 && id in loc1 && loc1[id] == Returned(INPUT_PORT) ==> loc0[id] == Returned(INPUT_PORT)
  }

  /** A header of port `pid` is held or pooled. */
  ghost predicate Available(loc: map<nat, Loc>, held: Option<Header>, pid: nat)
  {
    held.Some? || Where(loc, Pooled(pid)) != {}
  }

  /** The output headers that have moved since `loc0`. */
  ghost function OutputsMoved(loc0: map<nat, Loc>, loc1: map<nat, Loc>): (ids: set<nat>)
    ensures forall id {:trigger id in ids} :: id in ids <==>
              id in loc0 && id in loc1 && loc0[id].pid == OUTPUT_PORT && loc1[id] != loc0[id]
  {
    set id | id in loc0 && id in loc1 && loc0[id].pid == OUTPUT_PORT && loc1[id] != loc0[id]
  }

  /**
   * What the buffers_ready loop keeps track of beyond `Pumped`: the only
   * output header that has moved is the one held now; an output header held
   * at the start is still held; while no output header is held, no input
   * header has been returned; and an output header is claimed only when an
   * input header was there to be had.
   */
  ghost predicate Tally(loc0: map<nat, Loc>, in0: Option<Header>, out0: Option<Header>,
                        loc1: map<nat, Loc>, out1: Option<Header>)
  {
    && OutputsMoved(loc0, loc1) <= HeldIds(out1)
    && (out0.Some? ==> out1 == out0)
    && (out1.None? ==> NoInputReturned(loc0, loc1))
    && (out0.None? && out1.Some? ==> Available(loc0, in0, INPUT_PORT))
  }

  /** Moving an input header keeps the tally, provided it is returned only while an output is held. */
  lemma TallyInputStep(loc0: map<nat, Loc>, in0: Option<Header>, out0: Option<Header>,
                       loc1: map<nat, Loc>, out1: Option<Header>, id: nat, l: Loc)
    requires Tally(loc0, in0, out0, loc1, out1)
    requires id in loc0 && id in loc1 && loc0[id].pid == INPUT_PORT
    requires l == Returned(INPUT_PORT) ==> out1.Some?
    ensures Tally(loc0, in0, out0, loc1[id := l], out1)
  {
    forall x | x in OutputsMoved(loc0, loc1[id := l])
      ensures x in HeldIds(out1)
    {
      assert x != id && x in OutputsMoved(loc0, loc1);
    }
    if out1.None? {
      forall x | x in loc0 && x in loc1[id := l] && loc1[id := l][x] == Returned(INPUT_PORT)
        ensures loc0[x] == Returned(INPUT_PORT)
      {
        assert x != id && x in loc1;
      }
    }
  }

  /** Claiming an output header while none is held, with an input header to be had, keeps the tally. */
  lemma TallyClaimOutput(loc0: map<nat, Loc>, in0: Option<Header>, out0: Option<Header>,
                         loc1: map<nat, Loc>, h: Header)
    requires Tally(loc0, in0, out0, loc1, None) && h.id in loc1 && Available(loc0, in0, INPUT_PORT)
    ensures Tally(loc0, in0, out0, loc1[h.id := Claimed(OUTPUT_PORT)], Some(h))
  {
    forall x | x in OutputsMoved(loc0, loc1[h.id := Claimed(OUTPUT_PORT)])
      ensures x in HeldIds(Some(h))
    {
      assert x == h.id || x in OutputsMoved(loc0, loc1);
    }
  }

  /**
   * Where the loop stops, in terms of the start: an input header is left
   * held exactly when no output header was held or pooled and an input
   * header was held or pooled; and without an output header at the start,
   * none is held when the loop stops.
   */
  lemma PumpOutcome(loc0: map<nat, Loc>, store0: map<nat, Header>, in0: Option<Header>, out0: Option<Header>,
                    loc1: map<nat, Loc>, store1: map<nat, Header>, in1: Option<Header>, out1: Option<Header>)
    requires Start(loc0, store0, in0, out0)
    requires Pumped(loc0, store0, in0, out0, loc1, store1, in1, out1, false)
    requires Tally(loc0, in0, out0, loc1, out1) && Owns(loc1, in1, out1) && Stopped(loc1, in1, out1)
    ensures out0.None? && Where(loc0, Pooled(OUTPUT_PORT)) == {} ==> out1.None?
    ensures in1.Some? <==>
              && out0.None? && Where(loc0, Pooled(OUTPUT_PORT)) == {}
              && (in0.Some? || Where(loc0, Pooled(INPUT_PORT)) != {})
  {
    forall x | x in Where(loc0, Pooled(OUTPUT_PORT))
      ensures x in OutputsMoved(loc0, loc1) || x in Where(loc1, Pooled(OUTPUT_PORT))
    {
    }
    forall x | x in Where(loc0, Claimed(INPUT_PORT)) + Where(loc0, Pooled(INPUT_PORT))
      ensures || x in Where(loc1, Claimed(INPUT_PORT)) || x in Where(loc1, Pooled(INPUT_PORT))
              || (loc1[x] == Returned(INPUT_PORT) && loc0[x] != Returned(INPUT_PORT))
    {
      assert Moved(loc0[x], loc1[x], false);
    }
    if in0.Some? {
      assert in0.value.id in Where(loc0, Claimed(INPUT_PORT));
    }
    if out1.Some? {
      var id := out1.value.id;
      assert id in Where(loc1, Claimed(OUTPUT_PORT));
      assert Moved(loc0[id], loc1[id], false);
      assert id in Where(loc0, Claimed(OUTPUT_PORT)) || id in Where(loc0, Pooled(OUTPUT_PORT));
    }
    if in1.Some? {
      var id := in1.value.id;
      assert id in Where(loc1, Claimed(INPUT_PORT));
      assert Moved(loc0[id], loc1[id], false);
      assert id in Where(loc0, Claimed(INPUT_PORT)) || id in Where(loc0, Pooled(INPUT_PORT));
    }
  }

  /** The input header held during the pump was held or pooled at its start. */
  lemma HeldInputAvailable(loc0: map<nat, Loc>, store0: map<nat, Header>, in0: Option<Header>, out0: Option<Header>,
                           loc1: map<nat, Loc>, store1: map<nat, Header>, in1: Option<Header>, out1: Option<Header>)
    requires Start(loc0, store0, in0, out0)
    requires Pumped(loc0, store0, in0, out0, loc1, store1, in1, out1, false) && Owns(loc1, in1, out1)
    requires in1.Some?
    ensures Available(loc0, in0, INPUT_PORT)
  {
    var id := in1.value.id;
    assert id in Where(loc1, Claimed(INPUT_PORT));
    assert Moved(loc0[id], loc1[id], false);
    assert id in Where(loc0, Claimed(INPUT_PORT)) || id in Where(loc0, Pooled(INPUT_PORT));
  }

  /**
   * The output side of where the loop stops: an output header is held
   * exactly when one was held at the start, or both an input and an output
   * header were there to be had; it was held or pooled at the start.
   */
  lemma OutputOutcome(loc0: map<nat, Loc>, store0: map<nat, Header>, in0: Option<Header>, out0: Option<Header>,
                      loc1: map<nat, Loc>, store1: map<nat, Header>, in1: Option<Header>, out1: Option<Header>)
    requires Start(loc0, store0, in0, out0)
    requires Pumped(loc0, store0, in0, out0, loc1, store1, in1, out1, false)
    requires Tally(loc0, in0, out0, loc1, out1) && Owns(loc1, in1, out1) && Stopped(loc1, in1, out1)
    ensures out1.Some? ==>
              && out1.value.id in loc0 && loc0[out1.value.id].pid == OUTPUT_PORT
              && loc0[out1.value.id] != Returned(OUTPUT_PORT)
    ensures out1.Some? <==>
              out0.Some? || (Available(loc0, in0, INPUT_PORT) && Available(loc0, out0, OUTPUT_PORT))
  {
    forall x | x in Where(loc0, Pooled(OUTPUT_PORT))
      ensures x in OutputsMoved(loc0, loc1) || x in Where(loc1, Pooled(OUTPUT_PORT))
    {
    }
    forall x | x in Where(loc0, Claimed(INPUT_PORT)) + Where(loc0, Pooled(INPUT_PORT))
      ensures || x in Where(loc1, Claimed(INPUT_PORT)) || x in Where(loc1, Pooled(INPUT_PORT))
              || (loc1[x] == Returned(INPUT_PORT) && loc0[x] != Returned(INPUT_PORT))
    {
      assert Moved(loc0[x], loc1[x], false);
    }
    if in0.Some? {
      assert in0.value.id in Where(loc0, Claimed(INPUT_PORT));
    }
    if out1.Some? {
      var id := out1.value.id;
      assert id in Where(loc1, Claimed(OUTPUT_PORT));
      assert Moved(loc0[id], loc1[id], false);
      assert id in Where(loc0, Claimed(OUTPUT_PORT)) || id in Where(loc0, Pooled(OUTPUT_PORT));
    }
  }

  /**
   * With no output header held at the start and no input header to be had,
   * the pump moves nothing and changes nothing.
   */
  lemma NothingMoved(loc0: map<nat, Loc>, store0: map<nat, Header>, in0: Option<Header>, out0: Option<Header>,
                     loc1: map<nat, Loc>, store1: map<nat, Header>, in1: Option<Header>, out1: Option<Header>)
    requires Start(loc0, store0, in0, out0)
    requires Pumped(loc0, store0, in0, out0, loc1, store1, in1, out1, false)
    requires Tally(loc0, in0, out0, loc1, out1) && Owns(loc1, in1, out1)
    requires out0.None? && !Available(loc0, in0, INPUT_PORT)
    ensures in1.None? && out1.None? && loc1 == loc0 && store1 == store0
  {
    if in1.Some? {
      HeldInputAvailable(loc0, store0, in0, out0, loc1, store1, in1, out1);
    }
    forall id | id in loc0
      ensures loc1[id] == loc0[id]
    {
      assert Moved(loc0[id], loc1[id], false);
      assert id !in OutputsMoved(loc0, loc1);
      assert id !in Where(loc0, Claimed(INPUT_PORT)) && id !in Where(loc0, Pooled(INPUT_PORT));
    }
  }

  /** A set inside a singleton has at most one element. */
  lemma AtMostOne(ids: set<nat>, held: Option<Header>)
    requires ids <= HeldIds(held)
    ensures |ids| <= 1
  {
    if held.Some? && held.value.id in ids {
      assert ids == HeldIds(held);
    } else {
      assert ids == {};
    }
  }

  /**
   * After the end-of-stream step (`released`: the output header held when
   * the loop stopped went back through port 1), the only output header that
   * moved is the one held when the loop stopped.
   */
  lemma EosOutcome(loc0: map<nat, Loc>, in0: Option<Header>, out0: Option<Header>,
                   loc1: map<nat, Loc>, out1: Option<Header>, loc2: map<nat, Loc>, released: bool)
    requires Tally(loc0, in0, out0, loc1, out1)
    requires released ==> out1.Some? && loc2 == loc1[out1.value.id := Returned(OUTPUT_PORT)]
    requires released ==>
               && out1.value.id in loc0 && loc0[out1.value.id].pid == OUTPUT_PORT
               && loc0[out1.value.id] != Returned(OUTPUT_PORT)
    requires !released ==> loc2 == loc1
    ensures OutputsMoved(loc0, loc2) <= HeldIds(out1) && |OutputsMoved(loc0, loc2)| <= 1
    ensures released ==> OutputsMoved(loc0, loc2) == HeldIds(out1) && loc2[out1.value.id] == Returned(OUTPUT_PORT)
    ensures out1.None? ==> NoInputReturned(loc0, loc2)
  {
    if released {
      assert out1.value.id in OutputsMoved(loc0, loc2);
      forall x | x in OutputsMoved(loc0, loc2)
        ensures x in HeldIds(out1)
      {
        assert x == out1.value.id || x in OutputsMoved(loc0, loc1);
      }
    }
    AtMostOne(OutputsMoved(loc0, loc2), out1);
  }

  /** The pool after a claim that took `h1` while `h0` was held, if it took anything. */
  function Took(loc: map<nat, Loc>, h0: Option<Header>, h1: Option<Header>, pid: nat): map<nat, Loc>
  {
    if h0.None? && h1.Some? then loc[h1.value.id := Claimed(pid)] else loc
  }

  /** The processor's fields, as one value. */
  datatype PrcState = PrcState(inHdr: Option<Header>, outHdr: Option<Header>, eos: bool)

  class Vp8EncPrc {
    const krn: Kernel
    /** pinhdr_ and pouthdr_: the input and output header held, if any. */
    var inHdr: Option<Header>
    var outHdr: Option<Header>
    var eos: bool

    function Snapshot(): PrcState
      reads this
    {
      PrcState(inHdr, outHdr, eos)
    }

    /**
     * The processor is the only claimer on both ports: the kernel's claimed
     * headers on port 0 (port 1) are exactly the input (output) header held.
     */
    ghost predicate Valid()
      reads this, krn
    {
      && krn.Valid()
      && krn.numPorts == NUM_PORTS
      && Owns(krn.loc, inHdr, outHdr)
    }

    /** Every input header the pump can get hold of is empty. */
    ghost predicate InputsEmpty()
      reads this, krn
    {
      EmptyInputs(krn.loc, krn.store, inHdr)
    }

    /** vp8e_proc_ctor */
    constructor (krn: Kernel)
      requires krn.Valid() && krn.numPorts == NUM_PORTS
      requires krn.At(Claimed(INPUT_PORT)) == {} && krn.At(Claimed(OUTPUT_PORT)) == {}
      ensures Valid() && this.krn == krn
      ensures Snapshot() == PrcState(None, None, false)
    {
      this.krn := krn;
      inHdr := None;
      outHdr := None;
      eos := false;
    }

    /** vp8e_proc_transform_buffer: encodes nothing. */
    method TransformBuffer() returns (rc: OmxError)
      ensures rc == ErrorNone
    {
      rc := ErrorNone;
    }

    /** The allocate, deallocate, prepare, transfer and stop hooks: nothing to do. */
    method AllocateResources(pid: nat) returns (rc: OmxError)
      ensures rc == ErrorNone
    {
      rc := ErrorNone;
    }

    method DeallocateResources() returns (rc: OmxError)
      ensures rc == ErrorNone
    {
      rc := ErrorNone;
    }

    method PrepareToTransfer(pid: nat) returns (rc: OmxError)
      ensures rc == ErrorNone
    {
      rc := ErrorNone;
    }

    method TransferAndProcess(pid: nat) returns (rc: OmxError)
      ensures rc == ErrorNone
    {
      rc := ErrorNone;
    }

    method StopAndReturn() returns (rc: OmxError)
      ensures rc == ErrorNone
    {
      rc := ErrorNone;
    }

    /**
     * claim_input: claim from port 0 if the select mask has bit 0 set;
     * otherwise report failure and leave pinhdr_ alone. A kernel error
     * would make it return the error code, which reads as true.
     */
    method ClaimInput() returns (claimed: bool)
      requires Valid() && inHdr.None?
      modifies this, krn
      ensures Valid() && krn.store == old(krn.store)
      ensures outHdr == old(outHdr) && eos == old(eos)
      ensures claimed <==> old(krn.At(Pooled(INPUT_PORT))) != {}
      ensures !claimed ==> inHdr == old(inHdr) && krn.loc == old(krn.loc)
      ensures claimed ==>
                && inHdr.Some?
                && inHdr.value.id in old(krn.At(Pooled(INPUT_PORT)))
                && inHdr.value == krn.store[inHdr.value.id]
                && krn.loc == old(krn.loc)[inHdr.value.id := Claimed(INPUT_PORT)]
                && krn.At(Pooled(INPUT_PORT)) == old(krn.At(Pooled(INPUT_PORT))) - {inHdr.value.id}
    {
      var rc, ready := krn.Select(NUM_PORTS);
      claimed := rc != ErrorNone || INPUT_PORT in ready;
      if rc == ErrorNone && INPUT_PORT in ready {
        var rc', h := krn.Claim(INPUT_PORT);
        if rc' == ErrorNone {
          inHdr := h;
        }
        if h.Some? {
          OwnsClaimInput(old(krn.loc), outHdr, h.value);
        }
      }
    }

    /**
     * claim_output: claim from port 1 if the select mask has bit 1 set;
     * otherwise report failure and leave pouthdr_ alone.
     */
    method ClaimOutput() returns (claimed: bool)
      requires Valid() && outHdr.None?
      modifies this, krn
      ensures Valid() && krn.store == old(krn.store)
      ensures inHdr == old(inHdr) && eos == old(eos)
      ensures claimed <==> old(krn.At(Pooled(OUTPUT_PORT))) != {}
      ensures !claimed ==> outHdr == old(outHdr) && krn.loc == old(krn.loc)
      ensures claimed ==>
                && outHdr.Some?
                && outHdr.value.id in old(krn.At(Pooled(OUTPUT_PORT)))
                && outHdr.value == krn.store[outHdr.value.id]
                && krn.loc == old(krn.loc)[outHdr.value.id := Claimed(OUTPUT_PORT)]
                && krn.At(Pooled(INPUT_PORT)) == old(krn.At(Pooled(INPUT_PORT)))
    {
      var rc, ready := krn.Select(NUM_PORTS);
      claimed := rc != ErrorNone || OUTPUT_PORT in ready;
      if rc == ErrorNone && OUTPUT_PORT in ready {
        var rc', h := krn.Claim(OUTPUT_PORT);
        if rc' == ErrorNone {
          outHdr := h;
        }
        if h.Some? {
          OwnsClaimOutput(old(krn.loc), inHdr, h.value);
        }
      }
    }

    /** An empty input header goes back through port 0 with nOffset reset to 0. */
    method ReleaseEmptyInput()
      requires Valid() && inHdr.Some?
      modifies this, krn
      ensures Valid() && inHdr.None? && outHdr == old(outHdr) && eos == old(eos)
      ensures krn.loc == old(krn.loc)[old(inHdr).value.id := Returned(INPUT_PORT)]
      ensures krn.store == old(krn.store)[old(inHdr).value.id := old(inHdr).value.(offset := 0)]
      ensures krn.At(Pooled(INPUT_PORT)) == old(krn.At(Pooled(INPUT_PORT)))
    {
      OwnsReleaseInput(krn.loc, inHdr.value, outHdr);
      WhereOther(krn.loc, inHdr.value.id, Returned(INPUT_PORT), Pooled(INPUT_PORT));
      var h := inHdr.value.(offset := 0);
      var _ := krn.Release(INPUT_PORT, h);
      inHdr := None;
    }

    /** End of stream: the held output header goes back through port 1 flagged EOS. */
    method PropagateEos()
      requires Valid() && outHdr.Some?
      modifies this, krn
      ensures Valid() && outHdr.None? && inHdr == old(inHdr) && eos == old(eos)
      ensures krn.loc == old(krn.loc)[old(outHdr).value.id := Returned(OUTPUT_PORT)]
      ensures krn.store == old(krn.store)[old(outHdr).value.id := WithEos(old(outHdr).value)]
      ensures Stopped(old(krn.loc), inHdr, old(outHdr)) ==> Stopped(krn.loc, inHdr, outHdr)
    {
      OwnsReleaseOutput(krn.loc, inHdr, outHdr.value);
      WhereOther(krn.loc, outHdr.value.id, Returned(OUTPUT_PORT), Pooled(INPUT_PORT));
      var h := WithEos(outHdr.value);
      var _ := krn.Release(OUTPUT_PORT, h);
      outHdr := None;
    }

    /** The loop measure: each round returns one input header. */
    function Measure(): nat
      reads this, krn
    {
      2 * |krn.At(Pooled(INPUT_PORT))| + |HeldIds(inHdr)|
    }

    /** Make sure an input header is held, stopping when none can be claimed. */
    method EnsureInput(ghost loc0: map<nat, Loc>, ghost store0: map<nat, Header>,
                       ghost in0: Option<Header>, ghost out0: Option<Header>) returns (stop: bool)
      requires Valid() && Start(loc0, store0, in0, out0)
      requires Pumped(loc0, store0, in0, out0, krn.loc, krn.store, inHdr, outHdr, false)
      modifies this, krn
      ensures Valid() && eos == old(eos) && outHdr == old(outHdr)
      ensures Pumped(loc0, store0, in0, out0, krn.loc, krn.store, inHdr, outHdr, false)
      ensures stop ==> inHdr.None? && Where(krn.loc, Pooled(INPUT_PORT)) == {}
      ensures !stop ==> inHdr.Some? && Measure() <= old(Measure())
      ensures old(inHdr).Some? ==>
                !stop && inHdr == old(inHdr) && krn.loc == old(krn.loc) && krn.store == old(krn.store)
      ensures old(inHdr).None? && !stop ==>
                && inHdr.value.id in old(Where(krn.loc, Pooled(INPUT_PORT)))
                && krn.loc == old(krn.loc)[inHdr.value.id := Claimed(INPUT_PORT)]
                && krn.store == old(krn.store)
      ensures stop ==> krn.loc == old(krn.loc) && krn.store == old(krn.store)
      ensures Tally(loc0, in0, out0, old(krn.loc), outHdr) ==> Tally(loc0, in0, out0, krn.loc, outHdr)
    {
      if inHdr.Some? {
        return false;
      }
      ghost var loc1, store1 := krn.loc, krn.store;
      var claimedIn := ClaimInput();
      if !claimedIn || inHdr.None? {
        return true;
      }
      ghost var id := inHdr.value.id;
      PooledUntouched(loc0, store0, in0, out0, loc1, store1, id, INPUT_PORT);
      if Tally(loc0, in0, out0, loc1, outHdr) {
        TallyInputStep(loc0, in0, out0, loc1, outHdr, id, Claimed(INPUT_PORT));
      }
      ClaimInputStep(loc0, store0, in0, out0, loc1, store1, outHdr, id);
      stop := false;
    }

    /**
     * Make sure an output header is held, stopping when none can be claimed.
     * The loop gets here only with an input header held.
     */
    method EnsureOutput(ghost loc0: map<nat, Loc>, ghost store0: map<nat, Header>,
                        ghost in0: Option<Header>, ghost out0: Option<Header>) returns (stop: bool)
      requires Valid() && Start(loc0, store0, in0, out0) && inHdr.Some?
      requires Pumped(loc0, store0, in0, out0, krn.loc, krn.store, inHdr, outHdr, false)
      modifies this, krn
      ensures Valid() && eos == old(eos) && inHdr == old(inHdr)
      ensures Pumped(loc0, store0, in0, out0, krn.loc, krn.store, inHdr, outHdr, false)
      ensures stop ==> outHdr.None? && Where(krn.loc, Pooled(OUTPUT_PORT)) == {}
      ensures !stop ==> outHdr.Some? && Measure() <= old(Measure())
      ensures old(outHdr).Some? ==>
                !stop && outHdr == old(outHdr) && krn.loc == old(krn.loc) && krn.store == old(krn.store)
      ensures old(outHdr).None? && !stop ==>
                && outHdr.value.id in old(Where(krn.loc, Pooled(OUTPUT_PORT)))
                && krn.loc == old(krn.loc)[outHdr.value.id := Claimed(OUTPUT_PORT)]
                && krn.store == old(krn.store)
      ensures stop ==> krn.loc == old(krn.loc) && krn.store == old(krn.store)
      ensures Tally(loc0, in0, out0, old(krn.loc), old(outHdr)) ==> Tally(loc0, in0, out0, krn.loc, outHdr)
    {
      if outHdr.Some? {
        return false;
      }
      ghost var loc1, store1 := krn.loc, krn.store;
      var claimedOut := ClaimOutput();
      if !claimedOut {
        return true;
      }
      if Tally(loc0, in0, out0, loc1, None) {
        HeldInputAvailable(loc0, store0, in0, out0, loc1, store1, inHdr, None);
        TallyClaimOutput(loc0, in0, out0, loc1, outHdr.value);
      }
      ClaimOutputStep(loc0, store0, in0, out0, loc1, store1, inHdr, outHdr.value.id);
      stop := false;
    }

    /**
     * The first half of a round of the buffers_ready loop: make sure an
     * input and an output header are held, stopping when either cannot be
     * claimed.
     */
    method ClaimPair(ghost loc0: map<nat, Loc>, ghost store0: map<nat, Header>,
                     ghost in0: Option<Header>, ghost out0: Option<Header>) returns (stop: bool)
      requires Valid() && Start(loc0, store0, in0, out0)
      requires Pumped(loc0, store0, in0, out0, krn.loc, krn.store, inHdr, outHdr, false)
      modifies this, krn
      ensures Valid() && eos == old(eos)
      ensures Pumped(loc0, store0, in0, out0, krn.loc, krn.store, inHdr, outHdr, false)
      ensures stop ==> Stopped(krn.loc, inHdr, outHdr)
      ensures !stop ==> inHdr.Some? && outHdr.Some? && Measure() <= old(Measure())
      ensures old(inHdr).Some? ==> inHdr == old(inHdr)
      ensures old(outHdr).Some? ==> outHdr == old(outHdr)
      ensures old(inHdr).None? && inHdr.Some? ==> inHdr.value.id in old(Where(krn.loc, Pooled(INPUT_PORT)))
      ensures old(outHdr).None? && outHdr.Some? ==> outHdr.value.id in old(Where(krn.loc, Pooled(OUTPUT_PORT)))
      ensures krn.loc == Took(Took(old(krn.loc), old(inHdr), inHdr, INPUT_PORT), old(outHdr), outHdr, OUTPUT_PORT)
      ensures krn.store == old(krn.store)
      ensures stop && inHdr.None? ==> outHdr == old(outHdr) && krn.loc == old(krn.loc)
      ensures old(outHdr).None? && outHdr.Some? ==> inHdr.Some?
      ensures Tally(loc0, in0, out0, old(krn.loc), old(outHdr)) ==> Tally(loc0, in0, out0, krn.loc, outHdr)
    {
      ghost var locA := krn.loc;
      stop := EnsureInput(loc0, store0, in0, out0);
      if stop {
        return;
      }
      if old(inHdr).None? {
        WhereOther(locA, inHdr.value.id, Claimed(INPUT_PORT), Pooled(OUTPUT_PORT));
      }
      stop := EnsureOutput(loc0, store0, in0, out0);
    }

    /**
     * The second half of a round of the buffers_ready loop: run the
     * transform, then send the input header, which is empty, back through
     * port 0 with nOffset reset.
     */
    method ReleaseRound(ghost loc0: map<nat, Loc>, ghost store0: map<nat, Header>,
                        ghost in0: Option<Header>, ghost out0: Option<Header>)
      requires Valid() && Start(loc0, store0, in0, out0) && EmptyInputs(loc0, store0, in0)
      requires Pumped(loc0, store0, in0, out0, krn.loc, krn.store, inHdr, outHdr, false)
      requires inHdr.Some? && outHdr.Some?
      modifies this, krn
      ensures Valid() && eos == old(eos) && inHdr.None? && outHdr == old(outHdr)
      ensures Pumped(loc0, store0, in0, out0, krn.loc, krn.store, inHdr, outHdr, false)
      ensures Measure() < old(Measure())
      ensures krn.loc == old(krn.loc)[old(inHdr).value.id := Returned(INPUT_PORT)]
      ensures krn.store == old(krn.store)[old(inHdr).value.id := old(inHdr).value.(offset := 0)]
      ensures Tally(loc0, in0, out0, old(krn.loc), outHdr) ==> Tally(loc0, in0, out0, krn.loc, outHdr)
    {
      var _ := TransformBuffer();
      EmptyInputsKept(loc0, store0, in0, out0, krn.loc, krn.store, inHdr, outHdr);
      if inHdr.Some? && inHdr.value.filledLen == 0 {
        ghost var loc1, store1, in1 := krn.loc, krn.store, inHdr;
        ghost var id := in1.value.id;
        assert id in Where(loc1, Claimed(INPUT_PORT));
        assert Moved(loc0[id], loc1[id], false);
        if Tally(loc0, in0, out0, loc1, outHdr) {
          TallyInputStep(loc0, in0, out0, loc1, outHdr, id, Returned(INPUT_PORT));
        }
        ReleaseEmptyInput();
        ReleaseInputStep(loc0, store0, in0, out0, loc1, store1, in1, outHdr);
      }
    }

    /**
     * The while loop of vp8e_proc_buffers_ready: rounds of claiming a pair
     * of headers and releasing the (empty) input header, until a claim fails.
     */
    method Pump()
      requires Valid() && InputsEmpty()
      modifies this, krn
      ensures Valid() && eos == old(eos)
      ensures Start(old(krn.loc), old(krn.store), old(inHdr), old(outHdr))
      ensures Pumped(old(krn.loc), old(krn.store), old(inHdr), old(outHdr), krn.loc, krn.store, inHdr, outHdr, false)
      ensures Tally(old(krn.loc), old(inHdr), old(outHdr), krn.loc, outHdr)
      ensures Stopped(krn.loc, inHdr, outHdr)
    {
      ghost var loc0, store0, in0, out0 := krn.loc, krn.store, inHdr, outHdr;
      PumpedStart(loc0, store0, in0, out0);
      while true
        invariant Valid() && eos == old(eos)
        invariant Pumped(loc0, store0, in0, out0, krn.loc, krn.store, inHdr, outHdr, false)
        invariant Tally(loc0, in0, out0, krn.loc, outHdr)
        decreases Measure()
      {
        var stop := ClaimPair(loc0, store0, in0, out0);
        if stop {
          break;
        }
        ReleaseRound(loc0, store0, in0, out0);
      }
    }

    /**
     * vp8e_proc_buffers_ready. The loop claims an input header unless one is
     * held and an output header unless one is held, stopping as soon as
     * either cannot be had; each round releases the (empty) input header.
     * Afterwards, at end of stream, the held output header is released with
     * the EOS flag. The source loop only stops when a claim fails, and an
     * input header with data in it is never released, so the hook is
     * modelled for the case where every input header it can claim is empty.
     */
    method BuffersReady() returns (rc: OmxError)
      requires Valid() && InputsEmpty()
      modifies this, krn
      ensures Valid() && rc == ErrorNone && eos == old(eos)
      ensures Pumped(old(krn.loc), old(krn.store), old(inHdr), old(outHdr),
                     krn.loc, krn.store, inHdr, outHdr, eos)
      ensures Stopped(krn.loc, inHdr, outHdr)
      ensures eos ==> outHdr.None?
      ensures inHdr.None? ==>
                forall id :: id in old(krn.loc) && old(krn.loc)[id] in {Pooled(INPUT_PORT), Claimed(INPUT_PORT)} ==>
                  krn.loc[id] == Returned(INPUT_PORT)
      ensures inHdr.Some? <==>
                && old(outHdr).None? && old(krn.At(Pooled(OUTPUT_PORT))) == {}
                && (old(inHdr).Some? || old(krn.At(Pooled(INPUT_PORT))) != {})
      ensures |OutputsMoved(old(krn.loc), krn.loc)| <= 1
      ensures old(outHdr).Some? ==> OutputsMoved(old(krn.loc), krn.loc) <= {old(outHdr).value.id}
      ensures old(outHdr).Some? && eos ==>
                old(outHdr).value.id in krn.loc && krn.loc[old(outHdr).value.id] == Returned(OUTPUT_PORT)
      ensures old(outHdr).None? && old(krn.At(Pooled(OUTPUT_PORT))) == {} ==>
                NoInputReturned(old(krn.loc), krn.loc)
      ensures !eos ==>
                && OutputsMoved(old(krn.loc), krn.loc) <= HeldIds(outHdr)
                && (outHdr.Some? <==>
                      || old(outHdr).Some?
                      || (Available(old(krn.loc), old(inHdr), INPUT_PORT) && Available(old(krn.loc), old(outHdr), OUTPUT_PORT)))
      ensures eos ==>
                && (forall id :: id in OutputsMoved(old(krn.loc), krn.loc) ==> krn.loc[id] == Returned(OUTPUT_PORT))
                && (|OutputsMoved(old(krn.loc), krn.loc)| == 1 <==>
                      || old(outHdr).Some?
                      || (Available(old(krn.loc), old(inHdr), INPUT_PORT) && Available(old(krn.loc), old(outHdr), OUTPUT_PORT)))
      ensures old(outHdr).None? && !Available(old(krn.loc), old(inHdr), INPUT_PORT) ==>
                inHdr.None? && outHdr.None? && krn.loc == old(krn.loc) && krn.store == old(krn.store)
    {
      ghost var loc0, store0, in0, out0 := krn.loc, krn.store, inHdr, outHdr;
      Pump();
      ghost var locL, storeL, outL := krn.loc, krn.store, outHdr;
      PumpOutcome(loc0, store0, in0, out0, locL, storeL, inHdr, outL);
      OutputOutcome(loc0, store0, in0, out0, locL, storeL, inHdr, outL);
      if out0.None? && !Available(loc0, in0, INPUT_PORT) {
        NothingMoved(loc0, store0, in0, out0, locL, storeL, inHdr, outL);
      }
      var released := eos && outHdr.Some?;
      if released {
        PropagateEos();
        EosStep(loc0, store0, in0, out0, locL, storeL, inHdr, outL);
      }
      EosOutcome(loc0, in0, out0, locL, outL, krn.loc, released);
      if inHdr.None? {
        InputsAllReturned(loc0, store0, in0, out0, krn.loc, krn.store, outHdr, eos);
      }
      rc := ErrorNone;
    }
  }
}
