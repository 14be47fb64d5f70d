/**
 * The runtime kernel's buffer-header bookkeeping, as the processors see it:
 * every header of a component belongs to one port and is, at any moment,
 * in that port's pool (claimable), claimed by the processor, or returned
 * through the port after the processor released it. The kernel itself is
 * not part of this model; this class is the abstract pool that its
 * claim, release and select operations act on.
 */
module Runtime {
  import opened Omx

  /** Where one header is, and on which port. */
  datatype Loc = Pooled(pid: nat) | Claimed(pid: nat) | Returned(pid: nat)

  /** The ids that `m` places at `l`. */
  function Where(m: map<nat, Loc>, l: Loc): (ids: set<nat>)
    ensures forall id {:trigger id in ids} :: id in ids <==> id in m && m[id] == l
  {
    set id | id in m && m[id] == l
  }

  /** Moving one header changes exactly two of the per-location id sets. */
  lemma WhereUpdate(m: map<nat, Loc>, id: nat, l': Loc, l: Loc)
    ensures Where(m[id := l'], l) == (Where(m, l) - {id}) + (if l' == l then {id} else {})
  {
    var lhs := Where(m[id := l'], l);
    var rhs := (Where(m, l) - {id}) + (if l' == l then {id} else {});
    forall x ensures x in lhs <==> x in rhs {
      if x == id {
      } else {
        assert (x in m[id := l']) == (x in m);
      }
    }
  }

  /** Moving a header between two other locations leaves the ids at `l` alone. */
  lemma WhereOther(m: map<nat, Loc>, id: nat, l': Loc, l: Loc)
    requires id in m && m[id] != l && l' != l
    ensures Where(m[id := l'], l) == Where(m, l)
  {
    WhereUpdate(m, id, l', l);
    assert id !in Where(m, l);
  }

  class Kernel {
    /** Number of ports of the component. */
    const numPorts: nat
    /** Where each header of the component is. */
    var loc: map<nat, Loc>
    /** Each header's fields as the kernel last saw them. */
    var store: map<nat, Header>

    ghost predicate Valid()
      reads this
    {
      && loc.Keys == store.Keys
      && (forall id :: id in store ==> store[id].id == id)
    }

    /** The headers currently at `l`. */
    function At(l: Loc): (ids: set<nat>)
      reads this
      ensures ids == Where(loc, l)
    {
      Where(loc, l)
    }

    constructor (numPorts: nat)
      ensures Valid()
      ensures this.numPorts == numPorts && loc == map[] && store == map[]
    {
      this.numPorts := numPorts;
      loc := map[];
      store := map[];
    }

    /**
     * tiz_krn_select: the ports below `nports` that have a header to claim.
     */
    method Select(nports: nat) returns (rc: OmxError, ready: set<nat>)
      ensures nports > numPorts ==> rc == ErrorBadPortIndex && ready == {}
      ensures nports <= numPorts ==> rc == ErrorNone
      ensures nports <= numPorts ==> forall p: nat :: p in ready <==> p < nports && At(Pooled(p)) != {}
    {
      if nports > numPorts {
        return ErrorBadPortIndex, {};
      }
      rc := ErrorNone;
      ready := set p: nat | p < nports && At(Pooled(p)) != {};
    }

    /**
     * tiz_krn_claim_buffer: take one header out of port `pid`'s pool; none
     * (and no error) when the pool is empty.
     */
    method Claim(pid: nat) returns (rc: OmxError, h: Option<Header>)
      requires Valid()
      modifies this
      ensures Valid() && store == old(store)
      ensures pid >= numPorts ==> rc == ErrorBadPortIndex && h.None? && loc == old(loc)
      ensures pid < numPorts ==> rc == ErrorNone
      ensures pid < numPorts && old(At(Pooled(pid))) == {} ==> h.None? && loc == old(loc)
      ensures pid < numPorts && old(At(Pooled(pid))) != {} ==>
                && h.Some?
                && h.value.id in old(At(Pooled(pid)))
                && h.value == store[h.value.id]
                && loc == old(loc)[h.value.id := Claimed(pid)]
    {
      if pid >= numPorts {
        return ErrorBadPortIndex, None;
      }
      rc := ErrorNone;
      var ready := At(Pooled(pid));
      if ready == {} {
        return rc, None;
      }
      var id :| id in ready;
      loc := loc[id := Claimed(pid)];
      h := Some(store[id]);
    }

    /**
     * tiz_krn_release_buffer: hand a claimed header back through the port it
     * was claimed from; any other header is refused.
     */
    method Release(pid: nat, h: Header) returns (rc: OmxError)
      requires Valid()
      modifies this
      ensures Valid()
      ensures rc == ErrorNone <==> old(h.id in loc && loc[h.id] == Claimed(pid))
      ensures rc == ErrorNone ==> loc == old(loc)[h.id := Returned(pid)] && store == old(store)[h.id := h]
      ensures rc != ErrorNone ==> rc == ErrorBadParameter && loc == old(loc) && store == old(store)
    {
      if h.id in loc && loc[h.id] == Claimed(pid) {
        loc := loc[h.id := Returned(pid)];
        store := store[h.id := h];
        rc := ErrorNone;
      } else {
        rc := ErrorBadParameter;
      }
    }
  }
}
