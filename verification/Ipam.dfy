/** The pool of guest subnets and VSOCK context identifiers (internal/core/network/ipam.go). */
module Ipam {
  import opened Common
  import opened Addressing

  const MAX_SUBNETS: nat := 256
  const MIN_GUEST_CID: nat := 3
  const MAX_GUEST_CID: nat := 1024

  /** The pool's two free stacks (last element on top) and two in-use sets. */
  datatype Pool = Pool(freeSubnets: seq<nat>, usedSubnets: set<nat>, freeCIDs: seq<nat>, usedCIDs: set<nat>)

  datatype Grant = Granted(subnet: nat, cid: nat) | SubnetsExhausted | CidsExhausted

  function Allocated(p: Pool): (r: (Pool, Grant)) {
    if p.freeSubnets == [] then (p, SubnetsExhausted)
    else if p.freeCIDs == [] then (p, CidsExhausted)
    else
      var s, c := p.freeSubnets[|p.freeSubnets| - 1], p.freeCIDs[|p.freeCIDs| - 1];
      (Pool(p.freeSubnets[..|p.freeSubnets| - 1], p.usedSubnets + {s},
            p.freeCIDs[..|p.freeCIDs| - 1], p.usedCIDs + {c}),
       Granted(s, c))
  }

  function ReturnSubnet(p: Pool, guestIP: string): Pool {
    match ParseCIDR(guestIP)
    case Some(c) =>
      if c.address[2] in p.usedSubnets
      then p.(usedSubnets := p.usedSubnets - {c.address[2]}, freeSubnets := p.freeSubnets + [c.address[2]])
      else p
    case None => p
  }

  function ReturnCid(p: Pool, cid: nat): Pool {
    if cid in p.usedCIDs
    then p.(usedCIDs := p.usedCIDs - {cid}, freeCIDs := p.freeCIDs + [cid])
    else p
  }

  function Returned(p: Pool, guestIP: string, cid: nat): Pool {
    ReturnCid(ReturnSubnet(p, guestIP), cid)
  }

  /** The stack lists, each once, exactly the numbers of lo..hi that are not in use. */
  ghost predicate Partition(free: seq<nat>, used: set<nat>, lo: nat, hi: nat) {
    && NoDup(free)
    && (forall k :: k in used ==> lo <= k < hi)
    && (forall k :: k in free ==> lo <= k < hi && k !in used)
    && (forall k :: lo <= k < hi && k !in used ==> k in free)
  }

  /** Both stacks partition their range, and subnets and CIDs are in use in equal number. */
  ghost predicate PoolOk(p: Pool) {
    && Partition(p.freeSubnets, p.usedSubnets, 0, MAX_SUBNETS)
    && Partition(p.freeCIDs, p.usedCIDs, MIN_GUEST_CID, MAX_GUEST_CID + 1)
    && |p.freeCIDs| - |p.freeSubnets| == (MAX_GUEST_CID + 1 - MIN_GUEST_CID) - MAX_SUBNETS
  }

  lemma IntervalIsPartition(free: seq<nat>, lo: nat)
    requires forall k :: 0 <= k < |free| ==> free[k] == lo + k
    ensures Partition(free, {}, lo, lo + |free|)
  {
    forall k | lo <= k < lo + |free| ensures k in free {
      assert free[k - lo] == k;
    }
  }

  lemma PopKeeps(free: seq<nat>, used: set<nat>, lo: nat, hi: nat)
    requires Partition(free, used, lo, hi) && free != []
    ensures var k := free[|free| - 1];
            && k !in used && lo <= k < hi
            && Partition(free[..|free| - 1], used + {k}, lo, hi)
  {
    var k := free[|free| - 1];
    var rest := free[..|free| - 1];
    assert k in free;
    forall x | x in free && x != k ensures x in rest {
      var i :| 0 <= i < |free| && free[i] == x;
      assert rest[i] == x;
    }
    assert k !in rest;
  }

  lemma PushKeeps(free: seq<nat>, used: set<nat>, lo: nat, hi: nat, k: nat)
    requires Partition(free, used, lo, hi) && k in used
    ensures Partition(free + [k], used - {k}, lo, hi)
  {
  }

  /** In a well-formed pool the only refusal is a lack of subnets: the CID branch is unreachable. */
  lemma AllocateIsFresh(p: Pool)
    requires PoolOk(p)
    ensures var (q, g) := Allocated(p);
            && PoolOk(q)
            && g != CidsExhausted
            && (g == SubnetsExhausted <==> forall k :: 0 <= k < MAX_SUBNETS ==> k in p.usedSubnets)
            && (g == SubnetsExhausted ==> q == p)
            && (g.Granted? ==>
                  && g.subnet !in p.usedSubnets && g.cid !in p.usedCIDs
                  && g.subnet < MAX_SUBNETS && MIN_GUEST_CID <= g.cid <= MAX_GUEST_CID
                  && q.usedSubnets == p.usedSubnets + {g.subnet} && q.usedCIDs == p.usedCIDs + {g.cid})
  {
    if p.freeSubnets != [] {
      PopKeeps(p.freeSubnets, p.usedSubnets, 0, MAX_SUBNETS);
      PopKeeps(p.freeCIDs, p.usedCIDs, MIN_GUEST_CID, MAX_GUEST_CID + 1);
      var k := p.freeSubnets[|p.freeSubnets| - 1];
      assert 0 <= k < MAX_SUBNETS && k !in p.usedSubnets;
    }
  }

  /** Returning a pair that is in use frees exactly that pair. */
  lemma ReturnIsExact(p: Pool, subnet: nat, cid: nat)
    requires PoolOk(p) && subnet in p.usedSubnets && cid in p.usedCIDs
    ensures var q := Returned(p, GuestText(subnet), cid);
            && PoolOk(q)
            && q.usedSubnets == p.usedSubnets - {subnet}
            && q.usedCIDs == p.usedCIDs - {cid}
  {
    GuestRoundTrip(subnet);
    PushKeeps(p.freeSubnets, p.usedSubnets, 0, MAX_SUBNETS, subnet);
    PushKeeps(p.freeCIDs, p.usedCIDs, MIN_GUEST_CID, MAX_GUEST_CID + 1, cid);
  }

  /** Returning what was just allocated restores the pool exactly, stacks included. */
  lemma ReturnUndoesAllocate(p: Pool)
    requires PoolOk(p) && Allocated(p).1.Granted?
    ensures var (q, g) := Allocated(p); Returned(q, GuestText(g.subnet), g.cid) == p
  {
    AllocateIsFresh(p);
    var (q, g) := Allocated(p);
    GuestRoundTrip(g.subnet);
    assert q.freeSubnets + [g.subnet] == p.freeSubnets;
    assert q.freeCIDs + [g.cid] == p.freeCIDs;
    assert p.usedSubnets + {g.subnet} - {g.subnet} == p.usedSubnets;
    assert p.usedCIDs + {g.cid} - {g.cid} == p.usedCIDs;
  }

  /** The stacks are last in, first out: the pair returned last is granted next, and granting it undoes the return. */
  lemma LastReturnedIsNextGranted(p: Pool, subnet: nat, cid: nat)
    requires PoolOk(p) && subnet in p.usedSubnets && cid in p.usedCIDs
    ensures Allocated(Returned(p, GuestText(subnet), cid)) == (p, Granted(subnet, cid))
  {
    GuestRoundTrip(subnet);
    var q := Returned(p, GuestText(subnet), cid);
    assert q.freeSubnets[..|q.freeSubnets| - 1] == p.freeSubnets && q.freeCIDs[..|q.freeCIDs| - 1] == p.freeCIDs;
    assert q.usedSubnets + {subnet} == p.usedSubnets && q.usedCIDs + {cid} == p.usedCIDs;
  }

  class IPAMPool {
    var freeSubnets: seq<nat>
    var usedSubnets: set<nat>
    var freeCIDs: seq<nat>
    var usedCIDs: set<nat>

    ghost function View(): Pool
      reads this
    {
      Pool(freeSubnets, usedSubnets, freeCIDs, usedCIDs)
    }

    constructor ()
      ensures PoolOk(View())
      ensures usedSubnets == {} && usedCIDs == {}
      ensures |freeSubnets| == 256 && forall k :: 0 <= k < 256 ==> freeSubnets[k] == k
      ensures |freeCIDs| == 1022 && forall k :: 0 <= k < 1022 ==> freeCIDs[k] == k + 3
      ensures Allocated(View()).1 == Granted(255, 1024)
    {
      usedSubnets, usedCIDs := {}, {};
      freeSubnets, freeCIDs := [], [];
      new;
      for i := 0 to MAX_SUBNETS
        invariant |freeSubnets| == i && forall k :: 0 <= k < i ==> freeSubnets[k] == k
        invariant usedSubnets == {} && usedCIDs == {} && freeCIDs == []
      {
        freeSubnets := freeSubnets + [i];
      }
      for cid := MIN_GUEST_CID to MAX_GUEST_CID + 1
        invariant |freeCIDs| == cid - MIN_GUEST_CID
        invariant forall k :: 0 <= k < |freeCIDs| ==> freeCIDs[k] == MIN_GUEST_CID + k
        invariant usedSubnets == {} && usedCIDs == {}
        invariant |freeSubnets| == MAX_SUBNETS && forall k :: 0 <= k < MAX_SUBNETS ==> freeSubnets[k] == k
      {
        freeCIDs := freeCIDs + [cid];
      }
      IntervalIsPartition(freeSubnets, 0);
      IntervalIsPartition(freeCIDs, MIN_GUEST_CID);
    }

    method Allocate() returns (g: Grant)
      modifies this
      ensures (View(), g) == Allocated(old(View()))
    {
      if |freeSubnets| == 0 { return SubnetsExhausted; }
      if |freeCIDs| == 0 { return CidsExhausted; }
      var subnet := freeSubnets[|freeSubnets| - 1];
      freeSubnets := freeSubnets[..|freeSubnets| - 1];
      usedSubnets := usedSubnets + {subnet};
      var cid := freeCIDs[|freeCIDs| - 1];
      freeCIDs := freeCIDs[..|freeCIDs| - 1];
      usedCIDs := usedCIDs + {cid};
      return Granted(subnet, cid);
    }

    method Release(guestIP: string, cid: nat)
      modifies this
      ensures View() == Returned(old(View()), guestIP, cid)
    {
      var parsed := ParseCIDR(guestIP);
      if parsed.Some? {
        var subnet := parsed.value.address[2];
        if subnet in usedSubnets {
          usedSubnets := usedSubnets - {subnet};
          freeSubnets := freeSubnets + [subnet];
        }
      }
      if cid in usedCIDs {
        usedCIDs := usedCIDs - {cid};
        freeCIDs := freeCIDs + [cid];
      }
    }
  }
}
