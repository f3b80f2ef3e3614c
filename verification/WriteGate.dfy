/** `RuntimeWriteGate`: one writer per resource, released by a one-shot closure. */
module WriteGate {

  datatype Ref = Ref(endpointId: string, id: string)

  /** The gate's keys: an existing resource, or the scope of a create. */
  datatype Target = Resource(ref: Ref) | Create(scope: string)

  /** One acquisition and its release closure. */
  datatype Lease = Lease(target: Target, released: bool)

  datatype Gate = Gate(active: set<Target>, leases: seq<Lease>)
  {
    predicate Holds(i: int) { 0 <= i < |leases| && !leases[i].released }
  }

  function Acquired(g: Gate, t: Target): Gate {
    if t in g.active then g else Gate(g.active + {t}, g.leases + [Lease(t, false)])
  }

  function Released(g: Gate, i: nat): Gate
    requires i < |g.leases|
  {
    if g.leases[i].released then g
    else Gate(g.active - {g.leases[i].target}, g.leases[i := g.leases[i].(released := true)])
  }

  /** The active targets are those of the open leases, one lease each. */
  ghost predicate Exclusive(g: Gate) {
    && (forall t :: t in g.active ==> exists i :: g.Holds(i) && g.leases[i].target == t)
    && (forall i :: g.Holds(i) ==> g.leases[i].target in g.active)
    && (forall i, j :: g.Holds(i) && g.Holds(j) && g.leases[i].target == g.leases[j].target ==> i == j)
  }

  lemma AcquireExclusive(g: Gate, t: Target)
    requires Exclusive(g)
    ensures Exclusive(Acquired(g, t))
  {
    var next := Acquired(g, t);
    if t !in g.active {
      assert next.Holds(|g.leases|);
      forall u | u in g.active ensures exists i :: next.Holds(i) && next.leases[i].target == u {
        var i :| g.Holds(i) && g.leases[i].target == u;
        assert next.Holds(i) && next.leases[i].target == u;
      }
      assert forall i :: next.Holds(i) ==> i == |g.leases| || (g.Holds(i) && next.leases[i] == g.leases[i]);
    }
  }

  /** A release, also a repeated one, frees its own lease and no other holder's. */
  lemma ReleaseExclusive(g: Gate, i: nat, other: nat)
    requires Exclusive(g) && i < |g.leases|
    ensures var next := Released(g, i);
      && Exclusive(next)
      && !next.Holds(i)
      && (other != i && g.Holds(other) ==> next.Holds(other) && next.leases[other].target in next.active)
  {
    var next := Released(g, i);
    if !g.leases[i].released {
      assert g.Holds(i);
      forall u | u in next.active ensures exists j :: next.Holds(j) && next.leases[j].target == u {
        var j :| g.Holds(j) && g.leases[j].target == u;
        assert next.Holds(j) && next.leases[j].target == u;
      }
      assert forall j :: next.Holds(j) ==> j != i && g.Holds(j) && next.leases[j] == g.leases[j];
      if other != i && g.Holds(other) { assert next.Holds(other); }
    }
  }

  class RuntimeWriteGate {
    var active: set<Target>
    /** One entry for each closure handed out. */
    var leases: seq<Lease>

    function Abs(): Gate reads this { Gate(active, leases) }

    constructor ()
      ensures Abs() == Gate({}, []) && Exclusive(Abs())
    {
      active, leases := {}, [];
    }

    method Acquire(target: Target) returns (lease: nat, busy: bool)
      requires Exclusive(Abs())
      modifies this
      ensures busy == (target in old(active))
      ensures Abs() == Acquired(old(Abs()), target) && Exclusive(Abs())
      ensures !busy ==> lease == |old(leases)| && Abs().Holds(lease)
    {
      AcquireExclusive(Abs(), target);
      if target in active { return 0, true; }
      active := active + {target};
      lease, busy := |leases|, false;
      leases := leases + [Lease(target, false)];
    }

    method Release(lease: nat)
      requires Exclusive(Abs()) && lease < |leases|
      modifies this
      ensures Abs() == Released(old(Abs()), lease) && Exclusive(Abs())
    {
      ReleaseExclusive(Abs(), lease, lease);
      if !leases[lease].released {
        active := active - {leases[lease].target};
        leases := leases[lease := leases[lease].(released := true)];
      }
    }
  }
}
