/** The Kubernetes name resolver for gRPC: its lifecycle (Start, Close) and
    the reconciliation step that turns each received address list into at
    most one update of the client connection. */
module K8sResolver {
  import opened Grpc
  import opened ResolverSpec

  /** The service to resolve; opaque to the resolver. */
  type Target = string

  /** The directory-service client; its lookups are not part of this model. */
  class Client {
  }

  /** Builds the state for a result list by appending one backend address
      per string, in order. */
  method BuildState(addrs: seq<string>) returns (state: State)
    ensures state == StateOf(addrs)
    ensures |state.addresses| == |addrs|
    ensures forall i :: 0 <= i < |addrs| ==> state.addresses[i] == Address(addrs[i], Backend)
    ensures AddrsOf(state) == addrs
  {
    state := State([]);
    var i := 0;
    while i < |addrs|
      invariant 0 <= i <= |addrs|
      invariant state.addresses == Backends(addrs[..i])
    {
      assert addrs[..i + 1][..i] == addrs[..i];
      state := state.(addresses := state.addresses + [Address(addrs[i], Backend)]);
      i := i + 1;
    }
    assert addrs[..i] == addrs;
    BackendsAt(addrs);
    StateOfRoundTrip(addrs);
  }

  class Resolver {
    const target: Target
    const conn: ClientConn
    const client: Client

    /** Whether a cancel function is held (a spawned loop is not cancelled). */
    var active: bool
    /** The list the current loop applied last (a local of that loop). */
    var last: seq<string>
    /** How many loops Start has spawned and Close has cancelled. */
    ghost var started: nat
    ghost var cancelled: nat

    ghost function LifecycleOf(): Lifecycle
      reads this
    {
      Lifecycle(active, started, cancelled)
    }

    ghost predicate Valid()
      reads this
    {
      OneUncancelledLoop(LifecycleOf())
    }

    /** A new resolver is inactive and binds the given target, connection
        and client. */
    constructor (target: Target, cc: ClientConn, client: Client)
      ensures Valid() && !active
      ensures this.target == target && conn == cc && this.client == client
      ensures started == 0 && cancelled == 0 && last == []
    {
      this.target := target;
      conn := cc;
      this.client := client;
      active := false;
      last := [];
      started, cancelled := 0, 0;
    }

    /** Activates an inactive resolver, spawning a loop with nothing applied
        yet; does nothing to one already active. */
    method Start()
      requires Valid()
      modifies this
      ensures Valid() && active
      ensures LifecycleOf() == StartStep(old(LifecycleOf()))
      ensures old(active) ==> last == old(last)
      ensures !old(active) ==> last == [] && started == old(started) + 1
    {
      if active {
        return;
      }
      active := true;
      started := started + 1;
      last := [];
    }

    /** Cancels the current loop and forgets the cancel function, so that a
        later Start works again; does nothing to an inactive resolver. */
    method Close()
      requires Valid()
      modifies this
      ensures Valid() && !active
      ensures LifecycleOf() == CloseStep(old(LifecycleOf()))
      ensures last == old(last)
      ensures old(active) ==> cancelled == old(cancelled) + 1
    {
      if !active {
        return;
      }
      cancelled := cancelled + 1;
      active := false;
    }

    /** One pass of the current, not yet cancelled loop's results branch: an
        unchanged list is dropped; a changed one is pushed once and becomes
        `last`. */
    method ApplyResult(addrs: seq<string>)
      requires Valid() && active
      modifies this`last, conn
      ensures Valid() && active
      ensures Applied(last, conn.updates) == ApplyStep(old(Applied(last, conn.updates)), addrs)
      ensures addrs == old(last) ==> last == old(last) && conn.updates == old(conn.updates)
      ensures addrs != old(last) ==> last == addrs && conn.updates == old(conn.updates) + [StateOf(addrs)]
    {
      if addrs == last {
        return;
      }
      var state := BuildState(addrs);
      conn.UpdateState(state);
      last := addrs;
    }

    /** The current, not yet cancelled loop receiving `results` in order. */
    method RunLoop(results: seq<seq<string>>)
      requires Valid() && active
      modifies this`last, conn
      ensures Valid() && active
      ensures last == Reconcile(old(last), results).last
      ensures conn.updates == old(conn.updates) + Reconcile(old(last), results).updates
    {
      var i := 0;
      while i < |results|
        invariant 0 <= i <= |results|
        invariant last == Reconcile(old(last), results[..i]).last
        invariant conn.updates == old(conn.updates) + Reconcile(old(last), results[..i]).updates
      {
        assert results[..i + 1][..i] == results[..i];
        ApplyResult(results[i]);
        i := i + 1;
      }
      assert results[..i] == results;
    }
  }
}
