// One reconcile of a TalosClusterBootstrap, step by step: it works on the copy of the object
// it read, and every write and RPC is applied to the world and recorded.
module BootstrapReconciler {
  import opened Dialer
  import opened Options
  import opened Conditions
  import opened Bootstrap

  class Reconciler {
    const start: World
    const uid: nat
    var world: World
    var boot: Boot
    var events: seq<Event>

    // The world is what the recorded events made of the one the reconcile started from.
    ghost predicate Valid()
      reads this
    {
      world == After(start, uid, events) && uid in world.boots
    }

    constructor (stored: World, id: nat)
      requires id in stored.boots
      ensures Valid() && start == stored && uid == id && world == stored && events == [] && boot == stored.boots[id]
    {
      start, uid, world, boot, events := stored, id, stored, stored.boots[id], [];
    }

    method Write(e: Event)
      requires Valid() && !e.FinalizerRemoved?
      modifies this`world, this`events
      ensures Valid() && events == old(events) + [e] && world == Apply(old(world), uid, e)
    {
      AfterSnoc(start, uid, events, e);
      world, events := Apply(world, uid, e), events + [e];
    }

    method UpdateStatus(lands: bool)
      requires Valid()
      modifies this`world, this`events
      ensures Valid() && events == old(events) + (if lands then [StatusWritten(boot.status)] else [])
      ensures world.kubeconfig == old(world.kubeconfig) && world.endpoints == old(world.endpoints)
    {
      if lands { Write(StatusWritten(boot.status)); }
    }

    method SetError(o: Outcomes)
      requires Valid()
      modifies this`world, this`events, this`boot
      ensures Valid() && events == old(events) + ErrorPlan(old(boot).status, o)
    {
      boot := boot.(status := boot.status.(phase := Errored, retryCount := boot.status.retryCount + 1));
      UpdateStatus(o.errorStatus);
    }

    method Reconcile(o: Outcomes)
      requires Valid()
      modifies this`world, this`events, this`boot
      ensures events == old(events) + Plan(old(boot), old(world).endpoints, old(world).kubeconfig.Some?, o)
      ensures world == After(start, uid, events)
    {
      hide ActivePlan, DeletionPlan, After;
      if boot.deleting {
        HandleDeletion(o);
        return;
      }
      if !boot.finalizer {
        if !o.addFinalizer { return; }
        boot := boot.(finalizer := true);
        Write(FinalizerAdded);
      }
      ReconcileActive(o);
    }

    method ReconcileActive(o: Outcomes)
      requires Valid()
      modifies this`world, this`events, this`boot
      ensures Valid()
      ensures events == old(events) + ActivePlan(old(boot), old(world).endpoints, old(world).kubeconfig.Some?, o)
    {
      hide After, ConnectPlan, ProbePlan, ErrorPlan;
      if IsUpToDate(boot) { return; }
      if !o.clusterRead || world.endpoints.None? || |world.endpoints.value| == 0 || o.nodes.None? {
        SetError(o);
        return;
      }
      var endpoints := world.endpoints.value;
      var ready := ReadyControlPlaneCount(o.nodes.value, boot.clusterRef);
      if ready == 0 {
        boot := boot.(status := boot.status.(phase := WaitingForNodes));
        UpdateStatus(o.waitStatus);
        if !o.waitStatus { SetError(o); }
        return;
      }
      if Has(boot.status.conditions, KubeconfigAvailable, True) {
        WaitForAPIServer(o);
        return;
      }
      boot := boot.(status := StartedStatus(boot));
      UpdateStatus(o.startStatus);
      if !o.startStatus { return; }
      Connect(endpoints, o);
    }

    method Connect(endpoints: seq<string>, o: Outcomes)
      requires Valid() && endpoints != []
      modifies this`world, this`events, this`boot
      ensures Valid() && events == old(events) + ConnectPlan(old(boot).status, endpoints, o)
    {
      hide After, FetchPlan, RpcPlan, ErrorPlan;
      var already := Has(boot.status.conditions, Bootstrapped, True);
      if !o.talosconfig {
        SetError(o);
        return;
      }
      var dialled;
      if already {
        dialled := DialFirst(endpoints, o.reachable);
      } else {
        dialled := if endpoints[0] in o.reachable then Some(endpoints[0]) else None;
      }
      if dialled.None? {
        if !o.dialCancelled { SetError(o); }
        return;
      }
      if already {
        FetchKubeconfig(o);
      } else {
        BootstrapEtcd(dialled.value, o);
      }
    }

    method BootstrapEtcd(target: string, o: Outcomes)
      requires Valid()
      modifies this`world, this`events, this`boot
      ensures Valid() && events == old(events) + RpcPlan(old(boot).status, target, o)
    {
      hide After, FetchPlan, ErrorPlan;
      Write(BootstrapSent(target, !o.rpc.NotReached?));
      if !o.rpc.Answered? {
        if !o.rpc.cancelled { SetError(o); }
        return;
      }
      boot := boot.(status := SetCond(boot.status, Bootstrapped, True));
      UpdateStatus(o.bootStatus);
      if !o.bootStatus { return; }
      FetchKubeconfig(o);
    }

    method FetchKubeconfig(o: Outcomes)
      requires Valid()
      modifies this`world, this`events, this`boot
      ensures Valid() && events == old(events) + FetchPlan(old(boot).status, o)
    {
      hide After, ProbePlan, ErrorPlan;
      match o.fetch
      case FetchCancelled => return;
      case FetchFailed =>
        boot := boot.(status := RetryStatus(boot.status));
        UpdateStatus(o.retryStatus);
      case Fetched(content) =>
        if !o.save {
          SetError(o);
          return;
        }
        Write(KubeconfigCreated(content));
        boot := boot.(status := SetCond(boot.status, KubeconfigAvailable, True));
        UpdateStatus(o.kubeStatus);
        if !o.kubeStatus { return; }
        WaitForAPIServer(o);
    }

    method WaitForAPIServer(o: Outcomes)
      requires Valid()
      modifies this`world, this`events, this`boot
      ensures Valid() && events == old(events) + ProbePlan(old(boot).status, old(world).kubeconfig.Some?, o)
    {
      hide After, ErrorPlan;
      if world.kubeconfig.None? || !o.secretRead {
        SetError(o);
        return;
      }
      if !o.probe {
        boot := boot.(status := ProbingStatus(boot.status));
        UpdateStatus(o.probeStatus);
        return;
      }
      boot := boot.(status := CompletedStatus(boot.status));
      UpdateStatus(o.doneStatus);
    }

    method ReadyControlPlaneCount(nodes: seq<NodeRef>, clusterRef: string) returns (count: nat)
      ensures count == ReadyCount(nodes, clusterRef)
    {
      count := 0;
      for i := 0 to |nodes|
        invariant count == ReadyCount(nodes[..i], clusterRef)
      {
        assert nodes[..i + 1][..i] == nodes[..i];
        if nodes[i].clusterRef == clusterRef && nodes[i].controlPlane && nodes[i].ready { count := count + 1; }
      }
      assert nodes[..|nodes|] == nodes;
    }

    method HandleDeletion(o: Outcomes)
      requires Valid()
      modifies this`world, this`events, this`boot
      ensures events == old(events) + DeletionPlan(old(boot), old(world).endpoints, old(world).kubeconfig.Some?, o)
      ensures world == After(start, uid, events)
    {
      hide After;
      if !boot.finalizer { return; }
      if o.clusterRead && world.endpoints.Some? && world.kubeconfig.Some? && o.secretRead {
        if !o.secretDelete { return; }
        Write(KubeconfigDeleted);
      }
      boot := boot.(finalizer := false);
      if o.removeFinalizer {
        AfterSnoc(start, uid, events, FinalizerRemoved);
        world, events := Apply(world, uid, FinalizerRemoved), events + [FinalizerRemoved];
      }
    }
  }

  lemma {:induction false} AfterSnoc(w: World, uid: nat, es: seq<Event>, e: Event)
    requires uid in After(w, uid, es).boots
    ensures After(w, uid, es + [e]) == Apply(After(w, uid, es), uid, e)
    decreases |es|
  {
    hide Apply;
    if es == [] || uid !in w.boots {
      assert ([] + [e])[1..] == [];
      assert es + [e] == [e] || uid !in w.boots;
    } else {
      AfterSnoc(Apply(w, uid, es[0]), uid, es[1..], e);
      assert (es + [e])[1..] == es[1..] + [e];
    }
  }
}
