// One reconcile of a TalosCluster, step by step: it works on the copy of the object it read,
// and every write that lands is applied to the stored world and recorded.
module ClusterReconciler {
  import opened Provision

  class Reconciler {
    const start: World
    var world: World
    var cluster: Cluster
    var events: seq<Event>

    // The stored world is what the recorded writes made of the one the reconcile started from.
    ghost predicate Valid()
      reads this
    {
      world == After(start, events)
    }

    constructor (stored: World)
      requires stored.cluster.Some?
      ensures Valid() && start == stored && world == stored && events == [] && cluster == stored.cluster.value
    {
      start, world, cluster, events := stored, stored, stored.cluster.value, [];
    }

    method Write(e: Event)
      requires Valid()
      modifies this`world, this`events
      ensures Valid() && events == old(events) + [e] && world == Apply(old(world), e)
    {
      AfterAppend(start, events, [e]);
      AfterCons(world, e, []);
      assert [e] + [] == [e];
      world, events := Apply(world, e), events + [e];
    }

    method UpdateStatus(lands: bool)
      requires Valid()
      modifies this`world, this`events
      ensures Valid() && events == old(events) + (if lands then [StatusWritten(cluster.status)] else [])
      ensures world.store == old(world.store)
    {
      if lands { Write(StatusWritten(cluster.status)); }
    }

    method Reconcile(o: Outcomes)
      requires Valid()
      modifies this`world, this`events, this`cluster
      ensures Valid() && events == old(events) + Plan(old(cluster), old(world.store), o)
    {
      hide Apply, After, DeletionPlan, ProvisionOrErrorPlan, IsUpToDate;
      if cluster.deleting {
        HandleDeletion(o);
        return;
      }
      FinalizerIsIgnored(cluster, world.store, o);
      if !cluster.finalizer {
        if !o.addFinalizer { return; }
        cluster := cluster.(finalizer := true);
        FinalizerKeepsStore();
        Write(FinalizerAdded);
      }
      if IsUpToDate(cluster) { return; }
      ProvisionOrSetError(o);
    }

    method ProvisionOrSetError(o: Outcomes)
      requires Valid()
      modifies this`world, this`events, this`cluster
      ensures Valid() && events == old(events) + ProvisionOrErrorPlan(old(cluster), old(world.store), o)
    {
      hide Apply, After, ProvisionPlan;
      var result := Provision(o);
      if result == Failed {
        cluster := cluster.(status := ErrorStatus(cluster.status));
        UpdateStatus(o.errorStatus);
      }
    }

    lemma FinalizerKeepsStore()
      ensures Apply(world, FinalizerAdded).store == world.store
    {
    }

    method Provision(o: Outcomes) returns (result: Result)
      requires Valid()
      modifies this`world, this`events, this`cluster
      ensures var attempt := ProvisionPlan(old(cluster), old(world.store), o);
              && Valid() && result == attempt.result
              && events == old(events) + attempt.events
              && cluster == old(cluster).(status := attempt.status)
    {
      hide Apply, After, FirstFailure, LoadOrGenBundle;
      cluster := cluster.(status := StartedStatus(cluster));
      UpdateStatus(o.start == Done);
      if o.start != Done { return o.start; }
      if |cluster.spec.endpoints| == 0 { return Failed; }
      var bundle := LoadOrGenBundle(world.store, o);
      if bundle.None? { return Failed; }
      var wanted := Wanted(bundle.value, cluster.spec);
      result := StoreSecrets(wanted, o);
      if result != Done { return; }
      cluster := cluster.(status := FinishedStatus(cluster.status));
      UpdateStatus(o.finish == Done);
      result := o.finish;
    }

    // The bundle secret, the generated configurations, then their three secrets.
    method StoreSecrets(wanted: seq<Event>, o: Outcomes) returns (result: Result)
      requires Valid() && |wanted| == 4
      modifies this`world, this`events
      ensures var stop := FirstFailure(o.creates, 0);
              && Valid()
              && result == (if stop == 0 then o.creates[0] else if !o.generateConfigs then Failed else if stop < 4 then o.creates[stop] else Done)
              && events == old(events) + (if stop == 0 then [] else if !o.generateConfigs then wanted[..1] else wanted[..stop])
    {
      hide Apply, After;
      var i := 0;
      while i < 4
        invariant 0 <= i <= FirstFailure(o.creates, 0)
        invariant i > 1 ==> o.generateConfigs
        invariant Valid() && events == old(events) + wanted[..i]
      {
        if i == 1 && !o.generateConfigs { return Failed; }
        result := CreateSecret(wanted[i], o.creates, i);
        if result != Done { return; }
        assert wanted[..i + 1] == wanted[..i] + [wanted[i]];
        i := i + 1;
      }
      assert wanted[..4] == wanted;
      result := Done;
    }

    // Create-if-absent: an already existing secret is left alone and counts as success.
    method CreateSecret(write: Event, creates: seq<Result>, i: nat) returns (result: Result)
      requires Valid()
      modifies this`world, this`events
      ensures result == if i < |creates| then creates[i] else Done
      ensures Valid() && events == old(events) + (if result == Done then [write] else [])
    {
      result := if i < |creates| then creates[i] else Done;
      if result == Done { Write(write); }
    }

    method HandleDeletion(o: Outcomes)
      requires Valid()
      modifies this`world, this`events, this`cluster
      ensures Valid() && events == old(events) + DeletionPlan(old(cluster), old(world.store), o)
    {
      hide Apply, After, DeleteEvents, AllIn;
      if !cluster.finalizer || o.nodes.None? { return; }
      var count := ActiveNodeCount(o.nodes.value, cluster.name);
      if count > 0 {
        cluster := cluster.(status := cluster.status.(phase := Deleting));
        UpdateStatus(o.blockedStatus);
        return;
      }
      var ok := DeleteMultiple(ALL_SECRETS, o.deletable);
      if !ok { return; }
      cluster := cluster.(finalizer := false);
      if o.removeFinalizer { Write(FinalizerRemoved); }
    }

    method ActiveNodeCount(nodes: seq<NodeRef>, name: string) returns (count: nat)
      ensures count == ActiveCount(nodes, name)
    {
      count := 0;
      for i := 0 to |nodes|
        invariant count == ActiveCount(nodes[..i], name)
      {
        assert nodes[..i + 1][..i] == nodes[..i];
        if nodes[i].clusterRef == name && !nodes[i].deleting { count := count + 1; }
      }
      assert nodes[..|nodes|] == nodes;
    }

    // Deletes the named secrets in order, stopping at the first failure; a missing one is fine.
    method DeleteMultiple(names: seq<SecretName>, deletable: set<SecretName>) returns (ok: bool)
      requires Valid()
      modifies this`world, this`events
      ensures Valid() && events == old(events) + DeleteEvents(names, old(world.store), deletable)
      ensures ok <==> AllIn(names, deletable)
    {
      for i := 0 to |names|
        invariant Valid()
        invariant events + DeleteEvents(names[i..], world.store, deletable) ==
                  old(events) + DeleteEvents(names, old(world.store), deletable)
        invariant forall j :: 0 <= j < i ==> names[j] in deletable
      {
        if names[i] !in deletable { return false; }
        assert names[i..][1..] == names[i + 1..];
        DeleteSecret(names[i]);
      }
      return true;
    }

    method DeleteSecret(name: SecretName)
      requires Valid()
      modifies this`world, this`events
      ensures Valid() && events == old(events) + (if name in old(world.store) then [SecretDeleted(name)] else [])
      ensures world.store == old(world.store) - {name}
    {
      if name in world.store { Write(SecretDeleted(name)); }
    }
  }

  // Provisioning does not look at the finalizer.
  lemma FinalizerIsIgnored(c: Cluster, store: Store, o: Outcomes)
    ensures var c' := c.(finalizer := true);
            && IsUpToDate(c') == IsUpToDate(c)
            && ProvisionOrErrorPlan(c', store, o) == ProvisionOrErrorPlan(c, store, o)
  {
  }
}
