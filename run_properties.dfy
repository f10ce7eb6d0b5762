/** What a run of the health check that passes the lock check does, proved
    about the effect log of the script's control flow (module Effects) and
    tied to the declarative reference (module Outcomes). */
module RunProperties {
  import opened StatusTrail
  import opened Outcomes
  import opened Effects

  /** The effect log of each path through `create_instance`, written out. */
  lemma ProvisionShape(c: Cloud)
    ensures !Succeeds(c, Created) ==>
      ProvisionEffects(c) == [Appended(Entry(Created, false))]
    ensures Succeeds(c, Created) && !Succeeds(c, IpAssigned) ==>
      ProvisionEffects(c) == [LockEnabled, Appended(Entry(Created, true)), Appended(Entry(IpAssigned, false))]
    ensures Succeeds(c, Created) && Succeeds(c, IpAssigned) ==>
      ProvisionEffects(c) == [LockEnabled, Appended(Entry(Created, true)), Appended(Entry(IpAssigned, true)),
                              Appended(Entry(SshConnection, Succeeds(c, SshConnection)))]
  {
  }

  /** Each path through `create_instance`, as the log grows one effect at a
      time after whatever effects came `before`, ends in that log followed
      by the provisioning effects. An unfolding step for `CreateInstance`. */
  lemma ProvisionPaths(before: seq<Effect>, c: Cloud)
    ensures !Succeeds(c, Created) ==>
      before + [Appended(Entry(Created, false))] == before + ProvisionEffects(c)
    ensures Succeeds(c, Created) && !Succeeds(c, IpAssigned) ==>
      before + [LockEnabled] + [Appended(Entry(Created, true))] + [Appended(Entry(IpAssigned, false))]
      == before + ProvisionEffects(c)
    ensures Succeeds(c, Created) && Succeeds(c, IpAssigned) ==>
      before + [LockEnabled] + [Appended(Entry(Created, true))] + [Appended(Entry(IpAssigned, true))]
      + [Appended(Entry(SshConnection, Succeeds(c, SshConnection)))]
      == before + ProvisionEffects(c)
  {
  }

  /** The entries `create_instance` appends, stage by stage. */
  lemma ProvisionEntries(c: Cloud)
    ensures Entries(ProvisionEffects(c)) ==
      [Entry(Created, Succeeds(c, Created))]
      + (if !Succeeds(c, Created) then []
         else [Entry(IpAssigned, Succeeds(c, IpAssigned))]
              + (if !Succeeds(c, IpAssigned) then []
                 else [Entry(SshConnection, Succeeds(c, SshConnection))]))
  {
    var ssh := if !Succeeds(c, IpAssigned) then [] else [Appended(Entry(SshConnection, Succeeds(c, SshConnection)))];
    var ip := if !Succeeds(c, Created) then [] else [Appended(Entry(IpAssigned, Succeeds(c, IpAssigned)))] + ssh;
    EntriesAppend(CreateEffects(c), ip);
    if Succeeds(c, Created) {
      EntriesAppend([Appended(Entry(IpAssigned, Succeeds(c, IpAssigned)))], ssh);
    }
  }

  /** The entries each stage appends, stage by stage. */
  lemma LifecycleEntries(c: Cloud)
    ensures Entries(LifecycleEffects(c)) ==
      [Entry(Created, Succeeds(c, Created))]
      + (if !Succeeds(c, Created) then []
         else [Entry(IpAssigned, Succeeds(c, IpAssigned))]
              + (if !Succeeds(c, IpAssigned) then []
                 else [Entry(SshConnection, Succeeds(c, SshConnection))]
                      + (if !Succeeds(c, SshConnection) then []
                         else [Entry(Deletion, Succeeds(c, Deletion))])))
  {
    var teardown := if ReturnsInstance(c) then TeardownEffects(c) else [];
    EntriesAppend(ProvisionEffects(c), teardown);
    ProvisionEntries(c);
    if ReturnsInstance(c) {
      TeardownEntries(c);
    }
  }

  /** `delete_instance` appends exactly its deletion entry. */
  lemma TeardownEntries(c: Cloud)
    ensures Entries(TeardownEffects(c)) == [Entry(Deletion, Succeeds(c, Deletion))]
  {
    var entry := Appended(Entry(Deletion, Succeeds(c, Deletion)));
    assert [entry][..0] == [];
    assert Entries([entry]) == [entry.entry];
    if Succeeds(c, Deletion) {
      assert TeardownEffects(c)[..1] == [entry];
    }
  }

  /** The trail a run leaves is the reference trail: one entry per attempted
      step, in order, a later step only after every earlier one succeeded. */
  lemma RunLeavesTrail(c: Cloud)
    ensures Entries(RunEffects(c)) == Entries(LifecycleEffects(c)) == Trail(c)
    ensures WellOrdered(Entries(RunEffects(c)))
  {
    var lifecycle := LifecycleEffects(c);
    LifecycleTrail(c);
    EntriesAppend(lifecycle, [Sent(Metric(MonitoredHost, MetricKey, Join(Entries(lifecycle))))]);
  }

  /** The entries provisioning and teardown append are the reference trail,
      case by case on the first failing step. */
  lemma LifecycleTrail(c: Cloud)
    ensures Entries(LifecycleEffects(c)) == Trail(c)
  {
    LifecycleEntries(c);
    AttemptedIsFirstFailure(c);
    var t := Trail(c);
    if !Succeeds(c, Created) {
      assert t == [Entry(Created, false)];
    } else if !Succeeds(c, IpAssigned) {
      assert t == [Entry(Created, true), Entry(IpAssigned, false)];
    } else if !Succeeds(c, SshConnection) {
      assert t == [Entry(Created, true), Entry(IpAssigned, true), Entry(SshConnection, false)];
    } else {
      assert t == [Entry(Created, true), Entry(IpAssigned, true), Entry(SshConnection, true),
                   Entry(Deletion, Succeeds(c, Deletion))];
    }
  }

  /** Effects that send nothing leave no metric. */
  lemma {:induction false} NoSendNoMetrics(es: seq<Effect>)
    requires forall k :: 0 <= k < |es| ==> !es[k].Sent?
    ensures Metrics(es) == []
  {
    if es != [] {
      NoSendNoMetrics(es[..|es| - 1]);
    }
  }

  /** Provisioning and teardown send nothing. */
  lemma LifecycleSendsNothing(c: Cloud)
    ensures forall k :: 0 <= k < |LifecycleEffects(c)| ==> !LifecycleEffects(c)[k].Sent?
  {
  }

  /** Exactly one metric is sent, as the last effect of the run, and its value
      is the trail joined in order. */
  lemma RunReportsOnce(c: Cloud)
    ensures var es := RunEffects(c);
      && Metrics(es) == [Metric(MonitoredHost, MetricKey, Join(Trail(c)))]
      && es[|es| - 1].Sent?
      && forall k :: 0 <= k < |es| - 1 ==> !es[k].Sent?
  {
    var body := LifecycleEffects(c);
    LifecycleSendsNothing(c);
    RunLeavesTrail(c);
    NoSendNoMetrics(body);
    MetricsAppend(body, [Sent(Metric(MonitoredHost, MetricKey, Join(Entries(body))))]);
  }

  /** After a run the lock is held exactly when the reference says so: the
      run created a VM and did not delete it. */
  lemma RunLockState(c: Cloud)
    ensures LockAfter(false, RunEffects(c)) == LockHeldAfter(c)
  {
    var body := LifecycleEffects(c);
    LockAfterAppend(false, body, [Sent(Metric(MonitoredHost, MetricKey, Join(Entries(body))))]);
    AttemptedIsFirstFailure(c);
    ProvisionLock(false, c);
    if ReturnsInstance(c) {
      LockAfterAppend(false, ProvisionEffects(c), TeardownEffects(c));
      TeardownLock(c);
    } else {
      assert body == ProvisionEffects(c);
    }
  }

  /** Provisioning leaves the lock held exactly when it was held before or
      creation succeeded. */
  lemma ProvisionLock(held: bool, c: Cloud)
    ensures LockAfter(held, ProvisionEffects(c)) == (held || Succeeds(c, Created))
  {
    var es := ProvisionEffects(c);
    ProvisionShape(c);
    if Succeeds(c, Created) {
      assert es == [LockEnabled] + es[1..];
      LockAfterAppend(held, [LockEnabled], es[1..]);
      AppendsKeepLock(true, es[1..]);
    } else {
      AppendsKeepLock(held, es);
    }
  }

  /** Teardown, run while the lock is held, leaves it held exactly when
      deletion failed. */
  lemma TeardownLock(c: Cloud)
    ensures LockAfter(true, TeardownEffects(c)) == !c.serverDeleted
  {
  }

  /** Appending to the trail leaves the lock as it was. */
  lemma {:induction false} AppendsKeepLock(held: bool, es: seq<Effect>)
    requires forall k :: 0 <= k < |es| ==> es[k].Appended?
    ensures LockAfter(held, es) == held
  {
    if es != [] {
      AppendsKeepLock(held, es[..|es| - 1]);
    }
  }

  /** The lock is held after a run exactly when its trail records a created VM
      and no successful deletion. */
  lemma LockHeldIffCreatedNotDeleted(c: Cloud)
    ensures LockHeldAfter(c) <==>
      Entry(Created, true) in Trail(c) && Entry(Deletion, true) !in Trail(c)
  {
    var t := Trail(c);
    AttemptedIsFirstFailure(c);
    assert t[0] == Entry(Created, Succeeds(c, Created));
    if Entry(Created, true) in t {
      var i :| 0 <= i < |t| && t[i] == Entry(Created, true);
      AtMostOncePerStep(t, Created, i, 0, true, Succeeds(c, Created));
    }
    if Entry(Deletion, true) in t {
      var i :| 0 <= i < |t| && t[i] == Entry(Deletion, true);
      EntryIsUnambiguous(Deletion, true, Order[i], Succeeds(c, Order[i]));
      assert i == 3;
    }
    if Provisioned(c) && Succeeds(c, Deletion) {
      assert t[3] == Entry(Deletion, true);
    }
  }

  /** The lock is set only on a successful creation, and then immediately
      before the creation success entry is appended. */
  lemma LockSetOnlyOnCreation(c: Cloud)
    ensures var es := RunEffects(c);
      && (LockEnabled in es <==> Succeeds(c, Created))
      && forall k :: 0 <= k < |es| && es[k] == LockEnabled ==>
           k + 1 < |es| && es[k + 1] == Appended(Entry(Created, true))
  {
  }

  /** The lock is cleared only when teardown succeeds, and then immediately
      after the deletion success entry is appended. */
  lemma LockClearedOnlyOnDeletion(c: Cloud)
    ensures var es := RunEffects(c);
      && (LockDisabled in es <==> ReturnsInstance(c) && Succeeds(c, Deletion))
      && forall k :: 0 <= k < |es| && es[k] == LockDisabled ==>
           0 < k && es[k - 1] == Appended(Entry(Deletion, true))
  {
    var es := RunEffects(c);
    var report := es[|es| - 1];
    ProvisionShape(c);
    if !ReturnsInstance(c) {
      assert es == ProvisionEffects(c) + [report];
    } else if Succeeds(c, Deletion) {
      assert es == [LockEnabled, Appended(Entry(Created, true)), Appended(Entry(IpAssigned, true)),
                    Appended(Entry(SshConnection, true)), Appended(Entry(Deletion, true)), LockDisabled, report];
    } else {
      assert es == [LockEnabled, Appended(Entry(Created, true)), Appended(Entry(IpAssigned, true)),
                    Appended(Entry(SshConnection, true)), Appended(Entry(Deletion, false)), report];
    }
  }

  /** A failure anywhere in creation: the trail is the creation failure entry
      alone, no instance comes back, so no teardown runs, and the lock is free. */
  lemma CreationFailureRun(c: Cloud)
    requires !Succeeds(c, Created)
    ensures Trail(c) == ["vm_created:Failed, "]
    ensures Join(Trail(c)) == "vm_created:Failed, "
    ensures !ReturnsInstance(c) && !LockHeldAfter(c)
  {
  }

  /** Creation succeeds but IP assignment fails: two entries, no instance, no
      teardown, and the lock stays held for manual cleanup. */
  lemma IpAssignmentFailureRun(c: Cloud)
    requires Succeeds(c, Created) && !Succeeds(c, IpAssigned)
    ensures Trail(c) == ["vm_created:Success, ", "vm_ip_assigned:Failed, "]
    ensures !ReturnsInstance(c) && LockHeldAfter(c)
  {
  }

  /** The SSH check fails: three entries ending in its failure, no instance,
      no teardown, and the lock stays held. */
  lemma SshFailureRun(c: Cloud)
    requires Succeeds(c, Created) && Succeeds(c, IpAssigned) && !Succeeds(c, SshConnection)
    ensures Trail(c) == ["vm_created:Success, ", "vm_ip_assigned:Success, ", "vm_ssh_connection:Failed, "]
    ensures !ReturnsInstance(c) && LockHeldAfter(c)
  {
  }

  /** All three provisioning steps succeed: teardown runs, its entry closes
      the trail, and the lock is free afterwards exactly when it succeeded. */
  lemma TeardownRun(c: Cloud)
    requires ReturnsInstance(c)
    ensures Trail(c) == ["vm_created:Success, ", "vm_ip_assigned:Success, ", "vm_ssh_connection:Success, ",
                         if c.serverDeleted then "vm_deletion:Success " else "vm_deletion:Failed "]
    ensures LockHeldAfter(c) <==> !c.serverDeleted
  {
  }

  /** A fully successful run reports the four success entries as one string. */
  lemma FullSuccessReport(c: Cloud)
    requires ReturnsInstance(c) && c.serverDeleted
    ensures Join(Trail(c)) ==
      "vm_created:Success, " + "vm_ip_assigned:Success, " + "vm_ssh_connection:Success, " + "vm_deletion:Success "
    ensures !LockHeldAfter(c)
  {
    TeardownRun(c);
    var t := Trail(c);
    assert Join(t[3..]) == t[3] by {
      assert t[3..] == [t[3]] && [t[3]][1..] == [];
    }
    assert Join(t[2..]) == t[2] + t[3];
    assert Join(t[1..]) == t[1] + t[2] + t[3];
    assert Join(t) == t[0] + t[1] + t[2] + t[3];
  }

  /** Teardown, when it runs, continues the log right after provisioning.
      An unfolding step for `RunHealthCheck`. */
  lemma LifecycleContinues(before: seq<Effect>, c: Cloud)
    ensures ReturnsInstance(c) ==>
      before + ProvisionEffects(c) + TeardownEffects(c) == before + LifecycleEffects(c)
    ensures !ReturnsInstance(c) ==> before + ProvisionEffects(c) == before + LifecycleEffects(c)
  {
  }

  /** A run that starts with an empty trail, after whatever effects came
      `before`: the lifecycle leaves the reference trail, and the report sent
      after it carries that trail joined and completes the run's effects. */
  lemma ReportAfter(before: seq<Effect>, c: Cloud, m: Metric)
    requires Entries(before) == []
    requires m == Metric(MonitoredHost, MetricKey, Join(Entries(before + LifecycleEffects(c))))
    ensures Entries(before + LifecycleEffects(c)) == Trail(c)
    ensures m.value == Join(Trail(c))
    ensures before + LifecycleEffects(c) + [Sent(m)] == before + RunEffects(c)
  {
    var lifecycle := LifecycleEffects(c);
    EntriesAppend(before, lifecycle);
    assert Entries(before + lifecycle) == Entries(lifecycle);
    RunLeavesTrail(c);
    RunIsLifecycleThenReport(c);
    AppendOne(before, lifecycle, Sent(m));
  }

  /** Associativity of appending one effect, as a step for `ReportAfter`. */
  lemma AppendOne(a: seq<Effect>, b: seq<Effect>, e: Effect)
    ensures a + b + [e] == a + (b + [e])
  {
  }

  /** The run's effects are the lifecycle's, followed by the one report. An
      unfolding step for `ReportAfter`. */
  lemma RunIsLifecycleThenReport(c: Cloud)
    ensures RunEffects(c) == LifecycleEffects(c) + [Sent(Metric(MonitoredHost, MetricKey, Join(Entries(LifecycleEffects(c)))))]
  {
  }

  /** A run that starts with the lock free, after whatever effects came
      `before`, leaves the lock as the reference says. */
  lemma LockAfterRun(before: seq<Effect>, held: bool, c: Cloud)
    requires !LockAfter(held, before)
    ensures LockAfter(held, before + RunEffects(c)) == LockHeldAfter(c)
  {
    LockAfterAppend(held, before, RunEffects(c));
    RunLockState(c);
  }
}
