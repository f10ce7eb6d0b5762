/** The script itself: the lock object, the module-level `vm_status` list and
    the metric sender, changed step by step by `create_instance`,
    `delete_instance` and the `__main__` block. */
module VmCheck {
  import opened StatusTrail
  import opened Outcomes
  import opened Effects
  import opened RunProperties

  datatype Option<T> = None | Some(value: T)

  /** A server the cloud created, known by the handle the cloud returned. */
  datatype Server = Server(id: nat)

  /** The advisory lock: `present` says whether the marker file `vm_check` exists. */
  class Lock {
    var present: bool

    constructor (present: bool)
      ensures this.present == present
    {
      this.present := present;
    }

    /** Creates the marker file; creating it again is not an error. */
    method Enable()
      modifies this
      ensures present
    {
      present := true;
    }

    /** Whether the marker file exists. Despite the name, `true` means the lock
        is held and the run must not go on. */
    method Allow() returns (held: bool)
      ensures held == present
    {
      held := present;
    }

    /** Removes the marker file and answers `true`. Removing a missing file
        would raise; the one caller only runs while the lock is held. */
    method Disable() returns (removed: bool)
      requires present
      modifies this
      ensures !present && removed
    {
      present := false;
      removed := true;
    }
  }

  /** The state of the running script: the lock, the `vm_status` list, and the
      metrics handed to the monitoring sender. The ghost `effects` log records,
      in order, everything the script has done to them since it started, and
      `Valid` says the real state is what that log leaves. */
  class Script {
    const lock: Lock
    var vmStatus: seq<string>
    var sent: seq<Metric>
    ghost var lockAtStart: bool
    ghost var effects: seq<Effect>

    ghost predicate Valid()
      reads this, lock
    {
      && vmStatus == Entries(effects)
      && sent == Metrics(effects)
      && lock.present == LockAfter(lockAtStart, effects)
    }

    /** The script as it starts: an empty `vm_status`, nothing sent, and the
        lock file as the previous run left it. */
    constructor (lock: Lock)
      ensures Valid() && this.lock == lock
      ensures vmStatus == [] && sent == [] && effects == [] && lockAtStart == lock.present
    {
      this.lock := lock;
      vmStatus := [];
      sent := [];
      lockAtStart := lock.present;
      effects := [];
    }

    /** `vm_status.append(entry)`. */
    method AppendStatus(entry: string)
      requires Valid()
      modifies this
      ensures Valid() && lockAtStart == old(lockAtStart)
      ensures effects == old(effects) + [Appended(entry)]
      ensures vmStatus == old(vmStatus) + [entry] && sent == old(sent)
    {
      vmStatus := vmStatus + [entry];
      effects := effects + [Appended(entry)];
      assert effects[..|effects| - 1] == old(effects);
    }

    /** `create_instance`: create the server, attach a floating IP, check that
        its SSH port accepts a connection. Each stage that fails appends its
        failure entry and returns no instance at once; the lock is set once
        `wait_for_server` reports the server ready, before its success entry. */
    method CreateInstance(conn: Cloud) returns (instance: Option<Server>)
      requires Valid()
      modifies this, lock
      ensures Valid() && lockAtStart == old(lockAtStart)
      ensures effects == old(effects) + ProvisionEffects(conn) && sent == old(sent)
      ensures instance.Some? <==> ReturnsInstance(conn)
      ensures instance.Some? ==> instance.value.id == conn.serverId && lock.present
    {
      ProvisionPaths(effects, conn);
      // The lookups, create_server and wait_for_server share one try block.
      if !Succeeds(conn, Created) {
        AppendStatus(Entry(Created, false));
        return None;
      }
      lock.Enable();
      effects := effects + [LockEnabled];
      assert effects[..|effects| - 1] == old(effects);
      AppendStatus(Entry(Created, true));

      // wait_for_server again, available_floating_ip, add_floating_ip_to_server.
      if !Succeeds(conn, IpAssigned) {
        AppendStatus(Entry(IpAssigned, false));
        return None;
      }
      AppendStatus(Entry(IpAssigned, true));

      // After the fixed wait, one connection attempt: the `while True` body
      // always leaves the loop, by `break` or by `return None`.
      if !Succeeds(conn, SshConnection) {
        AppendStatus(Entry(SshConnection, false));
        return None;
      }
      AppendStatus(Entry(SshConnection, true));
      instance := Some(Server(conn.serverId));
    }

    /** `delete_instance`: delete the server; on success append the success
        entry, then release the lock and answer what the release answered; on
        failure append the failure entry, keep the lock and answer `false`. */
    method DeleteInstance(conn: Cloud, instance: Server) returns (deleted: bool)
      requires Valid() && lock.present
      modifies this, lock
      ensures Valid() && lockAtStart == old(lockAtStart)
      ensures effects == old(effects) + TeardownEffects(conn) && sent == old(sent)
      ensures deleted == conn.serverDeleted && lock.present == !deleted
    {
      if Succeeds(conn, Deletion) {
        AppendStatus(Entry(Deletion, true));
        deleted := lock.Disable();
        effects := effects + [LockDisabled];
        assert effects[..|effects| - 1] == old(effects) + [Appended(Entry(Deletion, true))];
      } else {
        AppendStatus(Entry(Deletion, false));
        deleted := false;
      }
    }

    /** Joins `vm_status` into one string and hands it to the monitoring
        sender as one metric. */
    method SendReport() returns (s: string)
      requires Valid()
      modifies this
      ensures Valid() && lockAtStart == old(lockAtStart)
      ensures s == Join(vmStatus) && vmStatus == old(vmStatus)
      ensures effects == old(effects) + [Sent(Metric(MonitoredHost, MetricKey, s))]
      ensures sent == old(sent) + [Metric(MonitoredHost, MetricKey, s)]
    {
      s := Join(vmStatus);
      var metric := Metric(MonitoredHost, MetricKey, s);
      sent := sent + [metric];
      effects := effects + [Sent(metric)];
      assert effects[..|effects| - 1] == old(effects);
    }

    /** The `__main__` block. A held lock ends the run before anything else
        happens. Otherwise: provision, tear down when an instance came back,
        and send exactly one metric holding the trail joined in order. The
        script runs this once, on its initial empty `vm_status`. */
    method RunHealthCheck(conn: Cloud) returns (report: Option<string>)
      requires Valid() && vmStatus == []
      modifies this, lock
      ensures Valid() && lockAtStart == old(lockAtStart)
      ensures old(lock.present) ==>
        && report == None && effects == old(effects)
        && vmStatus == [] && sent == old(sent) && lock.present
      ensures !old(lock.present) ==>
        && effects == old(effects) + RunEffects(conn)
        && vmStatus == Trail(conn)
        && report == Some(Join(Trail(conn)))
        && sent == old(sent) + [Metric(MonitoredHost, MetricKey, Join(Trail(conn)))]
        && lock.present == LockHeldAfter(conn)
    {
      var held := lock.Allow();
      if held {
        return None;
      }
      ghost var before := effects;
      LifecycleContinues(before, conn);
      var instance := CreateInstance(conn);
      if instance.Some? {
        var deleted := DeleteInstance(conn, instance.value);
      }
      var s := SendReport();
      ReportAfter(before, conn, Metric(MonitoredHost, MetricKey, s));
      LockAfterRun(before, lockAtStart, conn);
      report := Some(s);
    }
  }
}
