/** The observable effects of the script, in the order it performs them:
    setting and clearing the lock file, appending to `vm_status`, and sending
    a metric to the monitoring server. The functions below give the effects
    of each stage exactly as the script's control flow produces them; the
    state the script keeps (trail, lock, metrics sent) is a projection of
    the effect log. */
module Effects {
  import opened StatusTrail
  import opened Outcomes

  /** The host name and item key the report is sent under. */
  const MonitoredHost: string := "openstack-monitoring"
  const MetricKey: string := "openstack.test"

  /** One data point for the monitoring server. */
  datatype Metric = Metric(host: string, key: string, value: string)

  datatype Effect =
    | LockEnabled            // the marker file `vm_check` is created
    | LockDisabled           // the marker file is removed
    | Appended(entry: string) // an entry is appended to `vm_status`
    | Sent(metric: Metric)   // one metric is handed to the sender

  /** The trail the effects leave. */
  function Entries(es: seq<Effect>): (t: seq<string>) {
    if es == [] then []
    else
      var last := es[|es| - 1];
      Entries(es[..|es| - 1]) + (if last.Appended? then [last.entry] else [])
  }

  /** The metrics the effects send. */
  function Metrics(es: seq<Effect>): (ms: seq<Metric>) {
    if es == [] then []
    else
      var last := es[|es| - 1];
      Metrics(es[..|es| - 1]) + (if last.Sent? then [last.metric] else [])
  }

  /** Whether the lock is held after the effects, starting from `held`: the
      last lock effect decides. */
  function LockAfter(held: bool, es: seq<Effect>): (b: bool) {
    if es == [] then held
    else
      match es[|es| - 1]
      case LockEnabled => true
      case LockDisabled => false
      case _ => LockAfter(held, es[..|es| - 1])
  }

  lemma {:induction false} EntriesAppend(a: seq<Effect>, b: seq<Effect>)
    ensures Entries(a + b) == Entries(a) + Entries(b)
    decreases |b|
  {
    if b != [] {
      var b' := b[..|b| - 1];
      assert (a + b)[..|a + b| - 1] == a + b';
      EntriesAppend(a, b');
    } else {
      assert a + b == a;
    }
  }

  lemma {:induction false} MetricsAppend(a: seq<Effect>, b: seq<Effect>)
    ensures Metrics(a + b) == Metrics(a) + Metrics(b)
    decreases |b|
  {
    if b != [] {
      var b' := b[..|b| - 1];
      assert (a + b)[..|a + b| - 1] == a + b';
      MetricsAppend(a, b');
    } else {
      assert a + b == a;
    }
  }

  /** Running `a` and then `b` leaves the lock as running `b` from the state `a` left. */
  lemma {:induction false} LockAfterAppend(held: bool, a: seq<Effect>, b: seq<Effect>)
    ensures LockAfter(held, a + b) == LockAfter(LockAfter(held, a), b)
    decreases |b|
  {
    if b != [] {
      var b' := b[..|b| - 1];
      assert (a + b)[..|a + b| - 1] == a + b';
      LockAfterAppend(held, a, b');
    } else {
      assert a + b == a;
    }
  }

  /** `create_instance`, first `try` block: on success the lock is set before
      the success entry is appended; on failure only the failure entry. */
  function CreateEffects(c: Cloud): (es: seq<Effect>) {
    if Succeeds(c, Created) then [LockEnabled, Appended(Entry(Created, true))]
    else [Appended(Entry(Created, false))]
  }

  /** `create_instance` as a whole: each later step runs only after the
      previous one succeeded; a failure returns None at once. It sets the
      lock, as its first effect, exactly when creation succeeds, and its last
      effect is always an entry appended to the trail. */
  function ProvisionEffects(c: Cloud): (es: seq<Effect>)
    ensures |es| > 0 && (es[0] == LockEnabled <==> Succeeds(c, Created))
    ensures es[|es| - 1].Appended?
  {
    CreateEffects(c)
    + (if !Succeeds(c, Created) then []
       else [Appended(Entry(IpAssigned, Succeeds(c, IpAssigned)))]
            + (if !Succeeds(c, IpAssigned) then []
               else [Appended(Entry(SshConnection, Succeeds(c, SshConnection)))]))
  }

  /** `create_instance` returns the instance only when all three of its
      stages succeeded; only then does `__main__` call `delete_instance`. */
  predicate ReturnsInstance(c: Cloud) {
    Succeeds(c, Created) && Succeeds(c, IpAssigned) && Succeeds(c, SshConnection)
  }

  /** `delete_instance`: it first appends the deletion entry, and it ends by
      clearing the lock exactly when deletion succeeds. */
  function TeardownEffects(c: Cloud): (es: seq<Effect>)
    ensures |es| > 0 && es[0] == Appended(Entry(Deletion, c.serverDeleted))
    ensures es[|es| - 1] == LockDisabled <==> c.serverDeleted
  {
    if Succeeds(c, Deletion) then [Appended(Entry(Deletion, true)), LockDisabled]
    else [Appended(Entry(Deletion, false))]
  }

  /** The `__main__` block after the lock check, up to the report:
      provisioning, then teardown when an instance came back. */
  function LifecycleEffects(c: Cloud): (es: seq<Effect>) {
    ProvisionEffects(c) + (if ReturnsInstance(c) then TeardownEffects(c) else [])
  }

  /** The whole `__main__` block after the lock check: the lifecycle, then
      one metric holding the joined trail. Its last effect is that metric,
      sent under the monitored host and item key. */
  function RunEffects(c: Cloud): (es: seq<Effect>)
    ensures |es| > 1
    ensures es[|es| - 1].Sent? && es[|es| - 1].metric.host == MonitoredHost && es[|es| - 1].metric.key == MetricKey
  {
    LifecycleEffects(c) + [Sent(Metric(MonitoredHost, MetricKey, Join(Entries(LifecycleEffects(c)))))]
  }
}
