# Run lifecycle of the OpenStack VM health check

`create_delete_vmchecks.py` is a cron-style health check for an OpenStack
cloud. One run checks an advisory lock (the marker file `vm_check`); if the
lock is free it creates a VM, attaches a floating IP, checks that the VM's
SSH port accepts a connection, deletes the VM again, and sends one Zabbix
metric whose value is the list of step outcomes (`vm_status`) joined into a
string. The lock is set once `wait_for_server` reports the new VM ready and
cleared only when its deletion succeeds, so a VM that could not be cleaned
up blocks every later run until someone removes it by hand. A VM that is
created but never reported ready is left behind without the lock.

This project models that lifecycle in Dafny and proves what it guarantees.

- `status_trail.dfy` (module `StatusTrail`): the eight trail entries, a
  reader that reads an entry back into its step and outcome, the join that
  builds the report, and what a well-ordered trail is.
- `outcomes.dfy` (module `Outcomes`): the answers of the cloud and network
  calls as a record of booleans (`Cloud`), and a declarative reference for a
  run. The run attempts steps in order until one fails, with teardown last.
  It records one entry per attempted step. It holds the lock afterwards
  exactly when it created a VM and did not delete it.
- `effects.dfy` (module `Effects`): the ordered effects of the script.
  These are lock set, lock cleared, entry appended and metric sent. The file
  gives the effects of each function of the script as its control flow
  produces them, and the trail, lock and outbox that a log of effects leaves.
- `run_properties.dfy` (module `RunProperties`): lemmas tying the effects
  to the reference. They cover the trail, the lock, the order of lock
  changes against trail entries, the single report, and each failure scenario.
- `vm_check.dfy` (module `VmCheck`): the imperative model. Class `Lock` has
  the marker file as a boolean field. Class `Script` holds the module-level
  state: the lock object, `vm_status` as `vmStatus`, and the metrics handed
  to the sender as `sent`. Its methods mirror `create_instance`,
  `delete_instance` and the `__main__` block. A ghost log of effects, tied to
  the real fields by `Valid()`, records their order, and each method's
  postcondition says which effects it adds.

## Model

| member | source | states |
|---|---|---|
| `VmCheck.Lock.Enable` | create_delete_vmchecks.py:45-47 | After `enable` the marker file exists, whether or not it existed before. |
| `VmCheck.Lock.Allow` | create_delete_vmchecks.py:49-50 | `allow` answers true exactly when the marker file exists, i.e. when the lock is held. |
| `VmCheck.Lock.Disable` | create_delete_vmchecks.py:52-54 | `disable`, called while the lock is held, removes the marker file and answers true. |
| `VmCheck.Script.constructor` | create_delete_vmchecks.py:36 | The script starts with an empty `vm_status`, nothing sent, and the lock file as the previous run left it. |
| `VmCheck.Script.AppendStatus` | create_delete_vmchecks.py:79 | Appending to `vm_status` adds exactly that entry at the end and changes nothing else. |
| `VmCheck.Script.CreateInstance` | create_delete_vmchecks.py:59-116 | `create_instance` performs exactly the provisioning effects: the lock is set before the creation success entry. Each failing stage appends its failure entry and stops. An instance, carrying the cloud's server handle, comes back exactly when creation, IP assignment and SSH all succeed, and then the lock is held. |
| `VmCheck.Script.DeleteInstance` | create_delete_vmchecks.py:119-130 | `delete_instance` appends the deletion success entry and then clears the lock, answering true, when deletion succeeds. Otherwise it appends the failure entry, keeps the lock and answers false. |
| `VmCheck.Script.SendReport` | create_delete_vmchecks.py:159-162 | The report is `vm_status` joined, sent as exactly one metric under host `openstack-monitoring` and key `openstack.test`. |
| `VmCheck.Script.RunHealthCheck` | create_delete_vmchecks.py:148-162 | With the lock held at start, nothing is appended, nothing is sent, no cloud step runs and the lock stays held. Otherwise the run performs exactly the run's effects. It leaves the reference trail, sends one metric with that trail joined, and leaves the lock held exactly when the reference says so. |
| `VmCheck.Lock.constructor` | create_delete_vmchecks.py:57 | The module-level lock object reflects whether the marker file exists when the script starts. |
| `StatusTrail.Entry` | create_delete_vmchecks.py:79-128 | Each step appends one fixed entry per outcome, and reading the entry back gives exactly the step and the outcome that appended it. |
| `StatusTrail.Join` | create_delete_vmchecks.py:159 | The report concatenates the entries with no separator, and it ends with the last entry appended. |
| `StatusTrail.EntryIsUnambiguous` | create_delete_vmchecks.py:79-128 | Two entries are equal exactly when they are of the same step with the same outcome. |
| `StatusTrail.JoinAppend` | create_delete_vmchecks.py:159 | Joining a concatenated trail is concatenating the joins. |
| `StatusTrail.JoinAt` | create_delete_vmchecks.py:159 | Every entry appears in the report at its trail position, between the entries before it and those after it. |
| `StatusTrail.AtMostOncePerStep` | create_delete_vmchecks.py:79-116 | In a well-ordered trail an entry of a given step appears at most once. |
| `Outcomes.TrailRecordsCalls` | create_delete_vmchecks.py:62-128 | Each success entry is in the trail, at its step's position, exactly when every call of that step and of all earlier steps returned. Creation success needs the four lookups, `create_server` and the first `wait_for_server`. IP success also needs the second wait, `available_floating_ip` and `add_floating_ip_to_server`. SSH success also needs the connection, and deletion success also needs `delete_server`. |
| `Outcomes.AttemptedFrom` | create_delete_vmchecks.py:62-116 | From step `k` the run goes on while steps succeed. Every step before the last attempted one succeeded, and the run stops before teardown only at a failing step. |
| `Outcomes.Trail` | create_delete_vmchecks.py:79-128 | The trail of a run is well ordered. It starts with the creation entry and then has steps in the fixed order, one entry each. Every entry but the last is a success, and a trail without a deletion entry ends in a failure. |
| `Outcomes.AttemptedIsFirstFailure` | create_delete_vmchecks.py:62-116 | The number of attempted steps is one past the first failing provisioning step. All four steps are attempted exactly when creation, IP assignment and SSH all succeed. |
| `Effects.ProvisionEffects` | create_delete_vmchecks.py:59-116 | `create_instance` sets the lock, as its first effect, exactly when creation succeeds, and its last effect is always a trail entry. |
| `Effects.TeardownEffects` | create_delete_vmchecks.py:119-130 | `delete_instance` first appends the deletion entry for its outcome, and it ends by clearing the lock exactly when deletion succeeds. |
| `Effects.RunEffects` | create_delete_vmchecks.py:148-162 | The last effect of a run past the lock check is a metric sent under host `openstack-monitoring` and key `openstack.test`. |
| `RunProperties.ProvisionEntries` | create_delete_vmchecks.py:62-116 | `create_instance` appends the creation entry, then the IP entry only after a successful creation, then the SSH entry only after a successful IP assignment. |
| `RunProperties.TeardownEntries` | create_delete_vmchecks.py:122-130 | `delete_instance` appends exactly one entry, the deletion entry for its outcome. |
| `RunProperties.ProvisionLock` | create_delete_vmchecks.py:77-84 | After `create_instance` the lock is held exactly when it was held before or creation succeeded. |
| `RunProperties.TeardownLock` | create_delete_vmchecks.py:122-130 | `delete_instance`, run with the lock held, leaves it held exactly when deletion failed. |
| `RunProperties.RunLeavesTrail` | create_delete_vmchecks.py:155-158 | The entries the run's effects append are exactly the reference trail, which is well ordered. |
| `RunProperties.RunReportsOnce` | create_delete_vmchecks.py:155-162 | A run that passes the lock check sends exactly one metric, as its last effect, and its value is the trail joined in order. |
| `RunProperties.RunLockState` | create_delete_vmchecks.py:148-158 | Starting from a free lock, the lock after the run's effects is the reference lock state: held exactly when a VM was created and not deleted. |
| `RunProperties.LockHeldIffCreatedNotDeleted` | create_delete_vmchecks.py:78-125 | The lock is held after a run exactly when its trail has the creation success entry and no deletion success entry. |
| `RunProperties.LockSetOnlyOnCreation` | create_delete_vmchecks.py:77-79 | The lock is set during a run exactly when creation succeeds, and it is set immediately before the creation success entry is appended. |
| `RunProperties.LockClearedOnlyOnDeletion` | create_delete_vmchecks.py:122-125 | The lock is cleared during a run exactly when teardown runs and succeeds, and it is cleared immediately after the deletion success entry. |
| `RunProperties.CreationFailureRun` | create_delete_vmchecks.py:62-84 | If any call of the creation stage fails, the trail and the report are exactly `vm_created:Failed, `. No instance comes back, so there is no teardown, and the lock is free afterwards. |
| `RunProperties.IpAssignmentFailureRun` | create_delete_vmchecks.py:86-99 | If creation succeeds and IP assignment fails, the trail is the creation success entry then the IP failure entry. No instance comes back, and the lock stays held. |
| `RunProperties.SshFailureRun` | create_delete_vmchecks.py:103-116 | If the SSH check fails, the trail ends in the SSH failure entry after two successes. No instance comes back, and the lock stays held. |
| `RunProperties.TeardownRun` | create_delete_vmchecks.py:119-130 | When all three provisioning steps succeed, the trail has three success entries and then the deletion entry. The lock is held afterwards exactly when deletion failed. |
| `RunProperties.FullSuccessReport` | create_delete_vmchecks.py:159 | A fully successful run reports the four success entries concatenated in order, and leaves the lock free. |

## Left out

- The OpenStack SDK calls (the four lookups, `create_server`, `wait_for_server`, `available_floating_ip`, `add_floating_ip_to_server`, `delete_server`) are remote services. Each one is a boolean field of `Outcomes.Cloud` that says whether it returned or raised. Server attributes other than the handle (image, flavor, floating IP address, status) and the numeric arguments 600 and 850 are not modelled.
- `openstack.connect` and `client.Client` (create_delete_vmchecks.py:38-39) run when the module is loaded, before the lock check. They are not modelled: if either raises, the script stops before anything the model covers happens.
- `RunProperties.RunReportsOnce` and `VmCheck.Script.RunHealthCheck` (its one-metric-sent postcondition) assume that `config_function` (create_delete_vmchecks.py:155) returns. If it raised, the run would append no entry and send no metric.
- `VmCheck.Lock.Enable` never fails in the model. If `open` raised at create_delete_vmchecks.py:78, the creation `except` branch would append `vm_created:Failed, ` and return no instance. That is the same trail and the same free lock as a creation failure, so the trail and lock properties still hold. The server created just before would be left running, and the model does not record it.
- Servers left behind are not tracked. A server that `create_server` made but `wait_for_server` never reported ready counts as a creation failure, with the lock free, although the server still exists.
- `config_function` and the Zabbix sender are configuration loading and a network client. The send is modelled as appending one `Metric` to `Script.sent`. Whether the transport delivers it is not modelled.
- The dated log file, the logging setup and every `logging.error` call are I/O that does not change the lifecycle state.
- `time.sleep(120)` is timing. It is left out.
- The socket: the connection attempt is the boolean `sshPortOpen`, and the `while True` loop is one attempt, because its body always leaves the loop. The case where `socket.socket` itself raises, so that the `finally` clause refers to an unbound `test_socket`, is not modelled.
- `exit()` on a held lock is modelled as `RunHealthCheck` returning `None` with nothing else changed. Process exit codes are not modelled.
- The file system is reduced to the boolean `Lock.present`. `VmCheck.Lock.Disable` requires the lock to be held. In the script its one caller runs only after `enable`, so the `os.remove` error on a missing file is never reached. The double entry (`vm_deletion:Success ` then `vm_deletion:Failed `) that such an error would cause is therefore not modelled.
- `VmCheck.Script.RunHealthCheck` requires an empty `vm_status`. The module runs its `__main__` block once, right after the list is created empty, and the report is proved equal to this run's trail only for that case.
- On the failing SSH path the `finally` clause still closes the socket (create_delete_vmchecks.py:109-115); socket handling is not modelled.
