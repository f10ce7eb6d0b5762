/** What the outside world answers during one run, and a declarative
    reference for what a run that passes the lock check leaves behind:
    it attempts the steps in order until one fails (teardown being the
    last), records one entry per attempted step, and holds the lock
    afterwards exactly when a VM was created and not deleted. */
module Outcomes {
  import opened StatusTrail

  /** The answer of every call into the cloud and the network during one run,
      in the order the script makes them: `true` when the call returns
      normally, `false` when it raises (for a lookup, also when it finds
      nothing, since the following attribute access then raises). Calls after
      the first failure of a step are never made, so their answers do not
      matter. `serverId` is the handle the cloud gives the new server. */
  datatype Cloud = Cloud(
    imageFound: bool,          // find_image
    flavorFound: bool,         // find_flavor
    networkFound: bool,        // find_network
    keypairFound: bool,        // find_keypair
    serverCreated: bool,       // create_server
    serverActive: bool,        // first wait_for_server
    serverStillActive: bool,   // second wait_for_server
    floatingIpAvailable: bool, // available_floating_ip
    floatingIpAttached: bool,  // add_floating_ip_to_server
    sshPortOpen: bool,         // socket connect to port 22 of the floating IP
    serverDeleted: bool,       // delete_server
    serverId: nat)

  /** A step succeeds when every call in its `try` block returns. In
      particular creation counts as a success only once `wait_for_server`
      has reported the new server ready, and IP assignment only once the
      floating IP is attached. */
  function Succeeds(c: Cloud, step: Step): (r: bool)
    ensures r && step == Created ==> c.serverCreated && c.serverActive
    ensures r && step == IpAssigned ==> c.serverStillActive && c.floatingIpAttached
  {
    match step
    case Created =>
      c.imageFound && c.flavorFound && c.networkFound && c.keypairFound
      && c.serverCreated && c.serverActive
    case IpAssigned => c.serverStillActive && c.floatingIpAvailable && c.floatingIpAttached
    case SshConnection => c.sshPortOpen
    case Deletion => c.serverDeleted
  }

  /** How many steps a run attempts when it has reached step `k`: it goes on
      until a step fails or the last step (teardown) has run. */
  function AttemptedFrom(c: Cloud, k: nat): (n: nat)
    requires k < |Order|
    ensures k < n <= |Order|
    ensures forall i :: k <= i < n - 1 ==> Succeeds(c, Order[i])
    ensures n < |Order| ==> !Succeeds(c, Order[n - 1])
    decreases |Order| - k
  {
    if k == |Order| - 1 || !Succeeds(c, Order[k]) then k + 1 else AttemptedFrom(c, k + 1)
  }

  /** How many steps a run past the lock check attempts. */
  function Attempted(c: Cloud): (n: nat)
    ensures 1 <= n <= |Order|
  {
    AttemptedFrom(c, 0)
  }

  /** The first `n` entries the steps would record. */
  function Recorded(c: Cloud, n: nat): (t: seq<string>)
    requires n <= |Order|
  {
    seq(n, i requires 0 <= i < n => Entry(Order[i], Succeeds(c, Order[i])))
  }

  /** The trail a run past the lock check leaves: one entry per attempted step. */
  function Trail(c: Cloud): (t: seq<string>)
    ensures WellOrdered(t)
  {
    Recorded(c, Attempted(c))
  }

  /** Provisioning hands back an instance when creation, IP assignment and the
      SSH check all succeed, which is when teardown is attempted. */
  predicate Provisioned(c: Cloud) {
    Attempted(c) == |Order|
  }

  /** The lock is held after a run exactly when it created a VM and did not
      delete it. */
  predicate LockHeldAfter(c: Cloud) {
    Succeeds(c, Created) && !(Provisioned(c) && Succeeds(c, Deletion))
  }

  /** The number of attempted steps is the index of the first failing
      provisioning step plus one, or all four steps. */
  lemma AttemptedIsFirstFailure(c: Cloud)
    ensures !Succeeds(c, Created) ==> Attempted(c) == 1
    ensures Succeeds(c, Created) && !Succeeds(c, IpAssigned) ==> Attempted(c) == 2
    ensures Succeeds(c, Created) && Succeeds(c, IpAssigned) && !Succeeds(c, SshConnection) ==> Attempted(c) == 3
    ensures Provisioned(c) <==> Succeeds(c, Created) && Succeeds(c, IpAssigned) && Succeeds(c, SshConnection)
  {
  }

  /** What the trail records, in terms of the calls themselves: each success
      entry is at its step's position exactly when every call of that step
      and of all earlier steps returned. */
  lemma TrailRecordsCalls(c: Cloud)
    ensures Trail(c)[0] == "vm_created:Success, " <==>
      c.imageFound && c.flavorFound && c.networkFound && c.keypairFound
      && c.serverCreated && c.serverActive
    ensures |Trail(c)| > 1 && Trail(c)[1] == "vm_ip_assigned:Success, " <==>
      c.imageFound && c.flavorFound && c.networkFound && c.keypairFound
      && c.serverCreated && c.serverActive
      && c.serverStillActive && c.floatingIpAvailable && c.floatingIpAttached
    ensures |Trail(c)| > 2 && Trail(c)[2] == "vm_ssh_connection:Success, " <==>
      c.imageFound && c.flavorFound && c.networkFound && c.keypairFound
      && c.serverCreated && c.serverActive
      && c.serverStillActive && c.floatingIpAvailable && c.floatingIpAttached
      && c.sshPortOpen
    ensures |Trail(c)| > 3 && Trail(c)[3] == "vm_deletion:Success " <==>
      c.imageFound && c.flavorFound && c.networkFound && c.keypairFound
      && c.serverCreated && c.serverActive
      && c.serverStillActive && c.floatingIpAvailable && c.floatingIpAttached
      && c.sshPortOpen && c.serverDeleted
  {
  }
}
