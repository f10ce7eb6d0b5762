/** The status trail of one health-check run: the entries appended to the
    module-level list `vm_status`, one per step the run attempts, and the
    report string they are joined into before it goes to the monitoring
    server. */
module StatusTrail {

  /** The four steps that record an outcome, in the order a run attempts them. */
  datatype Step = Created | IpAssigned | SshConnection | Deletion

  const Order: seq<Step> := [Created, IpAssigned, SshConnection, Deletion]

  /** What an entry says: the step it records and whether it succeeded, or
      nothing for a string that is not an entry. */
  datatype Reading = Outcome(step: Step, ok: bool) | NotAnEntry

  /** The entry a step appends to the trail. The provisioning entries end in
      ", " and the deletion entries in a single space. Reading an entry back
      gives its step and outcome. */
  function Entry(step: Step, ok: bool): (e: string)
    ensures Read(e) == Outcome(step, ok)
  {
    match step
    case Created => if ok then "vm_created:Success, " else "vm_created:Failed, "
    case IpAssigned => if ok then "vm_ip_assigned:Success, " else "vm_ip_assigned:Failed, "
    case SshConnection => if ok then "vm_ssh_connection:Success, " else "vm_ssh_connection:Failed, "
    case Deletion => if ok then "vm_deletion:Success " else "vm_deletion:Failed "
  }

  /** Reads a trail entry back into the step and outcome it records. */
  function Read(e: string): (r: Reading) {
    if e == "vm_created:Success, " then Outcome(Created, true)
    else if e == "vm_created:Failed, " then Outcome(Created, false)
    else if e == "vm_ip_assigned:Success, " then Outcome(IpAssigned, true)
    else if e == "vm_ip_assigned:Failed, " then Outcome(IpAssigned, false)
    else if e == "vm_ssh_connection:Success, " then Outcome(SshConnection, true)
    else if e == "vm_ssh_connection:Failed, " then Outcome(SshConnection, false)
    else if e == "vm_deletion:Success " then Outcome(Deletion, true)
    else if e == "vm_deletion:Failed " then Outcome(Deletion, false)
    else NotAnEntry
  }

  /** No two steps, and no two outcomes of one step, share an entry: an entry
      names its step and its outcome unambiguously. */
  lemma EntryIsUnambiguous(s1: Step, ok1: bool, s2: Step, ok2: bool)
    ensures Entry(s1, ok1) == Entry(s2, ok2) <==> s1 == s2 && ok1 == ok2
  {
  }

  /** The report: the entries concatenated in order with no separator, as
      `"".join(vm_status)` builds it. The report begins with the first entry
      and ends with the last one appended. */
  function Join(t: seq<string>): (r: string)
    ensures t != [] ==> |t[|t| - 1]| <= |r| && r[|r| - |t[|t| - 1]|..] == t[|t| - 1]
  {
    if t == [] then "" else t[0] + Join(t[1..])
  }

  /** Joining distributes over concatenation of trails. */
  lemma {:induction false} JoinAppend(t: seq<string>, u: seq<string>)
    ensures Join(t + u) == Join(t) + Join(u)
  {
    if t == [] {
      assert t + u == u;
    } else {
      assert (t + u)[1..] == t[1..] + u;
      JoinAppend(t[1..], u);
    }
  }

  /** The report holds every entry of the trail, in trail order: entry `i`
      sits between the join of the entries before it and the join of the
      entries after it. */
  lemma {:induction false} JoinAt(t: seq<string>, i: nat)
    requires i < |t|
    ensures Join(t) == Join(t[..i]) + t[i] + Join(t[i + 1..])
  {
    assert t == t[..i] + ([t[i]] + t[i + 1..]);
    JoinAppend(t[..i], [t[i]] + t[i + 1..]);
    assert ([t[i]] + t[i + 1..])[1..] == t[i + 1..];
  }

  /** A trail as a run that passes the lock check leaves it: it starts with
      the creation entry; position `i` holds an entry of step `Order[i]`, so
      the steps appear in the fixed order and at most once each; every entry
      but the last is a success, so a later step appears only when every
      earlier one succeeded; and a trail that ends before the deletion entry
      ends in a failure. */
  predicate WellOrdered(t: seq<string>) {
    && 1 <= |t| <= |Order|
    && (forall i :: 0 <= i < |t| ==> t[i] == Entry(Order[i], true) || t[i] == Entry(Order[i], false))
    && (forall i :: 0 <= i < |t| - 1 ==> t[i] == Entry(Order[i], true))
    && (|t| < |Order| ==> t[|t| - 1] == Entry(Order[|t| - 1], false))
  }

  /** In a well-ordered trail, an entry of a given step occurs at one position at most. */
  lemma AtMostOncePerStep(t: seq<string>, s: Step, i: nat, j: nat, ok1: bool, ok2: bool)
    requires WellOrdered(t) && i < |t| && j < |t|
    requires t[i] == Entry(s, ok1) && t[j] == Entry(s, ok2)
    ensures i == j
  {
  }
}
