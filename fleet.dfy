/**
 * The fleet of port forwardings for one profile (main.go): building each
 * entry's `kubectl` arguments, creating and starting one process per entry,
 * the startup barrier, status rendering, best-effort shutdown, the profile
 * lookup and the profile names offered for completion.
 */
module Fleet {
  import opened Base
  import opened Decimal
  import opened Config
  import Process

  const KUBECTL: string := "kubectl"
  /** The default of the `-p` flag. */
  const DEFAULT_PROFILE: string := "default"
  /** `Statuses`. */
  const STATUSES: map<bool, string> := map[true := "Running", false := "Stopped"]

  // ---------------------------------------------------------------------------
  // The command line of one entry, and the reading kubectl makes of it
  // ---------------------------------------------------------------------------

  /** `fmt.Sprint(entry.LocalPort, ":", entry.ServicePort)`. */
  function PortPair(localPort: int, servicePort: int): string
  {
    IntToString(localPort) + ":" + IntToString(servicePort)
  }

  function PortForwardArguments(namespace: string, entry: PortForwardEntry): seq<string>
  {
    ["-n", namespace, "port-forward", entry.serviceName, PortPair(entry.localPort, entry.servicePort)]
  }

  /** The position of the first `c` in `s`, or `|s|` when there is none. */
  function IndexOf(s: string, c: char): (k: nat)
    ensures k <= |s|
    ensures forall j :: 0 <= j < k ==> s[j] != c
    ensures k < |s| ==> s[k] == c
    decreases |s|
  {
    if s == [] then 0 else if s[0] == c then 0 else 1 + IndexOf(s[1..], c)
  }

  /** Splits `<local>:<remote>` at the first colon and reads both numbers. */
  function ParsePortPair(s: string): Option<(int, int)>
  {
    var k := IndexOf(s, ':');
    if k == |s| then None
    else
      match (ParseInt(s[..k]), ParseInt(s[k + 1..]))
      case (Some(l), Some(r)) => Some((l, r))
      case _ => None
  }

  /** Reads `-n <namespace> port-forward <service> <local>:<remote>` back. */
  function ParseArguments(args: seq<string>): Option<(string, PortForwardEntry)>
  {
    if |args| == 5 && args[0] == "-n" && args[2] == "port-forward" then
      match ParsePortPair(args[4])
      case Some((l, r)) => Some((args[1], PortForwardEntry(args[3], r, l)))
      case None => None
    else None
  }

  /** The port pair has no spaces and reads back as the two ports, local first. */
  lemma PortPairRoundTrip(localPort: int, servicePort: int)
    ensures ' ' !in PortPair(localPort, servicePort)
    ensures ParsePortPair(PortPair(localPort, servicePort)) == Some((localPort, servicePort))
  {
    var a, b := IntToString(localPort), IntToString(servicePort);
    IntToStringRoundTrip(localPort);
    IntToStringRoundTrip(servicePort);
    var s := PortPair(localPort, servicePort);
    assert s == a + [':'] + b;
    assert s[|a|] == ':';
    assert forall j :: 0 <= j < |a| ==> s[j] == a[j];
    assert IndexOf(s, ':') == |a|;
    assert s[..|a|] == a;
    assert s[|a| + 1..] == b;
  }

  /** Every entry's command line has five words and determines the entry and namespace. */
  lemma ArgumentsRoundTrip(namespace: string, entry: PortForwardEntry)
    ensures |PortForwardArguments(namespace, entry)| == 5
    ensures ParseArguments(PortForwardArguments(namespace, entry)) == Some((namespace, entry))
  {
    PortPairRoundTrip(entry.localPort, entry.servicePort);
  }

  // ---------------------------------------------------------------------------
  // The startup barrier
  // ---------------------------------------------------------------------------

  /** `sync.WaitGroup`, reduced to its counter. */
  class WaitGroup {
    var counter: int

    constructor ()
      ensures counter == 0
    {
      counter := 0;
    }

    method Add(delta: int)
      requires counter + delta >= 0  // a negative counter panics
      modifies this
      ensures counter == old(counter) + delta
    {
      counter := counter + delta;
    }

    method Done()
      requires counter > 0
      modifies this
      ensures counter == old(counter) - 1
    {
      Add(-1);
    }

    /**
     * `Wait`, given the `Done` notifications that arrive while it blocks: it
     * returns once the counter reaches zero, and not before.
     */
    method Wait(notifications: nat) returns (released: bool)
      requires counter >= 0
      modifies this
      ensures released <==> old(counter) <= notifications
      ensures counter == if released then 0 else old(counter) - notifications
    {
      var used := 0;
      while counter > 0 && used < notifications
        invariant 0 <= used <= notifications
        invariant counter == old(counter) - used >= 0
      {
        Done();
        used := used + 1;
      }
      released := counter == 0;
    }
  }

  // ---------------------------------------------------------------------------
  // Starting, rendering and stopping the fleet
  // ---------------------------------------------------------------------------

  /** What `proc.Create` makes for an entry: not started, counter 0, not running. */
  ghost predicate CreatedFor(p: Process.RestartableProcess?, namespace: string, entry: PortForwardEntry)
    reads p
  {
    && p != null
    && p.command == KUBECTL
    && p.arguments == PortForwardArguments(namespace, entry)
    && p.hasOnRestarted
    && p.process == None && p.restartCount == 0 && !p.running
  }

  /** The started copy of an entry's process, as `Start` leaves it for its monitors. */
  ghost predicate LaunchedFor(s: Process.Session?, namespace: string, entry: PortForwardEntry, spawn: Process.Spawn)
    reads s, if s != null then {s.proc} else {}
  {
    (s != null <==> spawn.pipes.PipesOk?)
    && (s != null ==>
         && s.Valid()
         && s.State() == Process.Started(true)
         && s.proc.command == KUBECTL
         && s.proc.arguments == PortForwardArguments(namespace, entry)
         && s.proc.process == Some(spawn.handle))
  }

  /**
   * `startAllPortMappings`: one `RestartableProcess` per entry at the entry's
   * index, each started (its error ignored), then wait for as many started
   * notifications as there are entries. `spawns[i]` is what the OS does for
   * entry `i`; `sessions[i]` is the copy its monitors run on, if any. The
   * caller's objects keep the state `Create` gave them.
   */
  method StartAllPortMappings(profile: Profile, spawns: seq<Process.Spawn>, startedNotifications: nat)
    returns (procs: array<Process.RestartableProcess?>, sessions: seq<Process.Session?>, released: bool)
    requires |spawns| == |profile.configuration.entries|
    ensures fresh(procs) && procs.Length == |profile.configuration.entries| == |sessions|
    ensures forall i :: 0 <= i < procs.Length ==>
      fresh(procs[i]) && CreatedFor(procs[i], profile.configuration.namespace, profile.configuration.entries[i])
    ensures forall i :: 0 <= i < |sessions| ==>
      && (sessions[i] != null ==> fresh(sessions[i]) && fresh(sessions[i].proc))
      && LaunchedFor(sessions[i], profile.configuration.namespace, profile.configuration.entries[i], spawns[i])
    ensures released <==> procs.Length <= startedNotifications
  {
    var config := profile.configuration;
    var procCount := |config.entries|;
    procs := new Process.RestartableProcess?[procCount];
    var wg := new WaitGroup();
    wg.Add(procs.Length);
    sessions := [];
    var index := 0;
    while index < procCount
      invariant 0 <= index <= procCount && |sessions| == index
      invariant wg.counter == procCount
      invariant forall k :: 0 <= k < index ==>
        fresh(procs[k]) && CreatedFor(procs[k], config.namespace, config.entries[k])
      invariant forall k :: 0 <= k < index ==>
        && (sessions[k] != null ==> fresh(sessions[k]) && fresh(sessions[k].proc))
        && LaunchedFor(sessions[k], config.namespace, config.entries[k], spawns[k])
    {
      var entry := config.entries[index];
      var arguments := PortForwardArguments(config.namespace, entry);
      procs[index] := new Process.RestartableProcess.Create(KUBECTL, arguments, true);
      var _, session := procs[index].Start(spawns[index]);
      sessions := sessions + [session];
      index := index + 1;
    }
    released := wg.Wait(startedNotifications);
  }

  datatype StatusRow = StatusRow(serviceName: string, localPort: int, status: string)

  /** `printStatus`: entry `i` is reported with the running flag of `procs[i]`. */
  method PrintStatus(profile: Profile, procs: array<Process.RestartableProcess?>) returns (rows: seq<StatusRow>)
    requires |profile.configuration.entries| <= procs.Length
    requires forall i :: 0 <= i < |profile.configuration.entries| ==> procs[i] != null
    ensures |rows| == |profile.configuration.entries|
    ensures forall i :: 0 <= i < |rows| ==>
      && rows[i].serviceName == profile.configuration.entries[i].serviceName
      && rows[i].localPort == profile.configuration.entries[i].localPort
      && rows[i].status == (if procs[i].running then "Running" else "Stopped")
  {
    var entries := profile.configuration.entries;
    rows := [];
    var index := 0;
    while index < |entries|
      invariant 0 <= index <= |entries| && |rows| == index
      invariant forall k :: 0 <= k < index ==>
        && rows[k].serviceName == entries[k].serviceName
        && rows[k].localPort == entries[k].localPort
        && rows[k].status == (if procs[k].running then "Running" else "Stopped")
    {
      var entry := entries[index];
      var running := procs[index].running;
      assert running in STATUSES by {
        assert STATUSES.Keys == {true, false};
      }
      rows := rows + [StatusRow(entry.serviceName, entry.localPort, STATUSES[running])];
      index := index + 1;
    }
  }

  /**
   * `killAllPortMappings`: SIGTERM to every process in order; `signals[i]` is
   * the OS's answer for process `i`, and no answer stops the loop.
   */
  method KillAllPortMappings(procs: array<Process.RestartableProcess?>, signals: seq<Option<Process.OsError>>)
    returns (signalled: seq<Process.Handle>)
    requires |signals| == procs.Length
    requires forall i :: 0 <= i < procs.Length ==> procs[i] != null && procs[i].process.Some?
    ensures |signalled| == procs.Length
    ensures forall i :: 0 <= i < procs.Length ==> signalled[i] == procs[i].process.value
  {
    signalled := [];
    var index := 0;
    while index < procs.Length
      invariant 0 <= index <= procs.Length && |signalled| == index
      invariant forall k :: 0 <= k < index ==> signalled[k] == procs[k].process.value
    {
      var target, _ := procs[index].SendSigTerm(signals[index]);
      signalled := signalled + [target];
      index := index + 1;
    }
  }

  /**
   * The processes `startAllPortMappings` hands back have no handle (`Start`
   * records it in a copy), so `killAllPortMappings` cannot signal any of them:
   * its first `SendSigTerm` dereferences a nil handle.
   */
  lemma CreatedProcessesHaveNoHandle(procs: array<Process.RestartableProcess?>, namespace: string,
                                     entries: seq<PortForwardEntry>)
    requires procs.Length == |entries| > 0
    requires forall i :: 0 <= i < procs.Length ==> CreatedFor(procs[i], namespace, entries[i])
    ensures !(forall i :: 0 <= i < procs.Length ==> procs[i] != null && procs[i].process.Some?)
  {
    assert CreatedFor(procs[0], namespace, entries[0]);
  }

  // ---------------------------------------------------------------------------
  // Profile selection and completion
  // ---------------------------------------------------------------------------

  datatype RunOutcome =
    | ProfileNotFound(name: string)     // logged as an error; nothing is started
    | AwaitingStart                     // blocked in the startup barrier
    | Forwarding(status: seq<StatusRow>)

  /**
   * The part of `main` from the profile lookup to the first status report.
   * As written, the status of every entry reads "Stopped": the processes
   * `printStatus` looks at are the caller's, which `Start` never changes.
   */
  method PortForwardProfile(config: map<string, Profile>, name: string, spawns: seq<Process.Spawn>,
                            startedNotifications: nat)
    returns (outcome: RunOutcome, sessions: seq<Process.Session?>)
    requires name in config ==> |spawns| == |config[name].configuration.entries|
    ensures name !in config <==> outcome.ProfileNotFound?
    ensures name !in config ==> outcome == ProfileNotFound(name) && sessions == []
    ensures name in config ==>
      && |sessions| == |config[name].configuration.entries|
      && (forall i :: 0 <= i < |sessions| ==>
            LaunchedFor(sessions[i], config[name].configuration.namespace,
                        config[name].configuration.entries[i], spawns[i]))
      && (outcome.Forwarding? <==> |config[name].configuration.entries| <= startedNotifications)
    ensures outcome.Forwarding? ==>
      && name in config
      && |outcome.status| == |config[name].configuration.entries|
      && forall i :: 0 <= i < |outcome.status| ==>
           outcome.status[i] == StatusRow(config[name].configuration.entries[i].serviceName,
                                          config[name].configuration.entries[i].localPort, "Stopped")
  {
    if name !in config {
      return ProfileNotFound(name), [];
    }
    var p := config[name];
    var procs, started, released := StartAllPortMappings(p, spawns, startedNotifications);
    sessions := started;
    if !released {
      return AwaitingStart, sessions;
    }
    var rows := PrintStatus(p, procs);
    outcome := Forwarding(rows);
  }

  /**
   * The completion closure `profileNames`: the name of every configured
   * profile, in the map's iteration order (left open here).
   */
  method ProfileNames(config: map<string, Profile>) returns (names: seq<string>)
    ensures |names| == |config|
    ensures forall i :: 0 <= i < |names| ==> exists n :: n in config && config[n].name == names[i]
    ensures forall n :: n in config ==> config[n].name in names
    ensures (forall n :: n in config ==> config[n].name == n) ==>
      forall i, j :: 0 <= i < j < |names| ==> names[i] != names[j]
  {
    var result := new string[|config|];
    var i := 0;
    var remaining := config.Keys;
    ghost var visited: seq<string> := [];
    while remaining != {}
      invariant remaining <= config.Keys
      invariant i == |visited| && i + |remaining| == |config|
      invariant forall k :: 0 <= k < i ==> visited[k] in config && result[k] == config[visited[k]].name
      invariant forall n :: n in config ==> (n in remaining <==> n !in visited)
      invariant forall a, b :: 0 <= a < b < i ==> visited[a] != visited[b]
    {
      var n :| n in remaining;
      result[i] := config[n].name;
      visited := visited + [n];
      remaining := remaining - {n};
      i := i + 1;
    }
    names := result[..];
    forall n | n in config
      ensures config[n].name in names
    {
      var k :| 0 <= k < |visited| && visited[k] == n;
      assert names[k] == config[n].name;
    }
  }

  /**
   * With the default configuration and the default `-p` flag, the profile is
   * found and forwards `svc/changeme` from local port 8080 to port 80.
   */
  lemma DefaultProfileForwards()
    ensures DEFAULT_PROFILE in ProfilesByName(DefaultConfig().profiles)
    ensures var c := ProfilesByName(DefaultConfig().profiles)[DEFAULT_PROFILE].configuration;
      && |c.entries| == 1
      && PortForwardArguments(c.namespace, c.entries[0])
         == ["-n", "default", "port-forward", "svc/changeme", "8080:80"]
  {
    DefaultConfigIndexed();
    assert NatToString(8) == "8";
    assert NatToString(80) == "80";
    assert NatToString(808) == "808";
    assert NatToString(8080) == "8080";
    assert IntToString(80) == "80";
    assert IntToString(8080) == "8080";
    assert PortPair(8080, 80) == "8080:80";
  }
}
