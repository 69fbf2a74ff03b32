/**
 * The configuration types and the parts of `config.Read` that are not I/O
 * (config/config.go): indexing the parsed profiles by name, choosing the
 * default path, and the contents of the default configuration file.
 */
module Config {

  datatype PortForwardEntry = PortForwardEntry(serviceName: string, servicePort: int, localPort: int)

  datatype Config = Config(namespace: string, entries: seq<PortForwardEntry>)

  datatype Profile = Profile(name: string, configuration: Config)

  /** The document a configuration file is parsed into. */
  datatype Profiles = Profiles(profiles: seq<Profile>)

  // ---------------------------------------------------------------------------
  // Indexing profiles by name
  // ---------------------------------------------------------------------------

  /** The map after inserting the profiles one by one, in list order. */
  function ProfilesByName(ps: seq<Profile>): map<string, Profile>
    decreases |ps|
  {
    if ps == [] then map[]
    else ProfilesByName(ps[..|ps| - 1])[ps[|ps| - 1].name := ps[|ps| - 1]]
  }

  /** The loop at the end of `Read`: `result[p.Name] = p` for every parsed profile. */
  method IndexProfiles(config: Profiles) returns (result: map<string, Profile>)
    ensures result == ProfilesByName(config.profiles)
  {
    var ps := config.profiles;
    result := map[];
    var i := 0;
    while i < |ps|
      invariant 0 <= i <= |ps|
      invariant result == ProfilesByName(ps[..i])
    {
      assert ps[..i + 1][..i] == ps[..i];
      result := result[ps[i].name := ps[i]];
      i := i + 1;
    }
    assert ps[..i] == ps;
  }

  /** The keys are exactly the names occurring in the list. */
  lemma {:induction false} ProfilesByNameKeys(ps: seq<Profile>)
    ensures forall n :: n in ProfilesByName(ps) <==> exists i :: 0 <= i < |ps| && ps[i].name == n
    decreases |ps|
  {
    if ps != [] {
      var init := ps[..|ps| - 1];
      ProfilesByNameKeys(init);
      forall n | n in ProfilesByName(ps)
        ensures exists i :: 0 <= i < |ps| && ps[i].name == n
      {
        if n != ps[|ps| - 1].name {
          assert n in ProfilesByName(init);
          var i :| 0 <= i < |init| && init[i].name == n;
          assert ps[i] == init[i];
        }
      }
      forall n | exists i :: 0 <= i < |ps| && ps[i].name == n
        ensures n in ProfilesByName(ps)
      {
        var i :| 0 <= i < |ps| && ps[i].name == n;
        if i < |ps| - 1 {
          assert init[i] == ps[i];
        }
      }
    }
  }

  /** Of two profiles with the same name, the later one is stored. */
  lemma {:induction false} ProfilesByNameLastWins(ps: seq<Profile>, i: int)
    requires 0 <= i < |ps|
    requires forall j :: i < j < |ps| ==> ps[j].name != ps[i].name
    ensures ps[i].name in ProfilesByName(ps) && ProfilesByName(ps)[ps[i].name] == ps[i]
    decreases |ps|
  {
    if i < |ps| - 1 {
      var init := ps[..|ps| - 1];
      assert init[i] == ps[i];
      ProfilesByNameLastWins(init, i);
    }
  }

  /** Every stored profile comes from the list and is stored under its own name. */
  lemma {:induction false} ProfilesByNameValues(ps: seq<Profile>)
    ensures forall n :: n in ProfilesByName(ps) ==>
      ProfilesByName(ps)[n].name == n && ProfilesByName(ps)[n] in ps
    decreases |ps|
  {
    if ps != [] {
      var init := ps[..|ps| - 1];
      ProfilesByNameValues(init);
      forall n | n in ProfilesByName(ps)
        ensures ProfilesByName(ps)[n] in ps
      {
        if n != ps[|ps| - 1].name {
          assert n in ProfilesByName(init);
          var k :| 0 <= k < |init| && init[k] == ProfilesByName(init)[n];
          assert ps[k] == init[k];
        }
      }
    }
  }

  /** The map never has more entries than the list, and is empty for an empty list. */
  lemma {:induction false} ProfilesByNameSize(ps: seq<Profile>)
    ensures |ProfilesByName(ps)| <= |ps|
    ensures ps == [] <==> ProfilesByName(ps) == map[]
    decreases |ps|
  {
    if ps != [] {
      var init := ps[..|ps| - 1];
      ProfilesByNameSize(init);
      var last := ps[|ps| - 1];
      assert last.name in ProfilesByName(ps);
      var m := ProfilesByName(init);
      assert ProfilesByName(ps).Keys == m.Keys + {last.name};
      assert |m.Keys + {last.name}| <= |m.Keys| + 1;
    }
  }

  // ---------------------------------------------------------------------------
  // The default path and the default configuration
  // ---------------------------------------------------------------------------

  /** `home` without its trailing slashes. */
  function TrimTrailingSlashes(s: string): (r: string)
    ensures r <= s
    ensures r == [] || r[|r| - 1] != '/'
    ensures forall k :: |r| <= k < |s| ==> s[k] == '/'
    decreases |s|
  {
    if s != [] && s[|s| - 1] == '/' then TrimTrailingSlashes(s[..|s| - 1]) else s
  }

  /**
   * The path `Read` opens: the given one, or `filepath.Join(home, ".kpm",
   * "config.json")` when it is empty.
   */
  function ConfigPath(path: string, home: string): (r: string)
    ensures path != "" ==> r == path
    ensures path == "" && home != "" && home[|home| - 1] != '/' ==> r == home + "/.kpm/config.json"
    ensures path == "" ==> |r| >= 16 && r[|r| - 16..] == ".kpm/config.json"
  {
    if path != "" then path
    else if home == "" then ".kpm/config.json"
    else TrimTrailingSlashes(home) + "/.kpm/config.json"
  }

  /** What `createDefaultConfig` writes. */
  function DefaultConfig(): Profiles
  {
    Profiles([Profile("default", Config("default", [PortForwardEntry("svc/changeme", 80, 8080)]))])
  }

  /** Indexed, the default configuration holds exactly the profile "default". */
  lemma DefaultConfigIndexed()
    ensures ProfilesByName(DefaultConfig().profiles).Keys == {"default"}
    ensures ProfilesByName(DefaultConfig().profiles)["default"].configuration
      == Config("default", [PortForwardEntry("svc/changeme", 80, 8080)])
  {
  }
}
