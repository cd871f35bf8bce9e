/** makisu's registry file: credentials per registry host
    (cmd/vela-makisu/registry.go). */
module Registry {
  import opened Wrappers
  import opened Environment

  /** The host of the anonymous docker hub entry. */
  const HubHost := "index.docker.io"
  /** The one path pattern every entry uses: all repositories of the host. */
  const AnyPath := ".*"
  /** Where the registry file is written (`configPath`). */
  const RegistryConfigPath := "/makisu/registry/config.json"

  /** A string `fmt.Sprintf` can place between the quotes of a JSON string
      literal and `json.Unmarshal` reads back unchanged: no quote, no
      backslash and no control character. */
  predicate JsonSafe(s: string)
  {
    forall i :: 0 <= i < |s| ==> s[i] != '"' && s[i] != '\\' && s[i] >= ' '
  }

  /** The paths of one host: every repository, TLS client left enabled, and
      the given basic-auth credentials. */
  function Entry(username: string, password: string): (paths: map<string, Security>)
    ensures paths.Keys == {AnyPath}
    ensures paths[AnyPath] == Security(false, username, password)
  {
    map[AnyPath := Security(false, username, password)]
  }

  /** The entry of the hub and of the mirror templates: no credentials. */
  function Anonymous(): map<string, Security>
  {
    Entry("", "")
  }

  /** One `json.Unmarshal` of a one-host template into the map. */
  datatype Overlay = Overlay(host: string, paths: map<string, Security>)

  /** The result of decoding the overlays one after another into `m`: each
      replaces the host's entry wholesale. */
  function ApplyAll(m: RegistryMap, os: seq<Overlay>): RegistryMap
    decreases |os|
  {
    if os == [] then m else ApplyAll(m[os[0].host := os[0].paths], os[1..])
  }

  /** The hosts of a list of overlays. */
  function Hosts(os: seq<Overlay>): set<string>
  {
    set i | 0 <= i < |os| :: os[i].host
  }

  /** Overlaying adds exactly the overlays' hosts to the map's keys. */
  lemma {:induction false} ApplyAllKeys(m: RegistryMap, os: seq<Overlay>)
    ensures ApplyAll(m, os).Keys == m.Keys + Hosts(os)
    decreases |os|
  {
    if os != [] {
      ApplyAllKeys(m[os[0].host := os[0].paths], os[1..]);
      assert Hosts(os) == {os[0].host} + Hosts(os[1..]) by {
        forall h | h in Hosts(os) ensures h in {os[0].host} + Hosts(os[1..]) {
          var i :| 0 <= i < |os| && os[i].host == h;
          if i > 0 { assert os[1..][i - 1] == os[i]; }
        }
      }
    }
  }

  /** The last overlay of a host decides its entry. */
  lemma {:induction false} ApplyAllLast(m: RegistryMap, os: seq<Overlay>, o: Overlay)
    ensures o.host in ApplyAll(m, os + [o]) && ApplyAll(m, os + [o])[o.host] == o.paths
    decreases |os|
  {
    if os == [] {
      assert ([] + [o])[1..] == [];
    } else {
      assert (os + [o])[1..] == os[1..] + [o];
      ApplyAllLast(m[os[0].host := os[0].paths], os[1..], o);
    }
  }

  /** A host whose every overlay carries the same paths ends with those
      paths, whatever it held before, provided some overlay names it. */
  lemma {:induction false} ApplyAllUniform(m: RegistryMap, os: seq<Overlay>, h: string, paths: map<string, Security>)
    requires h in Hosts(os)
    requires forall i :: 0 <= i < |os| && os[i].host == h ==> os[i].paths == paths
    ensures h in ApplyAll(m, os) && ApplyAll(m, os)[h] == paths
    decreases |os|
  {
    var m' := m[os[0].host := os[0].paths];
    forall i | 0 <= i < |os| - 1 && os[1..][i].host == h
      ensures os[1..][i].paths == paths
    {
      assert os[1..][i] == os[i + 1];
    }
    if os[0].host == h && h !in Hosts(os[1..]) {
      ApplyAllAbsent(m', os[1..], h);
    } else {
      assert h in Hosts(os[1..]) by {
        if os[0].host != h {
          var i :| 0 <= i < |os| && os[i].host == h;
          assert os[1..][i - 1] == os[i];
        }
      }
      ApplyAllUniform(m', os[1..], h, paths);
    }
  }

  /** Overlays of other hosts leave a host's entry alone. */
  lemma {:induction false} ApplyAllAbsent(m: RegistryMap, os: seq<Overlay>, h: string)
    requires h !in Hosts(os) && h in m
    ensures h in ApplyAll(m, os) && ApplyAll(m, os)[h] == m[h]
    decreases |os|
  {
    if os != [] {
      assert os[0].host != h by { assert os[0].host in Hosts(os); }
      assert Hosts(os[1..]) <= Hosts(os) by {
        forall x | x in Hosts(os[1..]) ensures x in Hosts(os) {
          var i :| 0 <= i < |os| - 1 && os[1..][i].host == x;
          assert os[i + 1].host == x;
        }
      }
      ApplyAllAbsent(m[os[0].host := os[0].paths], os[1..], h);
    }
  }

  /** The registry settings of the plugin. */
  datatype Registry = Registry(mirror: string, name: string, password: string, username: string)
  {
    /** Every value substituted into the JSON templates is JSON-safe. */
    predicate Substitutable()
    {
      JsonSafe(mirror) && JsonSafe(name) && JsonSafe(username) && JsonSafe(password)
    }

    /** The overlays `Write` decodes, in order: the anonymous hub, the
        anonymous mirror when one is set, the credentialed registry. */
    function Overlays(): seq<Overlay>
    {
      [Overlay(HubHost, Anonymous())]
      + (if |mirror| != 0 then [Overlay(mirror, Anonymous())] else [])
      + [Overlay(name, Entry(username, password))]
    }

    /** The registry map `Write` serializes. */
    function Merged(): RegistryMap
    {
      ApplyAll(map[], Overlays())
    }

    /** `Registry.Write`: overlays the three templates on an empty map in
        place, then writes the serialized map, once, to the registry file
        with mode 0644. */
    method Write(host: Host) returns (err: Outcome, after: Host)
      requires Substitutable()
      ensures err == host.WriteResult(RegistryConfigPath)
      ensures after == host.(files := host.files
        + if err.Pass? then [FileWrite(RegistryConfigPath, Serialized(Merged()), Mode0644)] else [])
    {
      var config: RegistryMap := map[];
      ghost var os := Overlays();
      config := config[HubHost := Anonymous()];
      ghost var rest := os[1..];
      assert Merged() == ApplyAll(config, rest);
      if |mirror| != 0 {
        config := config[mirror := Anonymous()];
        rest := rest[1..];
        assert Merged() == ApplyAll(config, rest);
      }
      assert rest == [Overlay(name, Entry(username, password))];
      config := config[name := Entry(username, password)];
      assert ApplyAll(config, rest[1..]) == config by {
        assert rest[1..] == [];
      }
      assert Merged() == config;
      err, after := host.WriteFile(RegistryConfigPath, Serialized(config), Mode0644);
    }

    /** `Registry.Validate`: password, then name, then username, each with
        its own message. */
    function Validate(): (r: Outcome)
      ensures r.Pass? <==> |password| > 0 && |name| > 0 && |username| > 0
      ensures |password| == 0 ==> r == Fail(Invalid("no config password provided"))
      ensures |password| > 0 && |name| == 0 ==> r == Fail(Invalid("no config address provided"))
      ensures |password| > 0 && |name| > 0 && |username| == 0 ==> r == Fail(Invalid("no config username provided"))
    {
      if |password| == 0 then Fail(Invalid("no config password provided"))
      else if |name| == 0 then Fail(Invalid("no config address provided"))
      else if |username| == 0 then Fail(Invalid("no config username provided"))
      else Pass
    }
  }

  /** The merged map has the hub, the registry and, when one is set, the
      mirror as hosts, and no other. */
  lemma RegistryHosts(r: Registry)
    ensures r.Merged().Keys == {HubHost, r.name} + (if |r.mirror| != 0 then {r.mirror} else {})
  {
    var os := r.Overlays();
    ApplyAllKeys(map[], os);
    if |r.mirror| != 0 {
      assert os == [os[0], os[1], os[2]];
      assert Hosts(os) == {os[0].host, os[1].host, os[2].host};
    } else {
      assert os == [os[0], os[1]];
      assert Hosts(os) == {os[0].host, os[1].host};
    }
  }

  /** The registry's entry carries its credentials: the registry overlay
      comes last, so it wins even when the mirror or the hub is the same
      host. */
  lemma RegistryCredentials(r: Registry)
    ensures r.name in r.Merged()
    ensures r.Merged()[r.name] == Entry(r.username, r.password)
  {
    var os := r.Overlays();
    ApplyAllLast(map[], os[..|os| - 1], os[|os| - 1]);
    assert os[..|os| - 1] + [os[|os| - 1]] == os;
    RegistryHosts(r);
  }

  /** Every other host, the hub and the mirror, carries no credentials. */
  lemma RegistryAnonymous(r: Registry, h: string)
    requires h in r.Merged() && h != r.name
    ensures r.Merged()[h] == Anonymous()
  {
    var os := r.Overlays();
    RegistryHosts(r);
    assert h in Hosts(os) by {
      if h == HubHost { assert os[0].host == h; }
      else { assert os[1].host == h; }
    }
    forall i | 0 <= i < |os| && os[i].host == h
      ensures os[i].paths == Anonymous()
    {
    }
    ApplyAllUniform(map[], os, h, Anonymous());
  }
}
