/** The plugin: one build step, one push step and the registry file between
    them, run in a fixed order that stops at the first error
    (cmd/vela-makisu/plugin.go). */
module Plugin {
  import opened Wrappers
  import opened Tokens
  import opened Environment
  import B = Build
  import P = Push
  import G = Global
  import R = Registry

  // ---------------------------------------------------------------------------
  // Go's `if err != nil { return err }`, step after step

  /** The error of the first failing outcome, or success when none fails. */
  function FirstFailure(os: seq<Outcome>): (e: Outcome)
    ensures e.Pass? <==> forall i :: 0 <= i < |os| ==> os[i].Pass?
    ensures e.Fail? ==> e in os
  {
    if os == [] then Pass else if os[0].Fail? then os[0] else FirstFailure(os[1..])
  }

  /** The first failing outcome decides, whatever follows it. */
  lemma {:induction false} FirstFailureAt(os: seq<Outcome>, i: nat)
    requires i < |os| && os[i].Fail?
    requires forall j :: 0 <= j < i ==> os[j].Pass?
    ensures FirstFailure(os) == os[i]
    decreases i
  {
    if i > 0 {
      assert os[0].Pass?;
      forall j | 0 <= j < i - 1 ensures os[1..][j].Pass? {
        assert os[1..][j] == os[j + 1];
      }
      FirstFailureAt(os[1..], i - 1);
    }
  }

  /** Associativity of concatenation, the regrouping step `LeavesAfterVersion`
      takes between the version run and the runs after it. */
  lemma Regroup<T>(a: seq<T>, b: seq<T>, c: seq<T>)
    ensures a + b + c == a + (b + c)
  {
  }

  // ---------------------------------------------------------------------------
  // The sequence `Plugin.Exec` runs

  /** What each step of `Plugin.Exec` reports when it is reached: the version
      run, the registry file, the build run, the push validator, the push run. */
  datatype Results = Results(version: Outcome, write: Outcome, build: Outcome, check: Outcome, push: Outcome)
  {
    /** The outcomes in the order the steps run; dry-run drops the push pair. */
    function Outcomes(dryRun: bool): (os: seq<Outcome>)
      ensures |os| == if dryRun then 3 else 5
    {
      [version, write, build] + if dryRun then [] else [check, push]
    }

    /** What `Exec` returns: each step's error in turn, read as Go's early
        returns. */
    function Verdict(dryRun: bool): Outcome
    {
      if version.Fail? then version
      else if write.Fail? then write
      else if build.Fail? then build
      else if dryRun then Pass
      else if check.Fail? then check
      else push
    }

    /** The build command runs: the version run and the registry file succeeded. */
    predicate ReachesBuild()
    {
      version.Pass? && write.Pass?
    }

    /** The build command succeeded. */
    predicate Built()
    {
      ReachesBuild() && build.Pass?
    }

    /** The push command runs. */
    predicate ReachesPush(dryRun: bool)
    {
      Built() && !dryRun && check.Pass?
    }

    /** The argument vectors handed to the process runner after the version
        command, in order. */
    function Later(dryRun: bool, buildArgv: seq<string>, pushArgv: seq<string>): seq<seq<string>>
    {
      if ReachesBuild() then [buildArgv] + (if ReachesPush(dryRun) then [pushArgv] else []) else []
    }

    /** The argument vectors handed to the process runner, in order. */
    function Invocations(dryRun: bool, versionArgv: seq<string>, buildArgv: seq<string>, pushArgv: seq<string>): seq<seq<string>>
    {
      [versionArgv] + Later(dryRun, buildArgv, pushArgv)
    }

    /** The files written: the registry file, once the version run passed. */
    function Written(file: FileWrite): seq<FileWrite>
    {
      if version.Pass? && write.Pass? then [file] else []
    }

    /** The host after the steps that follow the version run. */
    function LeavesLater(host: Host, dryRun: bool, buildArgv: seq<string>, pushArgv: seq<string>, file: FileWrite): Host
    {
      host.(runs := host.runs + Later(dryRun, buildArgv, pushArgv), files := host.files + Written(file))
    }

    /** The host after all the steps. */
    function Leaves(host: Host, dryRun: bool, versionArgv: seq<string>, buildArgv: seq<string>, pushArgv: seq<string>, file: FileWrite): Host
    {
      host.(runs := host.runs + Invocations(dryRun, versionArgv, buildArgv, pushArgv), files := host.files + Written(file))
    }
  }

  /** Once the version command has run and passed, the rest of the steps
      leave the host as all of them would have. */
  lemma LeavesAfterVersion(r: Results, host: Host, dryRun: bool, v: seq<string>, b: seq<string>, p: seq<string>, file: FileWrite)
    requires r.version.Pass?
    ensures r.Leaves(host, dryRun, v, b, p, file) == r.LeavesLater(host.(runs := host.runs + [v]), dryRun, b, p, file)
  {
    Regroup(host.runs, [v], r.Later(dryRun, b, p));
  }

  /** When every step succeeds the runner is invoked three times, version,
      build and push in that order, or twice, without the push, under
      dry-run. */
  lemma ExecSuccess(r: Results, dryRun: bool, v: seq<string>, b: seq<string>, p: seq<string>)
    ensures FirstFailure(r.Outcomes(dryRun)).Pass? <==>
      r.version.Pass? && r.write.Pass? && r.build.Pass? && (dryRun || (r.check.Pass? && r.push.Pass?))
    ensures FirstFailure(r.Outcomes(dryRun)).Pass? ==>
      && r.Invocations(dryRun, v, b, p) == [v, b] + (if dryRun then [] else [p])
      && |r.Invocations(dryRun, v, b, p)| == if dryRun then 2 else 3
  {
    var os := r.Outcomes(dryRun);
    assert os[0] == r.version && os[1] == r.write && os[2] == r.build;
    if !dryRun {
      assert os[3] == r.check && os[4] == r.push;
    }
  }

  /** Under dry-run the push is neither validated nor run: the outcome is the
      first failure among version, registry file and build, and the runner
      sees no push command. */
  lemma ExecDryRun(r: Results, v: seq<string>, b: seq<string>, p: seq<string>)
    ensures FirstFailure(r.Outcomes(true)) == FirstFailure([r.version, r.write, r.build])
    ensures !r.ReachesPush(true)
    ensures r.Invocations(true, v, b, p) == [v] + (if r.ReachesBuild() then [b] else [])
  {
    assert r.Outcomes(true) == [r.version, r.write, r.build];
  }

  /** The first failing step's error is the outcome, and no later step runs. */
  lemma ExecStops(r: Results, dryRun: bool, v: seq<string>, b: seq<string>, p: seq<string>)
    ensures r.version.Fail? ==> FirstFailure(r.Outcomes(dryRun)) == r.version && r.Invocations(dryRun, v, b, p) == [v]
    ensures r.version.Pass? && r.write.Fail? ==>
      FirstFailure(r.Outcomes(dryRun)) == r.write && r.Invocations(dryRun, v, b, p) == [v]
    ensures r.ReachesBuild() && r.build.Fail? ==>
      FirstFailure(r.Outcomes(dryRun)) == r.build && r.Invocations(dryRun, v, b, p) == [v, b]
    ensures r.Built() && !dryRun && r.check.Fail? ==>
      FirstFailure(r.Outcomes(dryRun)) == r.check && r.Invocations(dryRun, v, b, p) == [v, b]
    ensures r.ReachesPush(dryRun) && r.push.Fail? ==>
      FirstFailure(r.Outcomes(dryRun)) == r.push && r.Invocations(dryRun, v, b, p) == [v, b, p]
  {
    var os := r.Outcomes(dryRun);
    assert os[0] == r.version && os[1] == r.write && os[2] == r.build;
    if r.version.Fail? {
      FirstFailureAt(os, 0);
    } else if r.write.Fail? {
      FirstFailureAt(os, 1);
    } else if r.build.Fail? {
      FirstFailureAt(os, 2);
    } else if !dryRun {
      assert os[3] == r.check && os[4] == r.push;
      if r.check.Fail? {
        FirstFailureAt(os, 3);
      } else if r.push.Fail? {
        FirstFailureAt(os, 4);
      }
    }
  }

  /** `Verdict` is the first failure among the outcomes of the steps that run. */
  lemma ExecVerdict(r: Results, dryRun: bool)
    ensures r.Verdict(dryRun) == FirstFailure(r.Outcomes(dryRun))
  {
    var os := r.Outcomes(dryRun);
    assert os[0] == r.version && os[1] == r.write && os[2] == r.build;
    if r.version.Fail? {
      FirstFailureAt(os, 0);
    } else if r.write.Fail? {
      FirstFailureAt(os, 1);
    } else if r.build.Fail? {
      FirstFailureAt(os, 2);
    } else if !dryRun {
      assert os[3] == r.check && os[4] == r.push;
      if r.check.Fail? {
        FirstFailureAt(os, 3);
      } else if r.push.Fail? {
        FirstFailureAt(os, 4);
      }
    }
  }

  // ---------------------------------------------------------------------------
  // The plugin

  class Plugin {
    const build: B.Build
    var global: Option<G.Global>
    var globalRaw: string
    var registry: R.Registry
    const push: P.Push

    constructor (build: B.Build, globalRaw: string, registry: R.Registry, push: P.Push)
      ensures this.build == build && global == None && this.globalRaw == globalRaw
      ensures this.registry == registry && this.push == push
    {
      this.build, global, this.globalRaw := build, None, globalRaw;
      this.registry, this.push := registry, push;
    }

    /** What the steps of `Exec` report on `host`, where the version run gets
        the runner's `n`-th result, the build the next and the push the one
        after. */
    function StepResults(host: Host, n: nat): Results
      reads push`contextPath, push`tag
    {
      Results(host.RunResult(n), host.WriteResult(R.RegistryConfigPath), host.RunResult(n + 1), push.Validate(),
              host.RunResult(n + 2))
    }

    /** What the steps that ran handed to build and push: the global flags
        and the registry file's path once the build is reached, the image
        path once it has succeeded; otherwise those fields are as before. */
    twostate predicate HandedOff(r: Results, artifact: string)
      reads this, build, push
      requires global.Some? && global.value.Present()
    {
      && (if r.ReachesBuild() then
            && build.globalFlags == global.value.FlagTokens() && push.globalFlags == global.value.FlagTokens()
            && build.registryConfig == R.RegistryConfigPath && push.registryConfig == R.RegistryConfigPath
          else
            && build.globalFlags == old(build.globalFlags) && push.globalFlags == old(push.globalFlags)
            && build.registryConfig == old(build.registryConfig) && push.registryConfig == old(push.registryConfig))
      && push.path == if r.Built() then artifact else old(push.path)
    }

    /** The registry file as `Exec` writes it. */
    function RegistryFile(): FileWrite
      reads this
    {
      FileWrite(R.RegistryConfigPath, Serialized(registry.Merged()), Mode0644)
    }

    /** `Plugin.Exec`: the version command, the registry file, the global
        flags and the registry file's path handed to build and push, the
        build command, the build's image path handed to push, and then,
        unless `dryRun` is set, the push validator and the push command;
        the first error is returned and nothing after it runs. The host it
        leaves is the version run followed by the later steps, which
        `LeavesAfterVersion` shows is `host` with the runs of `Invocations`. */
    method Exec(host: Host, versionArgv: seq<string>, dryRun: bool, text: B.Duration -> string)
      returns (err: Outcome, after: Host)
      requires registry.Substitutable() && global.Some? && global.value.Present() && build.Decoded()
      modifies build`globalFlags, build`registryConfig, push`globalFlags, push`registryConfig, push`path
      ensures var r := StepResults(host, |host.runs|);
        && err == r.Verdict(dryRun)
        && after == r.LeavesLater(host.(runs := host.runs + [versionArgv]), dryRun, build.Current().Argv(text), push.Argv(), RegistryFile())
        && HandedOff(r, host.artifact)
    {
      err, after := host.Run(versionArgv);
      if err.Fail? {
        return;
      }
      ghost var ran := after;
      err, after := Publish(after, dryRun, text, |host.runs|);
      ghost var r := StepResults(host, |host.runs|);
      assert StepResults(ran, |host.runs|) == r;
    }

    /** Everything `Exec` does after the version command, which was the
        runner's `n0`-th run and succeeded (cmd/vela-makisu/plugin.go:39-79). */
    method Publish(host: Host, dryRun: bool, text: B.Duration -> string, ghost n0: nat) returns (err: Outcome, after: Host)
      requires registry.Substitutable() && global.Some? && global.value.Present() && build.Decoded()
      requires |host.runs| == n0 + 1 && host.RunResult(n0).Pass?
      modifies build`globalFlags, build`registryConfig, push`globalFlags, push`registryConfig, push`path
      ensures var r := StepResults(host, n0);
        && err == r.Verdict(dryRun)
        && after == r.LeavesLater(host, dryRun, build.Current().Argv(text), push.Argv(), RegistryFile())
        && HandedOff(r, host.artifact)
    {
      err, after := registry.Write(host);
      if err.Fail? {
        return;
      }
      err, after := Stage(after, dryRun, text);
    }

    /** The global flags and the registry file's path handed to build and
        push, then the build command, the image path handed to push and,
        unless `dryRun` is set, the push validator and the push command
        (cmd/vela-makisu/plugin.go:43-79). */
    method Stage(host: Host, dryRun: bool, text: B.Duration -> string) returns (err: Outcome, after: Host)
      requires global.Some? && global.value.Present() && build.Decoded()
      modifies build`globalFlags, build`registryConfig, push`globalFlags, push`registryConfig, push`path
      ensures var n := |host.runs|;
        var built := host.RunResult(n).Pass?;
        && err == (if !built then host.RunResult(n) else if dryRun then Pass
                   else if push.Validate().Fail? then push.Validate() else host.RunResult(n + 1))
        && after == host.(runs := host.runs + ([build.Current().Argv(text)]
             + if built && !dryRun && push.Validate().Pass? then [push.Argv()] else []))
        && build.globalFlags == global.value.FlagTokens() && push.globalFlags == global.value.FlagTokens()
        && build.registryConfig == R.RegistryConfigPath && push.registryConfig == R.RegistryConfigPath
        && push.path == if built then host.artifact else old(push.path)
    {
      var globalFlags := global.value.Flags();
      HandOff(globalFlags);
      err, after := BuildAndPush(host, dryRun, text);
    }

    /** Hands the global flags and the registry file's path to build and
        push (cmd/vela-makisu/plugin.go:47-53). */
    method HandOff(globalFlags: seq<string>)
      modifies build`globalFlags, build`registryConfig, push`globalFlags, push`registryConfig
      ensures build.globalFlags == globalFlags && push.globalFlags == globalFlags
      ensures build.registryConfig == R.RegistryConfigPath && push.registryConfig == R.RegistryConfigPath
    {
      build.globalFlags := globalFlags;
      push.globalFlags := globalFlags;
      build.registryConfig := R.RegistryConfigPath;
      push.registryConfig := R.RegistryConfigPath;
    }

    /** The build command, the image path handed to push and, unless
        `dryRun` is set, the push validator and the push command
        (cmd/vela-makisu/plugin.go:55-79). */
    method BuildAndPush(host: Host, dryRun: bool, text: B.Duration -> string) returns (err: Outcome, after: Host)
      requires build.Decoded()
      modifies push`path
      ensures var n := |host.runs|;
        var built := host.RunResult(n).Pass?;
        && err == (if !built then host.RunResult(n) else if dryRun then Pass
                   else if push.Validate().Fail? then push.Validate() else host.RunResult(n + 1))
        && after == host.(runs := host.runs + ([build.Current().Argv(text)]
             + if built && !dryRun && push.Validate().Pass? then [push.Argv()] else []))
        && push.path == if built then host.artifact else old(push.path)
    {
      ghost var buildArgv, pushArgv := build.Current().Argv(text), push.Argv();
      err, after := build.Exec(host, text);
      if err.Fail? {
        return;
      }
      push.path := host.artifact;
      if !dryRun {
        err := push.Validate();
        if err.Fail? {
          return;
        }
        err, after := push.Exec(after);
        assert after.runs == host.runs + ([buildArgv] + [pushArgv]);
      }
    }

    /** `Plugin.Unmarshal`: an empty global record, into which the raw
        settings are decoded when there are any (`decoded` is what
        `json.Unmarshal` makes of them; None stands for the JSON literal null;
        a type mismatch leaves the fields that fit stored). An empty record
        has neither cpu nor log part, which `Exec` needs. */
    method Unmarshal(decoded: Decoded<Option<G.Global>>) returns (err: Outcome)
      modifies this`global
      ensures |globalRaw| == 0 ==> global == Some(G.Global(None, None)) && err == Pass && !global.value.Present()
      ensures |globalRaw| > 0 && decoded.Decoded? ==> global == decoded.value && err == Pass
      ensures |globalRaw| > 0 && decoded.Mismatched? ==>
        global == decoded.value && err == Fail(Malformed(decoded.reason))
      ensures |globalRaw| > 0 && decoded.Rejected? ==>
        global == Some(G.Global(None, None)) && err == Fail(Malformed(decoded.reason))
    {
      global := Some(G.Global(None, None));
      if |globalRaw| > 0 {
        global := decoded.Into(global);
        if !decoded.Decoded? {
          return Fail(Malformed(decoded.reason));
        }
      }
      return Pass;
    }

    /** `Plugin.Validate`: the registry validator, then the build's option
        decoding, then the build validator; the push is not validated here. */
    method Validate(dockerRaw: Decoded<B.Docker>, httpRaw: Decoded<B.HTTPCache>, redisRaw: Decoded<B.RedisCache>)
      returns (err: Outcome)
      modifies build`docker, build`httpCache, build`redisCache
      ensures err == FirstFailure([registry.Validate(), B.UnmarshalResult(dockerRaw, httpRaw, redisRaw), build.Validate()])
      ensures err.Pass? <==>
        && |registry.password| > 0 && |registry.name| > 0 && |registry.username| > 0
        && dockerRaw.Decoded? && httpRaw.Decoded? && redisRaw.Decoded?
        && |build.context| > 0 && |build.tag| > 0
      ensures registry.Validate().Fail? ==>
        build.docker == old(build.docker) && build.httpCache == old(build.httpCache) && build.redisCache == old(build.redisCache)
      ensures registry.Validate().Pass? ==>
        && build.docker == Some(dockerRaw.Into(B.Docker("", "", "")))
        && build.httpCache == Some(if dockerRaw.Decoded? then httpRaw.Into(B.HTTPCache("", [])) else B.HTTPCache("", []))
        && build.redisCache == Some(if dockerRaw.Decoded? && httpRaw.Decoded? then redisRaw.Into(B.RedisCache("", "", 0))
                                    else B.RedisCache("", "", 0))
    {
      ghost var os := [registry.Validate(), B.UnmarshalResult(dockerRaw, httpRaw, redisRaw), build.Validate()];
      err := registry.Validate();
      if err.Fail? {
        FirstFailureAt(os, 0);
        return;
      }
      err := build.Unmarshal(dockerRaw, httpRaw, redisRaw);
      if err.Fail? {
        FirstFailureAt(os, 1);
        return;
      }
      err := build.Validate();
      if err.Fail? {
        FirstFailureAt(os, 2);
      }
    }
  }

  /** Once `Exec` has handed the registry file's path to both steps, the build
      and the push command lines each carry "--registry-config" exactly once,
      followed by that path. */
  lemma ExecRegistryConfig(b: B.Options, p: P.Push, text: B.Duration -> string)
    requires b.registryConfig == R.RegistryConfigPath && p.registryConfig == R.RegistryConfigPath
    ensures var argv := b.Argv(text);
      Contributes(argv[1..|argv| - 1], B.RegistryConfigFlag, Some(R.RegistryConfigPath))
    ensures var argv := p.Argv();
      Contributes(argv[1..|argv| - 1], P.RegistryConfigFlag, Some(R.RegistryConfigPath))
  {
    B.BuildScalarTokens3(b, text);
    P.PushTokens(p);
  }
}
