/** The `makisu build` command line and the build step around it
    (cmd/vela-makisu/build.go). */
module Build {
  import opened Wrappers
  import opened Tokens
  import opened Environment

  const BuildAction := "build"

  /** A `time.Duration`: a signed count of nanoseconds. */
  type Duration = int

  // ---------------------------------------------------------------------------
  // Durations

  /** The strings Go's `strings.EqualFold` finds equal to "0s": simple case
      folding relates 's' with 'S' and with U+017F (long s), and '0' with
      nothing else. */
  predicate FoldsToZeroSeconds(s: string)
  {
    |s| == 2 && s[0] == '0' && (s[1] == 's' || s[1] == 'S' || s[1] == '\U{017F}')
  }

  /** What the model needs of `time.Duration.String`, which is passed in as
      `text`: zero renders as "0s", and no other duration renders as anything
      that folds to it (every other rendering has a non-zero digit). */
  ghost predicate RendersLikeGo(text: Duration -> string)
  {
    && text(0) == "0s"
    && forall d: Duration :: d != 0 ==> !FoldsToZeroSeconds(text(d))
  }

  /** `isDurationZero`: compares the duration's text with that of
      `time.ParseDuration("0")`, which is zero and renders as "0s" (so the
      error branch of the source cannot be taken). */
  function IsDurationZero(t: Duration, text: Duration -> string): (r: bool)
    ensures RendersLikeGo(text) ==> (r <==> t == 0)
  {
    FoldsToZeroSeconds(text(t))
  }

  /** A duration field is populated when it is not zero; its value is its text. */
  function DurationValue(t: Duration, text: Duration -> string): (v: Option<string>)
    ensures RendersLikeGo(text) ==> (v.Some? <==> t != 0)
    ensures v.Some? ==> v.value == text(t)
  {
    if IsDurationZero(t, text) then None else Some(text(t))
  }

  /** `if !isDurationZero(t) { flags = append(flags, "--flag " + t.String()) }` */
  method AppendDuration(flags: seq<string>, f: Flag, t: Duration, text: Duration -> string) returns (r: seq<string>)
    requires f.shape == Valued
    ensures r == flags + Render(Setting(f, DurationValue(t, text)))
  {
    r := flags;
    if !IsDurationZero(t, text) {
      r := r + [f.name + " " + text(t)];
    }
  }

  // ---------------------------------------------------------------------------
  // The "docker" flags

  const DockerHost := Flag("--docker-host", Valued)
  const DockerScheme := Flag("--docker-scheme", Valued)
  const DockerVersion := Flag("--docker-version", Valued)
  const DockerSchema: seq<Flag> := [DockerHost, DockerScheme, DockerVersion]

  datatype Docker = Docker(host: string, scheme: string, version: string)
  {
    /** The values of the record's fields, in the order of `DockerSchema`. */
    function Values(): (v: seq<Option<string>>)
      ensures |v| == |DockerSchema|
    {
      [StringValue(host), StringValue(scheme), StringValue(version)]
    }

    /** `Docker.Flags`: one token per non-empty field, in table order. */
    method Flags() returns (flags: seq<string>)
      ensures flags == RenderAll(Settings(DockerSchema, Values()))
      ensures host == "" && scheme == "" && version == "" ==> flags == []
    {
      ghost var v := Values();
      flags := AppendValued([], DockerHost, host);
      assert flags == Emitted([], DockerSchema, v, 1);
      flags := AppendValued(flags, DockerScheme, scheme);
      assert flags == Emitted([], DockerSchema, v, 2);
      flags := AppendValued(flags, DockerVersion, version);
      EmittedAll([], DockerSchema, v);
      assert [] + RenderAll(Settings(DockerSchema, v)) == RenderAll(Settings(DockerSchema, v));
    }
  }

  // ---------------------------------------------------------------------------
  // The "http-cache" flags

  const HTTPCacheAddr := Flag("--http-cache-addr", Valued)
  const HTTPCacheHeader := Flag("--http-cache-header", Quoted)
  const HTTPCacheSchema: seq<Flag> := [HTTPCacheAddr, HTTPCacheHeader]

  datatype HTTPCache = HTTPCache(addr: string, headers: seq<string>)
  {
    function Values(): (v: seq<Option<string>>)
      ensures |v| == |HTTPCacheSchema|
    {
      [StringValue(addr), ListValue(headers)]
    }

    /** `HTTPCache.Flags`: the address if set, then all headers in one token. */
    method Flags() returns (flags: seq<string>)
      ensures flags == RenderAll(Settings(HTTPCacheSchema, Values()))
      ensures addr == "" && headers == [] ==> flags == []
    {
      ghost var v := Values();
      flags := AppendValued([], HTTPCacheAddr, addr);
      assert flags == Emitted([], HTTPCacheSchema, v, 1);
      flags := AppendQuoted(flags, HTTPCacheHeader, headers);
      EmittedAll([], HTTPCacheSchema, v);
      assert [] + RenderAll(Settings(HTTPCacheSchema, v)) == RenderAll(Settings(HTTPCacheSchema, v));
    }
  }

  // ---------------------------------------------------------------------------
  // The "redis-cache" flags

  const RedisCacheAddr := Flag("--redis-cache-addr", Valued)
  const RedisCachePassword := Flag("--redis-cache-password", Valued)
  const RedisCacheTTL := Flag("--redis-cache-ttl", Valued)
  const RedisCacheSchema: seq<Flag> := [RedisCacheAddr, RedisCachePassword, RedisCacheTTL]

  datatype RedisCache = RedisCache(addr: string, password: string, ttl: Duration)
  {
    function Values(text: Duration -> string): (v: seq<Option<string>>)
      ensures |v| == |RedisCacheSchema|
    {
      [StringValue(addr), StringValue(password), DurationValue(ttl, text)]
    }

    /** `RedisCache.Flags`: address, password and a non-zero time to live. */
    method Flags(text: Duration -> string) returns (flags: seq<string>)
      ensures flags == RenderAll(Settings(RedisCacheSchema, Values(text)))
      ensures RendersLikeGo(text) && addr == "" && password == "" && ttl == 0 ==> flags == []
    {
      ghost var v := Values(text);
      flags := AppendValued([], RedisCacheAddr, addr);
      assert flags == Emitted([], RedisCacheSchema, v, 1);
      flags := AppendValued(flags, RedisCachePassword, password);
      assert flags == Emitted([], RedisCacheSchema, v, 2);
      flags := AppendDuration(flags, RedisCacheTTL, ttl, text);
      EmittedAll([], RedisCacheSchema, v);
      assert [] + RenderAll(Settings(RedisCacheSchema, v)) == RenderAll(Settings(RedisCacheSchema, v));
    }
  }

  // ---------------------------------------------------------------------------
  // The build command

  const BuildArgFlag := Flag("--build-arg", Quoted)
  const CommitFlag := Flag("--commit", Valued)
  const CompressionFlag := Flag("--compression", Valued)
  const BlacklistFlag := Flag("--blacklist", Quoted)
  const DestFlag := Flag("--dest", Valued)
  const FileFlag := Flag("--file", Valued)
  const LoadFlag := Flag("--load", Bare)
  const LocalCacheTTLFlag := Flag("--local-cache-ttl", Valued)
  const ModifyFSFlag := Flag("--modifyfs", Bare)
  const PreserveRootFlag := Flag("--preserve-root", Bare)
  const PushFlag := Flag("--push", Quoted)
  const RegistryConfigFlag := Flag("--registry-config", Valued)
  const ReplicaFlag := Flag("--replica", Quoted)
  const StorageFlag := Flag("--storage", Valued)
  const TagFlag := Flag("--tag", Valued)
  const TargetFlag := Flag("--target", Valued)

  /** The build's own flags, in four runs around the helpers' tables. */
  const LeadingFlags: seq<Flag> := [BuildArgFlag, CommitFlag, CompressionFlag, BlacklistFlag]
  const OutputFlags: seq<Flag> := [DestFlag, FileFlag]
  const LayerFlags: seq<Flag> := [LoadFlag, LocalCacheTTLFlag, ModifyFSFlag, PreserveRootFlag, PushFlag]
  const TrailingFlags: seq<Flag> := [RegistryConfigFlag, ReplicaFlag, StorageFlag, TagFlag, TargetFlag]

  /** Every flag of the build command, in the order the command writes them. */
  const BuildSchema: seq<Flag> :=
    LeadingFlags + DockerSchema + OutputFlags + HTTPCacheSchema + LayerFlags + RedisCacheSchema + TrailingFlags

  // The table's well-formedness, one row at a time: each lemma below compares
  // one flag's name with the names after it, which keeps every proof
  // obligation small; `BuildRow` picks the lemma for a given row.
  lemma BuildRow0() ensures FlagName(BuildSchema[0].name) && NameUnique(BuildSchema, 0) {}
  lemma BuildRow1() ensures FlagName(BuildSchema[1].name) && NameUnique(BuildSchema, 1) {}
  lemma BuildRow2() ensures FlagName(BuildSchema[2].name) && NameUnique(BuildSchema, 2) {}
  lemma BuildRow3() ensures FlagName(BuildSchema[3].name) && NameUnique(BuildSchema, 3) {}
  lemma BuildRow4() ensures FlagName(BuildSchema[4].name) && NameUnique(BuildSchema, 4) {}
  lemma BuildRow5() ensures FlagName(BuildSchema[5].name) && NameUnique(BuildSchema, 5) {}
  lemma BuildRow6() ensures FlagName(BuildSchema[6].name) && NameUnique(BuildSchema, 6) {}
  lemma BuildRow7() ensures FlagName(BuildSchema[7].name) && NameUnique(BuildSchema, 7) {}
  lemma BuildRow8() ensures FlagName(BuildSchema[8].name) && NameUnique(BuildSchema, 8) {}
  lemma BuildRow9() ensures FlagName(BuildSchema[9].name) && NameUnique(BuildSchema, 9) {}
  lemma BuildRow10() ensures FlagName(BuildSchema[10].name) && NameUnique(BuildSchema, 10) {}
  lemma BuildRow11() ensures FlagName(BuildSchema[11].name) && NameUnique(BuildSchema, 11) {}
  lemma BuildRow12() ensures FlagName(BuildSchema[12].name) && NameUnique(BuildSchema, 12) {}
  lemma BuildRow13() ensures FlagName(BuildSchema[13].name) && NameUnique(BuildSchema, 13) {}
  lemma BuildRow14() ensures FlagName(BuildSchema[14].name) && NameUnique(BuildSchema, 14) {}
  lemma BuildRow15() ensures FlagName(BuildSchema[15].name) && NameUnique(BuildSchema, 15) {}
  lemma BuildRow16() ensures FlagName(BuildSchema[16].name) && NameUnique(BuildSchema, 16) {}
  lemma BuildRow17() ensures FlagName(BuildSchema[17].name) && NameUnique(BuildSchema, 17) {}
  lemma BuildRow18() ensures FlagName(BuildSchema[18].name) && NameUnique(BuildSchema, 18) {}
  lemma BuildRow19() ensures FlagName(BuildSchema[19].name) && NameUnique(BuildSchema, 19) {}
  lemma BuildRow20() ensures FlagName(BuildSchema[20].name) && NameUnique(BuildSchema, 20) {}
  lemma BuildRow21() ensures FlagName(BuildSchema[21].name) && NameUnique(BuildSchema, 21) {}
  lemma BuildRow22() ensures FlagName(BuildSchema[22].name) && NameUnique(BuildSchema, 22) {}
  lemma BuildRow23() ensures FlagName(BuildSchema[23].name) && NameUnique(BuildSchema, 23) {}

  /** Row `i` of the build table has a proper name that no later row repeats. */
  lemma BuildRow(i: nat)
    requires i < |BuildSchema|
    ensures FlagName(BuildSchema[i].name) && NameUnique(BuildSchema, i)
  {
    if i == 0 { BuildRow0(); }
    else if i == 1 { BuildRow1(); }
    else if i == 2 { BuildRow2(); }
    else if i == 3 { BuildRow3(); }
    else if i == 4 { BuildRow4(); }
    else if i == 5 { BuildRow5(); }
    else if i == 6 { BuildRow6(); }
    else if i == 7 { BuildRow7(); }
    else if i == 8 { BuildRow8(); }
    else if i == 9 { BuildRow9(); }
    else if i == 10 { BuildRow10(); }
    else if i == 11 { BuildRow11(); }
    else if i == 12 { BuildRow12(); }
    else if i == 13 { BuildRow13(); }
    else if i == 14 { BuildRow14(); }
    else if i == 15 { BuildRow15(); }
    else if i == 16 { BuildRow16(); }
    else if i == 17 { BuildRow17(); }
    else if i == 18 { BuildRow18(); }
    else if i == 19 { BuildRow19(); }
    else if i == 20 { BuildRow20(); }
    else if i == 21 { BuildRow21(); }
    else if i == 22 { BuildRow22(); }
    else { BuildRow23(); }
  }

  lemma {:induction false} BuildSchemaFrom(i: nat)
    requires i <= |BuildSchema|
    ensures WellFormedSchema(BuildSchema[i..])
    decreases |BuildSchema| - i
  {
    if i < |BuildSchema| {
      BuildSchemaFrom(i + 1);
      BuildRow(i);
      WellFormedStep(BuildSchema, i);
    }
  }

  /** The 24 build flags have proper, pairwise distinct names. */
  lemma BuildSchemaWellFormed()
    ensures |BuildSchema| == 24
    ensures WellFormedSchema(BuildSchema)
  {
    BuildSchemaFrom(0);
    assert BuildSchema[0..] == BuildSchema;
  }

  /** What the build command reads of the plugin's build settings, as one
      value: every field except the global flags, with the three sub-records
      allocated. */
  datatype Options = Options(
    buildArgs: seq<string>, commit: string, compression: string, context: string,
    denyList: seq<string>, docker: Docker, destination: string, file: string,
    httpCache: HTTPCache, load: bool, localCacheTTL: Duration, modifyFS: bool,
    preserveRoot: bool, pushes: seq<string>, redisCache: RedisCache, registryConfig: string,
    replicas: seq<string>, storage: string, tag: string, target: string)
  {
    function LeadingValues(): (v: seq<Option<string>>)
      ensures |v| == |LeadingFlags|
    {
      [ListValue(buildArgs), StringValue(commit), StringValue(compression), ListValue(denyList)]
    }

    function OutputValues(): (v: seq<Option<string>>)
      ensures |v| == |OutputFlags|
    {
      [StringValue(destination), StringValue(file)]
    }

    function LayerValues(text: Duration -> string): (v: seq<Option<string>>)
      ensures |v| == |LayerFlags|
    {
      [SwitchValue(load), DurationValue(localCacheTTL, text), SwitchValue(modifyFS), SwitchValue(preserveRoot), ListValue(pushes)]
    }

    function TrailingValues(): (v: seq<Option<string>>)
      ensures |v| == |TrailingFlags|
    {
      [StringValue(registryConfig), ListValue(replicas), StringValue(storage), StringValue(tag), StringValue(target)]
    }

    /** The values of the fields, in the order of `BuildSchema`. */
    function Values(text: Duration -> string): (v: seq<Option<string>>)
      ensures |v| == |BuildSchema|
    {
      LeadingValues() + docker.Values() + OutputValues() + httpCache.Values()
      + LayerValues(text) + redisCache.Values(text) + TrailingValues()
    }

    /** The argument vector of the build command: "build", one token per
        populated field in table order, and the context last, even when it
        is empty. */
    function Argv(text: Duration -> string): (argv: seq<string>)
      ensures 2 <= |argv| <= 26
      ensures argv[0] == BuildAction && argv[|argv| - 1] == context
      ensures argv[1..|argv| - 1] == RenderAll(Settings(BuildSchema, Values(text)))
    {
      CommandLine(BuildAction, BuildSchema, Values(text), context)
    }

    /** The tokens of the build table are those of its runs and of the
        helpers' tables, one after another. */
    lemma Runs(text: Duration -> string)
      ensures RenderAll(Settings(BuildSchema, Values(text)))
           == [] + RenderAll(Settings(LeadingFlags, LeadingValues()))
           + RenderAll(Settings(DockerSchema, docker.Values()))
           + RenderAll(Settings(OutputFlags, OutputValues()))
           + RenderAll(Settings(HTTPCacheSchema, httpCache.Values()))
           + RenderAll(Settings(LayerFlags, LayerValues(text)))
           + RenderAll(Settings(RedisCacheSchema, redisCache.Values(text)))
           + RenderAll(Settings(TrailingFlags, TrailingValues()))
    {
      var s1, v1 := LeadingFlags, LeadingValues();
      var s2, v2 := s1 + DockerSchema, v1 + docker.Values();
      var s3, v3 := s2 + OutputFlags, v2 + OutputValues();
      var s4, v4 := s3 + HTTPCacheSchema, v3 + httpCache.Values();
      var s5, v5 := s4 + LayerFlags, v4 + LayerValues(text);
      var s6, v6 := s5 + RedisCacheSchema, v5 + redisCache.Values(text);
      TableAppend(s1, v1, DockerSchema, docker.Values());
      TableAppend(s2, v2, OutputFlags, OutputValues());
      TableAppend(s3, v3, HTTPCacheSchema, httpCache.Values());
      TableAppend(s4, v4, LayerFlags, LayerValues(text));
      TableAppend(s5, v5, RedisCacheSchema, redisCache.Values(text));
      TableAppend(s6, v6, TrailingFlags, TrailingValues());
      assert [] + RenderAll(Settings(s1, v1)) == RenderAll(Settings(s1, v1));
    }
  }

  /** The plugin's build settings. The three sub-records are pointers in the
      source and are None until `Unmarshal` allocates them. */
  class Build {
    var buildArgs: seq<string>
    var commit: string
    var compression: string
    var context: string
    var denyList: seq<string>
    var docker: Option<Docker>
    var destination: string
    var file: string
    var httpCache: Option<HTTPCache>
    var load: bool
    var localCacheTTL: Duration
    var modifyFS: bool
    var preserveRoot: bool
    var pushes: seq<string>
    var redisCache: Option<RedisCache>
    var registryConfig: string
    var replicas: seq<string>
    var storage: string
    var tag: string
    var target: string
    /** Set by the plugin before the build runs; the build command does not
        read it. */
    var globalFlags: seq<string>

    /** A build with every field at Go's zero value. */
    constructor ()
      ensures buildArgs == [] && commit == "" && compression == "" && context == ""
      ensures denyList == [] && docker == None && destination == "" && file == ""
      ensures httpCache == None && !load && localCacheTTL == 0 && !modifyFS && !preserveRoot
      ensures pushes == [] && redisCache == None && registryConfig == "" && replicas == []
      ensures storage == "" && tag == "" && target == "" && globalFlags == []
    {
      buildArgs, commit, compression, context := [], "", "", "";
      denyList, docker, destination, file := [], None, "", "";
      httpCache, load, localCacheTTL, modifyFS, preserveRoot := None, false, 0, false, false;
      pushes, redisCache, registryConfig, replicas := [], None, "", [];
      storage, tag, target, globalFlags := "", "", "", [];
    }

    /** The sub-records are allocated, so `Command` can read them. */
    predicate Decoded()
      reads this`docker, this`httpCache, this`redisCache
    {
      docker.Some? && httpCache.Some? && redisCache.Some?
    }

    /** The settings as they are now. */
    function Current(): Options
      reads this
      requires Decoded()
    {
      Options(buildArgs, commit, compression, context, denyList, docker.value, destination, file,
              httpCache.value, load, localCacheTTL, modifyFS, preserveRoot, pushes, redisCache.value,
              registryConfig, replicas, storage, tag, target)
    }

    method AppendLeading(flags: seq<string>) returns (r: seq<string>)
      requires Decoded()
      ensures r == flags + RenderAll(Settings(LeadingFlags, Current().LeadingValues()))
    {
      ghost var v := Current().LeadingValues();
      r := AppendQuoted(flags, BuildArgFlag, buildArgs);
      assert r == Emitted(flags, LeadingFlags, v, 1);
      r := AppendValued(r, CommitFlag, commit);
      assert r == Emitted(flags, LeadingFlags, v, 2);
      r := AppendValued(r, CompressionFlag, compression);
      assert r == Emitted(flags, LeadingFlags, v, 3);
      r := AppendQuoted(r, BlacklistFlag, denyList);
      EmittedAll(flags, LeadingFlags, v);
    }

    method AppendOutput(flags: seq<string>) returns (r: seq<string>)
      requires Decoded()
      ensures r == flags + RenderAll(Settings(OutputFlags, Current().OutputValues()))
    {
      ghost var v := Current().OutputValues();
      r := AppendValued(flags, DestFlag, destination);
      assert r == Emitted(flags, OutputFlags, v, 1);
      r := AppendValued(r, FileFlag, file);
      EmittedAll(flags, OutputFlags, v);
    }

    method AppendLayers(flags: seq<string>, text: Duration -> string) returns (r: seq<string>)
      requires Decoded()
      ensures r == flags + RenderAll(Settings(LayerFlags, Current().LayerValues(text)))
    {
      ghost var v := Current().LayerValues(text);
      r := AppendBare(flags, LoadFlag, load);
      assert r == Emitted(flags, LayerFlags, v, 1);
      r := AppendDuration(r, LocalCacheTTLFlag, localCacheTTL, text);
      assert r == Emitted(flags, LayerFlags, v, 2);
      r := AppendBare(r, ModifyFSFlag, modifyFS);
      assert r == Emitted(flags, LayerFlags, v, 3);
      r := AppendBare(r, PreserveRootFlag, preserveRoot);
      assert r == Emitted(flags, LayerFlags, v, 4);
      r := AppendQuoted(r, PushFlag, pushes);
      EmittedAll(flags, LayerFlags, v);
    }

    method AppendTrailing(flags: seq<string>) returns (r: seq<string>)
      requires Decoded()
      ensures r == flags + RenderAll(Settings(TrailingFlags, Current().TrailingValues()))
    {
      ghost var v := Current().TrailingValues();
      r := AppendValued(flags, RegistryConfigFlag, registryConfig);
      assert r == Emitted(flags, TrailingFlags, v, 1);
      r := AppendQuoted(r, ReplicaFlag, replicas);
      assert r == Emitted(flags, TrailingFlags, v, 2);
      r := AppendValued(r, StorageFlag, storage);
      assert r == Emitted(flags, TrailingFlags, v, 3);
      r := AppendValued(r, TagFlag, tag);
      assert r == Emitted(flags, TrailingFlags, v, 4);
      r := AppendValued(r, TargetFlag, target);
      EmittedAll(flags, TrailingFlags, v);
    }

    /** `Build.Command`: the build's tokens run by run, the helpers' tokens
        in between, then the context. */
    method Command(text: Duration -> string) returns (argv: seq<string>)
      requires Decoded()
      ensures argv == Current().Argv(text)
    {
      Current().Runs(text);
      var flags := AppendLeading([]);
      var dockerFlags := docker.value.Flags();
      flags := flags + dockerFlags;
      flags := AppendOutput(flags);
      var httpFlags := httpCache.value.Flags();
      flags := flags + httpFlags;
      flags := AppendLayers(flags, text);
      var redisFlags := redisCache.value.Flags(text);
      flags := flags + redisFlags;
      flags := AppendTrailing(flags);
      flags := flags + [context];
      argv := [BuildAction] + flags;
    }

    /** `Build.Exec`: runs the build command. */
    method Exec(host: Host, text: Duration -> string) returns (err: Outcome, after: Host)
      requires Decoded()
      ensures err == host.RunResult(|host.runs|)
      ensures after == host.(runs := host.runs + [Current().Argv(text)])
    {
      var argv := Command(text);
      err, after := host.Run(argv);
    }

    /** `Build.Unmarshal`: allocates the three sub-records at their zero
        values, then decodes the raw options into them one after another,
        stopping at the first decoding that reports an error. A decoding that
        reports an error may still have stored part of its record. */
    method Unmarshal(dockerRaw: Decoded<Docker>, httpRaw: Decoded<HTTPCache>, redisRaw: Decoded<RedisCache>)
      returns (err: Outcome)
      modifies this`docker, this`httpCache, this`redisCache
      ensures Decoded()
      ensures err == UnmarshalResult(dockerRaw, httpRaw, redisRaw)
      ensures docker == Some(dockerRaw.Into(Docker("", "", "")))
      ensures httpCache == Some(if dockerRaw.Decoded? then httpRaw.Into(HTTPCache("", [])) else HTTPCache("", []))
      ensures redisCache ==
        Some(if dockerRaw.Decoded? && httpRaw.Decoded? then redisRaw.Into(RedisCache("", "", 0)) else RedisCache("", "", 0))
    {
      docker, httpCache, redisCache := Some(Docker("", "", "")), Some(HTTPCache("", [])), Some(RedisCache("", "", 0));
      docker := Some(dockerRaw.Into(docker.value));
      if !dockerRaw.Decoded? {
        return Fail(Malformed(dockerRaw.reason));
      }
      httpCache := Some(httpRaw.Into(httpCache.value));
      if !httpRaw.Decoded? {
        return Fail(Malformed(httpRaw.reason));
      }
      redisCache := Some(redisRaw.Into(redisCache.value));
      if !redisRaw.Decoded? {
        return Fail(Malformed(redisRaw.reason));
      }
      return Pass;
    }

    /** `Build.Validate`: a context and then a tag are required. */
    function Validate(): (r: Outcome)
      reads this`context, this`tag
      ensures r.Pass? <==> |context| > 0 && |tag| > 0
      ensures |context| == 0 ==> r == Fail(Invalid("no build context provided"))
      ensures |context| > 0 && |tag| == 0 ==> r == Fail(Invalid("no build tag provided"))
    {
      if |context| == 0 then Fail(Invalid("no build context provided"))
      else if |tag| == 0 then Fail(Invalid("no build tag provided"))
      else Pass
    }
  }

  /** The outcome of decoding the docker, http-cache and redis-cache options
      in that order: the first failure, or success when all three decode. */
  function UnmarshalResult(dockerRaw: Decoded<Docker>, httpRaw: Decoded<HTTPCache>, redisRaw: Decoded<RedisCache>): (r: Outcome)
    ensures r.Pass? <==> dockerRaw.Decoded? && httpRaw.Decoded? && redisRaw.Decoded?
    ensures !dockerRaw.Decoded? ==> r == Fail(Malformed(dockerRaw.reason))
    ensures dockerRaw.Decoded? && !httpRaw.Decoded? ==> r == Fail(Malformed(httpRaw.reason))
    ensures dockerRaw.Decoded? && httpRaw.Decoded? && !redisRaw.Decoded? ==> r == Fail(Malformed(redisRaw.reason))
  {
    if !dockerRaw.Decoded? then Fail(Malformed(dockerRaw.reason))
    else if !httpRaw.Decoded? then Fail(Malformed(httpRaw.reason))
    else if !redisRaw.Decoded? then Fail(Malformed(redisRaw.reason))
    else Pass
  }

  // ---------------------------------------------------------------------------
  // What the build command line promises

  /** Only the load, modifyfs and preserve-root switches are bare, and they
      carry the empty value. */
  lemma BuildBareValues(o: Options, text: Duration -> string)
    ensures BareValues(BuildSchema, o.Values(text))
  {
    var s1, v1 := LeadingFlags, o.LeadingValues();
    var s2, v2 := s1 + DockerSchema, v1 + o.docker.Values();
    var s3, v3 := s2 + OutputFlags, v2 + o.OutputValues();
    var s4, v4 := s3 + HTTPCacheSchema, v3 + o.httpCache.Values();
    var s5, v5 := s4 + LayerFlags, v4 + o.LayerValues(text);
    var s6, v6 := s5 + RedisCacheSchema, v5 + o.redisCache.Values(text);
    BareValuesAppend(s1, v1, DockerSchema, o.docker.Values());
    BareValuesAppend(s2, v2, OutputFlags, o.OutputValues());
    BareValuesAppend(s3, v3, HTTPCacheSchema, o.httpCache.Values());
    BareValuesAppend(s4, v4, LayerFlags, o.LayerValues(text));
    BareValuesAppend(s5, v5, RedisCacheSchema, o.redisCache.Values(text));
    BareValuesAppend(s6, v6, TrailingFlags, o.TrailingValues());
  }

  /** Reading the build command line back against the build table recovers
      every field's value and the context: no token is lost, duplicated or
      taken for another flag, and the tokens are in table order. */
  lemma BuildRoundTrip(o: Options, text: Duration -> string)
    ensures ParseCommand(BuildAction, BuildSchema, o.Argv(text)) == Some(Parsed(o.Values(text), o.context))
  {
    BuildSchemaWellFormed();
    BuildBareValues(o, text);
    CommandRoundTrip(BuildAction, BuildSchema, o.Values(text), o.context);
  }

  /** A list field reaches the command line only as its space-joined text, so
      `BuildRoundTrip` recovers that text and not the list: a single build
      argument holding a space and the two arguments it splits into give the
      same command line. */
  lemma BuildArgsJoined(o: Options, text: Duration -> string)
    ensures o.(buildArgs := ["a b"]) != o.(buildArgs := ["a", "b"])
    ensures o.(buildArgs := ["a b"]).Argv(text) == o.(buildArgs := ["a", "b"]).Argv(text)
  {
    var x, y := o.(buildArgs := ["a b"]), o.(buildArgs := ["a", "b"]);
    assert Join(["a", "b"], " ") == "a b";
    assert x.LeadingValues() == y.LeadingValues();
    assert x.Values(text) == y.Values(text);
  }

  /** Populated fields appear in table order: the token of an earlier row of
      `BuildSchema` comes before that of a later one, both between "build"
      and the context. */
  lemma BuildInOrder(o: Options, text: Duration -> string, i: nat, j: nat)
    requires i < j < |BuildSchema| && o.Values(text)[i].Some? && o.Values(text)[j].Some?
    ensures var argv, v := o.Argv(text), o.Values(text);
      exists p, q :: 1 <= p < q < |argv| - 1
        && argv[p] == Token(BuildSchema[i], v[i].value) && argv[q] == Token(BuildSchema[j], v[j].value)
  {
    var argv, v := o.Argv(text), o.Values(text);
    CommandInOrder(BuildAction, BuildSchema, v, o.context, i, j);
    var p, q :| 1 <= p < q < |argv| - 1
      && argv[p] == Token(BuildSchema[i], v[i].value) && argv[q] == Token(BuildSchema[j], v[j].value);
  }

  /** The tokens between "build" and the context. */
  function BuildFlags(o: Options, text: Duration -> string): (flags: seq<string>)
    ensures flags == RenderAll(Settings(BuildSchema, o.Values(text)))
  {
    var argv := o.Argv(text);
    argv[1..|argv| - 1]
  }

  /** Every build flag names exactly one token when its field is populated,
      the token of the field's value, and none otherwise. */
  lemma BuildFlagOnce(o: Options, text: Duration -> string, k: nat)
    requires k < |BuildSchema|
    ensures Contributes(BuildFlags(o, text), BuildSchema[k], o.Values(text)[k])
  {
    BuildSchemaWellFormed();
    CommandFlag(BuildAction, BuildSchema, o.Values(text), o.context, k);
  }

  /** Commit and Compression: one "--flag value" token exactly when the
      field is non-empty. */
  lemma BuildScalarTokens1(o: Options, text: Duration -> string)
    ensures var flags := BuildFlags(o, text);
      && Contributes(flags, CommitFlag, StringValue(o.commit))
      && Contributes(flags, CompressionFlag, StringValue(o.compression))
  {
    BuildFlagOnce(o, text, 1);
    BuildFlagOnce(o, text, 2);
  }

  /** Destination and File: one "--flag value" token exactly when the field
      is non-empty. */
  lemma BuildScalarTokens2(o: Options, text: Duration -> string)
    ensures var flags := BuildFlags(o, text);
      && Contributes(flags, DestFlag, StringValue(o.destination))
      && Contributes(flags, FileFlag, StringValue(o.file))
  {
    BuildFlagOnce(o, text, 7);
    BuildFlagOnce(o, text, 8);
  }

  /** RegistryConfig and Storage: one "--flag value" token exactly when the
      field is non-empty. */
  lemma BuildScalarTokens3(o: Options, text: Duration -> string)
    ensures var flags := BuildFlags(o, text);
      && Contributes(flags, RegistryConfigFlag, StringValue(o.registryConfig))
      && Contributes(flags, StorageFlag, StringValue(o.storage))
  {
    BuildFlagOnce(o, text, 19);
    BuildFlagOnce(o, text, 21);
  }

  /** Tag and Target: one "--flag value" token exactly when the field is
      non-empty. */
  lemma BuildScalarTokens4(o: Options, text: Duration -> string)
    ensures var flags := BuildFlags(o, text);
      && Contributes(flags, TagFlag, StringValue(o.tag))
      && Contributes(flags, TargetFlag, StringValue(o.target))
  {
    BuildFlagOnce(o, text, 22);
    BuildFlagOnce(o, text, 23);
  }

  /** Load, ModifyFS and PreserveRoot: the bare token "--load",
      "--modifyfs" or "--preserve-root" exactly when the switch is on. */
  lemma BuildSwitchTokens(o: Options, text: Duration -> string)
    ensures var flags := BuildFlags(o, text);
      && Contributes(flags, LoadFlag, SwitchValue(o.load))
      && Contributes(flags, ModifyFSFlag, SwitchValue(o.modifyFS))
      && Contributes(flags, PreserveRootFlag, SwitchValue(o.preserveRoot))
  {
    BuildFlagOnce(o, text, 11);
    BuildFlagOnce(o, text, 13);
    BuildFlagOnce(o, text, 14);
  }

  /** BuildArgs and DenyList (as --blacklist): one quoted token of the
      space-joined elements exactly when the list is non-empty. */
  lemma BuildListTokens1(o: Options, text: Duration -> string)
    ensures var flags := BuildFlags(o, text);
      && Contributes(flags, BuildArgFlag, ListValue(o.buildArgs))
      && Contributes(flags, BlacklistFlag, ListValue(o.denyList))
  {
    BuildFlagOnce(o, text, 0);
    BuildFlagOnce(o, text, 3);
  }

  /** Pushes and Replicas: one quoted token of the space-joined elements
      exactly when the list is non-empty. */
  lemma BuildListTokens2(o: Options, text: Duration -> string)
    ensures var flags := BuildFlags(o, text);
      && Contributes(flags, PushFlag, ListValue(o.pushes))
      && Contributes(flags, ReplicaFlag, ListValue(o.replicas))
  {
    BuildFlagOnce(o, text, 15);
    BuildFlagOnce(o, text, 20);
  }

  /** The http-cache headers: one quoted token of the space-joined elements
      exactly when the list is non-empty. */
  lemma BuildListTokens3(o: Options, text: Duration -> string)
    ensures var flags := BuildFlags(o, text);
      && Contributes(flags, HTTPCacheHeader, ListValue(o.httpCache.headers))
  {
    BuildFlagOnce(o, text, 10);
  }

  /** The local and redis cache time to live: one "--flag <duration>" token
      exactly when the duration is not zero (given Go's rendering of durations). */
  lemma BuildDurationTokens(o: Options, text: Duration -> string)
    ensures var flags := BuildFlags(o, text);
      && Contributes(flags, LocalCacheTTLFlag, DurationValue(o.localCacheTTL, text))
      && Contributes(flags, RedisCacheTTL, DurationValue(o.redisCache.ttl, text))
  {
    BuildFlagOnce(o, text, 12);
    BuildFlagOnce(o, text, 18);
  }

  /** The docker host, scheme and version: one token each exactly when
      non-empty. */
  lemma BuildDockerTokens(o: Options, text: Duration -> string)
    ensures var flags := BuildFlags(o, text);
      && Contributes(flags, DockerHost, StringValue(o.docker.host))
      && Contributes(flags, DockerScheme, StringValue(o.docker.scheme))
      && Contributes(flags, DockerVersion, StringValue(o.docker.version))
  {
    BuildFlagOnce(o, text, 4);
    BuildFlagOnce(o, text, 5);
    BuildFlagOnce(o, text, 6);
  }

  /** The http-cache address: one token exactly when non-empty. */
  lemma BuildHTTPCacheTokens(o: Options, text: Duration -> string)
    ensures Contributes(BuildFlags(o, text), HTTPCacheAddr, StringValue(o.httpCache.addr))
  {
    BuildFlagOnce(o, text, 9);
  }

  /** The redis-cache address and password: one token each exactly when
      non-empty. */
  lemma BuildRedisCacheTokens(o: Options, text: Duration -> string)
    ensures var flags := BuildFlags(o, text);
      && Contributes(flags, RedisCacheAddr, StringValue(o.redisCache.addr))
      && Contributes(flags, RedisCachePassword, StringValue(o.redisCache.password))
  {
    BuildFlagOnce(o, text, 16);
    BuildFlagOnce(o, text, 17);
  }
}
