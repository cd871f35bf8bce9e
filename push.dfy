/** The `makisu push` command line and the push step around it
    (cmd/vela-makisu/push.go). */
module Push {
  import opened Wrappers
  import opened Tokens
  import opened Environment

  const PushAction := "push"

  const PushesFlag := Flag("--push", Quoted)
  const RegistryConfigFlag := Flag("--registry-config", Valued)
  const ReplicasFlag := Flag("--replica", Quoted)
  const TagFlag := Flag("--tag", Valued)

  /** The push flags in the order `Push.Command` tests them. */
  const PushSchema: seq<Flag> := [PushesFlag, RegistryConfigFlag, ReplicasFlag, TagFlag]

  /** The four push flags have proper, pairwise distinct names. */
  lemma PushSchemaWellFormed()
    ensures WellFormedSchema(PushSchema)
  {
    assert FlagName(PushesFlag.name) && FlagName(RegistryConfigFlag.name);
    assert FlagName(ReplicasFlag.name) && FlagName(TagFlag.name);
  }

  /** The plugin's push settings. */
  class Push {
    var contextPath: string
    var pushes: seq<string>
    var registryConfig: string
    var replicas: seq<string>
    var tag: string
    /** Set by the plugin to where the build left the image; the push command
        does not read it. */
    var path: string
    /** Set by the plugin before the build runs; the push command does not
        read it. */
    var globalFlags: seq<string>

    /** A push with every field at Go's zero value. */
    constructor ()
      ensures contextPath == "" && pushes == [] && registryConfig == "" && replicas == []
      ensures tag == "" && path == "" && globalFlags == []
    {
      contextPath, pushes, registryConfig, replicas := "", [], "", [];
      tag, path, globalFlags := "", "", [];
    }

    /** The values of the push's fields, in the order of `PushSchema`. */
    function Values(): (v: seq<Option<string>>)
      reads this`pushes, this`registryConfig, this`replicas, this`tag
      ensures |v| == |PushSchema|
    {
      [ListValue(pushes), StringValue(registryConfig), ListValue(replicas), StringValue(tag)]
    }

    /** The argument vector of the push command: "push", the populated
        flags in table order, and the context path last, even when empty. */
    function Argv(): (argv: seq<string>)
      reads this`contextPath, this`pushes, this`registryConfig, this`replicas, this`tag
      ensures 2 <= |argv| <= 6
      ensures argv[0] == PushAction && argv[|argv| - 1] == contextPath
      ensures argv[1..|argv| - 1] == RenderAll(Settings(PushSchema, Values()))
    {
      CommandLine(PushAction, PushSchema, Values(), contextPath)
    }

    /** `Push.Command`: four conditional appends, then the context path. */
    method Command() returns (argv: seq<string>)
      ensures argv == Argv()
    {
      ghost var v := Values();
      var flags := AppendQuoted([], PushesFlag, pushes);
      assert flags == Emitted([], PushSchema, v, 1);
      flags := AppendValued(flags, RegistryConfigFlag, registryConfig);
      assert flags == Emitted([], PushSchema, v, 2);
      flags := AppendQuoted(flags, ReplicasFlag, replicas);
      assert flags == Emitted([], PushSchema, v, 3);
      flags := AppendValued(flags, TagFlag, tag);
      EmittedAll([], PushSchema, v);
      assert [] + RenderAll(Settings(PushSchema, v)) == RenderAll(Settings(PushSchema, v));
      flags := flags + [contextPath];
      argv := [PushAction] + flags;
    }

    /** `Push.Exec`: runs the push command. */
    method Exec(host: Host) returns (err: Outcome, after: Host)
      ensures err == host.RunResult(|host.runs|)
      ensures after == host.(runs := host.runs + [Argv()])
    {
      var argv := Command();
      err, after := host.Run(argv);
    }

    /** `Push.Validate`: a context path and then a tag are required. */
    function Validate(): (r: Outcome)
      reads this`contextPath, this`tag
      ensures r.Pass? <==> |contextPath| > 0 && |tag| > 0
      ensures |contextPath| == 0 ==> r == Fail(Invalid("no push context provided"))
      ensures |contextPath| > 0 && |tag| == 0 ==> r == Fail(Invalid("no push tag provided"))
    {
      if |contextPath| == 0 then Fail(Invalid("no push context provided"))
      else if |tag| == 0 then Fail(Invalid("no push tag provided"))
      else Pass
    }
  }

  /** Reading the push command line back against the push table recovers
      every field's value and the context path. */
  lemma PushRoundTrip(p: Push)
    ensures ParseCommand(PushAction, PushSchema, p.Argv()) == Some(Parsed(p.Values(), p.contextPath))
  {
    PushSchemaWellFormed();
    CommandRoundTrip(PushAction, PushSchema, p.Values(), p.contextPath);
  }

  /** Each push flag names exactly one token between "push" and the context
      path when its field is non-empty (a list joined by single spaces in
      one quoted token, a string after one space), and none otherwise. */
  lemma PushTokens(p: Push)
    ensures var argv := p.Argv(); var flags := argv[1..|argv| - 1];
      && Contributes(flags, PushesFlag, ListValue(p.pushes))
      && Contributes(flags, RegistryConfigFlag, StringValue(p.registryConfig))
      && Contributes(flags, ReplicasFlag, ListValue(p.replicas))
      && Contributes(flags, TagFlag, StringValue(p.tag))
  {
    PushSchemaWellFormed();
    CommandFlag(PushAction, PushSchema, p.Values(), p.contextPath, 0);
    CommandFlag(PushAction, PushSchema, p.Values(), p.contextPath, 1);
    CommandFlag(PushAction, PushSchema, p.Values(), p.contextPath, 2);
    CommandFlag(PushAction, PushSchema, p.Values(), p.contextPath, 3);
  }

  /** Populated fields appear in the order "--push", "--registry-config",
      "--replica", "--tag", all between "push" and the context path. */
  lemma PushInOrder(p: Push, i: nat, j: nat)
    requires i < j < |PushSchema| && p.Values()[i].Some? && p.Values()[j].Some?
    ensures var argv, v := p.Argv(), p.Values();
      exists m, n :: 1 <= m < n < |argv| - 1
        && argv[m] == Token(PushSchema[i], v[i].value) && argv[n] == Token(PushSchema[j], v[j].value)
  {
    var argv, v := p.Argv(), p.Values();
    CommandInOrder(PushAction, PushSchema, v, p.contextPath, i, j);
    var m, n :| 1 <= m < n < |argv| - 1
      && argv[m] == Token(PushSchema[i], v[i].value) && argv[n] == Token(PushSchema[j], v[j].value);
  }

  /** A push with no flags set runs `push <context path>`; the zero push runs
      `push ""`. */
  lemma PushEmpty(p: Push)
    requires p.pushes == [] && p.registryConfig == "" && p.replicas == [] && p.tag == ""
    ensures p.Argv() == [PushAction, p.contextPath]
  {
    NothingPopulated(PushSchema, p.Values());
  }
}
