/** The global makisu flags (cmd/vela-makisu/global.go). */
module Global {
  import opened Wrappers
  import opened Tokens

  const CPUProfileFlag := Flag("--cpu-profile", Bare)
  const LogFmtFlag := Flag("--log-fmt", Assigned)
  const LogLevelFlag := Flag("--log-level", Assigned)
  const LogOutputFlag := Flag("--log-output", Assigned)

  /** The global flags in the order `Global.Flags` tests them. */
  const GlobalSchema: seq<Flag> := [CPUProfileFlag, LogFmtFlag, LogLevelFlag, LogOutputFlag]

  /** The four global flags have proper, pairwise distinct names. */
  lemma GlobalSchemaWellFormed()
    ensures WellFormedSchema(GlobalSchema)
  {
    assert FlagName(CPUProfileFlag.name) && FlagName(LogFmtFlag.name);
    assert FlagName(LogLevelFlag.name) && FlagName(LogOutputFlag.name);
  }

  datatype CPU = CPU(profile: bool)

  datatype Log = Log(fmt: string, level: string, output: string)

  /** The decoded global settings; either part is a nil pointer (None) when
      the configuration leaves it out. */
  datatype Global = Global(cpu: Option<CPU>, log: Option<Log>)
  {
    /** Both parts are present, so `Flags` can read them. */
    predicate Present()
    {
      cpu.Some? && log.Some?
    }

    /** The values of the settings, in the order of `GlobalSchema`. */
    function Values(): (v: seq<Option<string>>)
      requires Present()
      ensures |v| == |GlobalSchema|
    {
      [SwitchValue(cpu.value.profile), StringValue(log.value.fmt), StringValue(log.value.level),
       StringValue(log.value.output)]
    }

    /** The tokens the global settings contribute, in table order. */
    function FlagTokens(): (flags: seq<string>)
      requires Present()
      ensures |flags| <= 4
    {
      RenderAllLength(Settings(GlobalSchema, Values()));
      RenderAll(Settings(GlobalSchema, Values()))
    }

    /** `Global.Flags`: four conditional appends. */
    method Flags() returns (flags: seq<string>)
      requires Present()
      ensures flags == FlagTokens()
    {
      ghost var v := Values();
      flags := AppendBare([], CPUProfileFlag, cpu.value.profile);
      assert flags == Emitted([], GlobalSchema, v, 1);
      flags := AppendAssigned(flags, LogFmtFlag, log.value.fmt);
      assert flags == Emitted([], GlobalSchema, v, 2);
      flags := AppendAssigned(flags, LogLevelFlag, log.value.level);
      assert flags == Emitted([], GlobalSchema, v, 3);
      flags := AppendAssigned(flags, LogOutputFlag, log.value.output);
      EmittedAll([], GlobalSchema, v);
      assert [] + RenderAll(Settings(GlobalSchema, v)) == RenderAll(Settings(GlobalSchema, v));
    }
  }

  /** Each log setting that is non-empty yields exactly one "--log-x=value"
      token and an empty one yields none; the cpu profile yields the bare
      "--cpu-profile" exactly when it is on. */
  lemma GlobalTokens(g: Global)
    requires g.Present()
    ensures var flags := g.FlagTokens();
      && Contributes(flags, CPUProfileFlag, SwitchValue(g.cpu.value.profile))
      && Contributes(flags, LogFmtFlag, StringValue(g.log.value.fmt))
      && Contributes(flags, LogLevelFlag, StringValue(g.log.value.level))
      && Contributes(flags, LogOutputFlag, StringValue(g.log.value.output))
  {
    GlobalSchemaWellFormed();
    var v := g.Values();
    ExactlyOneToken(GlobalSchema, v, 0);
    ExactlyOneToken(GlobalSchema, v, 1);
    ExactlyOneToken(GlobalSchema, v, 2);
    ExactlyOneToken(GlobalSchema, v, 3);
    if v[0].Some? { TokenPresent(GlobalSchema, v, 0); }
    if v[1].Some? { TokenPresent(GlobalSchema, v, 1); }
    if v[2].Some? { TokenPresent(GlobalSchema, v, 2); }
    if v[3].Some? { TokenPresent(GlobalSchema, v, 3); }
  }

  /** The exact token "--cpu-profile", with no value and no trailing space,
      is among the flags exactly when the cpu profile is on. */
  lemma GlobalProfile(g: Global)
    requires g.Present()
    ensures "--cpu-profile" in g.FlagTokens() <==> g.cpu.value.profile
  {
    var flags, v := g.FlagTokens(), g.Values();
    GlobalSchemaWellFormed();
    ExactlyOneToken(GlobalSchema, v, 0);
    assert CountHead(flags, CPUProfileFlag.name) == if g.cpu.value.profile then 1 else 0;
    if g.cpu.value.profile {
      TokenPresent(GlobalSchema, v, 0);
      assert Token(CPUProfileFlag, "") == "--cpu-profile";
    }
    if "--cpu-profile" in flags {
      CountHeadPositive(flags, "--cpu-profile");
      HeadOfName("--cpu-profile", "");
      assert "--cpu-profile" + "" == "--cpu-profile";
    }
  }

  /** Populated settings appear in the order "--cpu-profile", "--log-fmt=",
      "--log-level=", "--log-output=". */
  lemma GlobalInOrder(g: Global, i: nat, j: nat)
    requires g.Present() && i < j < |GlobalSchema| && g.Values()[i].Some? && g.Values()[j].Some?
    ensures var flags, v := g.FlagTokens(), g.Values();
      exists p, q :: 0 <= p < q < |flags|
        && flags[p] == Token(GlobalSchema[i], v[i].value) && flags[q] == Token(GlobalSchema[j], v[j].value)
  {
    var flags, v := g.FlagTokens(), g.Values();
    TokensInOrder(GlobalSchema, v, i, j);
    var p, q :| 0 <= p < q < |flags|
      && flags[p] == Token(GlobalSchema[i], v[i].value) && flags[q] == Token(GlobalSchema[j], v[j].value);
  }

  /** With the profile off and every log setting empty there are no global
      flags. */
  lemma GlobalNone(g: Global)
    requires g.Present()
    requires !g.cpu.value.profile && g.log.value == Log("", "", "")
    ensures g.FlagTokens() == []
  {
    NothingPopulated(GlobalSchema, g.Values());
  }

  /** Reading the global flags back against their table recovers every
      setting. */
  lemma GlobalRoundTrip(g: Global)
    requires g.Present()
    ensures ParseAll(GlobalSchema, g.FlagTokens()) == Some(g.Values())
  {
    GlobalSchemaWellFormed();
    RoundTrip(GlobalSchema, g.Values());
  }
}
