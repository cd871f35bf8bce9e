/** The older configuration record of the plugin (cmd/vela-makisu/config.go):
    a docker `auths` credential file, its validator, and its revision of the
    global flags. */
module Config {
  import opened Wrappers
  import opened Tokens
  import opened Environment
  import opened Base64
  import G = Global

  /** Where the docker credential file is written (`configPath` of this
      revision). */
  const DockerConfigPath := "/makisu/.docker/config.json"

  // ---------------------------------------------------------------------------
  // The auths file

  /** The text of `registryFile` before, between and after its two `%s`. */
  const AuthsHead := "{\n  \"auths\": {\n    \""
  const AuthsMiddle := "\": {\n      \"auth\": \""
  const AuthsTail := "\"\n    }\n  }\n}"

  /** `fmt.Sprintf(registryFile, url, auth)`. */
  function AuthsFile(url: string, auth: string): string
  {
    AuthsHead + url + AuthsMiddle + auth + AuthsTail
  }

  /** The longest prefix of `s` without a double quote. */
  function UpToQuote(s: string): (r: string)
    ensures |r| <= |s| && r == s[..|r|] && '"' !in r
    ensures |r| < |s| ==> s[|r|] == '"'
  {
    if s == [] || s[0] == '"' then [] else [s[0]] + UpToQuote(s[1..])
  }

  lemma {:induction false} UpToQuoteAppend(a: string, b: string)
    requires '"' !in a && |b| > 0 && b[0] == '"'
    ensures UpToQuote(a + b) == a && (a + b)[|a|..] == b
    decreases |a|
  {
    if a != [] {
      assert (a + b)[1..] == a[1..] + b;
      UpToQuoteAppend(a[1..], b);
    } else {
      assert a + b == b;
    }
  }

  /** What follows the prefix `p` of `s`, if `s` starts with `p`. */
  function AfterPrefix(p: string, s: string): (r: Option<string>)
    ensures r.Some? ==> s == p + r.value
  {
    if |p| <= |s| && s[..|p|] == p then Some(s[|p|..]) else None
  }

  lemma AfterPrefixAppend(p: string, s: string)
    ensures AfterPrefix(p, p + s) == Some(s)
  {
    assert (p + s)[..|p|] == p && (p + s)[|p|..] == s;
  }

  /** Reads the registry address and the auth value back out of an auths
      file: the partner of `AuthsFile` for values without a double quote. */
  function ReadAuths(text: string): Option<(string, string)>
  {
    match AfterPrefix(AuthsHead, text)
    case None => None
    case Some(rest) =>
      var url := UpToQuote(rest);
      match AfterPrefix(AuthsMiddle, rest[|url|..])
      case None => None
      case Some(tail) =>
        var auth := UpToQuote(tail);
        if tail[|auth|..] == AuthsTail then Some((url, auth)) else None
  }

  /** An auths file names its one registry and its auth value, whenever
      neither contains a double quote. */
  lemma AuthsFileRead(url: string, auth: string)
    requires '"' !in url && '"' !in auth
    ensures ReadAuths(AuthsFile(url, auth)) == Some((url, auth))
  {
    var tail := auth + AuthsTail;
    var afterUrl := AuthsMiddle + tail;
    var rest := url + afterUrl;
    assert AuthsFile(url, auth) == AuthsHead + rest;
    AfterPrefixAppend(AuthsHead, rest);
    UpToQuoteAppend(url, afterUrl);
    AfterPrefixAppend(AuthsMiddle, tail);
    UpToQuoteAppend(auth, AuthsTail);
  }

  /** No base64 letter, and not the pad, is a double quote. */
  lemma {:induction false} EncodeNoQuote(bs: seq<byte>)
    ensures '"' !in Encode(bs)
    decreases |bs|
  {
    if |bs| > 3 {
      EncodeNoQuote(bs[3..]);
    }
  }

  // ---------------------------------------------------------------------------
  // This revision's global flags

  /** The cpu-profile token of this revision carries a trailing space. */
  const LegacyCPUProfileFlag := Flag("--cpu-profile ", Bare)

  const LegacyGlobalSchema: seq<Flag> := [LegacyCPUProfileFlag, G.LogFmtFlag, G.LogLevelFlag, G.LogOutputFlag]

  datatype CPU = CPU(profile: bool)

  datatype Log = Log(fmt: string, level: string, output: string)

  datatype Global = Global(cpu: Option<CPU>, log: Option<Log>)
  {
    predicate Present()
    {
      cpu.Some? && log.Some?
    }

    function Values(): (v: seq<Option<string>>)
      requires Present()
      ensures |v| == |LegacyGlobalSchema|
    {
      [SwitchValue(cpu.value.profile), StringValue(log.value.fmt), StringValue(log.value.level),
       StringValue(log.value.output)]
    }

    /** The same settings in the record of global.go. */
    function Current(): (g: G.Global)
      requires Present()
      ensures g.Present()
    {
      G.Global(Some(G.CPU(cpu.value.profile)), Some(G.Log(log.value.fmt, log.value.level, log.value.output)))
    }

    function FlagTokens(): seq<string>
      requires Present()
    {
      RenderAll(Settings(LegacyGlobalSchema, Values()))
    }

    /** `Global.Flags` of this revision: four conditional appends. */
    method Flags() returns (flags: seq<string>)
      requires Present()
      ensures flags == FlagTokens()
    {
      ghost var v := Values();
      flags := AppendBare([], LegacyCPUProfileFlag, cpu.value.profile);
      assert flags == Emitted([], LegacyGlobalSchema, v, 1);
      flags := AppendAssigned(flags, G.LogFmtFlag, log.value.fmt);
      assert flags == Emitted([], LegacyGlobalSchema, v, 2);
      flags := AppendAssigned(flags, G.LogLevelFlag, log.value.level);
      assert flags == Emitted([], LegacyGlobalSchema, v, 3);
      flags := AppendAssigned(flags, G.LogOutputFlag, log.value.output);
      EmittedAll([], LegacyGlobalSchema, v);
      assert [] + RenderAll(Settings(LegacyGlobalSchema, v)) == RenderAll(Settings(LegacyGlobalSchema, v));
    }
  }

  /** This revision differs from global.go in one place: with the profile on,
      its first token is "--cpu-profile " (trailing space) where global.go
      emits "--cpu-profile"; the log tokens are the same. */
  lemma LegacyGlobalFlags(g: Global)
    requires g.Present()
    ensures var current := g.Current().FlagTokens();
      g.FlagTokens() == if g.cpu.value.profile then ["--cpu-profile "] + current[1..] else current
  {
    var v, cv := g.Values(), g.Current().Values();
    RenderFirst(LegacyGlobalSchema, v);
    RenderFirst(G.GlobalSchema, cv);
    assert LegacyGlobalSchema[1..] == G.GlobalSchema[1..];
    assert v[1..] == cv[1..];
  }

  /** So this revision never emits the exact token "--cpu-profile", not even
      with the profile on, where global.go does (`Global.GlobalProfile`). */
  lemma LegacyProfileMissing(g: Global)
    requires g.Present()
    ensures "--cpu-profile" !in g.FlagTokens()
  {
    var v := g.Values();
    var logs := LegacyGlobalSchema[1..];
    RenderFirst(LegacyGlobalSchema, v);
    var first := Render(Setting(LegacyCPUProfileFlag, v[0]));
    var rest := RenderAll(Settings(logs, v[1..]));
    assert "--cpu-profile" !in first by {
      assert first == [] || first == ["--cpu-profile "];
      assert |"--cpu-profile "| != |"--cpu-profile"|;
    }
    assert "--cpu-profile" !in rest by {
      assert logs == G.GlobalSchema[1..];
      G.GlobalSchemaWellFormed();
      assert forall i :: 0 <= i < |logs| ==> FlagName(logs[i].name) && logs[i].name != "--cpu-profile" by {
        forall i | 0 <= i < |logs| ensures FlagName(logs[i].name) && logs[i].name != "--cpu-profile" {
          assert logs[i] == G.GlobalSchema[i + 1];
        }
      }
      CountAbsent(logs, v[1..], "--cpu-profile");
      HeadOfName("--cpu-profile", "");
      assert "--cpu-profile" + "" == "--cpu-profile";
      CountHeadZero(rest, "--cpu-profile");
    }
  }

  // ---------------------------------------------------------------------------
  // The configuration record

  class Config {
    var dryRun: bool
    var global: Option<Global>
    var globalRaw: string
    var password: string
    var url: string
    var username: string

    constructor (dryRun: bool, globalRaw: string, password: string, url: string, username: string)
      ensures this.dryRun == dryRun && this.globalRaw == globalRaw && global == None
      ensures this.password == password && this.url == url && this.username == username
    {
      this.dryRun, this.globalRaw, global := dryRun, globalRaw, None;
      this.password, this.url, this.username := password, url, username;
    }

    /** `base64.StdEncoding.EncodeToString([]byte(username + ":" + password))`. */
    function Auth(): string
      reads this
    {
      Encode(Utf8(username + ":" + password))
    }

    /** The text `Write` writes. */
    function File(): string
      reads this
    {
      AuthsFile(url, Auth())
    }

    /** `Config.Write`: writes the auths file, once, with mode 0644. */
    method Write(host: Host) returns (err: Outcome, after: Host)
      ensures err == host.WriteResult(DockerConfigPath)
      ensures after == host.(files := host.files
        + if err.Pass? then [FileWrite(DockerConfigPath, Text(File()), Mode0644)] else [])
    {
      var basicAuth := Encode(Utf8(username + ":" + password));
      var out := AuthsFile(url, basicAuth);
      err, after := host.WriteFile(DockerConfigPath, Text(out), Mode0644);
    }

    /** `Config.Unmarshal`: an empty global record, into which the raw
        settings are decoded when there are any (`decoded` is what
        `json.Unmarshal` makes of them; None stands for the JSON literal null;
        a type mismatch leaves the fields that fit stored). */
    method Unmarshal(decoded: Decoded<Option<Global>>) returns (err: Outcome)
      modifies this`global
      ensures |globalRaw| == 0 ==> global == Some(Global(None, None)) && err == Pass
      ensures |globalRaw| > 0 && decoded.Decoded? ==> global == decoded.value && err == Pass
      ensures |globalRaw| > 0 && decoded.Mismatched? ==>
        global == decoded.value && err == Fail(Malformed(decoded.reason))
      ensures |globalRaw| > 0 && decoded.Rejected? ==>
        global == Some(Global(None, None)) && err == Fail(Malformed(decoded.reason))
    {
      global := Some(Global(None, None));
      if |globalRaw| > 0 {
        global := decoded.Into(global);
        if !decoded.Decoded? {
          return Fail(Malformed(decoded.reason));
        }
      }
      return Pass;
    }

    /** `Config.Validate`: password, then url, then username. */
    function Validate(): (r: Outcome)
      reads this
      ensures r.Pass? <==> |password| > 0 && |url| > 0 && |username| > 0
      ensures |password| == 0 ==> r == Fail(Invalid("no config password provided"))
      ensures |password| > 0 && |url| == 0 ==> r == Fail(Invalid("no config url provided"))
      ensures |password| > 0 && |url| > 0 && |username| == 0 ==> r == Fail(Invalid("no config username provided"))
    {
      if |password| == 0 then Fail(Invalid("no config password provided"))
      else if |url| == 0 then Fail(Invalid("no config url provided"))
      else if |username| == 0 then Fail(Invalid("no config username provided"))
      else Pass
    }
  }

  /** The auth value decodes to the UTF-8 bytes of the username, a colon and
      the password. */
  lemma ConfigAuth(c: Config)
    ensures Decode(c.Auth()) == Some(Utf8(c.username) + [58] + Utf8(c.password))
  {
    var u, p := c.username, c.password;
    var bs := Utf8(u + ":" + p);
    assert Utf8(":") == [58] by {
      assert ":"[1..] == [];
    }
    calc {
      bs;
      { Utf8Append(u + ":", p); }
      Utf8(u + ":") + Utf8(p);
      { Utf8Append(u, ":"); }
      Utf8(u) + [58] + Utf8(p);
    }
    EncodeRoundTrip(bs);
  }

  /** The file names the configured url as its one registry and carries the
      auth value, when the url has no double quote. */
  lemma ConfigFile(c: Config)
    requires '"' !in c.url
    ensures ReadAuths(c.File()) == Some((c.url, c.Auth()))
  {
    EncodeNoQuote(Utf8(c.username + ":" + c.password));
    AuthsFileRead(c.url, c.Auth());
  }
}
