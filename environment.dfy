/** The two collaborators the plugin talks to: the process runner (`execCmd`)
    and the file writer (the afero filesystem behind `appFS`). Both are modelled
    by one value that records what it is asked to do and answers from a script
    fixed in advance; each step hands on the value it leaves behind. */
module Environment {
  import opened Wrappers

  /** One `security` object of makisu's registry file: the TLS client switch
      and the basic-auth credentials. */
  datatype Security = Security(tlsClientDisabled: bool, username: string, password: string)

  /** makisu's `registry.Map`: host pattern -> path pattern -> security settings. */
  type RegistryMap = map<string, map<string, Security>>

  /** What a file holds: the registry map that `json.Marshal` serializes, or
      literal text. */
  datatype Content = Serialized(registries: RegistryMap) | Text(text: string)

  /** One call of `afero.WriteFile(path, content, mode)`. */
  datatype FileWrite = FileWrite(path: string, content: Content, mode: nat)

  /** The permission bits 0644 (owner read/write, group and others read). */
  const Mode0644: nat := 420

  /** The machine the plugin runs on, as far as the plugin can tell. */
  datatype Host = Host(
    /** Every argument vector handed to the process runner, in order. */
    runs: seq<seq<string>>,
    /** Every file written, in order. */
    files: seq<FileWrite>,
    /** Indices (into `runs`) of the runs the process exits non-zero for. */
    failing: set<nat>,
    /** Whether every attempt to write a file fails. */
    writeFails: bool,
    /** Where the build leaves the image it built. */
    artifact: string)
  {
    /** The answer the runner gives to the run with index `n`. */
    function RunResult(n: nat): (r: Outcome)
      ensures r.Pass? <==> n !in failing
    {
      if n in failing then Fail(RunFailed(n)) else Pass
    }

    /** The answer the file writer gives for `path`. */
    function WriteResult(path: string): (r: Outcome)
      ensures r.Pass? <==> !writeFails
    {
      if writeFails then Fail(WriteFailed(path)) else Pass
    }

    /** Runs the external process with `argv` and reports its exit status;
        the run is recorded whatever the status. */
    method Run(argv: seq<string>) returns (err: Outcome, after: Host)
      ensures err == RunResult(|runs|) && after == this.(runs := runs + [argv])
    {
      err := RunResult(|runs|);
      after := this.(runs := runs + [argv]);
    }

    /** Writes `content` to `path` with permission bits `mode`; a failed
        write leaves no file. */
    method WriteFile(path: string, content: Content, mode: nat) returns (err: Outcome, after: Host)
      ensures err == WriteResult(path)
      ensures after == this.(files := files + if err.Pass? then [FileWrite(path, content, mode)] else [])
    {
      err := WriteResult(path);
      after := this;
      if err.Pass? {
        after := after.(files := files + [FileWrite(path, content, mode)]);
      }
    }
  }
}
