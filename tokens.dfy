/** How the plugin writes configuration fields into makisu's argument vector,
    and a parser that reads them back.

    Every command builder in the plugin is a fixed table of flags: each field
    of a record has a flag name and a shape, and contributes one token when it
    is populated and nothing otherwise. A token carries the flag and its value
    together ("--tag latest"), never as two separate arguments. */
module Tokens {
  import opened Wrappers

  /** The four ways the source writes a populated field. */
  datatype Shape =
    | Valued    // "--flag value": the flag, one space, the value
    | Quoted    // "--flag \"v1 v2\"": a list joined by single spaces, in double quotes
    | Assigned  // "--flag=value"
    | Bare      // "--flag" alone, for a boolean that is true

  datatype Flag = Flag(name: string, shape: Shape)

  /** A flag together with the value its field contributes (None: no token). */
  datatype Setting = Setting(flag: Flag, value: Option<string>)

  // ---------------------------------------------------------------------------
  // Field values

  /** A string field is populated when it is non-empty (`len(s) > 0`). */
  function StringValue(s: string): (v: Option<string>)
    ensures v.Some? <==> |s| > 0
    ensures v.Some? ==> v.value == s
  {
    if |s| > 0 then Some(s) else None
  }

  /** A list field is populated when it has an element; its value is then the
      elements joined by single spaces. */
  function ListValue(xs: seq<string>): (v: Option<string>)
    ensures v.Some? <==> |xs| > 0
    ensures v.Some? ==> v.value == Join(xs, " ")
  {
    if |xs| > 0 then Some(Join(xs, " ")) else None
  }

  /** A boolean field is populated when it is true; a bare flag has no value. */
  function SwitchValue(b: bool): (v: Option<string>)
    ensures v.Some? <==> b
    ensures v.Some? ==> v.value == ""
  {
    if b then Some("") else None
  }

  // ---------------------------------------------------------------------------
  // Joining list fields

  /** The elements of `xs` separated by `sep`, as `strings.Join` computes it. */
  function Join(xs: seq<string>, sep: string): string
  {
    if |xs| == 0 then "" else if |xs| == 1 then xs[0] else xs[0] + sep + Join(xs[1..], sep)
  }

  /** What the source's loop `args += fmt.Sprintf(" %s", arg)` accumulates:
      every element preceded by one space. */
  function Spaced(xs: seq<string>): string
  {
    if xs == [] then "" else Spaced(xs[..|xs| - 1]) + " " + xs[|xs| - 1]
  }

  /** `strings.TrimPrefix`: drops one leading `prefix` if there is one. */
  function TrimPrefix(s: string, prefix: string): (r: string)
    ensures |prefix| <= |s| && s[..|prefix|] == prefix ==> s == prefix + r
    ensures !(|prefix| <= |s| && s[..|prefix|] == prefix) ==> r == s
  {
    if |prefix| <= |s| && s[..|prefix|] == prefix then s[|prefix|..] else s
  }

  lemma {:induction false} JoinSnoc(xs: seq<string>, x: string, sep: string)
    requires |xs| > 0
    ensures Join(xs + [x], sep) == Join(xs, sep) + sep + x
    decreases |xs|
  {
    if |xs| > 1 {
      assert (xs + [x])[1..] == xs[1..] + [x];
      JoinSnoc(xs[1..], x, sep);
    }
  }

  /** The accumulated string is the joined list behind one extra space. */
  lemma {:induction false} SpacedIsJoin(xs: seq<string>)
    requires |xs| > 0
    ensures Spaced(xs) == " " + Join(xs, " ")
    decreases |xs|
  {
    var init, last := xs[..|xs| - 1], xs[|xs| - 1];
    if |xs| == 1 {
      assert init == [];
    } else {
      SpacedIsJoin(init);
      JoinSnoc(init, last, " ");
      assert init + [last] == xs;
    }
  }

  /** The loop the source writes out for every list field (build.go:244-251):
      accumulate " " + element, then trim the first space. */
  method JoinArgs(xs: seq<string>) returns (joined: string)
    requires |xs| > 0
    ensures joined == Join(xs, " ")
  {
    var args := "";
    for i := 0 to |xs|
      invariant args == Spaced(xs[..i])
    {
      assert xs[..i + 1][..i] == xs[..i];
      args := args + " " + xs[i];
    }
    assert xs[..|xs|] == xs;
    SpacedIsJoin(xs);
    joined := TrimPrefix(args, " ");
  }

  // ---------------------------------------------------------------------------
  // Rendering

  /** The token a populated field contributes. */
  function Token(f: Flag, v: string): string
  {
    match f.shape
    case Valued => f.name + " " + v
    case Quoted => f.name + " \"" + v + "\""
    case Assigned => f.name + "=" + v
    case Bare => f.name
  }

  function Render(s: Setting): (r: seq<string>)
    ensures |r| == if s.value.Some? then 1 else 0
  {
    match s.value
    case None => []
    case Some(v) => [Token(s.flag, v)]
  }

  // ---------------------------------------------------------------------------
  // The builders' conditional appends

  /** `if len(value) > 0 { flags = append(flags, "--flag value") }` */
  method AppendValued(flags: seq<string>, f: Flag, value: string) returns (r: seq<string>)
    requires f.shape == Valued
    ensures r == flags + Render(Setting(f, StringValue(value)))
  {
    r := flags;
    if |value| > 0 {
      r := r + [f.name + " " + value];
    }
  }

  /** `if len(xs) > 0 { … flags = append(flags, "--flag \"" + args + "\"") }`,
      with the joining loop of `JoinArgs`. */
  method AppendQuoted(flags: seq<string>, f: Flag, xs: seq<string>) returns (r: seq<string>)
    requires f.shape == Quoted
    ensures r == flags + Render(Setting(f, ListValue(xs)))
  {
    r := flags;
    if |xs| > 0 {
      var args := JoinArgs(xs);
      r := r + [f.name + " \"" + args + "\""];
    }
  }

  /** `if len(value) > 0 { flags = append(flags, "--flag=value") }` */
  method AppendAssigned(flags: seq<string>, f: Flag, value: string) returns (r: seq<string>)
    requires f.shape == Assigned
    ensures r == flags + Render(Setting(f, StringValue(value)))
  {
    r := flags;
    if |value| > 0 {
      r := r + [f.name + "=" + value];
    }
  }

  /** `if b { flags = append(flags, "--flag") }` */
  method AppendBare(flags: seq<string>, f: Flag, b: bool) returns (r: seq<string>)
    requires f.shape == Bare
    ensures r == flags + Render(Setting(f, SwitchValue(b)))
  {
    r := flags;
    if b {
      r := r + [f.name];
    }
  }

  /** The tokens of a table of settings, in table order. */
  function RenderAll(ss: seq<Setting>): seq<string>
  {
    if ss == [] then [] else Render(ss[0]) + RenderAll(ss[1..])
  }

  /** The number of settings that contribute a token. */
  function Populated(ss: seq<Setting>): nat
  {
    if ss == [] then 0 else (if ss[0].value.Some? then 1 else 0) + Populated(ss[1..])
  }

  /** One token per populated setting, so never more tokens than settings. */
  lemma {:induction false} RenderAllLength(ss: seq<Setting>)
    ensures |RenderAll(ss)| == Populated(ss) <= |ss|
    decreases |ss|
  {
    if ss != [] {
      RenderAllLength(ss[1..]);
    }
  }

  /** Pairs a table of flags with the values of a record's fields. */
  function Settings(schema: seq<Flag>, values: seq<Option<string>>): (ss: seq<Setting>)
    requires |schema| == |values|
    ensures |ss| == |schema|
    decreases |schema|
  {
    if schema == [] then [] else [Setting(schema[0], values[0])] + Settings(schema[1..], values[1..])
  }

  lemma {:induction false} SettingsAt(schema: seq<Flag>, values: seq<Option<string>>, i: nat)
    requires |schema| == |values| && i < |schema|
    ensures Settings(schema, values)[i] == Setting(schema[i], values[i])
    decreases i
  {
    if i > 0 {
      SettingsAt(schema[1..], values[1..], i - 1);
    }
  }

  /** A table none of whose fields is populated contributes no token. */
  lemma {:induction false} NothingPopulated(schema: seq<Flag>, values: seq<Option<string>>)
    requires |schema| == |values|
    requires forall i :: 0 <= i < |values| ==> values[i].None?
    ensures RenderAll(Settings(schema, values)) == []
    decreases |schema|
  {
    if schema != [] {
      assert forall i :: 0 <= i < |values| - 1 ==> values[1..][i] == values[i + 1];
      NothingPopulated(schema[1..], values[1..]);
      RenderFirst(schema, values);
    }
  }

  /** The settings of two tables side by side are the two tables' settings. */
  lemma {:induction false} SettingsAppend(s1: seq<Flag>, v1: seq<Option<string>>, s2: seq<Flag>, v2: seq<Option<string>>)
    requires |s1| == |v1| && |s2| == |v2|
    ensures Settings(s1 + s2, v1 + v2) == Settings(s1, v1) + Settings(s2, v2)
    decreases |s1|
  {
    if s1 == [] {
      assert s1 + s2 == s2 && v1 + v2 == v2;
    } else {
      assert (s1 + s2)[1..] == s1[1..] + s2 && (v1 + v2)[1..] == v1[1..] + v2;
      SettingsAppend(s1[1..], v1[1..], s2, v2);
    }
  }

  lemma {:induction false} RenderAllAppend(a: seq<Setting>, b: seq<Setting>)
    ensures RenderAll(a + b) == RenderAll(a) + RenderAll(b)
    decreases |a|
  {
    if a == [] {
      assert a + b == b;
    } else {
      assert (a + b)[0] == a[0];
      assert (a + b)[1..] == a[1..] + b;
      RenderAllAppend(a[1..], b);
    }
  }

  lemma {:induction false} RenderAllCons(s: Setting, rest: seq<Setting>)
    ensures RenderAll([s] + rest) == Render(s) + RenderAll(rest)
  {
    assert ([s] + rest)[1..] == rest;
  }

  /** The tokens of two tables side by side: the first table's, then the
      second's. */
  lemma {:induction false} TableAppend(s1: seq<Flag>, v1: seq<Option<string>>, s2: seq<Flag>, v2: seq<Option<string>>)
    requires |s1| == |v1| && |s2| == |v2|
    ensures RenderAll(Settings(s1 + s2, v1 + v2)) == RenderAll(Settings(s1, v1)) + RenderAll(Settings(s2, v2))
  {
    SettingsAppend(s1, v1, s2, v2);
    RenderAllAppend(Settings(s1, v1), Settings(s2, v2));
  }

  /** What a builder holds after appending the tokens of the first `k`
      fields of a table to the tokens `p` it started with. */
  function Emitted(p: seq<string>, schema: seq<Flag>, values: seq<Option<string>>, k: nat): seq<string>
    requires |schema| == |values| && k <= |schema|
  {
    if k == 0 then p else Emitted(p, schema, values, k - 1) + Render(Setting(schema[k - 1], values[k - 1]))
  }

  lemma {:induction false} EmittedPrefix(p: seq<string>, schema: seq<Flag>, values: seq<Option<string>>, k: nat)
    requires |schema| == |values| && k <= |schema|
    ensures Emitted(p, schema, values, k) == p + RenderAll(Settings(schema, values)[..k])
    decreases k
  {
    var ss := Settings(schema, values);
    if k == 0 {
      assert ss[..0] == [];
      assert p + [] == p;
    } else {
      EmittedPrefix(p, schema, values, k - 1);
      assert ss[..k] == ss[..k - 1] + [ss[k - 1]];
      RenderAllAppend(ss[..k - 1], [ss[k - 1]]);
      SettingsAt(schema, values, k - 1);
      assert RenderAll([ss[k - 1]]) == Render(ss[k - 1]) + RenderAll([]);
      var front, last := RenderAll(ss[..k - 1]), Render(ss[k - 1]);
      assert p + front + last == p + (front + last);
    }
  }

  /** After the last field a builder holds the tokens it started with and
      then the tokens of the whole table. */
  lemma {:induction false} EmittedAll(p: seq<string>, schema: seq<Flag>, values: seq<Option<string>>)
    requires |schema| == |values|
    ensures Emitted(p, schema, values, |schema|) == p + RenderAll(Settings(schema, values))
  {
    EmittedPrefix(p, schema, values, |schema|);
    assert Settings(schema, values)[..|schema|] == Settings(schema, values);
  }

  /** Every populated field's token is among the table's tokens. */
  lemma {:induction false} TokenPresent(schema: seq<Flag>, values: seq<Option<string>>, k: nat)
    requires |schema| == |values| && k < |schema| && values[k].Some?
    ensures Token(schema[k], values[k].value) in RenderAll(Settings(schema, values))
    decreases k
  {
    RenderFirst(schema, values);
    if k > 0 {
      TokenPresent(schema[1..], values[1..], k - 1);
    }
  }

  /** Tokens come out in table order: of two populated fields, the earlier
      one's token comes first. */
  lemma {:induction false} TokensInOrder(schema: seq<Flag>, values: seq<Option<string>>, i: nat, j: nat)
    requires |schema| == |values| && i < j < |schema| && values[i].Some? && values[j].Some?
    ensures var tokens := RenderAll(Settings(schema, values));
      exists p, q :: 0 <= p < q < |tokens|
        && tokens[p] == Token(schema[i], values[i].value) && tokens[q] == Token(schema[j], values[j].value)
    decreases i
  {
    var tokens := RenderAll(Settings(schema, values));
    var first, rest := Render(Setting(schema[0], values[0])), RenderAll(Settings(schema[1..], values[1..]));
    RenderFirst(schema, values);
    assert tokens == first + rest;
    assert schema[1..][j - 1] == schema[j] && values[1..][j - 1] == values[j];
    if i == 0 {
      TokenPresent(schema[1..], values[1..], j - 1);
      var q :| 0 <= q < |rest| && rest[q] == Token(schema[j], values[j].value);
      assert tokens[0] == first[0] && tokens[q + 1] == rest[q];
    } else {
      assert schema[1..][i - 1] == schema[i] && values[1..][i - 1] == values[i];
      TokensInOrder(schema[1..], values[1..], i - 1, j - 1);
      var p, q :| 0 <= p < q < |rest|
        && rest[p] == Token(schema[i], values[i].value) && rest[q] == Token(schema[j], values[j].value);
      assert tokens[|first| + p] == rest[p] && tokens[|first| + q] == rest[q];
    }
  }

  // ---------------------------------------------------------------------------
  // Reading tokens back

  /** A flag name: no space and no '=' in it, so it ends where its token's
      value begins. */
  predicate FlagName(n: string)
  {
    forall k :: 0 <= k < |n| ==> n[k] != ' ' && n[k] != '='
  }

  /** A table whose flags can be told apart by name. */
  predicate WellFormedSchema(schema: seq<Flag>)
  {
    && (forall i :: 0 <= i < |schema| ==> FlagName(schema[i].name))
    && (forall i, j :: 0 <= i < j < |schema| ==> schema[i].name != schema[j].name)
  }

  /** No flag after the `i`-th has the `i`-th flag's name. */
  predicate NameUnique(schema: seq<Flag>, i: nat)
    requires i < |schema|
  {
    forall j :: i < j < |schema| ==> schema[j].name != schema[i].name
  }

  /** A table is well formed when each flag, in turn, has a proper name that
      no later flag repeats. */
  lemma {:induction false} WellFormedByRows(schema: seq<Flag>)
    requires forall i :: 0 <= i < |schema| ==> FlagName(schema[i].name) && NameUnique(schema, i)
    ensures WellFormedSchema(schema)
  {
    forall i, j | 0 <= i < j < |schema|
      ensures schema[i].name != schema[j].name
    {
      assert NameUnique(schema, i);
    }
  }

  /** A table is well formed from flag `i` on when flag `i` has a proper
      name that no later flag repeats and the table is well formed after it. */
  lemma {:induction false} WellFormedStep(schema: seq<Flag>, i: nat)
    requires i < |schema| && WellFormedSchema(schema[i + 1..])
    requires FlagName(schema[i].name) && NameUnique(schema, i)
    ensures WellFormedSchema(schema[i..])
  {
    var s := schema[i..];
    forall a | 0 <= a < |s|
      ensures FlagName(s[a].name)
    {
      if a > 0 {
        assert s[a] == schema[i + 1..][a - 1];
      }
    }
    forall a, b | 0 <= a < b < |s|
      ensures s[a].name != s[b].name
    {
      if a == 0 {
        assert s[b] == schema[i + b];
      } else {
        assert s[a] == schema[i + 1..][a - 1] && s[b] == schema[i + 1..][b - 1];
      }
    }
  }

  /** Bare flags carry no value, so a populated one has the empty value. */
  predicate BareValues(schema: seq<Flag>, values: seq<Option<string>>)
    requires |schema| == |values|
  {
    forall i :: 0 <= i < |schema| && schema[i].shape == Bare ==> values[i] == None || values[i] == Some("")
  }

  lemma {:induction false} BareValuesAppend(s1: seq<Flag>, v1: seq<Option<string>>, s2: seq<Flag>, v2: seq<Option<string>>)
    requires |s1| == |v1| && |s2| == |v2| && BareValues(s1, v1) && BareValues(s2, v2)
    ensures BareValues(s1 + s2, v1 + v2)
  {
    forall i | 0 <= i < |s1| + |s2| && (s1 + s2)[i].shape == Bare
      ensures (v1 + v2)[i] == None || (v1 + v2)[i] == Some("")
    {
      if i >= |s1| {
        assert (s1 + s2)[i] == s2[i - |s1|] && (v1 + v2)[i] == v2[i - |s1|];
      }
    }
  }


  /** The flag part of a token: everything before its first space or '='. */
  function Head(t: string): string
  {
    if t == [] || t[0] == ' ' || t[0] == '=' then [] else [t[0]] + Head(t[1..])
  }

  /** The value of token `t` read as flag `f`, if `t` has the shape of `f`. */
  function ParseToken(f: Flag, t: string): Option<string>
  {
    var n := |f.name|;
    match f.shape
    case Bare => if t == f.name then Some("") else None
    case Valued => if n < |t| && t[..n] == f.name && t[n] == ' ' then Some(t[n + 1..]) else None
    case Assigned => if n < |t| && t[..n] == f.name && t[n] == '=' then Some(t[n + 1..]) else None
    case Quoted =>
      if n + 3 <= |t| && t[..n] == f.name && t[n] == ' ' && t[n + 1] == '"' && t[|t| - 1] == '"'
      then Some(t[n + 2..|t| - 1]) else None
  }

  /** Reads `tokens` against a table: each flag, in table order, takes the next
      token if that token names it. Fails on a malformed token or a token left
      over. */
  function ParseAll(schema: seq<Flag>, tokens: seq<string>): (r: Option<seq<Option<string>>>)
    ensures r.Some? ==> |r.value| == |schema|
    decreases |schema|
  {
    if schema == [] then
      if tokens == [] then Some([]) else None
    else if tokens != [] && Head(tokens[0]) == schema[0].name then
      match ParseToken(schema[0], tokens[0])
      case None => None
      case Some(v) =>
        match ParseAll(schema[1..], tokens[1..])
        case None => None
        case Some(rest) => Some([Some(v)] + rest)
    else
      match ParseAll(schema[1..], tokens)
      case None => None
      case Some(rest) => Some([None] + rest)
  }

  lemma {:induction false} HeadOfName(name: string, rest: string)
    requires FlagName(name)
    requires rest == [] || rest[0] == ' ' || rest[0] == '='
    ensures Head(name + rest) == name
    decreases |name|
  {
    if name == [] {
      assert name + rest == rest;
    } else {
      assert (name + rest)[0] == name[0];
      assert (name + rest)[1..] == name[1..] + rest;
      HeadOfName(name[1..], rest);
      assert [name[0]] + name[1..] == name;
    }
  }

  /** Every token starts with its flag's name. */
  lemma {:induction false} HeadOfToken(f: Flag, v: string)
    requires FlagName(f.name)
    ensures Head(Token(f, v)) == f.name
  {
    match f.shape
    case Valued =>
      assert Token(f, v) == f.name + (" " + v);
      HeadOfName(f.name, " " + v);
    case Quoted =>
      assert Token(f, v) == f.name + (" \"" + v + "\"");
      HeadOfName(f.name, " \"" + v + "\"");
    case Assigned =>
      assert Token(f, v) == f.name + ("=" + v);
      HeadOfName(f.name, "=" + v);
    case Bare =>
      assert Token(f, v) == f.name + [];
      HeadOfName(f.name, []);
  }

  /** A token reads back as the value it was written with. */
  lemma {:induction false} ParseTokenOfToken(f: Flag, v: string)
    ensures ParseToken(f, Token(f, v)) == Some(if f.shape == Bare then "" else v)
  {
    var t, n := Token(f, v), |f.name|;
    match f.shape
    case Valued =>
      assert t[..n] == f.name && t[n] == ' ' && t[n + 1..] == v;
    case Assigned =>
      assert t[..n] == f.name && t[n] == '=' && t[n + 1..] == v;
    case Quoted =>
      assert t[..n] == f.name && t[n] == ' ' && t[n + 1] == '"';
      assert t[|t| - 1] == '"' && t[n + 2..|t| - 1] == v;
    case Bare =>
  }

  /** A table that drops its first flag is still well formed. */
  lemma {:induction false} WellFormedTail(schema: seq<Flag>)
    requires |schema| > 0 && WellFormedSchema(schema)
    ensures WellFormedSchema(schema[1..])
  {
    forall i | 0 <= i < |schema| - 1
      ensures FlagName(schema[1..][i].name)
    {
      assert schema[1..][i] == schema[i + 1];
    }
    forall i, j | 0 <= i < j < |schema| - 1
      ensures schema[1..][i].name != schema[1..][j].name
    {
      assert schema[1..][i] == schema[i + 1] && schema[1..][j] == schema[j + 1];
    }
  }

  /** The tokens of a table: its first field's, then the rest's. */
  lemma {:induction false} RenderFirst(schema: seq<Flag>, values: seq<Option<string>>)
    requires |schema| == |values| && |schema| > 0
    ensures RenderAll(Settings(schema, values))
         == Render(Setting(schema[0], values[0])) + RenderAll(Settings(schema[1..], values[1..]))
  {
    RenderAllCons(Setting(schema[0], values[0]), Settings(schema[1..], values[1..]));
  }

  /** The first token of a table names one of the table's flags. */
  lemma {:induction false} FirstHead(schema: seq<Flag>, values: seq<Option<string>>)
    requires |schema| == |values|
    requires forall i :: 0 <= i < |schema| ==> FlagName(schema[i].name)
    requires RenderAll(Settings(schema, values)) != []
    ensures exists k :: 0 <= k < |schema| && Head(RenderAll(Settings(schema, values))[0]) == schema[k].name
    decreases |schema|
  {
    RenderFirst(schema, values);
    match values[0]
    case Some(v) =>
      HeadOfToken(schema[0], v);
    case None =>
      assert forall i :: 0 <= i < |schema| - 1 ==> schema[1..][i] == schema[i + 1];
      FirstHead(schema[1..], values[1..]);
      var k :| 0 <= k < |schema| - 1 && Head(RenderAll(Settings(schema[1..], values[1..]))[0]) == schema[1..][k].name;
      assert schema[1..][k] == schema[k + 1];
  }

  /** The parser takes a token that names the first flag as that flag's value. */
  lemma {:induction false} ParseTaken(schema: seq<Flag>, values: seq<Option<string>>, later: seq<string>)
    requires |schema| == |values| && |schema| > 0 && values[0].Some?
    requires FlagName(schema[0].name)
    requires schema[0].shape == Bare ==> values[0] == Some("")
    requires ParseAll(schema[1..], later) == Some(values[1..])
    ensures ParseAll(schema, [Token(schema[0], values[0].value)] + later) == Some(values)
  {
    var f, v := schema[0], values[0].value;
    var tokens := [Token(f, v)] + later;
    HeadOfToken(f, v);
    ParseTokenOfToken(f, v);
    assert tokens[1..] == later;
    assert [values[0]] + values[1..] == values;
  }

  /** The parser leaves the first flag unset when the next token names
      another flag, or there is none. */
  lemma {:induction false} ParseSkipped(schema: seq<Flag>, values: seq<Option<string>>, later: seq<string>)
    requires |schema| == |values| && |schema| > 0 && values[0].None?
    requires later == [] || Head(later[0]) != schema[0].name
    requires ParseAll(schema[1..], later) == Some(values[1..])
    ensures ParseAll(schema, later) == Some(values)
  {
    assert [values[0]] + values[1..] == values;
  }

  /** Parsing undoes rendering: from the tokens of a well-formed table the
      parser recovers every field's value, populated or not. */
  lemma {:induction false} RoundTrip(schema: seq<Flag>, values: seq<Option<string>>)
    requires |schema| == |values|
    requires WellFormedSchema(schema) && BareValues(schema, values)
    ensures ParseAll(schema, RenderAll(Settings(schema, values))) == Some(values)
    decreases |schema|
  {
    if schema != [] {
      WellFormedTail(schema);
      assert BareValues(schema[1..], values[1..]) by {
        assert forall i :: 0 <= i < |schema| - 1 ==> schema[1..][i] == schema[i + 1] && values[1..][i] == values[i + 1];
      }
      RoundTrip(schema[1..], values[1..]);
      RenderFirst(schema, values);
      var later := RenderAll(Settings(schema[1..], values[1..]));
      if values[0].Some? {
        assert RenderAll(Settings(schema, values)) == [Token(schema[0], values[0].value)] + later;
        ParseTaken(schema, values, later);
      } else {
        assert RenderAll(Settings(schema, values)) == later;
        if later != [] {
          FirstHeadOfRest(schema, values);
        }
        ParseSkipped(schema, values, later);
      }
    }
  }

  /** No later token of a well-formed table names the table's first flag. */
  lemma {:induction false} FirstHeadOfRest(schema: seq<Flag>, values: seq<Option<string>>)
    requires |schema| == |values| && |schema| > 0
    requires WellFormedSchema(schema)
    requires RenderAll(Settings(schema[1..], values[1..])) != []
    ensures Head(RenderAll(Settings(schema[1..], values[1..]))[0]) != schema[0].name
  {
    WellFormedTail(schema);
    FirstHead(schema[1..], values[1..]);
    var k :| 0 <= k < |schema| - 1 && Head(RenderAll(Settings(schema[1..], values[1..]))[0]) == schema[1..][k].name;
    assert schema[1..][k] == schema[k + 1];
  }

  // ---------------------------------------------------------------------------
  // Counting tokens by flag

  /** The number of tokens that name flag `n`. */
  function CountHead(tokens: seq<string>, n: string): nat
  {
    if tokens == [] then 0 else (if Head(tokens[0]) == n then 1 else 0) + CountHead(tokens[1..], n)
  }

  lemma {:induction false} CountAppend(a: seq<string>, b: seq<string>, n: string)
    ensures CountHead(a + b, n) == CountHead(a, n) + CountHead(b, n)
    decreases |a|
  {
    if a == [] {
      assert a + b == b;
    } else {
      assert (a + b)[0] == a[0];
      assert (a + b)[1..] == a[1..] + b;
      CountAppend(a[1..], b, n);
    }
  }

  /** The tokens of the first field of a table, counted by flag `n`. */
  lemma {:induction false} CountFirst(schema: seq<Flag>, values: seq<Option<string>>, n: string)
    requires |schema| == |values| && |schema| > 0 && FlagName(schema[0].name)
    ensures CountHead(RenderAll(Settings(schema, values)), n)
         == (if values[0].Some? && schema[0].name == n then 1 else 0)
          + CountHead(RenderAll(Settings(schema[1..], values[1..])), n)
  {
    RenderFirst(schema, values);
    var first := Render(Setting(schema[0], values[0]));
    CountAppend(first, RenderAll(Settings(schema[1..], values[1..])), n);
    if values[0].Some? {
      HeadOfToken(schema[0], values[0].value);
      assert first[1..] == [];
    }
  }

  /** A flag no field of the table has names no token. */
  lemma {:induction false} CountAbsent(schema: seq<Flag>, values: seq<Option<string>>, n: string)
    requires |schema| == |values|
    requires forall i :: 0 <= i < |schema| ==> FlagName(schema[i].name) && schema[i].name != n
    ensures CountHead(RenderAll(Settings(schema, values)), n) == 0
    decreases |schema|
  {
    if schema != [] {
      CountFirst(schema, values, n);
      assert forall i :: 0 <= i < |schema| - 1 ==> schema[1..][i] == schema[i + 1];
      CountAbsent(schema[1..], values[1..], n);
    }
  }

  /** A token in the list is counted under its own head. */
  lemma {:induction false} CountHeadPositive(tokens: seq<string>, t: string)
    requires t in tokens
    ensures CountHead(tokens, Head(t)) > 0
    decreases |tokens|
  {
    if tokens[0] != t {
      assert t in tokens[1..];
      CountHeadPositive(tokens[1..], t);
    }
  }

  /** No token is in a list that counts none under its head. */
  lemma {:induction false} CountHeadZero(tokens: seq<string>, t: string)
    requires CountHead(tokens, Head(t)) == 0
    ensures t !in tokens
    decreases |tokens|
  {
    if tokens != [] {
      CountHeadZero(tokens[1..], t);
      assert tokens == [tokens[0]] + tokens[1..];
    }
  }

  /** Each flag of a well-formed table names exactly one token when its field
      is populated and none when it is not. */
  lemma {:induction false} ExactlyOneToken(schema: seq<Flag>, values: seq<Option<string>>, k: nat)
    requires |schema| == |values|
    requires WellFormedSchema(schema)
    requires k < |schema|
    ensures CountHead(RenderAll(Settings(schema, values)), schema[k].name) == if values[k].Some? then 1 else 0
    decreases k
  {
    var n := schema[k].name;
    CountFirst(schema, values, n);
    if k == 0 {
      assert forall i :: 0 <= i < |schema| - 1 ==> schema[1..][i] == schema[i + 1];
      CountAbsent(schema[1..], values[1..], n);
    } else {
      WellFormedTail(schema);
      ExactlyOneToken(schema[1..], values[1..], k - 1);
    }
  }

  // ---------------------------------------------------------------------------
  // Command lines

  /** A makisu command line: the action, the tokens of the table, and the
      one positional argument, which is always present, even when empty. */
  function CommandLine(action: string, schema: seq<Flag>, values: seq<Option<string>>, positional: string): (argv: seq<string>)
    requires |schema| == |values|
    ensures |argv| >= 2 && argv[0] == action && argv[|argv| - 1] == positional
    ensures argv[1..|argv| - 1] == RenderAll(Settings(schema, values))
    ensures |argv| <= |schema| + 2
  {
    RenderAllLength(Settings(schema, values));
    [action] + (RenderAll(Settings(schema, values)) + [positional])
  }

  /** What a command line reads back as: the values of the table's fields and
      the positional argument. */
  datatype Parsed = Parsed(values: seq<Option<string>>, positional: string)

  function ParseCommand(action: string, schema: seq<Flag>, argv: seq<string>): (r: Option<Parsed>)
    ensures r.Some? ==> |argv| >= 2 && argv[0] == action && r.value.positional == argv[|argv| - 1]
    ensures r.Some? ==> |r.value.values| == |schema|
  {
    if |argv| < 2 || argv[0] != action then None
    else match ParseAll(schema, argv[1..|argv| - 1])
      case None => None
      case Some(values) => Some(Parsed(values, argv[|argv| - 1]))
  }

  /** Reading a command line back gives the values and the positional
      argument it was built from. */
  lemma {:induction false} CommandRoundTrip(action: string, schema: seq<Flag>, values: seq<Option<string>>, positional: string)
    requires |schema| == |values|
    requires WellFormedSchema(schema) && BareValues(schema, values)
    ensures ParseCommand(action, schema, CommandLine(action, schema, values, positional)) == Some(Parsed(values, positional))
  {
    RoundTrip(schema, values);
  }

  /** Flag `f` names exactly one of `tokens`, the token of value `v`, when
      `v` is present, and none of them when it is absent. */
  predicate Contributes(tokens: seq<string>, f: Flag, v: Option<string>)
  {
    && CountHead(tokens, f.name) == (if v.Some? then 1 else 0)
    && (v.Some? ==> Token(f, v.value) in tokens)
  }

  /** Each flag of a well-formed table appears in the command line once when
      its field is populated, with the field's value, and not at all otherwise. */
  lemma {:induction false} CommandFlag(action: string, schema: seq<Flag>, values: seq<Option<string>>, positional: string, k: nat)
    requires |schema| == |values| && WellFormedSchema(schema) && k < |schema|
    ensures var argv := CommandLine(action, schema, values, positional);
      Contributes(argv[1..|argv| - 1], schema[k], values[k])
  {
    ExactlyOneToken(schema, values, k);
    if values[k].Some? {
      TokenPresent(schema, values, k);
    }
  }

  /** Of two populated fields, the one earlier in the table has its token
      earlier in the command line. */
  lemma {:induction false} CommandInOrder(action: string, schema: seq<Flag>, values: seq<Option<string>>, positional: string, i: nat, j: nat)
    requires |schema| == |values| && i < j < |schema| && values[i].Some? && values[j].Some?
    ensures var argv := CommandLine(action, schema, values, positional);
      exists p, q :: 1 <= p < q < |argv| - 1
        && argv[p] == Token(schema[i], values[i].value) && argv[q] == Token(schema[j], values[j].value)
  {
    var argv, tokens := CommandLine(action, schema, values, positional), RenderAll(Settings(schema, values));
    TokensInOrder(schema, values, i, j);
    var p, q :| 0 <= p < q < |tokens|
      && tokens[p] == Token(schema[i], values[i].value) && tokens[q] == Token(schema[j], values[j].value);
    assert argv[p + 1] == tokens[p] && argv[q + 1] == tokens[q];
  }
}
