/** The development script that opens an ngrok tunnel: it loads `.env`
    into the process environment one line at a time, then either stops for
    a missing domain or builds the ngrok command. Reading the file, running
    the command and streaming its output are outside the model; the file's
    text is an input and the command is the result. */
module StartTunnel {
  import opened Common
  import opened Strings

  /** The process environment. */
  type Env = map<string, string>

  /** What one `.env` line assigns: `const [key, value] = line.split("=")`
      takes the first two parts, and a line whose key or value is empty or
      missing assigns nothing. Both are trimmed. */
  function Assignment(line: string): Option<(string, string)> {
    var parts := Split(line, '=');
    if parts[0] != "" && |parts| >= 2 && parts[1] != "" then Some((Trim(parts[0]), Trim(parts[1])))
    else None
  }

  /** `KEY=VALUE` assigns the trimmed value to the trimmed key. */
  lemma PlainLine(key: string, value: string)
    requires key != "" && value != "" && '=' !in key && '=' !in value
    ensures Assignment(key + "=" + value) == Some((Trim(key), Trim(value)))
  {
    SplitWithoutSeparator(value, '=');
    SplitAtFirst(key, value, '=');
  }

  /** Everything after a second "=" is dropped: `K=V=W` assigns what `K=V`
      assigns. */
  lemma SecondEqualsDropsTheRest(key: string, value: string, rest: string)
    requires '=' !in key && '=' !in value
    ensures Assignment(key + "=" + value + "=" + rest) == Assignment(key + "=" + value)
  {
    SplitWithoutSeparator(value, '=');
    SplitAtFirst(key, value, '=');
    SplitAtFirst(value, rest, '=');
    SplitAtFirst(key, value + "=" + rest, '=');
    assert key + "=" + value + "=" + rest == key + "=" + (value + "=" + rest);
  }

  /** A line with no value, such as `KEY=`, or no "=" at all, assigns nothing. */
  lemma LinesWithoutValue(key: string)
    requires '=' !in key
    ensures Assignment(key + "=").None? && Assignment(key).None?
  {
    SplitWithoutSeparator(key, '=');
    SplitAtFirst(key, "", '=');
    assert key + "=" == key + "=" + "";
  }

  /** `process.env[key.trim()] = value.trim()` for an assigning line;
      `assign` reads the assignment off a line. */
  function ApplyLine(env: Env, line: string, assign: string -> Option<(string, string)>): Env {
    match assign(line)
    case None => env
    case Some((k, v)) => env[k := v]
  }

  /** The environment after the lines, applied in file order. */
  function ApplyLines(env: Env, lines: seq<string>, assign: string -> Option<(string, string)>): Env
    decreases |lines|
  {
    if |lines| == 0 then env
    else ApplyLine(ApplyLines(env, lines[..|lines| - 1], assign), lines[|lines| - 1], assign)
  }

  /** The environment after loading `.env` text over `env`. */
  function LoadedEnv(env: Env, content: string): Env {
    ApplyLines(env, Split(content, '\n'), Assignment)
  }

  /** One more line is one more `ApplyLine`. */
  lemma ApplyOneMore(env: Env, lines: seq<string>, i: int, assign: string -> Option<(string, string)>)
    requires 0 <= i < |lines|
    ensures ApplyLines(env, lines[..i + 1], assign) == ApplyLine(ApplyLines(env, lines[..i], assign), lines[i], assign)
  {
    assert lines[..i + 1][..i] == lines[..i];
  }

  /** `envConfig.split("\n").forEach(...)`. */
  method LoadEnv(content: string, env0: Env) returns (env: Env)
    ensures env == LoadedEnv(env0, content)
  {
    var lines := Split(content, '\n');
    env := env0;
    var i := 0;
    while i < |lines|
      invariant 0 <= i <= |lines|
      invariant env == ApplyLines(env0, lines[..i], Assignment)
    {
      var a := Assignment(lines[i]);
      if a.Some? {
        env := env[a.value.0 := a.value.1];
      }
      ApplyOneMore(env0, lines, i, Assignment);
      i := i + 1;
    }
    assert lines[..|lines|] == lines;
  }

  /** The line assigns `key`. */
  predicate Assigns(a: Option<(string, string)>, key: string) {
    a.Some? && a.value.0 == key
  }

  /** The last line that assigns a key decides its value. */
  lemma {:induction false} LastAssignmentWins(env: Env, lines: seq<string>, assign: string -> Option<(string, string)>,
                                              k: int, key: string, value: string)
    requires 0 <= k < |lines| && assign(lines[k]) == Some((key, value))
    requires forall j :: k < j < |lines| ==> !Assigns(assign(lines[j]), key)
    ensures key in ApplyLines(env, lines, assign) && ApplyLines(env, lines, assign)[key] == value
    decreases |lines|
  {
    var n := |lines| - 1;
    var init := lines[..n];
    if k < n {
      assert init[k] == lines[k];
      forall j | k < j < |init| ensures !Assigns(assign(init[j]), key) {
        assert init[j] == lines[j];
      }
      LastAssignmentWins(env, init, assign, k, key, value);
      assert !Assigns(assign(lines[n]), key);
    }
  }

  /** A key no line assigns keeps its value from the process, or stays unset. */
  lemma {:induction false} UnassignedKeyKept(env: Env, lines: seq<string>, assign: string -> Option<(string, string)>, key: string)
    requires forall j :: 0 <= j < |lines| ==> !Assigns(assign(lines[j]), key)
    ensures key in ApplyLines(env, lines, assign) <==> key in env
    ensures key in env ==> ApplyLines(env, lines, assign)[key] == env[key]
    decreases |lines|
  {
    if |lines| > 0 {
      var n := |lines| - 1;
      var init := lines[..n];
      forall j | 0 <= j < |init| ensures !Assigns(assign(init[j]), key) {
        assert init[j] == lines[j];
      }
      UnassignedKeyKept(env, init, assign, key);
      assert !Assigns(assign(lines[n]), key);
    }
  }

  /** `process.env.PORT || 8081`. */
  function Port(env: Env): (port: string)
    ensures "PORT" in env && env["PORT"] != "" ==> port == env["PORT"]
    ensures !("PORT" in env && env["PORT"] != "") ==> port == "8081"
  {
    if "PORT" in env && env["PORT"] != "" then env["PORT"] else "8081"
  }

  /** How the script ends: `process.exit(code)` or running a command. */
  datatype Outcome = Exit(code: int) | Run(command: string)

  /** The ngrok command for a reserved domain and a local port. */
  function NgrokCommand(domain: string, port: string): string {
    "ngrok http --url=" + domain + " " + port
  }

  /** The whole script: `envFile` is the text of `.env` when it exists,
      `env0` the environment the process started with. */
  method StartTunnel(envFile: Option<string>, env0: Env) returns (env: Env, outcome: Outcome)
    ensures env == (if envFile.Some? then LoadedEnv(env0, envFile.value) else env0)
    ensures !("NGROK_DOMAIN" in env && env["NGROK_DOMAIN"] != "") <==> outcome == Exit(1)
    ensures outcome.Run? ==> outcome.command == NgrokCommand(env["NGROK_DOMAIN"], Port(env))
  {
    env := env0;
    if envFile.Some? {
      env := LoadEnv(envFile.value, env0);
    }
    if !("NGROK_DOMAIN" in env && env["NGROK_DOMAIN"] != "") {
      return env, Exit(1);
    }
    outcome := Run(NgrokCommand(env["NGROK_DOMAIN"], Port(env)));
  }

  /** The command names the domain and the port and nothing else: different
      settings never give the same command. */
  lemma NgrokCommandDetermines(d1: string, p1: string, d2: string, p2: string)
    requires ' ' !in d1 && ' ' !in d2
    requires NgrokCommand(d1, p1) == NgrokCommand(d2, p2)
    ensures d1 == d2 && p1 == p2
  {
    var head := "ngrok http --url=";
    var c := NgrokCommand(d1, p1);
    assert c == head + d1 + " " + p1;
    assert c == head + d2 + " " + p2;
    var tail := c[|head|..];
    assert tail == d1 + [' '] + p1 && tail == d2 + [' '] + p2;
    SplitAtFirst(d1, p1, ' ');
    SplitAtFirst(d2, p2, ' ');
    assert d1 == Split(tail, ' ')[0] == d2;
    assert p1 == tail[|d1| + 1..] == p2;
  }
}
