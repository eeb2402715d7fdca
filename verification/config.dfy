/** Start-up configuration: the shared secret and the worker's argument
    vector, resolved once from the environment (index.js lines 10-13). */
module Config {
  import Text
  import opened Wrappers

  /** An argument vector: the program followed by its arguments. */
  type Argv = a: seq<string> | |a| >= 1 witness [""]

  const DefaultSecret: string := "HomeAssistant"
  const DefaultArgv: Argv := ["./pppwn", "-i", "eth0"]

  /** An environment variable counts as set when it is present and not the
      empty string (JavaScript truthiness of a string). */
  predicate IsSet(v: Option<string>)
  {
    v.Some? && v.value != ""
  }

  /** `SECRET_KEY || "HomeAssistant"`. */
  function ResolveSecret(env: Option<string>): (secret: string)
    ensures IsSet(env) ==> secret == env.value
    ensures !IsSet(env) ==> secret == DefaultSecret
    ensures secret != ""
  {
    if IsSet(env) then env.value else DefaultSecret
  }

  /** `PPPWN_CMD ? PPPWN_CMD.split(" ") : ["./pppwn", "-i", "eth0"]`. */
  function ResolveArgv(env: Option<string>): (argv: Argv)
    ensures IsSet(env) ==> Text.Join(argv, ' ') == env.value
    ensures IsSet(env) ==> forall i :: 0 <= i < |argv| ==> ' ' !in argv[i]
    ensures !IsSet(env) ==> argv == DefaultArgv
  {
    if IsSet(env) then Text.Split(env.value, ' ') else DefaultArgv
  }

  /** Any argument vector without spaces in its words (and not the single
      empty word) is what the command string naming it resolves to. */
  lemma ResolveArgvOfJoin(argv: Argv)
    requires forall i :: 0 <= i < |argv| ==> ' ' !in argv[i]
    requires Text.Join(argv, ' ') != ""
    ensures ResolveArgv(Some(Text.Join(argv, ' '))) == argv
  {
    Text.SplitJoin(argv, ' ');
  }

  /** What the server reads from its environment. */
  datatype Env = Env(secretKey: Option<string>, pppwnCmd: Option<string>)

  /** The resolved settings every event handler uses. */
  datatype Settings = Settings(secret: string, argv: Argv)

  function Configure(env: Env): (s: Settings)
    ensures s.secret != ""
  {
    Settings(ResolveSecret(env.secretKey), ResolveArgv(env.pppwnCmd))
  }
}
