/**
 * The built-in demo plugin (src/localghost/plugins/demo.py): its fixed
 * endpoint table, the allow-list check in front of `execute`, and `echo`.
 * The handlers that read the clock, the platform or run a subprocess are
 * not modelled beyond their place in the table.
 */
module Demo {
  import opened Wrappers
  import opened Json
  import opened Text
  import opened Plugins

  const Name: string := "demo"
  const Version: string := "1.0.0"
  const Description: string := "Built-in demo plugin for testing and documentation"

  /** `get_endpoints`: three public endpoints, then two protected ones. */
  function Endpoints(): seq<Endpoint> {
    [ Endpoint("/ping", "ping", Public, "GET", "Simple ping endpoint", []),
      Endpoint("/echo", "echo", Public, "POST", "Echo back the request body", []),
      Endpoint("/time", "get_time", Public, "GET", "Get current server time", []),
      Endpoint("/system-info", "system_info", Protected, "GET", "Get system information (protected)", ["read:system"]),
      Endpoint("/execute", "execute", Protected, "POST", "Execute a simple command (protected)", ["execute"]) ]
  }

  function DemoPlugin(): Plugin {
    Plugin(Name, Version, Description, Endpoints())
  }

  /** The table has five endpoints with distinct paths; exactly the last two are protected, each with its own permission. */
  lemma EndpointTable()
    ensures |Endpoints()| == 5
    ensures forall i, j :: 0 <= i < j < 5 ==> Endpoints()[i].path != Endpoints()[j].path
    ensures forall i :: 0 <= i < 5 ==> (Endpoints()[i].endpointType == Public <==> i < 3)
    ensures Endpoints()[3].path == "/system-info" && Endpoints()[3].permissions == ["read:system"]
    ensures Endpoints()[4].path == "/execute" && Endpoints()[4].permissions == ["execute"]
  {
  }

  const AllowedCommands: seq<string> := ["echo", "date", "whoami", "pwd", "hostname"]

  /** What `execute` does with a command before any subprocess is started. */
  datatype CommandCheck =
    | Denied(cmdName: string)  // answered {"error": ..., "status": "denied"}
    | Runs(command: string)    // the whole command is handed to the shell
    | Crashes                  // `command.split()[0]` raises IndexError

  /**
   * The allow-list check of `execute`: the first whitespace-separated word
   * must be one of the allowed commands; an empty command has the name "".
   */
  function CheckCommand(command: string): (r: CommandCheck)
    ensures command == "" ==> r == Denied("")
    ensures r.Crashes? <==> command != "" && AllSpace(command)
    ensures r.Runs? <==> command != "" && !AllSpace(command) && FirstWord(command).value in AllowedCommands
    ensures r.Runs? ==> r.command == command
    ensures r.Denied? && command != "" ==> r.cmdName == FirstWord(command).value
  {
    if command == "" then Denied("")  // "" is not an allowed command
    else
      match FirstWord(command)
      case None => Crashes
      case Some(name) => if name in AllowedCommands then Runs(command) else Denied(name)
  }

  /** The text of the error `execute` answers with. */
  function DeniedMessage(cmdName: string): string {
    "Command '" + cmdName + "' not allowed. Allowed: ['echo', 'date', 'whoami', 'pwd', 'hostname']"
  }

  /** The refusal `execute` answers with: the error text and status "denied", nothing else. */
  function DeniedResponse(cmdName: string): (d: Dict)
    ensures d.Keys == {"error", "status"}
    ensures d["error"] == Str(DeniedMessage(cmdName)) && d["status"] == Str("denied")
  {
    map["error" := Str(DeniedMessage(cmdName)), "status" := Str("denied")]
  }

  /**
   * Only the first word is checked, and the whole command line goes to the
   * shell, so an allowed word followed by a shell separator lets any other
   * command through.
   */
  lemma OnlyFirstWordChecked(rest: string)
    ensures CheckCommand("echo ;" + rest) == Runs("echo ;" + rest)
  {
    var c := "echo ;" + rest;
    assert LeadingSpaces(c) == 0;
    assert c[4] == ' ';
    assert LeadingWord(c) == "echo" by {
      assert LeadingWord(c[4..]) == [];
      assert c[0..4] == "echo";
    }
  }

  /** The command `execute` runs when it is called without one. */
  const DefaultCommand: string := "echo hello"

  /** `execute` called without a command passes the check and runs "echo hello". */
  lemma DefaultCommandRuns()
    ensures CheckCommand(DefaultCommand) == Runs(DefaultCommand)
  {
    var c := DefaultCommand;
    assert LeadingSpaces(c) == 0;
    assert c[4] == ' ';
    assert LeadingWord(c) == "echo" by {
      assert LeadingWord(c[4..]) == [];
      assert c[0..4] == "echo";
    }
  }

  /** `echo`: the body comes back unchanged under "echoed"; without a body it is the empty object. */
  function Echo(body: Option<Dict>): (r: Dict)
    ensures r.Keys == {"echoed"}
    ensures body.Some? ==> r["echoed"] == Obj(body.value)
    ensures body.None? ==> r["echoed"] == Obj(map[])
  {
    map["echoed" := Obj(body.GetOr(map[]))]
  }
}
