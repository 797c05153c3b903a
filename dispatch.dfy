/**
 * The branch logic of `manage` (awx/__init__.py): print the version, report that the
 * settings could not be read, or hand the arguments to Django. Output, exit and the call
 * into `execute_from_command_line` are recorded as an ordered list of effects.
 */
module Dispatch {

  datatype Effect =
    | Delegate(argv: seq<string>)   // execute_from_command_line(argv)
    | Write(text: string)           // sys.stdout.write(text)
    | Exit(status: int)             // sys.exit(status)
    | IndexError                    // sys.argv[0] on an empty argument vector

  /** The secret key the settings loader leaves behind when it cannot read the real one. */
  const PERMISSION_DENIED := "permission-denied"

  /** `version` or `--version` as the first argument after the program name. */
  predicate IsVersionRequest(argv: seq<string>) {
    |argv| >= 2 && argv[1] in {"version", "--version"}
  }

  /** No arguments at all, or a help token first: Django's help is shown before the error. */
  predicate IsHelpRequest(argv: seq<string>): (r: bool)
    ensures r ==> !IsVersionRequest(argv)
  {
    |argv| == 1 || (|argv| >= 2 && argv[1] in {"-h", "--help", "help"})
  }

  /** `os.path.basename` on a POSIX path: everything after the last slash. */
  function Basename(path: string): (r: string)
    ensures |r| <= |path|
  {
    if path == [] || path[|path| - 1] == '/' then []
    else Basename(path[..|path| - 1]) + [path[|path| - 1]]
  }

  /** The basename is the longest slash-free suffix of the path. */
  lemma {:induction false} BasenameSuffix(path: string)
    ensures var r := Basename(path);
      |r| <= |path| && r == path[|path| - |r|..] && '/' !in r &&
      (|r| < |path| ==> path[|path| - |r| - 1] == '/')
  {
    if path != [] && path[|path| - 1] != '/' {
      var init := path[..|path| - 1];
      BasenameSuffix(init);
      assert path[|path| - |Basename(path)|..] == path[|init| - |Basename(init)|..|init|] + [path[|path| - 1]];
    }
  }

  function PermissionDeniedMessage(prog: string): string {
    "Permission denied: " + prog + " must be run as root or awx.\n"
  }

  /** `os.path.basename` of a path ending in a slash and a slash-free name is that name. */
  lemma {:induction false} BasenameOfJoin(dir: string, name: string)
    requires '/' !in name
    ensures Basename(dir + "/" + name) == name
  {
    if name != [] {
      var init := name[..|name| - 1];
      BasenameOfJoin(dir, init);
      assert (dir + "/" + name)[..|dir + "/" + name| - 1] == dir + "/" + init;
      assert name == init + [name[|name| - 1]];
    }
  }

  function Manage(argv: seq<string>, secretKey: string, version: string): (effects: seq<Effect>)
    ensures IsVersionRequest(argv) ==> effects == [Write(version + "\n")]
    ensures !IsVersionRequest(argv) && secretKey != PERMISSION_DENIED ==> effects == [Delegate(argv)]
  {
    if IsVersionRequest(argv) then
      [Write(version + "\n")]
    else if secretKey == PERMISSION_DENIED then
      var help := if IsHelpRequest(argv) then [Delegate(argv), Write("\n")] else [];
      if |argv| == 0 then help + [IndexError]
      else help + [Write(PermissionDeniedMessage(Basename(argv[0]))), Exit(1)]
    else
      [Delegate(argv)]
  }

  /** Django is only ever handed the full argument vector, and only when no error is due or help was asked for. */
  lemma ManageDelegation(argv: seq<string>, secretKey: string, version: string)
    ensures forall e :: e in Manage(argv, secretKey, version) && e.Delegate? ==> e.argv == argv
    ensures Delegate(argv) in Manage(argv, secretKey, version) <==>
      !IsVersionRequest(argv) && (secretKey != PERMISSION_DENIED || IsHelpRequest(argv))
  {
  }

  /**
   * The process exits, with status 1, exactly on the permission-denied path; the exit is the
   * last effect and directly follows the message naming the program.
   */
  lemma ManageExit(argv: seq<string>, secretKey: string, version: string)
    ensures var effects := Manage(argv, secretKey, version);
      Exit(1) in effects <==> !IsVersionRequest(argv) && secretKey == PERMISSION_DENIED && |argv| >= 1
    ensures var effects := Manage(argv, secretKey, version);
      forall i :: 0 <= i < |effects| && effects[i].Exit? ==> effects[i] == Exit(1) && i == |effects| - 1
  {
  }

  /** On the permission-denied path, help output and a blank line precede the message exactly when help was asked for. */
  lemma ManagePermissionDenied(argv: seq<string>, version: string)
    requires !IsVersionRequest(argv) && |argv| >= 1
    ensures var effects := Manage(argv, PERMISSION_DENIED, version);
      effects[|effects| - 2..] == [Write(PermissionDeniedMessage(Basename(argv[0]))), Exit(1)] &&
      (IsHelpRequest(argv) ==> effects[..2] == [Delegate(argv), Write("\n")] && |effects| == 4) &&
      (!IsHelpRequest(argv) ==> |effects| == 2)
  {
  }

  /** Without arguments and with unreadable settings: help, a blank line, the error, exit 1. */
  lemma ManagePermissionDeniedExample(version: string)
    ensures Manage(["/usr/bin/awx-manage"], PERMISSION_DENIED, version) ==
      [Delegate(["/usr/bin/awx-manage"]), Write("\n"),
       Write(PermissionDeniedMessage("awx-manage")), Exit(1)]
  {
    var argv := ["/usr/bin/awx-manage"];
    assert argv[0] == "/usr/bin" + "/" + "awx-manage";
    BasenameOfJoin("/usr/bin", "awx-manage");
    assert Manage(argv, PERMISSION_DENIED, version) ==
      [Delegate(argv), Write("\n")] + [Write(PermissionDeniedMessage("awx-manage")), Exit(1)];
  }
}
