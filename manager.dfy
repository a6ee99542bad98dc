/**
 * The command-line entry point of litepcie-manager: a first-match scan of the
 * process arguments (program name included) for one of three verbs, each
 * mapped onto one action of the extension manager.
 */
module Manager {

  import opened Wrappers

  /** What the scan decides. */
  datatype Command = Activate | ForceActivate | Deactivate | Usage

  /** A call on the extension manager. */
  datatype Action = ActivateCall(forceReplace: bool) | DeactivateCall

  /** What one run of the dispatch block does. `exitStatus` is None when the
      block returns to the run loop without calling `exit`. */
  datatype Outcome = Outcome(actions: seq<Action>, printed: seq<string>, exitStatus: Option<int>)

  const USAGE: seq<string> := ["Usage:", "    litepcie-manager activate|forceActivate|deactivate"]

  predicate IsVerb(s: string) {
    s == "activate" || s == "forceActivate" || s == "deactivate"
  }

  /** The command a single verb selects. */
  function VerbCommand(s: string): (c: Command)
    requires IsVerb(s)
    ensures c != Usage
    ensures c == Activate <==> s == "activate"
    ensures c == ForceActivate <==> s == "forceActivate"
    ensures c == Deactivate <==> s == "deactivate"
  {
    if s == "activate" then Activate
    else if s == "forceActivate" then ForceActivate
    else Deactivate
  }

  /** True when `i` is the position of the earliest verb in `args`. */
  ghost predicate FirstVerbAt(args: seq<string>, i: int) {
    0 <= i < |args| && IsVerb(args[i]) && forall j :: 0 <= j < i ==> !IsVerb(args[j])
  }

  /** The `for argument in CommandLine.arguments` loop: the earliest verb wins. */
  function Dispatch(args: seq<string>): (c: Command)
    ensures c == Usage <==> forall i :: 0 <= i < |args| ==> !IsVerb(args[i])
    ensures forall i :: FirstVerbAt(args, i) ==> c == VerbCommand(args[i])
  {
    if args == [] then Usage
    else if IsVerb(args[0]) then VerbCommand(args[0])
    else Dispatch(args[1..])
  }

  /** The earliest verb exists whenever any verb does. */
  lemma {:induction false} FirstVerbExists(args: seq<string>, k: int)
    requires 0 <= k < |args| && IsVerb(args[k])
    ensures exists i :: 0 <= i <= k && FirstVerbAt(args, i)
  {
    if IsVerb(args[0]) {
      assert FirstVerbAt(args, 0);
    } else {
      FirstVerbExists(args[1..], k - 1);
      var i :| 0 <= i <= k - 1 && FirstVerbAt(args[1..], i);
      assert FirstVerbAt(args, i + 1);
    }
  }

  /** The extension-manager call a command makes. */
  function ActionOf(c: Command): (a: Option<Action>)
    ensures a == None <==> c == Usage
    ensures a == Some(DeactivateCall) <==> c == Deactivate
    ensures a == Some(ActivateCall(false)) <==> c == Activate
    ensures a == Some(ActivateCall(true)) <==> c == ForceActivate
  {
    match c
    case Activate => Some(ActivateCall(false))
    case ForceActivate => Some(ActivateCall(true))
    case Deactivate => Some(DeactivateCall)
    case Usage => None
  }

  /** One run of the block scheduled on the main run loop. */
  function Run(args: seq<string>): (o: Outcome)
    ensures |o.actions| <= 1
    ensures o.actions == [] <==> o.printed == USAGE
    ensures o.actions == [] <==> o.exitStatus == Some(0)
    ensures o.actions != [] ==> o.printed == [] && o.exitStatus == None
    ensures forall i :: FirstVerbAt(args, i) ==> o.actions == [ActionOf(VerbCommand(args[i])).value]
    ensures o.actions == [] <==> forall i :: 0 <= i < |args| ==> !IsVerb(args[i])
  {
    match ActionOf(Dispatch(args))
    case Some(a) => Outcome([a], [], None)
    case None => Outcome([], USAGE, Some(0))
  }
}
