/** The hook runners and the rollback, with their effects in order. */
module Hooks {
  import opened Protocol
  import opened Gates

  /** What a runner does to the outside. */
  datatype Effect = HookStarted(name: string) | CommandRun(command: string)

  function Started(hooks: seq<Hook>): seq<Effect> {
    seq(|hooks|, i requires 0 <= i < |hooks| => HookStarted(hooks[i].name))
  }

  /** RunPreWhenActive and RunPreWhenPassive: they stop at the first failure that may not happen, and
      succeed exactly when there is none. */
  method RunPre(hooks: seq<Hook>, results: seq<bool>) returns (err: bool, ran: seq<bool>, effects: seq<Effect>)
    requires |results| == |hooks|
    ensures err <==> exists i :: 0 <= i < |hooks| && !results[i] && hooks[i].mustSucceed
    ensures ran <= results && effects == Started(hooks[..|ran|])
    ensures if err then |ran| > 0 && !HooksHeld(hooks, ran) && HooksHeld(hooks, ran[..|ran| - 1]) else HooksDone(hooks, ran)
  {
    ran, effects := [], [];
    for i := 0 to |hooks|
      invariant ran == results[..i] && HooksHeld(hooks, ran)
      invariant effects == Started(hooks[..i])
    {
      effects := effects + [HookStarted(hooks[i].name)];
      ran := ran + [results[i]];
      assert hooks[..i + 1][..i] == hooks[..i];
      if !results[i] && hooks[i].mustSucceed {
        assert ran[..i] == results[..i];
        return true, ran, effects;
      }
    }
    err := false;
  }

  /** RunPostWhenActive and RunPostWhenPassive: every hook runs, whatever the earlier ones did. */
  method RunPost(hooks: seq<Hook>, results: seq<bool>) returns (failures: nat, effects: seq<Effect>)
    requires |results| == |hooks|
    ensures effects == Started(hooks)
    ensures failures == 0 <==> forall i :: 0 <= i < |hooks| ==> results[i]
  {
    failures, effects := 0, [];
    for i := 0 to |hooks|
      invariant effects == Started(hooks[..i])
      invariant failures == 0 <==> forall j :: 0 <= j < i ==> results[j]
    {
      effects := effects + [HookStarted(hooks[i].name)];
      assert hooks[..i + 1][..i] == hooks[..i];
      if !results[i] {
        failures := failures + 1;
      }
    }
    assert hooks[..|hooks|] == hooks;
  }

  /** runRollback: the command first, unless there is none or this is a dry run; then every post hook,
      even after a failed command. The error is the command's, never a hook's. */
  method RunRollback(command: string, hooks: seq<Hook>, isDryRun: bool, works: bool, results: seq<bool>)
    returns (err: bool, effects: seq<Effect>)
    requires |results| == |hooks|
    ensures err <==> command != "" && !isDryRun && !works
    ensures effects == (if command != "" && !isDryRun then [CommandRun(command)] else []) + Started(hooks)
  {
    err, effects := false, [];
    if command != "" && !isDryRun {
      effects := effects + [CommandRun(command)];
      err := !works;
    }
    var failures, ran := RunPost(hooks, results);
    effects := effects + ran;
  }
}
