/**
 * The reference semantics of `deploy()`: six stages run in a fixed order, each
 * issuing its commands to the runner one after another, and the first exception
 * (from the runner, or from reading a missing step flag) abandons everything
 * that follows.
 *
 * The `Deployer` class is proved against these functions; the lemmas here say
 * what the functions mean: which commands are issued, in what order, when the
 * pipeline stops, and when `deploy()` reports success.
 */
module Pipeline {
  import opened Wrappers
  import opened Strings
  import opened Settings
  import opened Facades
  import opened Commands

  /** What a stage does: issue its commands, or raise before issuing any. */
  datatype Stage = Issue(commands: seq<string>) | Abort(failure: Failure)

  /** The commands handed to the runner, and how the run ended. */
  datatype Run = Run(issued: seq<string>, outcome: Outcome)

  /**
   * Commands issued one after another, the first of them as call number `n`:
   * every command up to and including the first one that raises is issued, and
   * nothing after it.
   */
  function RunCommands(cmds: seq<string>, n: nat, faults: Faults): Run
    decreases |cmds|
  {
    if cmds == [] then Run([], Completed)
    else if n in faults then Run([cmds[0]], Raised(ProcessException(faults[n])))
    else
      var rest := RunCommands(cmds[1..], n + 1, faults);
      Run([cmds[0]] + rest.issued, rest.outcome)
  }

  /**
   * Fail fast within a stage: without a raising call every command is issued;
   * otherwise the commands up to and including the first raising one are, and
   * its exception ends the run.
   */
  lemma {:induction false} RunCommandsStopsAtFirstFault(cmds: seq<string>, n: nat, faults: Faults)
    ensures FirstFault(faults, n, n + |cmds|).None? ==> RunCommands(cmds, n, faults) == Run(cmds, Completed)
    ensures FirstFault(faults, n, n + |cmds|).Some? ==>
      var k := FirstFault(faults, n, n + |cmds|).value;
      RunCommands(cmds, n, faults) == Run(cmds[..k - n + 1], Raised(ProcessException(faults[k])))
    decreases |cmds|
  {
    if cmds != [] && n !in faults {
      RunCommandsStopsAtFirstFault(cmds[1..], n + 1, faults);
      assert FirstFault(faults, n, n + |cmds|) == FirstFault(faults, n + 1, n + |cmds|);
      if FirstFault(faults, n, n + |cmds|).Some? {
        var k := FirstFault(faults, n, n + |cmds|).value;
        assert cmds[..k - n + 1] == [cmds[0]] + cmds[1..][..k - n];
      } else {
        assert cmds == [cmds[0]] + cmds[1..];
      }
    }
  }

  function RunStage(st: Stage, n: nat, faults: Faults): Run
  {
    match st
    case Issue(cmds) => RunCommands(cmds, n, faults)
    case Abort(f) => Run([], Raised(f))
  }

  /** Runs `st` after `pre` unless `pre` raised; the runner's call count continues from `pre`. */
  function Then(pre: Run, st: Stage, n: nat, faults: Faults): Run
  {
    if pre.outcome.Raised? then pre
    else
      var next := RunStage(st, n + |pre.issued|, faults);
      Run(pre.issued + next.issued, next.outcome)
  }

  /** A chain of stages inside one `try`, the runner's first call numbered `n`. */
  function RunPipeline(stages: seq<Stage>, n: nat, faults: Faults): Run
    decreases |stages|
  {
    if stages == [] then Run([], Completed)
    else Then(RunPipeline(stages[..|stages| - 1], n, faults), stages[|stages| - 1], n, faults)
  }

  /** The commands a stage would issue if nothing raised. */
  function StageCommands(st: Stage): seq<string>
  {
    match st
    case Issue(cmds) => cmds
    case Abort(_) => []
  }

  /** Every command the stages would issue, in order, if nothing raised. */
  function Planned(stages: seq<Stage>): seq<string>
    decreases |stages|
  {
    if stages == [] then []
    else Planned(stages[..|stages| - 1]) + StageCommands(stages[|stages| - 1])
  }

  /** No stage raises by itself. */
  predicate NoAbort(stages: seq<Stage>)
    decreases |stages|
  {
    stages == [] || (NoAbort(stages[..|stages| - 1]) && stages[|stages| - 1].Issue?)
  }

  /** In a chain with no aborting stage, every stage issues. */
  lemma {:induction false} NoAbortEvery(stages: seq<Stage>, i: nat)
    requires i < |stages|
    ensures NoAbort(stages) ==> stages[i].Issue?
    decreases |stages|
  {
    if i < |stages| - 1 {
      NoAbortEvery(stages[..|stages| - 1], i);
    }
  }

  /** A run of commands starts with none raising: no call is issued before a raised one. */
  lemma RunCommandsFacts(cmds: seq<string>, n: nat, faults: Faults)
    ensures RunCommands(cmds, n, faults).issued <= cmds
    ensures RunCommands(cmds, n, faults).outcome.Completed? <==> FirstFault(faults, n, n + |cmds|).None?
    ensures RunCommands(cmds, n, faults).outcome.Completed? ==> RunCommands(cmds, n, faults).issued == cmds
  {
    RunCommandsStopsAtFirstFault(cmds, n, faults);
  }

  /** No raising call in `[lo, hi)` exactly when there is none in either half. */
  lemma FirstFaultSplit(faults: Faults, lo: nat, mid: nat, hi: nat)
    requires lo <= mid <= hi
    ensures FirstFault(faults, lo, hi).None? <==>
      FirstFault(faults, lo, mid).None? && FirstFault(faults, mid, hi).None?
  {
  }

  /**
   * The pipeline issues a prefix of the planned commands, and all of them when
   * it completes.
   */
  lemma {:induction false} PipelineIssuesPrefix(stages: seq<Stage>, n: nat, faults: Faults)
    ensures RunPipeline(stages, n, faults).issued <= Planned(stages)
    ensures RunPipeline(stages, n, faults).outcome.Completed? ==>
      RunPipeline(stages, n, faults).issued == Planned(stages)
    decreases |stages|
  {
    if stages != [] {
      var init := stages[..|stages| - 1];
      var last := stages[|stages| - 1];
      PipelineIssuesPrefix(init, n, faults);
      var pre := RunPipeline(init, n, faults);
      assert stages[..|stages| - 1] == init;
      if pre.outcome.Completed? && last.Issue? {
        var next := RunCommands(last.commands, n + |pre.issued|, faults);
        RunCommandsFacts(last.commands, n + |pre.issued|, faults);
        assert pre.issued + next.issued <= Planned(init) + last.commands;
      }
    }
  }

  /** A stage after a chain completes exactly when the chain did and none of the stage's calls raises. */
  lemma ThenCompletes(pre: Run, st: Stage, n: nat, faults: Faults)
    ensures Then(pre, st, n, faults).outcome.Completed? <==>
      pre.outcome.Completed? && st.Issue?
      && FirstFault(faults, n + |pre.issued|, n + |pre.issued| + |StageCommands(st)|).None?
  {
    if pre.outcome.Completed? && st.Issue? {
      RunCommandsFacts(st.commands, n + |pre.issued|, faults);
    }
  }

  /**
   * The pipeline completes exactly when no stage raises by itself and no runner
   * call of the plan raises.
   */
  lemma {:induction false} PipelineCompletesIff(stages: seq<Stage>, n: nat, faults: Faults)
    ensures RunPipeline(stages, n, faults).outcome.Completed? <==>
      NoAbort(stages) && FirstFault(faults, n, n + |Planned(stages)|).None?
    decreases |stages|
  {
    if stages != [] {
      var init := stages[..|stages| - 1];
      var last := stages[|stages| - 1];
      PipelineCompletesIff(init, n, faults);
      PipelineIssuesPrefix(init, n, faults);
      var pre := RunPipeline(init, n, faults);
      var m := n + |Planned(init)|;
      FirstFaultSplit(faults, n, m, m + |StageCommands(last)|);
      ThenCompletes(pre, last, n, faults);
    }
  }

  /**
   * Fail fast: once a chain of stages has raised, appending further stages
   * changes nothing, so no command of a later stage is ever issued.
   */
  lemma {:induction false} RaisedIgnoresLater(pre: seq<Stage>, post: seq<Stage>, n: nat, faults: Faults)
    requires RunPipeline(pre, n, faults).outcome.Raised?
    ensures RunPipeline(pre + post, n, faults) == RunPipeline(pre, n, faults)
    decreases |post|
  {
    if post != [] {
      var init := post[..|post| - 1];
      RaisedIgnoresLater(pre, init, n, faults);
      assert (pre + post)[..|pre + post| - 1] == pre + init;
      assert (pre + post)[|pre + post| - 1] == post[|post| - 1];
    } else {
      assert pre + post == pre;
    }
  }

  /** A chain that completes leaves the next stage to run from where it stopped. */
  lemma PipelineSnoc(stages: seq<Stage>, st: Stage, n: nat, faults: Faults)
    ensures RunPipeline(stages + [st], n, faults) == Then(RunPipeline(stages, n, faults), st, n, faults)
  {
    assert (stages + [st])[..|stages|] == stages;
  }

  // ---------------------------------------------------------------------------
  // The six stages of `deploy()`
  // ---------------------------------------------------------------------------

  /** The steps stage: one remote command, or the exception a missing flag raises. */
  function StepsStage(c: Config): Stage
  {
    match StepCommands(c.steps)
    case Success(cmds) => Issue([StepsCommand(c, Join(cmds, AndThen))])
    case Failure(f) => Abort(f)
  }

  /** before-hooks, SSH setup, code pull, build steps, permissions, after-hooks. */
  function Stages(c: Config): seq<Stage>
  {
    [
      Issue(c.hooks.before),
      Issue(SshSetupCommands(c.server.host)),
      Issue([PullCommand(c)]),
      StepsStage(c),
      Issue([PermissionCommand(c)]),
      Issue(c.hooks.after)
    ]
  }

  /**
   * The after-hooks run only when the five earlier stages all completed, and
   * then they continue the runner's count from where those stopped.
   */
  lemma AfterHooksNeedEarlierStages(c: Config, n: nat, faults: Faults)
    ensures var early := RunPipeline(Stages(c)[..5], n, faults);
      RunPipeline(Stages(c), n, faults).issued == early.issued
        + (if early.outcome.Completed? then RunCommands(c.hooks.after, n + |early.issued|, faults).issued else [])
  {
    var s := Stages(c);
    assert s == s[..5] + [Issue(c.hooks.after)];
    PipelineSnoc(s[..5], Issue(c.hooks.after), n, faults);
  }

  /** What `deploy()` returns and logs, given the run of its six stages. */
  datatype Report = Report(ok: bool, issued: seq<string>, logged: seq<string>)

  function Deployment(c: Config, n: nat, faults: Faults): (r: Report)
  {
    var run := RunPipeline(Stages(c), n, faults);
    match run.outcome
    case Completed => Report(true, run.issued, [])
    case Raised(f) => Report(false, run.issued, ["Deployment failed: " + Message(f)])
  }

  /** The commands of a successful deployment, in stage order. */
  function FullTrace(c: Config, batch: seq<string>): seq<string>
  {
    c.hooks.before + SshSetupCommands(c.server.host) + [PullCommand(c)]
    + [StepsCommand(c, Join(batch, AndThen))] + [PermissionCommand(c)] + c.hooks.after
  }

  lemma PlannedStages(c: Config)
    requires StepCommands(c.steps).Success?
    ensures NoAbort(Stages(c))
    ensures Planned(Stages(c)) == FullTrace(c, StepCommands(c.steps).value)
  {
    var batch := StepCommands(c.steps).value;
    PlannedSix(c.hooks.before, SshSetupCommands(c.server.host), [PullCommand(c)],
      [StepsCommand(c, Join(batch, AndThen))], [PermissionCommand(c)], c.hooks.after);
  }

  lemma PlannedSix(a: seq<string>, b: seq<string>, c: seq<string>, d: seq<string>, e: seq<string>, f: seq<string>)
    ensures NoAbort([Issue(a), Issue(b), Issue(c), Issue(d), Issue(e), Issue(f)])
    ensures Planned([Issue(a), Issue(b), Issue(c), Issue(d), Issue(e), Issue(f)]) == a + b + c + d + e + f
  {
    var s := [Issue(a), Issue(b), Issue(c), Issue(d), Issue(e), Issue(f)];
    assert s[..1][..0] == [] && s[..1][0] == s[0];
    assert Planned(s[..1]) == a && NoAbort(s[..1]);
    assert s[..2][..1] == s[..1] && s[..2][1] == s[1];
    assert Planned(s[..2]) == a + b && NoAbort(s[..2]);
    assert s[..3][..2] == s[..2] && s[..3][2] == s[2];
    assert Planned(s[..3]) == a + b + c && NoAbort(s[..3]);
    assert s[..4][..3] == s[..3] && s[..4][3] == s[3];
    assert Planned(s[..4]) == a + b + c + d && NoAbort(s[..4]);
    assert s[..5][..4] == s[..4] && s[..5][4] == s[4];
    assert Planned(s[..5]) == a + b + c + d + e && NoAbort(s[..5]);
    assert s[..5] == s[..|s| - 1];
  }

  /**
   * `deploy()` returns true exactly when every step flag is present and none of
   * the runner calls of the full plan raises; it then has issued the full plan
   * in stage order and logged nothing. Otherwise it returns false and logs one
   * "Deployment failed: " message.
   */
  lemma DeploySucceedsIff(c: Config, n: nat, faults: Faults)
    ensures var r := Deployment(c, n, faults);
      r.ok <==> (StepCommands(c.steps).Success?
        && FirstFault(faults, n, n + |FullTrace(c, StepCommands(c.steps).value)|).None?)
    ensures var r := Deployment(c, n, faults);
      r.ok ==> r.issued == FullTrace(c, StepCommands(c.steps).value) && r.logged == []
    ensures var r := Deployment(c, n, faults);
      !r.ok ==> |r.logged| == 1 && r.logged[0] == "Deployment failed: " + Message(RunPipeline(Stages(c), n, faults).outcome.failure)
  {
    DeployOk(c, n, faults);
    if Deployment(c, n, faults).ok {
      DeployTrace(c, n, faults);
    }
  }

  lemma DeployOk(c: Config, n: nat, faults: Faults)
    ensures Deployment(c, n, faults).ok <==> (StepCommands(c.steps).Success?
      && FirstFault(faults, n, n + |FullTrace(c, StepCommands(c.steps).value)|).None?)
  {
    PipelineCompletesIff(Stages(c), n, faults);
    if StepCommands(c.steps).Success? {
      PlannedStages(c);
    } else {
      NoAbortEvery(Stages(c), 3);
    }
  }

  lemma DeployTrace(c: Config, n: nat, faults: Faults)
    requires Deployment(c, n, faults).ok
    ensures StepCommands(c.steps).Success?
    ensures Deployment(c, n, faults).issued == FullTrace(c, StepCommands(c.steps).value)
  {
    DeployOk(c, n, faults);
    PipelineIssuesPrefix(Stages(c), n, faults);
    PlannedStages(c);
  }

  /**
   * With the published configuration (no hooks, the default steps) a deployment
   * is nine runner calls: six for SSH, the pull, the build batch and the
   * permission fix; it succeeds exactly when none of those nine calls raises.
   */
  lemma DefaultDeploySucceedsIff(host: string, username: string, path: string, n: nat, faults: Faults)
    ensures var r := Deployment(DefaultConfig(host, username, path), n, faults);
      r.ok <==> FirstFault(faults, n, n + 9).None?
    ensures var c := DefaultConfig(host, username, path);
      var r := Deployment(c, n, faults);
      r.ok ==> (r.issued == SshSetupCommands(host) + [PullCommand(c), StepsCommand(c, Join(Templates(DefaultEnabled), AndThen)), PermissionCommand(c)])
  {
    var c := DefaultConfig(host, username, path);
    assert c.steps == DefaultSteps && c.hooks == Hooks([], []) && c.server.host == host;
    DefaultStepBatch(c.steps);
    assert StepCommands(c.steps) == Success(Templates(DefaultEnabled));
    DeploySucceedsIff(c, n, faults);
    NoHooksTrace(c, Templates(DefaultEnabled));
  }

  /** Without hooks a successful deployment issues nine commands. */
  lemma NoHooksTrace(c: Config, batch: seq<string>)
    requires c.hooks == Hooks([], [])
    ensures FullTrace(c, batch) == SshSetupCommands(c.server.host) + [PullCommand(c), StepsCommand(c, Join(batch, AndThen)), PermissionCommand(c)]
    ensures |FullTrace(c, batch)| == 9
  {
  }
}
