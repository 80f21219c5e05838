/**
 * The orchestrator object: its configuration, its (never written) output
 * buffer, and the six stage methods that `deploy()` chains inside one `try`.
 *
 * Each stage method is proved against `RunStage` of its stage in `Stages`, and
 * `Deploy` against `Deployment`; the lemmas of the `Pipeline` module say what
 * those mean.
 */
module Deployer {
  import opened Wrappers
  import opened Strings
  import opened Settings
  import opened Facades
  import opened Commands
  import opened Pipeline

  class Deployer {
    const config: Config
    var output: seq<string>
    /** The `Process` facade, with its trace and fault oracle. */
    const process: Process
    /** The `Log` facade. */
    const log: Log

    constructor (config: Config, process: Process, log: Log)
      ensures this.config == config && this.process == process && this.log == log
      ensures Valid()
    {
      this.config := config;
      this.process := process;
      this.log := log;
      output := [];
    }

    /** Nothing ever appends to the output buffer. */
    ghost predicate Valid()
      reads this
    {
      output == []
    }

    /** The runner's trace grew by what `st` issues from `before`, and `o` is how `st` ended. */
    ghost predicate Ran(st: Stage, before: seq<string>, o: Outcome)
      reads process
    {
      (process.trace, o) == Resume(before, st, process.faults)
    }

    /** `getOutput()`: the buffer, which is always the empty array it started as. */
    method GetOutput() returns (r: seq<string>)
      requires Valid()
      ensures r == output && r == []
    {
      r := output;
    }

    /** A hook list, each command once as a local command, in list order, until one raises. */
    method RunHooks(hooks: seq<string>) returns (o: Outcome)
      modifies process
      ensures Ran(Issue(hooks), old(process.trace), o)
    {
      ghost var before := process.trace;
      o := Completed;
      var i := 0;
      while i < |hooks|
        invariant 0 <= i <= |hooks|
        invariant process.trace == before + hooks[..i]
        invariant FirstFault(process.faults, |before|, |before| + i).None?
        invariant o == Completed
      {
        o := RunNext(hooks[i], hooks, before, i);
        if o.Raised? {
          return;
        }
        i := i + 1;
      }
      assert hooks[..i] == hooks;
      RunCommandsStopsAtFirstFault(hooks, |before|, process.faults);
    }

    method RunBeforeHooks() returns (o: Outcome)
      modifies process
      ensures Ran(Issue(config.hooks.before), old(process.trace), o)
    {
      o := RunHooks(config.hooks.before);
    }

    method RunAfterHooks() returns (o: Outcome)
      modifies process
      ensures Ran(Issue(config.hooks.after), old(process.trace), o)
    {
      o := RunHooks(config.hooks.after);
    }

    /**
     * One `Process::run` call, the `k`-th of the commands `cmds` a stage issues
     * from `before`, the earlier ones having completed: the stage is over when
     * it raises or is the last.
     */
    method RunNext(cmd: string, ghost cmds: seq<string>, ghost before: seq<string>, ghost k: nat) returns (o: Outcome)
      modifies process
      requires k < |cmds| && cmds[k] == cmd
      requires process.trace == before + cmds[..k]
      requires FirstFault(process.faults, |before|, |before| + k).None?
      ensures process.trace == before + cmds[..k + 1]
      ensures o.Completed? ==> FirstFault(process.faults, |before|, |before| + k + 1).None?
      ensures o.Raised? || k + 1 == |cmds| ==> Ran(Issue(cmds), before, o)
    {
      o := process.Run(cmd);
      ghost var n := |before|;
      assert cmds[..k + 1] == cmds[..k] + [cmd];
      RunCommandsStopsAtFirstFault(cmds, n, process.faults);
      if o.Raised? {
        FirstFaultAt(process.faults, n, n + k, n + |cmds|);
      } else if k + 1 == |cmds| {
        assert cmds[..k + 1] == cmds;
      }
    }

    /** `setupSSH()`: six local commands, the last one scanning the configured host's key. */
    method SetupSsh() returns (o: Outcome)
      modifies process
      ensures Ran(Issue(SshSetupCommands(config.server.host)), old(process.trace), o)
    {
      ghost var cmds := SshSetupCommands(config.server.host);
      ghost var before := process.trace;
      assert process.trace == before + cmds[..0];
      o := RunNext(MakeSshDir, cmds, before, 0);
      if o.Raised? {
        return;
      }
      o := RunNext(WriteDeployKey, cmds, before, 1);
      if o.Raised? {
        return;
      }
      o := RunNext(RestrictDeployKey, cmds, before, 2);
      if o.Raised? {
        return;
      }
      o := RunNext(StartAgent, cmds, before, 3);
      if o.Raised? {
        return;
      }
      o := RunNext(AddDeployKey, cmds, before, 4);
      if o.Raised? {
        return;
      }
      o := RunNext(KeyscanHost(config.server.host), cmds, before, 5);
    }

    /** `pullCode()`: one remote command. */
    method PullCode() returns (o: Outcome)
      modifies process
      ensures Ran(Issue([PullCommand(config)]), old(process.trace), o)
    {
      ghost var before := process.trace;
      assert process.trace == before + [PullCommand(config)][..0];
      o := RunNext(PullCommand(config), [PullCommand(config)], before, 0);
    }

    /** `runDeploymentSteps()`: collect the enabled steps' commands, then one remote command. */
    method RunDeploymentSteps() returns (o: Outcome)
      modifies process
      ensures Ran(StepsStage(config), old(process.trace), o)
    {
      var commands := CollectStepCommands(config.steps);
      if commands.Failure? {
        assert process.trace + [] == process.trace;
        return Raised(commands.error);
      }
      var commandString := Join(commands.value, AndThen);
      ghost var before := process.trace;
      assert process.trace == before + [StepsCommand(config, commandString)][..0];
      o := RunNext(StepsCommand(config, commandString), [StepsCommand(config, commandString)], before, 0);
    }

    /** `setPermissions()`: one remote command running the four permission fixes. */
    method SetPermissions() returns (o: Outcome)
      modifies process
      ensures Ran(Issue([PermissionCommand(config)]), old(process.trace), o)
    {
      ghost var before := process.trace;
      assert process.trace == before + [PermissionCommand(config)][..0];
      o := RunNext(PermissionCommand(config), [PermissionCommand(config)], before, 0);
    }

    /**
     * `deploy()`: the six stages in order inside one `try`; the first exception
     * skips every later stage, is logged as "Deployment failed: <message>" and
     * makes the result false.
     */
    method Deploy() returns (ok: bool)
      modifies process, log
      ensures var r := Deployment(config, |old(process.trace)|, process.faults);
        && ok == r.ok
        && process.trace == old(process.trace) + r.issued
        && log.entries == old(log.entries) + r.logged
      ensures output == old(output)
    {
      Unrolled(Stages(config), process.trace, process.faults);
      var o := RunBeforeHooks();
      if o.Raised? {
        log.Error("Deployment failed: " + Message(o.failure));
        return false;
      }
      o := SetupSsh();
      if o.Raised? {
        log.Error("Deployment failed: " + Message(o.failure));
        return false;
      }
      o := PullCode();
      if o.Raised? {
        log.Error("Deployment failed: " + Message(o.failure));
        return false;
      }
      o := RunDeploymentSteps();
      if o.Raised? {
        log.Error("Deployment failed: " + Message(o.failure));
        return false;
      }
      o := SetPermissions();
      if o.Raised? {
        log.Error("Deployment failed: " + Message(o.failure));
        return false;
      }
      o := RunAfterHooks();
      if o.Raised? {
        log.Error("Deployment failed: " + Message(o.failure));
        return false;
      }
      return true;
    }
  }

  /** The runner's trace after stage `st` ran on from `before`, and how the stage ended. */
  function Resume(before: seq<string>, st: Stage, faults: Faults): (seq<string>, Outcome)
  {
    var r := RunStage(st, |before|, faults);
    (before + r.issued, r.outcome)
  }

  /**
   * Six stages, each run only when every earlier one completed. `SixStages`,
   * `LastThree` and `Prefix` are proof bridges: they write `RunPipeline` (the
   * definition of the chain) out in the shape of `Deploy`'s early returns, and
   * `Unrolled` shows the two agree.
   */
  function SixStages(s: seq<Stage>, t: seq<string>, faults: Faults): (seq<string>, Outcome)
    requires |s| == 6
  {
    var r0 := Resume(t, s[0], faults);
    if r0.1.Raised? then r0 else
    var r1 := Resume(r0.0, s[1], faults);
    if r1.1.Raised? then r1 else
    var r2 := Resume(r1.0, s[2], faults);
    if r2.1.Raised? then r2 else
    LastThree(s, r2, faults)
  }

  /** Stages 3 to 5, from the trace and outcome `r` the first three leave. */
  function LastThree(s: seq<Stage>, r: (seq<string>, Outcome), faults: Faults): (seq<string>, Outcome)
    requires |s| == 6
  {
    if r.1.Raised? then r else
    var r3 := Resume(r.0, s[3], faults);
    if r3.1.Raised? then r3 else
    var r4 := Resume(r3.0, s[4], faults);
    if r4.1.Raised? then r4 else
    Resume(r4.0, s[5], faults)
  }

  /** The trace after the first `k` stages of a chain started on `t`, and how they ended. */
  function Prefix(s: seq<Stage>, k: nat, t: seq<string>, faults: Faults): (seq<string>, Outcome)
    requires k <= |s|
  {
    var r := RunPipeline(s[..k], |t|, faults);
    (t + r.issued, r.outcome)
  }

  /** The pipeline of six stages, written out stage by stage. */
  lemma Unrolled(s: seq<Stage>, t: seq<string>, faults: Faults)
    requires |s| == 6
    ensures var r := RunPipeline(s, |t|, faults);
      SixStages(s, t, faults) == (t + r.issued, r.outcome)
  {
    FirstThree(s, t, faults);
    LastThreeUnrolled(s, t, faults);
    assert s[..6] == s;
  }

  /** The first three stages, written out. */
  lemma FirstThree(s: seq<Stage>, t: seq<string>, faults: Faults)
    requires |s| == 6
    ensures SixStages(s, t, faults) == LastThree(s, Prefix(s, 3, t, faults), faults)
  {
    assert s[..0] == [] && t + [] == t;
    ResumeStep(s, 0, t, faults);
    ResumeStep(s, 1, t, faults);
    ResumeStep(s, 2, t, faults);
  }

  /** The last three stages, written out. */
  lemma LastThreeUnrolled(s: seq<Stage>, t: seq<string>, faults: Faults)
    requires |s| == 6
    ensures LastThree(s, Prefix(s, 3, t, faults), faults) == Prefix(s, 6, t, faults)
  {
    ResumeStep(s, 3, t, faults);
    ResumeStep(s, 4, t, faults);
    ResumeStep(s, 5, t, faults);
  }

  /** One more stage of a chain started on trace `t`. */
  lemma ResumeStep(s: seq<Stage>, k: nat, t: seq<string>, faults: Faults)
    requires k < |s|
    ensures var pre := RunPipeline(s[..k], |t|, faults);
      var post := RunPipeline(s[..k + 1], |t|, faults);
      && (pre.outcome.Raised? ==> post == pre)
      && (pre.outcome.Completed? ==> (t + post.issued, post.outcome) == Resume(t + pre.issued, s[k], faults))
  {
    assert s[..k + 1][..k] == s[..k];
    var pre := RunPipeline(s[..k], |t|, faults);
    var next := RunStage(s[k], |t| + |pre.issued|, faults);
    assert t + (pre.issued + next.issued) == t + pre.issued + next.issued;
  }
}
