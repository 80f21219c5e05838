# Laravel DigitalOcean deployer: the deployment orchestrator

This project models the `Deployer` class of the Laravel DigitalOcean deployer
package and proves properties of that model. `Deployer::deploy()` is a fixed,
fail-fast pipeline of six stages run inside one `try`:

1. the before-hooks;
2. the SSH preparation;
3. the code pull;
4. the build steps;
5. the permission fix;
6. the after-hooks.

Every stage builds shell-command strings and hands them to Laravel's
`Process::run`. The first exception skips all later stages. It is logged
through `Log::error` as `Deployment failed: <message>`, and `deploy()` then
returns false.

The model has seven modules, one per file:

- `Wrappers`: `Option` and `Result`.
- `Strings`: PHP's `implode` as `Join`, a `Split` that inverts it, and a
  substring search.
- `Settings`: the shape of the `deployer` configuration array and the
  defaults of the published configuration file. The `steps` entry is a PHP
  array, an ordered map; it is modelled as the list of its key/value entries.
- `Facades`: the two Laravel facades.
  - `Process` records every command it is given, in order, in `trace`. A
    fault oracle (`faults`, a map from call number to message) says which
    calls raise. The raising command is recorded too.
  - `Log` appends each message to `entries`.
- `Commands`: every command string the orchestrator builds. It also holds the
  step-flag tests, with `CollectStepCommands` as the nine in-place appends of
  `runDeploymentSteps`. `ParseRemote` reads a remote command back into its
  target and its script, which lets the lemmas state what each remote command
  contains.
- `Pipeline`: the reference semantics of the stage chain (`RunCommands`,
  `RunPipeline`, `Deployment`) and the lemmas about it.
- `Deployer`: the class with its stage methods, each proved against
  `RunStage` of its stage; `Deploy` is proved against `Deployment`.

Reading a step flag that is missing from the `steps` array raises. PHP emits
an "Undefined array key" warning, and Laravel turns it into an exception.
Because the package merges its configuration shallowly, a published `steps`
array can lack keys. The model has this as the `UndefinedArrayKey` failure.
The build-steps stage then raises before it issues anything.

Further facts about `deploy()` that the model keeps:

- The runner's exit status is never examined, so only an exception stops the
  run.
- The SSH preparation is the second stage and runs before any remote command.
- The permission modes are read from the configuration.
- The build-steps command is issued even when no step is enabled. Its script
  is then `cd <path> && ` followed by nothing.

## Model

| member | source | states |
|---|---|---|
| Deployer.Deployer.Deploy | src/Deployer.php:18-33 | The return value, the commands handed to the runner and the log entries are exactly those of `Deployment` on the six stages; the output buffer is unchanged |
| Deployer.Unrolled | src/Deployer.php:21-26 | `Stages` lists the six stages in call order. The chained stage calls, each run only when all earlier ones returned, behave as the reference pipeline of the six stages |
| Deployer.Deployer.RunHooks | src/Deployer.php:139-141 | A hook list is issued as local commands, once each and in list order, up to and including the first that raises; an empty list issues nothing |
| Deployer.Deployer.RunBeforeHooks | src/Deployer.php:137-143 | The before-hooks stage issues the configured `before` list as `RunHooks` does |
| Deployer.Deployer.RunAfterHooks | src/Deployer.php:145-151 | The after-hooks stage issues the configured `after` list as `RunHooks` does |
| Deployer.Deployer.SetupSsh | src/Deployer.php:35-46 | The six local commands of `SshSetupCommands` (the last one `KeyscanHost`) are issued in their fixed order, ending with `ssh-keyscan -H <host>`, stopping at the first that raises |
| Deployer.Deployer.PullCode | src/Deployer.php:48-64 | Exactly one command, the pull command for the configured server and branch, is issued |
| Deployer.Deployer.RunDeploymentSteps | src/Deployer.php:66-115 | As `StepsStage` defines the stage: a missing step flag raises with nothing issued; otherwise exactly one remote command carrying the collected batch is issued, also when the batch is empty |
| Deployer.Deployer.SetPermissions | src/Deployer.php:117-135 | Exactly one command, the permission command for the configured path and modes, is issued |
| Deployer.Deployer.GetOutput | src/Deployer.php:153-156 | Returns the output buffer, which is always the empty list it started as |
| Deployer.Deployer.constructor | src/Deployer.php:13-16 | Stores the configuration and starts with an empty output buffer |
| Pipeline.RunCommandsStopsAtFirstFault | src/Deployer.php:38-43 | About `RunCommands`, the reference for a stage that issues commands one after another: they are all issued when no call raises; otherwise exactly those up to and including the first raising call are, and its exception ends the run |
| Pipeline.PipelineIssuesPrefix | src/Deployer.php:21-26 | The pipeline issues a prefix of the commands its stages plan, in stage order, and all of them when it completes |
| Pipeline.PipelineCompletesIff | src/Deployer.php:20-28 | The pipeline completes if and only if no stage raises by itself and no runner call of the plan raises |
| Pipeline.RaisedIgnoresLater | src/Deployer.php:20-31 | Once a chain of stages has raised, appending further stages changes neither the commands issued nor the exception |
| Pipeline.AfterHooksNeedEarlierStages | src/Deployer.php:21-26 | After-hook commands are issued only when the five earlier stages completed, and then they follow those stages' commands |
| Pipeline.DeploySucceedsIff | src/Deployer.php:18-33 | About `Deployment`, the reference for what `deploy()` returns and logs (`Message` gives the exception's message): `deploy()` returns true if and only if every step flag is present and no runner call of the full plan raises; then the full plan is issued in stage order and nothing is logged; otherwise exactly one `Deployment failed: <message>` entry is logged |
| Pipeline.DefaultDeploySucceedsIff | config/deployer.php:30-66 | With the published configuration a successful deployment is nine runner calls: the SSH preparation, the pull, the build batch of the default steps and the permission fix; it succeeds if and only if none of those nine calls raises |
| Commands.Flag | src/Deployer.php:75 | Reading a step flag yields its value when the key exists and raises "Undefined array key" for that key otherwise |
| Commands.EnabledUpTo | src/Deployer.php:75-109 | The flag tests raise at the first missing flag in declaration order; otherwise the collected steps are in strictly increasing declaration order |
| Commands.EnabledUpToMembership | src/Deployer.php:75-109 | A step is collected if and only if it is among the steps tested and its flag is true |
| Commands.CollectStepCommands | src/Deployer.php:73-109 | The nine conditional appends yield the step batch of `StepCommands`, or the exception of the first missing flag |
| Commands.TestFlag | src/Deployer.php:75-77 | One flag test appends its step's command when the flag is true, leaves the list alone when it is false, and raises when the key is missing |
| Commands.TestsFrom | src/Deployer.php:75-109 | Running the remaining flag tests after a correctly collected prefix yields the stage's batch |
| Commands.StepBatchMembership | src/Deployer.php:73-109 | A step's command is in the batch if and only if its flag is true |
| Commands.EnabledStepsDetermined | src/Deployer.php:73-109 | Any list of steps in declaration order that holds exactly the steps whose flag is true is the collected list |
| Commands.StepBatchIgnoresKeyOrder | src/Deployer.php:73-109 | The order in which the flags were written in the `steps` array does not change the batch or the exception |
| Commands.TemplateInjective | src/Deployer.php:76-108 | About `Template`, the fixed command of each step (lines 76-108): distinct steps have distinct commands |
| Commands.TemplateAmpFree | src/Deployer.php:76-108 | No step command contains `&`, so the batch splits back at its separators |
| Commands.ParseRemoteCommand | src/Deployer.php:112 | About `RemoteCommand`, the `ssh … user@host '<script>'` wrapper: a remote command reads back as the target `user@host` and its script, unchanged |
| Commands.PullCommandParts | src/Deployer.php:55-59 | About `PullCommand`: the pull is a remote command to `user@host` whose script is, in order: change into the path, fetch all remotes, hard-reset to `origin/<branch>` |
| Commands.StepsCommandParts | src/Deployer.php:111-112 | About `StepsCommand`: the build-steps command targets `user@host`, and its script splits at `" && "` into `cd <path>` followed by exactly the collected step commands, or by one empty piece when none is enabled |
| Commands.PermissionCommandParts | src/Deployer.php:124-132 | About `PermissionCommand` and its four `PermissionCommands`: the permission command targets `user@host` and its script splits at `" && "` into exactly four sub-commands: files mode on the path, directories mode on every directory, storage mode on `path/storage`, bootstrap-cache mode on `path/bootstrap/cache` |
| Commands.DefaultStepBatch | config/deployer.php:30-40 | With the default flags the enabled steps are composer install, then migrate, then the five remaining artisan commands |
| Commands.DefaultLookup | config/deployer.php:30-40 | Every default flag is present, and only the two npm steps are off |
| Commands.DefaultPermissionCommand | config/deployer.php:61-66 | With the default modes the permission fix applies 644 to files, 755 to directories and 775 to `storage` and `bootstrap/cache` |
| Strings.SplitJoin | src/Deployer.php:111 | `implode` with a separator absent from the parts is undone by splitting at that separator |
| Settings.LookupFindsEntry | src/Deployer.php:75 | With distinct keys, reading a key of a PHP array finds exactly the entry stored under it, or nothing when no entry has that key |
| Settings.LookupIgnoresOrder | config/deployer.php:30-40 | Two PHP arrays with the same entries in a different order give the same value for every key |
| Facades.Process.Run | src/Deployer.php:38 | `Process::run` records its command and raises exactly when the fault oracle says so for that call |
| Facades.Log.Error | src/Deployer.php:30 | `Log::error` appends its message |

## Left out

- Process execution: SSH, git, composer, npm, artisan and the shell's `base64 -d` are not executed. The runner only records commands, and an oracle decides which calls raise.
- Exit codes and timeouts: the orchestrator never looks at what `Process::run` returns. The model therefore has no result for a call other than raising or not.
- `Log::error`: the log is modelled only as the list of messages written.
- The progress callback that the console command passes to `deploy()` is neither declared nor used by the method, so it is not modelled.
- The facades and the configuration array are fields of the class, not globals. The configuration is typed: every value read has the type the code expects. Null values, non-boolean flags and PHP truthiness are not modelled.
- A missing configuration entry other than a step flag (server, repository, hooks, permissions) is not modelled; the configuration type always has them.
- String interpolation is modelled on `seq<char>`. Shell quoting is not: the lemmas about remote commands require the user and host to contain no `'`, and the path, branch and modes to contain no `&`.
- The nine flag tests of `runDeploymentSteps` run inside `CollectStepCommands` through the helper method `TestFlag`, one call per `if`.
- The SSH preparation, pull and permission stages issue their commands through the helper method `RunNext`, one call per `Process::run`.
- The console command, the key generator, the workflow publisher and the service provider are not part of this model; they hold no deployment logic.
