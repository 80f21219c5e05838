/**
 * The command strings the orchestrator builds: the SSH preparation commands, the
 * code pull, the batch of enabled build steps, the permission fix, and the
 * `ssh … user@host '<script>'` wrapper shared by the three remote commands.
 * Each builder has an inverse (ParseRemote, Split) or a characterisation that
 * says what the built string contains.
 */
module Commands {
  import opened Wrappers
  import opened Strings
  import opened Settings
  import opened Facades

  // ---------------------------------------------------------------------------
  // Build steps
  // ---------------------------------------------------------------------------

  /** The nine toggleable build and maintenance steps. */
  datatype Step =
    | ComposerInstall | NpmInstall | NpmBuild
    | ArtisanMigrate | ArtisanStorageLink | ArtisanCacheClear
    | ArtisanConfigCache | ArtisanRouteCache | ArtisanViewCache

  const StepCount := 9

  /** The steps in the order the orchestrator tests their flags. */
  function StepAt(i: nat): (s: Step)
    requires i < StepCount
    ensures Ord(s) == i
  {
    if i == 0 then ComposerInstall
    else if i == 1 then NpmInstall
    else if i == 2 then NpmBuild
    else if i == 3 then ArtisanMigrate
    else if i == 4 then ArtisanStorageLink
    else if i == 5 then ArtisanCacheClear
    else if i == 6 then ArtisanConfigCache
    else if i == 7 then ArtisanRouteCache
    else ArtisanViewCache
  }

  /** The position of a step in declaration order. */
  function Ord(s: Step): (i: nat)
    ensures i < StepCount
  {
    match s
    case ComposerInstall => 0
    case NpmInstall => 1
    case NpmBuild => 2
    case ArtisanMigrate => 3
    case ArtisanStorageLink => 4
    case ArtisanCacheClear => 5
    case ArtisanConfigCache => 6
    case ArtisanRouteCache => 7
    case ArtisanViewCache => 8
  }

  /** Each position holds exactly one step. */
  lemma StepAtOrd(s: Step)
    ensures StepAt(Ord(s)) == s
  {
  }

  /** The keys of the steps' flags in the `steps` array, in declaration order. */
  const KeyText: seq<string> := [
    "composer_install", "npm_install", "npm_build",
    "artisan_migrate", "artisan_storage_link", "artisan_cache_clear",
    "artisan_config_cache", "artisan_route_cache", "artisan_view_cache"
  ]

  /** The key of a step's flag in the `steps` array. */
  function Key(s: Step): string
  {
    KeyText[Ord(s)]
  }

  /**
   * The fixed shell command a step runs on the server. (The composer command is
   * written as two literals only to keep the solver's work on it small; the
   * string is the same.)
   */
  function Template(s: Step): string
  {
    match s
    case ComposerInstall => "composer install --no-interaction" + " --prefer-dist --optimize-autoloader"
    case NpmInstall => "npm install"
    case NpmBuild => "npm run build"
    case ArtisanMigrate => "php artisan migrate --force"
    case ArtisanStorageLink => "php artisan storage:link"
    case ArtisanCacheClear => "php artisan cache:clear"
    case ArtisanConfigCache => "php artisan config:cache"
    case ArtisanRouteCache => "php artisan route:cache"
    case ArtisanViewCache => "php artisan view:cache"
  }

  /**
   * Proof helper: reads the step back from its command, by length and one
   * distinguishing character; it exists only to prove `TemplateInjective`.
   */
  function StepOfTemplate(t: string): Step
  {
    if |t| == 11 then NpmInstall
    else if |t| == 13 then NpmBuild
    else if |t| == 27 then ArtisanMigrate
    else if |t| == 22 then ArtisanViewCache
    else if |t| == 24 then (if t[12] == 's' then ArtisanStorageLink else ArtisanConfigCache)
    else if |t| == 23 then (if t[12] == 'c' then ArtisanCacheClear else ArtisanRouteCache)
    else ComposerInstall
  }

  /** Each step command identifies its step. */
  lemma TemplateIdentifiesStep(a: Step)
    ensures StepOfTemplate(Template(a)) == a
  {
  }

  /** Distinct steps have distinct commands. */
  lemma TemplateInjective(a: Step, b: Step)
    ensures Template(a) == Template(b) ==> a == b
  {
    TemplateIdentifiesStep(a);
    TemplateIdentifiesStep(b);
  }

  /** No step command contains '&'. */
  lemma TemplateAmpFree(a: Step)
    ensures '&' !in Template(a)
  {
    if a == ComposerInstall {
      AmpFreeComposer();
    } else if a == NpmInstall || a == NpmBuild {
      AmpFreeNpm(a);
    } else {
      AmpFreeArtisan(a);
    }
  }

  // Proof helpers for `TemplateAmpFree`: one small lemma per group of literals,
  // so that the solver never has to scan all nine commands at once.

  lemma AmpFreeComposer()
    ensures '&' !in Template(ComposerInstall)
  {
    AmpFreeComposerHead();
    AmpFreeComposerTail();
    AmpFreeConcat("composer install --no-interaction", " --prefer-dist --optimize-autoloader");
  }

  lemma AmpFreeComposerHead()
    ensures '&' !in "composer install --no-interaction"
  {
  }

  lemma AmpFreeComposerTail()
    ensures '&' !in " --prefer-dist --optimize-autoloader"
  {
  }

  lemma AmpFreeNpm(a: Step)
    requires a == NpmInstall || a == NpmBuild
    ensures '&' !in Template(a)
  {
  }

  lemma AmpFreeArtisan(a: Step)
    requires a != ComposerInstall && a != NpmInstall && a != NpmBuild
    ensures '&' !in Template(a)
  {
  }

  /** `$steps[$key]` as the orchestrator reads it: a missing key raises. */
  function Flag(flags: Flags, key: string): (r: Result<bool, Failure>)
    ensures r.Success? <==> Lookup(flags, key).Some?
    ensures r.Success? ==> Lookup(flags, key) == Some(r.value)
    ensures r.Failure? ==> r.error == UndefinedArrayKey(key)
  {
    match Lookup(flags, key)
    case None => Failure(UndefinedArrayKey(key))
    case Some(on) => Success(on)
  }

  /** The first of the first `i` steps whose flag is missing from the array. */
  function FirstMissing(flags: Flags, i: nat): (r: Option<nat>)
    requires i <= StepCount
    ensures r.Some? ==> r.value < i && Lookup(flags, Key(StepAt(r.value))).None?
    ensures r.Some? ==> forall j :: 0 <= j < r.value ==> Lookup(flags, Key(StepAt(j))).Some?
    ensures r.None? <==> forall j :: 0 <= j < i ==> Lookup(flags, Key(StepAt(j))).Some?
  {
    if i == 0 then None
    else match FirstMissing(flags, i - 1)
      case Some(j) => Some(j)
      case None => if Lookup(flags, Key(StepAt(i - 1))).None? then Some(i - 1) else None
  }

  /**
   * The enabled steps among the first `i` of the catalog, tested in declaration
   * order; reading a missing flag raises before any later flag is read.
   */
  function EnabledUpTo(flags: Flags, i: nat): (r: Result<seq<Step>, Failure>)
    requires i <= StepCount
    ensures r.Success? <==> FirstMissing(flags, i).None?
    ensures r.Failure? ==> r.error == UndefinedArrayKey(Key(StepAt(FirstMissing(flags, i).value)))
    ensures r.Success? ==> forall k :: 0 <= k < |r.value| ==> Ord(r.value[k]) < i
    ensures r.Success? ==> forall a, b :: 0 <= a < b < |r.value| ==> Ord(r.value[a]) < Ord(r.value[b])
  {
    if i == 0 then Success([])
    else
      var prior := EnabledUpTo(flags, i - 1);
      if prior.Failure? then prior
      else match Flag(flags, Key(StepAt(i - 1)))
        case Failure(f) => Failure(f)
        case Success(on) => Success(prior.value + if on then [StepAt(i - 1)] else [])
  }

  /** A step is collected exactly when it is among the first `i` and its flag is true. */
  lemma {:induction false} EnabledUpToMembership(flags: Flags, i: nat, s: Step)
    requires i <= StepCount && EnabledUpTo(flags, i).Success?
    ensures s in EnabledUpTo(flags, i).value <==> Ord(s) < i && Lookup(flags, Key(s)) == Some(true)
  {
    if i > 0 {
      EnabledUpToMembership(flags, i - 1, s);
      StepAtOrd(s);
    }
  }

  function EnabledSteps(flags: Flags): Result<seq<Step>, Failure>
  {
    EnabledUpTo(flags, StepCount)
  }

  function Templates(steps: seq<Step>): (r: seq<string>)
    ensures |r| == |steps| && forall k :: 0 <= k < |steps| ==> r[k] == Template(steps[k])
  {
    seq(|steps|, k requires 0 <= k < |steps| => Template(steps[k]))
  }

  /** The list of step commands the steps stage collects, or the exception it raises. */
  function StepCommands(flags: Flags): Result<seq<string>, Failure>
  {
    match EnabledSteps(flags)
    case Success(steps) => Success(Templates(steps))
    case Failure(f) => Failure(f)
  }

  /** The commands collected after testing the first `i` flags, none of them missing. */
  ghost predicate CollectedSoFar(flags: Flags, i: nat, commands: seq<string>)
    requires i <= StepCount
  {
    EnabledUpTo(flags, i).Success? && Templates(EnabledUpTo(flags, i).value) == commands
  }

  /** A missing flag, read after the earlier ones were found, makes the whole stage raise. */
  lemma FlagMissing(flags: Flags, s: Step, commands: seq<string>)
    requires CollectedSoFar(flags, Ord(s), commands) && Flag(flags, Key(s)).Failure?
    ensures StepCommands(flags) == Failure(UndefinedArrayKey(Key(s)))
  {
    StepAtOrd(s);
    EnabledUpToFailureSticks(flags, Ord(s) + 1, StepCount);
  }

  /** A flag that is present appends its step's command when it is true. */
  lemma FlagRead(flags: Flags, s: Step, commands: seq<string>, on: bool)
    requires CollectedSoFar(flags, Ord(s), commands) && Flag(flags, Key(s)) == Success(on)
    ensures CollectedSoFar(flags, Ord(s) + 1, if on then commands + [Template(s)] else commands)
  {
    StepAtOrd(s);
  }

  /** Once a flag read has raised, reading further flags never happens. */
  lemma {:induction false} EnabledUpToFailureSticks(flags: Flags, i: nat, j: nat)
    requires i <= j <= StepCount && EnabledUpTo(flags, i).Failure?
    ensures EnabledUpTo(flags, j) == EnabledUpTo(flags, i)
    decreases j - i
  {
    if i < j {
      EnabledUpToFailureSticks(flags, i, j - 1);
    }
  }

  /**
   * `runDeploymentSteps` building its list: nine flag tests in declaration
   * order, each appending its step's command when the flag is true; a missing
   * flag raises before any later flag is read.
   */
  method CollectStepCommands(flags: Flags) returns (r: Result<seq<string>, Failure>)
    ensures r == StepCommands(flags)
  {
    TestsFrom(flags, 0, []);
    var commands: seq<string> := [];
    r := TestFlag(flags, ComposerInstall, commands);
    if r.Failure? {
      return;
    }
    commands := r.value;
    r := TestFlag(flags, NpmInstall, commands);
    if r.Failure? {
      return;
    }
    commands := r.value;
    r := TestFlag(flags, NpmBuild, commands);
    if r.Failure? {
      return;
    }
    commands := r.value;
    r := TestFlag(flags, ArtisanMigrate, commands);
    if r.Failure? {
      return;
    }
    commands := r.value;
    r := TestFlag(flags, ArtisanStorageLink, commands);
    if r.Failure? {
      return;
    }
    commands := r.value;
    r := TestFlag(flags, ArtisanCacheClear, commands);
    if r.Failure? {
      return;
    }
    commands := r.value;
    r := TestFlag(flags, ArtisanConfigCache, commands);
    if r.Failure? {
      return;
    }
    commands := r.value;
    r := TestFlag(flags, ArtisanRouteCache, commands);
    if r.Failure? {
      return;
    }
    commands := r.value;
    r := TestFlag(flags, ArtisanViewCache, commands);
    if r.Failure? {
      return;
    }
    commands := r.value;
    r := Success(commands);
  }

  /** One test: `if ($steps[key]) { $commands[] = command; }`, raising when the key is missing. */
  method TestFlag(flags: Flags, s: Step, commands: seq<string>) returns (r: Result<seq<string>, Failure>)
    ensures Flag(flags, Key(s)).Failure? ==> r == Failure(UndefinedArrayKey(Key(s)))
    ensures Flag(flags, Key(s)) == Success(true) ==> r == Success(commands + [Template(s)])
    ensures Flag(flags, Key(s)) == Success(false) ==> r == Success(commands)
    ensures r.Failure? ==> r == TestFrom(flags, Ord(s), commands)
    ensures r.Success? ==> TestFrom(flags, Ord(s) + 1, r.value) == TestFrom(flags, Ord(s), commands)
  {
    StepAtOrd(s);
    var flag := Flag(flags, Key(s));
    if flag.Failure? {
      return Failure(flag.error);
    }
    var next := commands;
    if flag.value {
      next := next + [Template(s)];
    }
    r := Success(next);
  }

  /**
   * The flag tests from step `i` on, `commands` collected so far: the remaining
   * tests in declaration order, stopping at the first missing flag. This is a
   * proof bridge between the nine tests of `CollectStepCommands` and
   * `EnabledUpTo`, which defines the batch; `TestsFrom` shows the two agree.
   */
  function TestFrom(flags: Flags, i: nat, commands: seq<string>): Result<seq<string>, Failure>
    requires i <= StepCount
    decreases StepCount - i
  {
    if i == StepCount then Success(commands)
    else match Flag(flags, Key(StepAt(i)))
      case Failure(f) => Failure(f)
      case Success(on) => TestFrom(flags, i + 1, if on then commands + [Template(StepAt(i))] else commands)
  }

  /** Running the remaining tests after a correct prefix gives the stage's batch. */
  lemma {:induction false} TestsFrom(flags: Flags, i: nat, commands: seq<string>)
    requires i <= StepCount && CollectedSoFar(flags, i, commands)
    ensures TestFrom(flags, i, commands) == StepCommands(flags)
    decreases StepCount - i
  {
    if i < StepCount {
      var s := StepAt(i);
      match Flag(flags, Key(s))
      case Failure(_) =>
        FlagMissing(flags, s, commands);
      case Success(on) =>
        FlagRead(flags, s, commands, on);
        TestsFrom(flags, i + 1, if on then commands + [Template(s)] else commands);
    }
  }

  /** A step's command is in the batch exactly when its flag is true. */
  lemma StepBatchMembership(flags: Flags, s: Step)
    requires StepCommands(flags).Success?
    ensures Template(s) in StepCommands(flags).value <==> Lookup(flags, Key(s)) == Some(true)
  {
    EnabledUpToMembership(flags, StepCount, s);
    TemplatesMembership(EnabledSteps(flags).value, s);
  }

  lemma TemplatesMembership(steps: seq<Step>, s: Step)
    ensures Template(s) in Templates(steps) <==> s in steps
  {
    if s in steps {
      var k :| 0 <= k < |steps| && steps[k] == s;
      assert Templates(steps)[k] == Template(s);
    }
    if Template(s) in Templates(steps) {
      var k :| 0 <= k < |steps| && Templates(steps)[k] == Template(s);
      TemplateInjective(steps[k], s);
    }
  }

  /** Two lists of steps in strictly increasing declaration order with the same members are equal. */
  lemma {:induction false} OrderedStepsEqual(xs: seq<Step>, ys: seq<Step>)
    requires forall a, b :: 0 <= a < b < |xs| ==> Ord(xs[a]) < Ord(xs[b])
    requires forall a, b :: 0 <= a < b < |ys| ==> Ord(ys[a]) < Ord(ys[b])
    requires forall s :: s in xs <==> s in ys
    ensures xs == ys
    decreases |xs|
  {
    if xs != [] {
      assert xs[0] in xs;
    }
    if ys != [] {
      assert ys[0] in ys;
    }
    if xs != [] && ys != [] {
      var k :| 0 <= k < |ys| && ys[k] == xs[0];
      var l :| 0 <= l < |xs| && xs[l] == ys[0];
      assert Ord(ys[0]) <= Ord(ys[k]);
      assert Ord(xs[0]) <= Ord(xs[l]);
      StepAtOrd(xs[0]);
      StepAtOrd(ys[0]);
      assert xs[0] == ys[0];
      forall s ensures s in xs[1..] <==> s in ys[1..] {
        if s in xs[1..] {
          var a :| 1 <= a < |xs| && xs[a] == s;
          assert Ord(xs[0]) < Ord(s);
          assert s in ys;
        }
        if s in ys[1..] {
          var b :| 1 <= b < |ys| && ys[b] == s;
          assert Ord(ys[0]) < Ord(s);
          assert s in xs;
        }
      }
      OrderedStepsEqual(xs[1..], ys[1..]);
      assert xs == [xs[0]] + xs[1..] && ys == [ys[0]] + ys[1..];
    }
  }

  /**
   * Membership and declaration order pin the enabled steps down: any list of
   * steps, in declaration order, holding exactly the steps whose flag is true,
   * is the one the orchestrator collects.
   */
  lemma EnabledStepsDetermined(flags: Flags, xs: seq<Step>)
    requires EnabledSteps(flags).Success?
    requires forall a, b :: 0 <= a < b < |xs| ==> Ord(xs[a]) < Ord(xs[b])
    requires forall s :: s in xs <==> Lookup(flags, Key(s)) == Some(true)
    ensures EnabledSteps(flags).value == xs
  {
    forall s ensures s in EnabledSteps(flags).value <==> s in xs {
      EnabledUpToMembership(flags, StepCount, s);
    }
    OrderedStepsEqual(EnabledSteps(flags).value, xs);
  }

  /** The order in which the flags were written in the array does not change the batch. */
  lemma StepBatchIgnoresKeyOrder(a: Flags, b: Flags)
    requires UniqueKeys(a) && UniqueKeys(b)
    requires forall e :: e in a <==> e in b
    ensures StepCommands(a) == StepCommands(b)
  {
    forall key ensures Lookup(a, key) == Lookup(b, key) {
      LookupIgnoresOrder(a, b, key);
    }
    SameLookupsSameSteps(a, b, StepCount);
  }

  lemma {:induction false} SameLookupsSameSteps(a: Flags, b: Flags, i: nat)
    requires i <= StepCount
    requires forall key :: Lookup(a, key) == Lookup(b, key)
    ensures EnabledUpTo(a, i) == EnabledUpTo(b, i)
  {
    if i > 0 {
      SameLookupsSameSteps(a, b, i - 1);
      var key := Key(StepAt(i - 1));
      assert Flag(a, key) == Flag(b, key) by {
        assert Lookup(a, key) == Lookup(b, key);
      }
    }
  }

  // ---------------------------------------------------------------------------
  // Remote commands
  // ---------------------------------------------------------------------------

  /** The fixed head of every remote command. */
  const SshPrefix := "ssh -o StrictHostKeyChecking=no -i ~/.ssh/deploy_key "

  /** `ssh … user@host '<script>'`. */
  function RemoteCommand(user: string, host: string, script: string): string
  {
    SshPrefix + user + "@" + host + " '" + script + "'"
  }

  /** The login and the script of a remote command. */
  datatype Remote = Remote(login: string, script: string)

  /** Reads a remote command back: the text after the prefix up to the first " '", then the quoted script. */
  function ParseRemote(cmd: string): Option<Remote>
  {
    if |cmd| < |SshPrefix| + 1 || cmd[..|SshPrefix|] != SshPrefix || cmd[|cmd| - 1] != '\'' then None
    else
      var body := cmd[|SshPrefix|..|cmd| - 1];
      match IndexOf(body, " '", 0)
      case None => None
      case Some(i) => Some(Remote(body[..i], body[i + 2..]))
  }

  /** A remote command names its target `user@host` and carries its script unchanged. */
  lemma ParseRemoteCommand(user: string, host: string, script: string)
    requires '\'' !in user && '\'' !in host
    ensures ParseRemote(RemoteCommand(user, host, script)) == Some(Remote(user + "@" + host, script))
  {
    var login := user + "@" + host;
    var cmd := RemoteCommand(user, host, script);
    assert cmd == SshPrefix + (login + " '" + script) + "'";
    var body := cmd[|SshPrefix|..|cmd| - 1];
    assert body == login + " '" + script;
    assert '\'' !in login;
    FirstOccurrenceAfter(login, " '", script, 1, 0);
    assert body[..|login|] == login;
    assert body[|login| + 2..] == script;
  }

  /** The sub-command separator of the step and permission batches. */
  const AndThen := " && "

  // ---------------------------------------------------------------------------
  // The commands of each stage
  // ---------------------------------------------------------------------------

  const MakeSshDir := "mkdir -p ~/.ssh/"
  const WriteDeployKey := "echo \"$DO_SSH_KEY\" | base64 -d > ~/.ssh/deploy_key"
  const RestrictDeployKey := "chmod 600 ~/.ssh/deploy_key"
  const StartAgent := "eval \"$(ssh-agent -s)\""
  const AddDeployKey := "ssh-add ~/.ssh/deploy_key"

  function KeyscanHost(host: string): string
  {
    "ssh-keyscan -H " + host + " >> ~/.ssh/known_hosts"
  }

  /** The six local commands of the SSH preparation, in the order they run. */
  function SshSetupCommands(host: string): seq<string>
  {
    [MakeSshDir, WriteDeployKey, RestrictDeployKey, StartAgent, AddDeployKey, KeyscanHost(host)]
  }

  const PullIndent := "            "
  const PullSeparator := " &&\n" + PullIndent

  /** The remote command that moves the server checkout to the configured branch. */
  function PullCommand(c: Config): string
  {
    RemoteCommand(c.server.username, c.server.host,
      "\n" + PullIndent + "cd " + c.server.path + " &&\n"
      + PullIndent + "git fetch --all &&\n"
      + PullIndent + "git reset --hard origin/" + c.branch + "\n        ")
  }

  /**
   * The pull is one remote command to `user@host` whose script is three
   * sub-commands, in order: change into the path, fetch all remotes, hard-reset
   * to the branch's remote-tracking ref.
   */
  lemma PullCommandParts(c: Config)
    requires '\'' !in c.server.username && '\'' !in c.server.host
    requires '&' !in c.server.path && '&' !in c.branch
    ensures var r := ParseRemote(PullCommand(c));
      && r.Some?
      && r.value.login == c.server.username + "@" + c.server.host
      && Split(r.value.script, PullSeparator) == [
           "\n" + PullIndent + "cd " + c.server.path,
           "git fetch --all",
           "git reset --hard origin/" + c.branch + "\n        "]
  {
    var parts := [
      "\n" + PullIndent + "cd " + c.server.path,
      "git fetch --all",
      "git reset --hard origin/" + c.branch + "\n        "];
    PullScriptIsJoin(c.server.path, c.branch);
    PullPartsAmpFree(c.server.path, c.branch);
    RemoteBatchParts(c.server.username, c.server.host, parts, PullSeparator, 1);
  }

  lemma PullScriptIsJoin(path: string, branch: string)
    ensures Join(["\n" + PullIndent + "cd " + path, "git fetch --all", "git reset --hard origin/" + branch + "\n        "], PullSeparator)
         == "\n" + PullIndent + "cd " + path + " &&\n"
            + PullIndent + "git fetch --all &&\n"
            + PullIndent + "git reset --hard origin/" + branch + "\n        "
  {
    var parts := ["\n" + PullIndent + "cd " + path, "git fetch --all", "git reset --hard origin/" + branch + "\n        "];
    assert Join(parts[2..], PullSeparator) == parts[2];
    assert Join(parts[1..], PullSeparator) == parts[1] + PullSeparator + parts[2];
  }

  lemma PullPartsAmpFree(path: string, branch: string)
    requires '&' !in path && '&' !in branch
    ensures '&' !in "\n" + PullIndent + "cd " + path
    ensures '&' !in "git fetch --all"
    ensures '&' !in "git reset --hard origin/" + branch + "\n        "
  {
    AmpFreeConcat("\n" + PullIndent + "cd ", path);
    AmpFreeConcat("git reset --hard origin/", branch);
    AmpFreeConcat("git reset --hard origin/" + branch, "\n        ");
  }

  /** A remote command whose script is a join reads back as its target and the joined parts. */
  lemma RemoteBatchParts(user: string, host: string, parts: seq<string>, sep: string, m: nat)
    requires '\'' !in user && '\'' !in host
    requires |parts| > 0 && Anchor(sep, m)
    requires forall i :: 0 <= i < |parts| ==> sep[m] !in parts[i]
    ensures var r := ParseRemote(RemoteCommand(user, host, Join(parts, sep)));
      r.Some? && r.value.login == user + "@" + host && Split(r.value.script, sep) == parts
  {
    ParseRemoteCommand(user, host, Join(parts, sep));
    SplitJoin(parts, sep, m);
  }

  lemma AmpFreeConcat(a: string, b: string)
    requires '&' !in a && '&' !in b
    ensures '&' !in a + b
  {
  }

  lemma StepsScriptIsJoin(path: string, cmds: seq<string>)
    ensures Join(["cd " + path] + (if cmds == [] then [""] else cmds), AndThen) == "cd " + path + " && " + Join(cmds, AndThen)
  {
    var parts := ["cd " + path] + (if cmds == [] then [""] else cmds);
    assert parts[1..] == (if cmds == [] then [""] else cmds);
  }

  /** No collected step command contains '&'. */
  lemma StepCommandsAmpFree(flags: Flags)
    requires StepCommands(flags).Success?
    ensures forall i :: 0 <= i < |StepCommands(flags).value| ==> '&' !in StepCommands(flags).value[i]
  {
    var steps := EnabledSteps(flags).value;
    forall i | 0 <= i < |steps| ensures '&' !in Templates(steps)[i] {
      TemplateAmpFree(steps[i]);
    }
  }

  /** The remote command of the steps stage, for the joined batch `batch`. */
  function StepsCommand(c: Config, batch: string): string
  {
    RemoteCommand(c.server.username, c.server.host, "cd " + c.server.path + " && " + batch)
  }

  /**
   * The steps stage runs one remote command to `user@host` whose script is
   * `cd <path>` followed by exactly the collected step commands, joined by " && "
   * (an empty trailing piece when no step is enabled).
   */
  lemma StepsCommandParts(c: Config)
    requires StepCommands(c.steps).Success?
    requires '\'' !in c.server.username && '\'' !in c.server.host && '&' !in c.server.path
    ensures var cmds := StepCommands(c.steps).value;
      var r := ParseRemote(StepsCommand(c, Join(cmds, AndThen)));
      && r.Some?
      && r.value.login == c.server.username + "@" + c.server.host
      && Split(r.value.script, AndThen) == ["cd " + c.server.path] + (if cmds == [] then [""] else cmds)
  {
    StepCommandsAmpFree(c.steps);
    BatchParts(c, StepCommands(c.steps).value);
  }

  /** The steps stage's remote command for any batch of '&'-free commands. */
  lemma BatchParts(c: Config, cmds: seq<string>)
    requires '\'' !in c.server.username && '\'' !in c.server.host && '&' !in c.server.path
    requires forall i :: 0 <= i < |cmds| ==> '&' !in cmds[i]
    ensures var r := ParseRemote(StepsCommand(c, Join(cmds, AndThen)));
      && r.Some?
      && r.value.login == c.server.username + "@" + c.server.host
      && Split(r.value.script, AndThen) == ["cd " + c.server.path] + (if cmds == [] then [""] else cmds)
  {
    ParseRemoteCommand(c.server.username, c.server.host, "cd " + c.server.path + " && " + Join(cmds, AndThen));
    ScriptSplits(c.server.path, cmds);
  }

  /** The steps script splits back into `cd <path>` and the batch. */
  lemma ScriptSplits(path: string, cmds: seq<string>)
    requires '&' !in path
    requires forall i :: 0 <= i < |cmds| ==> '&' !in cmds[i]
    ensures Split("cd " + path + " && " + Join(cmds, AndThen), AndThen) == ["cd " + path] + (if cmds == [] then [""] else cmds)
  {
    StepsScriptIsJoin(path, cmds);
    ScriptPartsAmpFree(path, cmds);
    SplitJoin(["cd " + path] + (if cmds == [] then [""] else cmds), AndThen, 1);
  }

  lemma ScriptPartsAmpFree(path: string, cmds: seq<string>)
    requires '&' !in path
    requires forall i :: 0 <= i < |cmds| ==> '&' !in cmds[i]
    ensures var parts := ["cd " + path] + (if cmds == [] then [""] else cmds);
      forall i :: 0 <= i < |parts| ==> '&' !in parts[i]
  {
    AmpFreeConcat("cd ", path);
  }

  /** The four sub-commands of the permission fix. */
  function PermissionCommands(c: Config): seq<string>
  {
    var path := c.server.path;
    var modes := c.permissions;
    [
      "chmod -R " + modes.files + " " + path,
      "find " + path + " -type d -exec chmod " + modes.directories + " {} \\;",
      "chmod -R " + modes.storage + " " + path + "/storage",
      "chmod -R " + modes.bootstrapCache + " " + path + "/bootstrap/cache"
    ]
  }

  /** The remote command of the permission stage. */
  function PermissionCommand(c: Config): string
  {
    RemoteCommand(c.server.username, c.server.host, Join(PermissionCommands(c), AndThen))
  }

  lemma PermissionPartsAmpFree(c: Config)
    requires '&' !in c.server.path
    requires '&' !in c.permissions.files && '&' !in c.permissions.directories
    requires '&' !in c.permissions.storage && '&' !in c.permissions.bootstrapCache
    ensures forall i :: 0 <= i < 4 ==> '&' !in PermissionCommands(c)[i]
  {
    var path, modes := c.server.path, c.permissions;
    AmpFreeConcat("chmod -R " + modes.files + " ", path);
    AmpFreeConcat("find " + path + " -type d -exec chmod " + modes.directories, " {} \\;");
    AmpFreeConcat("chmod -R " + modes.storage + " " + path, "/storage");
    AmpFreeConcat("chmod -R " + modes.bootstrapCache + " " + path, "/bootstrap/cache");
  }

  /**
   * The permission fix is one remote command to `user@host` running four
   * sub-commands in order: files mode on the path, directories mode on every
   * directory below it, storage mode on `path/storage`, bootstrap-cache mode on
   * `path/bootstrap/cache`.
   */
  lemma PermissionCommandParts(c: Config)
    requires '\'' !in c.server.username && '\'' !in c.server.host
    requires '&' !in c.server.path
    requires '&' !in c.permissions.files && '&' !in c.permissions.directories
    requires '&' !in c.permissions.storage && '&' !in c.permissions.bootstrapCache
    ensures var r := ParseRemote(PermissionCommand(c));
      && r.Some?
      && r.value.login == c.server.username + "@" + c.server.host
      && Split(r.value.script, AndThen) == [
           "chmod -R " + c.permissions.files + " " + c.server.path,
           "find " + c.server.path + " -type d -exec chmod " + c.permissions.directories + " {} \\;",
           "chmod -R " + c.permissions.storage + " " + c.server.path + "/storage",
           "chmod -R " + c.permissions.bootstrapCache + " " + c.server.path + "/bootstrap/cache"]
  {
    PermissionPartsAmpFree(c);
    RemoteBatchParts(c.server.username, c.server.host, PermissionCommands(c), AndThen, 1);
  }

  /**
   * With the published modes the permission fix makes files 644, directories
   * 755, and `storage` and `bootstrap/cache` 775, all on the configured path.
   */
  lemma DefaultPermissionCommand(host: string, username: string, path: string)
    requires '\'' !in username && '\'' !in host && '&' !in path
    ensures var r := ParseRemote(PermissionCommand(DefaultConfig(host, username, path)));
      && r.Some?
      && r.value.login == username + "@" + host
      && Split(r.value.script, AndThen) == [
           "chmod -R 644 " + path,
           "find " + path + " -type d -exec chmod 755 {} \\;",
           "chmod -R 775 " + path + "/storage",
           "chmod -R 775 " + path + "/bootstrap/cache"]
  {
    PermissionCommandParts(DefaultConfig(host, username, path));
    DefaultModeText(path);
  }

  /** Proof helper: the default modes spliced into the permission commands' literals. */
  lemma DefaultModeText(path: string)
    ensures "chmod -R " + "644" + " " + path == "chmod -R 644 " + path
    ensures "find " + path + " -type d -exec chmod " + "755" + " {} \\;" == "find " + path + " -type d -exec chmod 755 {} \\;"
    ensures "chmod -R " + "775" + " " + path == "chmod -R 775 " + path
  {
    assert "chmod -R " + "644" + " " == "chmod -R 644 ";
    assert "chmod -R " + "775" + " " == "chmod -R 775 ";
    assert " -type d -exec chmod " + "755" + " {} \\;" == " -type d -exec chmod 755 {} \\;";
    assert "find " + path + " -type d -exec chmod " + "755" + " {} \\;" == "find " + path + (" -type d -exec chmod " + "755" + " {} \\;");
  }

  /** The steps the published configuration enables, in declaration order. */
  const DefaultEnabled := [
    ComposerInstall, ArtisanMigrate, ArtisanStorageLink, ArtisanCacheClear,
    ArtisanConfigCache, ArtisanRouteCache, ArtisanViewCache
  ]

  /**
   * With the published defaults the batch is composer install, then migrate,
   * then the five remaining artisan commands (stated for any array equal to the
   * default one, which keeps the solver from unfolding the default eagerly).
   */
  lemma DefaultStepBatch(flags: Flags)
    requires flags == DefaultSteps
    ensures EnabledSteps(flags) == Success(DefaultEnabled)
  {
    DefaultFlagsPresent(flags);
    DefaultFlagsEnabled(flags);
    DefaultEnabledFromLookups(flags);
  }

  lemma DefaultEnabledFromLookups(flags: Flags)
    requires FirstMissing(flags, StepCount).None?
    requires forall s :: s in DefaultEnabled <==> Lookup(flags, Key(s)) == Some(true)
    ensures EnabledSteps(flags) == Success(DefaultEnabled)
  {
    DefaultEnabledOrdered();
    EnabledStepsDetermined(flags, DefaultEnabled);
  }

  lemma DefaultEnabledOrdered()
    ensures forall a, b :: 0 <= a < b < |DefaultEnabled| ==> Ord(DefaultEnabled[a]) < Ord(DefaultEnabled[b])
  {
  }

  lemma DefaultFlagsPresent(flags: Flags)
    requires flags == DefaultSteps
    ensures FirstMissing(flags, StepCount).None?
  {
    forall j | 0 <= j < StepCount ensures Lookup(flags, Key(StepAt(j))).Some? {
      DefaultLookup(flags, StepAt(j));
    }
  }

  lemma DefaultFlagsEnabled(flags: Flags)
    requires flags == DefaultSteps
    ensures forall s :: s in DefaultEnabled <==> Lookup(flags, Key(s)) == Some(true)
  {
    forall s ensures s in DefaultEnabled <==> Lookup(flags, Key(s)) == Some(true) {
      DefaultLookup(flags, s);
    }
  }

  /** Every flag of the default array is present; only the two npm steps are off. */
  lemma DefaultLookup(flags: Flags, s: Step)
    requires flags == DefaultSteps
    ensures Lookup(flags, Key(s)) == Some(s != NpmInstall && s != NpmBuild)
  {
    assert flags[Ord(s)] == (Key(s), s != NpmInstall && s != NpmBuild);
    assert UniqueKeys(flags);
    LookupFindsEntry(flags, Key(s), s != NpmInstall && s != NpmBuild);
  }
}
