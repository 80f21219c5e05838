/**
 * The two framework facades the orchestrator calls: `Process::run`, which runs a
 * shell command, and `Log::error`, a logging sink.
 *
 * The runner does not execute anything: it records every command it is given, in
 * order, and consults a fault oracle that says which calls raise an exception
 * (a process that cannot start, a timeout). Its exit status is never looked at by
 * the orchestrator, so it is not modelled.
 */
module Facades {
  import opened Wrappers

  /** The exceptions that can end a deployment. */
  datatype Failure =
    | ProcessException(message: string)  // raised by `Process::run`
    | UndefinedArrayKey(key: string)     // a missing step flag, turned into an ErrorException by the framework

  /** `$e->getMessage()`. */
  function Message(f: Failure): string
  {
    match f
    case ProcessException(m) => m
    case UndefinedArrayKey(k) => "Undefined array key \"" + k + "\""
  }

  /** Whether a call returned normally or raised. */
  datatype Outcome = Completed | Raised(failure: Failure)

  /** The fault oracle: the call numbered `k` (counting from 0) raises with message `faults[k]`. */
  type Faults = map<nat, string>

  /** The first call number in `[lo, hi)` that raises. */
  function FirstFault(faults: Faults, lo: nat, hi: nat): (r: Option<nat>)
    decreases hi - lo
    ensures r.Some? ==> lo <= r.value < hi && r.value in faults
    ensures r.Some? ==> forall k :: lo <= k < r.value ==> k !in faults
    ensures r.None? <==> forall k :: lo <= k < hi ==> k !in faults
  {
    if lo >= hi then None
    else if lo in faults then Some(lo)
    else FirstFault(faults, lo + 1, hi)
  }

  /** A raising call with none before it in the range is the first fault of any longer range. */
  lemma FirstFaultAt(faults: Faults, lo: nat, k: nat, hi: nat)
    requires lo <= k < hi && k in faults
    requires FirstFault(faults, lo, k).None?
    ensures FirstFault(faults, lo, hi) == Some(k)
  {
  }

  /** `Process::run`: every call is recorded in `trace`; the oracle decides whether it raises. */
  class Process {
    var trace: seq<string>
    const faults: Faults

    constructor (faults: Faults)
      ensures trace == [] && this.faults == faults
    {
      trace := [];
      this.faults := faults;
    }

    method Run(command: string) returns (o: Outcome)
      modifies this
      ensures trace == old(trace) + [command]
      ensures o == if |old(trace)| in faults then Raised(ProcessException(faults[|old(trace)|])) else Completed
    {
      o := if |trace| in faults then Raised(ProcessException(faults[|trace|])) else Completed;
      trace := trace + [command];
    }
  }

  /** `Log::error`: an append-only list of messages. */
  class Log {
    var entries: seq<string>

    constructor ()
      ensures entries == []
    {
      entries := [];
    }

    method Error(message: string)
      modifies this
      ensures entries == old(entries) + [message]
    {
      entries := entries + [message];
    }
  }
}
