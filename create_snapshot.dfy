/** The bookkeeping of create_snapshot.py.

    Every `az` invocation is answered by an oracle (`Cli.run`), keyed by the
    structured command and the attempt number. The JSON documents that the
    script decodes are answered by two more oracles (`Cli.details`,
    `Cli.snapshotId`). The module-level lists `successful_snapshots` and
    `failed_snapshots` and the append-only file `snap_rid_list.txt` are the
    fields of the class `SnapshotRun`. */
module SnapshotCreation {
  import opened Process
  import opened Text
  import opened Seqs

  /** `max_retries`; zero attempts would leave the last result unbound. */
  type Retries = n: nat | 1 <= n witness 1

  /** The three `az` commands the script issues. */
  datatype Command =
    | AccountSet(subscription: string)                            // az account set --subscription
    | VmShow(resourceId: string)                                  // az vm show --ids ... --query {resourceGroup, diskId}
    | SnapshotCreate(name: string, resourceGroup: string, diskId: string)  // az snapshot create

  /** The two keys read from the `az vm show` JSON document. */
  datatype VmDetails = VmDetails(resourceGroup: string, diskId: string)

  /** The `az` CLI as the script observes it. */
  datatype Cli = Cli(
    run: (Command, nat) -> Attempt,         // attempt number k (from 0) of a command
    details: string -> VmDetails,           // decoding of a successful `az vm show` output
    snapshotId: string -> Option<string>)   // `json.loads(out).get('id')` of a successful create

  /** What `run_az_command` returns: stripped stdout, stripped stderr, exit code. */
  datatype CommandResult = CommandResult(stdout: string, stderr: string, code: int)

  /** A command result together with the number of attempts it consumed. */
  datatype Retried = Retried(result: CommandResult, attempts: nat)

  // ---------------------------------------------------------------------------
  // run_az_command: the retry loop
  // ---------------------------------------------------------------------------

  /** The attempt whose process decides what `run_az_command` returns: the
      first one that exits with status 0, or the last permitted one. */
  function Deciding(run: (Command, nat) -> Attempt, cmd: Command, maxRetries: Retries, i: nat): (k: nat)
    requires i < maxRetries
    ensures i <= k < maxRetries
    ensures run(cmd, k).code == 0 || k == maxRetries - 1
    ensures forall j :: i <= j < k ==> run(cmd, j).code != 0
    decreases maxRetries - i
  {
    if run(cmd, i).code == 0 || i == maxRetries - 1 then i
    else Deciding(run, cmd, maxRetries, i + 1)
  }

  /** What `run_az_command` makes of its deciding attempt: both streams
      stripped on success, stdout dropped on failure. */
  function Finish(p: Attempt): (r: CommandResult)
    ensures r.code == p.code && r.stderr == Strip(p.stderr)
    ensures r.stdout == (if p.code == 0 then Strip(p.stdout) else "")
  {
    if p.code == 0 then CommandResult(Strip(p.stdout), Strip(p.stderr), 0)
    else CommandResult("", Strip(p.stderr), p.code)
  }

  /** Specification of `run_az_command`: the finished deciding attempt and
      the number of attempts made. */
  function Retry(run: (Command, nat) -> Attempt, cmd: Command, maxRetries: Retries): (r: Retried)
    ensures 1 <= r.attempts <= maxRetries
    ensures r.result.code == run(cmd, r.attempts - 1).code
    ensures forall j :: 0 <= j < r.attempts - 1 ==> run(cmd, j).code != 0
    ensures r.result.code != 0 ==> r.attempts == maxRetries
  {
    var k := Deciding(run, cmd, maxRetries, 0);
    Retried(Finish(run(cmd, k)), k + 1)
  }

  /** A command that fails its attempts before `k` and succeeds at attempt `k`
      yields that attempt's stripped output, code 0, after k + 1 attempts. */
  lemma RetryFirstSuccess(run: (Command, nat) -> Attempt, cmd: Command, maxRetries: Retries, k: nat)
    requires k < maxRetries
    requires run(cmd, k).code == 0
    requires forall j :: 0 <= j < k ==> run(cmd, j).code != 0
    ensures Retry(run, cmd, maxRetries)
         == Retried(CommandResult(Strip(run(cmd, k).stdout), Strip(run(cmd, k).stderr), 0), k + 1)
  {
    var d := Deciding(run, cmd, maxRetries, 0);
    assert d == k;
  }

  /** A command that fails every attempt yields empty stdout and the last
      attempt's stderr and non-zero code, after `maxRetries` attempts. */
  lemma RetryExhausted(run: (Command, nat) -> Attempt, cmd: Command, maxRetries: Retries)
    requires forall j :: 0 <= j < maxRetries ==> run(cmd, j).code != 0
    ensures Retry(run, cmd, maxRetries)
         == Retried(CommandResult("", Strip(run(cmd, maxRetries - 1).stderr), run(cmd, maxRetries - 1).code), maxRetries)
  {
    var d := Deciding(run, cmd, maxRetries, 0);
    assert run(cmd, d).code != 0;
  }

  /** The result reports success exactly when one of the permitted attempts
      succeeded; a failure always carries the exit status of the last attempt. */
  lemma RetrySucceedsIff(run: (Command, nat) -> Attempt, cmd: Command, maxRetries: Retries)
    ensures Retry(run, cmd, maxRetries).result.code == 0
        <==> exists k :: 0 <= k < maxRetries && run(cmd, k).code == 0
    ensures Retry(run, cmd, maxRetries).result.code != 0 ==>
        Retry(run, cmd, maxRetries).attempts == maxRetries
        && Retry(run, cmd, maxRetries).result.code == run(cmd, maxRetries - 1).code
  {
    var d := Deciding(run, cmd, maxRetries, 0);
    assert Retry(run, cmd, maxRetries) == Retried(Finish(run(cmd, d)), d + 1);
    if run(cmd, d).code != 0 {
      assert d == maxRetries - 1;
      assert forall k :: 0 <= k < maxRetries ==> run(cmd, k).code != 0;
    }
  }

  /** `run_az_command`: up to `maxRetries` attempts, returning at the first
      zero exit status and sleeping only between attempts. The sleeps are
      counted in the ghost result `sleeps`. */
  method RunAzCommand(run: (Command, nat) -> Attempt, cmd: Command, maxRetries: Retries)
    returns (r: CommandResult, attempts: nat, ghost sleeps: nat)
    ensures Retried(r, attempts) == Retry(run, cmd, maxRetries)
    ensures 1 <= attempts <= maxRetries && sleeps == attempts - 1
    ensures forall j :: 0 <= j < attempts - 1 ==> run(cmd, j).code != 0
    ensures r.code == 0 <==> run(cmd, attempts - 1).code == 0
  {
    var i := 0;
    sleeps := 0;
    var last := run(cmd, 0);
    while i < maxRetries
      invariant 0 <= i <= maxRetries
      invariant forall j :: 0 <= j < i ==> run(cmd, j).code != 0
      invariant 0 < i ==> last == run(cmd, i - 1)
      invariant sleeps == (if i == maxRetries then i - 1 else i)
    {
      last := run(cmd, i);
      if last.code == 0 {
        RetryFirstSuccess(run, cmd, maxRetries, i);
        return CommandResult(Strip(last.stdout), Strip(last.stderr), 0), i + 1, sleeps;
      }
      if i < maxRetries - 1 {
        sleeps := sleeps + 1;
      }
      i := i + 1;
    }
    RetryExhausted(run, cmd, maxRetries);
    r := CommandResult("", Strip(last.stderr), last.code);
    attempts := maxRetries;
  }

  // ---------------------------------------------------------------------------
  // Outcomes and the three projections kept by the script
  // ---------------------------------------------------------------------------

  const SubscriptionFailure := "Failed to set subscription"
  const DetailsFailure := "Failed to get VM details"
  const CreateFailure := "Failed to create snapshot"
  const MissingIdFailure := "Failed to extract snapshot ID"

  /** The terminal outcome of one VM. */
  datatype Outcome =
    | Succeeded(vm: string, snapshot: string, id: string)
    | Failed(vm: string, reason: string)

  function SuccessEntry(o: Outcome): seq<(string, string)> {
    if o.Succeeded? then [(o.vm, o.snapshot)] else []
  }

  function FailureEntry(o: Outcome): seq<(string, string)> {
    if o.Failed? then [(o.vm, o.reason)] else []
  }

  function LedgerEntry(o: Outcome): seq<string> {
    if o.Succeeded? then [o.id] else []
  }

  /** `successful_snapshots` as produced by a sequence of outcomes. */
  function Successes(os: seq<Outcome>): seq<(string, string)> { Gather(os, SuccessEntry) }

  /** `failed_snapshots` as produced by a sequence of outcomes. */
  function Failures(os: seq<Outcome>): seq<(string, string)> { Gather(os, FailureEntry) }

  /** Lines appended to `snap_rid_list.txt` by a sequence of outcomes. */
  function Ids(os: seq<Outcome>): seq<string> { Gather(os, LedgerEntry) }

  /** Each outcome lands in exactly one of the two lists, and the ledger gains
      one line per success. */
  lemma {:induction false} Accounting(os: seq<Outcome>)
    ensures |Successes(os)| + |Failures(os)| == |os|
    ensures |Ids(os)| == |Successes(os)|
    decreases |os|
  {
    if os != [] {
      var p, last := os[..|os| - 1], os[|os| - 1];
      Accounting(p);
      LastSplit(os);
      GatherSnoc(p, last, SuccessEntry);
      GatherSnoc(p, last, FailureEntry);
      GatherSnoc(p, last, LedgerEntry);
    }
  }

  /** Every successful outcome's snapshot id is on the ledger. */
  lemma {:induction false} LedgerComplete(os: seq<Outcome>)
    ensures forall o :: o in os && o.Succeeded? ==> o.id in Ids(os)
    decreases |os|
  {
    if os != [] {
      var p, last := os[..|os| - 1], os[|os| - 1];
      LedgerComplete(p);
      LastSplit(os);
      GatherSnoc(p, last, LedgerEntry);
      forall o | o in os && o.Succeeded? ensures o.id in Ids(os) {
        if o in p {
          assert o.id in Ids(p);
        } else {
          assert o == last;
        }
      }
    }
  }

  /** Every ledger line is the snapshot id of a successful outcome. */
  lemma {:induction false} LedgerIds(os: seq<Outcome>)
    ensures forall k :: 0 <= k < |Ids(os)| ==>
      exists o :: o in os && o.Succeeded? && o.id == Ids(os)[k]
    decreases |os|
  {
    if os != [] {
      var p, last := os[..|os| - 1], os[|os| - 1];
      LedgerIds(p);
      LastSplit(os);
      GatherSnoc(p, last, LedgerEntry);
      forall k | 0 <= k < |Ids(os)|
        ensures exists o :: o in os && o.Succeeded? && o.id == Ids(os)[k]
      {
        if k < |Ids(p)| {
          var o :| o in p && o.Succeeded? && o.id == Ids(p)[k];
          assert Ids(os)[k] == Ids(p)[k];
          assert o in os;
        } else {
          assert last.Succeeded? && Ids(os)[k] == last.id;
          assert last in os;
        }
      }
    } else {
      assert Ids(os) == [];
    }
  }

  // ---------------------------------------------------------------------------
  // process_vm and the per-VM, per-group and per-run specification
  // ---------------------------------------------------------------------------

  /** The run's fixed parameters: the oracle, `max_retries`, the CHG number
      and the timestamp taken when the script starts. */
  datatype Config = Config(cli: Cli, maxRetries: Retries, chg: string, timestamp: string)

  /** `run_az_command(cmd)` with the default retry policy. */
  function Call(cfg: Config, cmd: Command): CommandResult {
    Retry(cfg.cli.run, cmd, cfg.maxRetries).result
  }

  /** `f"RH_{chg_number}_{vm_name}_{timestamp}"`. */
  function SnapshotName(chg: string, vm: string, timestamp: string): (name: string)
    ensures |name| == |chg| + |vm| + |timestamp| + 5
    ensures name[..3] == "RH_" && name[3..3 + |chg|] == chg && name[3 + |chg|] == '_'
    ensures name[4 + |chg|..4 + |chg| + |vm|] == vm && name[4 + |chg| + |vm|] == '_'
    ensures name[5 + |chg| + |vm|..] == timestamp
  {
    "RH_" + chg + "_" + vm + "_" + timestamp
  }

  /** One `process_vm` task: a VM whose details lookup succeeded. */
  datatype Task = Task(resourceId: string, vm: string, details: VmDetails)

  function CreateCommand(cfg: Config, t: Task): Command {
    SnapshotCreate(SnapshotName(cfg.chg, t.vm, cfg.timestamp), t.details.resourceGroup, t.details.diskId)
  }

  /** The classification at the end of `process_vm`. */
  function Classify(vm: string, snapshot: string, r: CommandResult, id: string -> Option<string>): (o: Outcome)
    ensures o.vm == vm
    ensures o.Succeeded? <==> r.code == 0 && id(r.stdout).Some? && id(r.stdout).value != ""
    ensures o.Succeeded? ==> o.snapshot == snapshot && o.id == id(r.stdout).value
    ensures o.Failed? && r.code != 0 ==> o.reason == CreateFailure
    ensures o.Failed? && r.code == 0 ==> o.reason == MissingIdFailure
  {
    if r.code != 0 then Failed(vm, CreateFailure)
    else
      var sid := id(r.stdout);
      if sid.Some? && sid.value != "" then Succeeded(vm, snapshot, sid.value)
      else Failed(vm, MissingIdFailure)
  }

  function CreateOutcome(cfg: Config, t: Task): Outcome {
    Classify(t.vm, SnapshotName(cfg.chg, t.vm, cfg.timestamp), Call(cfg, CreateCommand(cfg, t)), cfg.cli.snapshotId)
  }

  /** A (resource id, VM name) pair of the inventory. */
  type Entry = (string, string)

  /** The details lookup of `main`: `None` when the command failed. */
  function Lookup(cfg: Config, resourceId: string): (d: Option<VmDetails>)
    ensures d.None? <==> Call(cfg, VmShow(resourceId)).code != 0
  {
    var r := Call(cfg, VmShow(resourceId));
    if r.code != 0 then None else Some(cfg.cli.details(r.stdout))
  }

  /** The outcome of one VM once its subscription is selected. */
  function VmOutcome(cfg: Config, e: Entry): (o: Outcome)
    ensures o.vm == e.1
    ensures Lookup(cfg, e.0).None? ==> o == Failed(e.1, DetailsFailure)
  {
    match Lookup(cfg, e.0)
    case None => Failed(e.1, DetailsFailure)
    case Some(d) => CreateOutcome(cfg, Task(e.0, e.1, d))
  }

  function SwitchFailed(e: Entry): Outcome { Failed(e.1, SubscriptionFailure) }

  function SelectedOutcome(cfg: Config): Entry -> Outcome { e => VmOutcome(cfg, e) }

  /** The outcomes of one group, listed in input order. */
  function GroupOutcomes(cfg: Config, sub: string, es: seq<Entry>): (os: seq<Outcome>)
    ensures |os| == |es|
  {
    if Call(cfg, AccountSet(sub)).code != 0 then Map(es, SwitchFailed)
    else Map(es, SelectedOutcome(cfg))
  }

  /** Every VM of a group gets exactly one outcome, about that VM. */
  lemma GroupOutcomesPerVm(cfg: Config, sub: string, es: seq<Entry>)
    ensures |GroupOutcomes(cfg, sub, es)| == |es|
    ensures forall k :: 0 <= k < |es| ==> GroupOutcomes(cfg, sub, es)[k].vm == es[k].1
  {
    var os := GroupOutcomes(cfg, sub, es);
    forall k | 0 <= k < |es| ensures os[k].vm == es[k].1 {
      if Call(cfg, AccountSet(sub)).code != 0 {
        MapAt(es, SwitchFailed, k);
      } else {
        MapAt(es, SelectedOutcome(cfg), k);
        var e := es[k];
        match Lookup(cfg, e.0)
        case None =>
        case Some(d) =>
      }
    }
  }

  /** A failed subscription switch fails every VM of the group with
      "Failed to set subscription", and nothing succeeds. */
  lemma SwitchFailureFailsGroup(cfg: Config, sub: string, es: seq<Entry>)
    requires Call(cfg, AccountSet(sub)).code != 0
    ensures forall k :: 0 <= k < |es| ==> GroupOutcomes(cfg, sub, es)[k] == Failed(es[k].1, SubscriptionFailure)
    ensures Successes(GroupOutcomes(cfg, sub, es)) == []
  {
    forall k | 0 <= k < |es| ensures GroupOutcomes(cfg, sub, es)[k] == Failed(es[k].1, SubscriptionFailure) {
      MapAt(es, SwitchFailed, k);
    }
    NoSuccesses(GroupOutcomes(cfg, sub, es));
  }

  lemma {:induction false} NoSuccesses(os: seq<Outcome>)
    requires forall k :: 0 <= k < |os| ==> os[k].Failed?
    ensures Successes(os) == []
    decreases |os|
  {
    if os != [] {
      NoSuccesses(os[..|os| - 1]);
    }
  }

  /** The split of a selected group's work into details failures, recorded in
      input order, and `process_vm` tasks. */
  function DetailFailure(cfg: Config, e: Entry): seq<Outcome> {
    if Lookup(cfg, e.0).None? then [Failed(e.1, DetailsFailure)] else []
  }

  function TaskOf(cfg: Config, e: Entry): seq<Task> {
    match Lookup(cfg, e.0)
    case None => []
    case Some(d) => [Task(e.0, e.1, d)]
  }

  function DetailFailureOf(cfg: Config): Entry -> seq<Outcome> { e => DetailFailure(cfg, e) }

  function TaskOfEntry(cfg: Config): Entry -> seq<Task> { e => TaskOf(cfg, e) }

  function DetailFailures(cfg: Config, es: seq<Entry>): seq<Outcome> {
    Gather(es, DetailFailureOf(cfg))
  }

  function Tasks(cfg: Config, es: seq<Entry>): seq<Task> {
    Gather(es, TaskOfEntry(cfg))
  }

  function OutcomeOf(cfg: Config): Task -> Outcome { t => CreateOutcome(cfg, t) }

  function CommandOf(cfg: Config): Task -> Command { t => CreateCommand(cfg, t) }

  function TaskOutcomes(cfg: Config, ts: seq<Task>): seq<Outcome> {
    Map(ts, OutcomeOf(cfg))
  }

  function CreateCommands(cfg: Config, ts: seq<Task>): seq<Command> {
    Map(ts, CommandOf(cfg))
  }

  /** Running the same tasks in another order yields the same outcomes and
      the same create commands, as multisets. */
  lemma TasksReordered(cfg: Config, finished: seq<Task>, tasks: seq<Task>)
    requires multiset(finished) == multiset(tasks)
    ensures multiset(TaskOutcomes(cfg, finished)) == multiset(TaskOutcomes(cfg, tasks))
    ensures multiset(CreateCommands(cfg, finished)) == multiset(CreateCommands(cfg, tasks))
  {
    MapPermutation(finished, tasks, OutcomeOf(cfg));
    MapPermutation(finished, tasks, CommandOf(cfg));
  }

  function ShowCommand(e: Entry): Command { VmShow(e.0) }

  function ShowCommands(es: seq<Entry>): seq<Command> {
    Map(es, ShowCommand)
  }

  /** Details failures plus task outcomes are, as a multiset, the group's outcomes. */
  lemma {:induction false} GroupSplit(cfg: Config, es: seq<Entry>)
    ensures multiset(Map(es, SelectedOutcome(cfg)))
         == multiset(DetailFailures(cfg, es)) + multiset(TaskOutcomes(cfg, Tasks(cfg, es)))
    decreases |es|
  {
    if es != [] {
      var p := es[..|es| - 1];
      var e := es[|es| - 1];
      GroupSplit(cfg, p);
      LastSplit(es);
      GatherSnoc(p, e, TaskOfEntry(cfg));
      GatherSnoc(p, e, DetailFailureOf(cfg));
      MapSnoc(p, e, SelectedOutcome(cfg));
      MapAppend(Tasks(cfg, p), TaskOf(cfg, e), OutcomeOf(cfg));
      if Lookup(cfg, e.0).Some? {
        MapSnoc([], Task(e.0, e.1, Lookup(cfg, e.0).value), OutcomeOf(cfg));
      }
    }
  }

  // ---------------------------------------------------------------------------
  // group_vms_by_subscription
  // ---------------------------------------------------------------------------

  /** A line that `line.split()` unpacks into two fields and whose resource id
      has a third `/`-segment; any other line raises in the script. */
  predicate WellFormedLine(line: string) {
    |Words(line)| == 2 && |SplitOn(Words(line)[0], '/')| >= 3
  }

  predicate AllWellFormed(lines: seq<string>) {
    forall i :: 0 <= i < |lines| ==> WellFormedLine(lines[i])
  }

  function ParseLine(line: string): (e: Entry)
    requires WellFormedLine(line)
    ensures e.0 != [] && NoSpace(e.0) && e.1 != [] && NoSpace(e.1)
    ensures |SplitOn(e.0, '/')| >= 3
  {
    (Words(line)[0], Words(line)[1])
  }

  /** `resource_id.split("/")[2]`. */
  function SubscriptionOf(resourceId: string): (sub: string)
    requires |SplitOn(resourceId, '/')| >= 3
    ensures '/' !in sub
  {
    SplitOn(resourceId, '/')[2]
  }

  function KeyOf(line: string): string
    requires WellFormedLine(line)
  {
    SubscriptionOf(Words(line)[0])
  }

  /** On an Azure resource id the grouping key is the subscription id. */
  lemma SubscriptionOfAzureId(sub: string, rest: string)
    requires '/' !in sub
    ensures |SplitOn("/subscriptions/" + sub + "/" + rest, '/')| >= 3
    ensures SubscriptionOf("/subscriptions/" + sub + "/" + rest) == sub
  {
    var tail := sub + ['/'] + rest;
    var mid := "subscriptions" + ['/'] + tail;
    assert "/subscriptions/" + sub + "/" + rest == [] + ['/'] + mid by {
      assert "/subscriptions/" == ['/'] + "subscriptions" + ['/'];
      AppendAssoc(['/'] + "subscriptions" + ['/'], sub, "/");
      AppendAssoc("/subscriptions/" + sub, "/", rest);
      AppendAssoc(['/'] + "subscriptions", ['/'], sub + "/" + rest);
      AppendAssoc(['/'], "subscriptions", ['/'] + (sub + "/" + rest));
      AppendAssoc("subscriptions", ['/'], sub + "/" + rest);
      AppendAssoc(sub, "/", rest);
    }
    SplitOnPrefix([], '/', mid);
    SplitOnPrefix("subscriptions", '/', tail);
    SplitOnPrefix(sub, '/', rest);
  }

  /** The entries of subscription `k`, in input order. */
  function Select(lines: seq<string>, k: string): (es: seq<Entry>)
    requires AllWellFormed(lines)
    ensures |es| <= |lines|
    ensures forall j :: 0 <= j < |es| ==> |SplitOn(es[j].0, '/')| >= 3 && SubscriptionOf(es[j].0) == k
  {
    if lines == [] then []
    else
      var l := lines[|lines| - 1];
      Select(lines[..|lines| - 1], k) + (if KeyOf(l) == k then [ParseLine(l)] else [])
  }

  /** The subscriptions in order of first appearance. */
  function FirstSeen(lines: seq<string>): (ks: seq<string>)
    requires AllWellFormed(lines)
    ensures |ks| <= |lines|
    ensures lines != [] ==> ks != []
  {
    if lines == [] then []
    else
      var ks := FirstSeen(lines[..|lines| - 1]);
      var k := KeyOf(lines[|lines| - 1]);
      if k in ks then ks else ks + [k]
  }

  predicate Distinct(ks: seq<string>) {
    forall i, j :: 0 <= i < j < |ks| ==> ks[i] != ks[j]
  }

  /** The groups are distinct and are exactly the subscriptions that occur. */
  lemma {:induction false} FirstSeenKeys(lines: seq<string>)
    requires AllWellFormed(lines)
    ensures Distinct(FirstSeen(lines))
    ensures forall k :: k in FirstSeen(lines) <==> exists i :: 0 <= i < |lines| && KeyOf(lines[i]) == k
    decreases |lines|
  {
    if lines != [] {
      var p := lines[..|lines| - 1];
      FirstSeenKeys(p);
      forall k ensures k in FirstSeen(lines) <==> exists i :: 0 <= i < |lines| && KeyOf(lines[i]) == k {
        if exists i :: 0 <= i < |lines| && KeyOf(lines[i]) == k {
          var i :| 0 <= i < |lines| && KeyOf(lines[i]) == k;
          if i < |lines| - 1 {
            assert KeyOf(p[i]) == k;
          }
        }
        if k in FirstSeen(p) {
          var i :| 0 <= i < |p| && KeyOf(p[i]) == k;
          assert KeyOf(lines[i]) == k;
        }
      }
    }
  }

  /** A subscription that never occurs has an empty group. */
  lemma {:induction false} SelectUnseen(lines: seq<string>, k: string)
    requires AllWellFormed(lines)
    requires forall i :: 0 <= i < |lines| ==> KeyOf(lines[i]) != k
    ensures Select(lines, k) == []
    decreases |lines|
  {
    if lines != [] {
      SelectUnseen(lines[..|lines| - 1], k);
    }
  }

  /** Total size of the groups named in `ks`. */
  function SumSizes(ks: seq<string>, lines: seq<string>): nat
    requires AllWellFormed(lines)
  {
    if ks == [] then 0 else SumSizes(ks[..|ks| - 1], lines) + |Select(lines, ks[|ks| - 1])|
  }

  lemma {:induction false} SumSizesStep(ks: seq<string>, lines: seq<string>)
    requires AllWellFormed(lines) && lines != [] && Distinct(ks)
    ensures SumSizes(ks, lines)
         == SumSizes(ks, lines[..|lines| - 1]) + (if KeyOf(lines[|lines| - 1]) in ks then 1 else 0)
    decreases |ks|
  {
    if ks != [] {
      SumSizesStep(ks[..|ks| - 1], lines);
    }
  }

  /** The group sizes add up to the number of inventory lines: every line
      lands in exactly one group. */
  lemma {:induction false} GroupsPartition(lines: seq<string>)
    requires AllWellFormed(lines)
    ensures SumSizes(FirstSeen(lines), lines) == |lines|
    decreases |lines|
  {
    if lines != [] {
      var p := lines[..|lines| - 1];
      var k := KeyOf(lines[|lines| - 1]);
      GroupsPartition(p);
      FirstSeenKeys(p);
      FirstSeenKeys(lines);
      SumSizesStep(FirstSeen(lines), lines);
      if k !in FirstSeen(p) {
        var ks := FirstSeen(p);
        assert FirstSeen(lines) == ks + [k];
        SplitConcat(ks, [k]);
        SelectUnseen(p, k);
        SumSizesStep(ks, lines);
        assert SumSizes(ks, lines) == SumSizes(ks, p);
      }
    }
  }

  /** Reading line `i` adds its subscription to the order when it is new. */
  lemma FirstSeenStep(lines: seq<string>, i: nat)
    requires AllWellFormed(lines) && i < |lines|
    ensures AllWellFormed(lines[..i]) && AllWellFormed(lines[..i + 1])
    ensures var k := KeyOf(lines[i]);
      FirstSeen(lines[..i + 1])
      == if k in FirstSeen(lines[..i]) then FirstSeen(lines[..i]) else FirstSeen(lines[..i]) + [k]
  {
    TakeTake(lines, i);
  }

  /** Reading line `i` adds its entry to the end of its subscription's
      group and leaves the other groups alone. */
  lemma SelectStep(lines: seq<string>, i: nat, k: string)
    requires AllWellFormed(lines) && i < |lines|
    ensures AllWellFormed(lines[..i]) && AllWellFormed(lines[..i + 1])
    ensures Select(lines[..i + 1], k)
         == Select(lines[..i], k) + (if KeyOf(lines[i]) == k then [ParseLine(lines[i])] else [])
  {
    TakeTake(lines, i);
  }

  /** The grouping of the first `i` lines: the subscriptions in first-seen
      order and, for each, its entries in input order. */
  ghost predicate GroupedUpTo(vmList: seq<string>, i: nat, order: seq<string>, groups: map<string, seq<Entry>>)
    requires AllWellFormed(vmList) && i <= |vmList|
  {
    order == FirstSeen(vmList[..i])
    && (forall k :: k in groups <==> k in order)
    && (forall k :: k in groups ==> groups[k] == Select(vmList[..i], k))
  }

  /** `groups[sub].append(entry)`, after creating the list when `sub` is new. */
  function Enlisted(groups: map<string, seq<Entry>>, sub: string, entry: Entry): map<string, seq<Entry>> {
    var g := if sub in groups then groups else groups[sub := []];
    g[sub := g[sub] + [entry]]
  }

  /** Line `i` adds its subscription to the order exactly when it has no
      list yet, and the dictionary's keys stay those of the order. */
  lemma {:induction false} KeysStep(vmList: seq<string>, i: nat, order: seq<string>, groups: map<string, seq<Entry>>)
    requires AllWellFormed(vmList) && i < |vmList|
    requires GroupedUpTo(vmList, i, order, groups)
    ensures var sub := KeyOf(vmList[i]);
      var order' := if sub in groups then order else order + [sub];
      order' == FirstSeen(vmList[..i + 1])
      && forall k :: k in Enlisted(groups, sub, ParseLine(vmList[i])) <==> k in order'
  {
    FirstSeenStep(vmList, i);
  }

  /** Line `i` joins the end of its subscription's list; the other lists
      stay as they are. */
  lemma {:induction false} GroupsStep(vmList: seq<string>, i: nat, order: seq<string>, groups: map<string, seq<Entry>>)
    requires AllWellFormed(vmList) && i < |vmList|
    requires GroupedUpTo(vmList, i, order, groups)
    ensures var g := Enlisted(groups, KeyOf(vmList[i]), ParseLine(vmList[i]));
      forall k :: k in g ==> g[k] == Select(vmList[..i + 1], k)
  {
    var sub := KeyOf(vmList[i]);
    var g := Enlisted(groups, sub, ParseLine(vmList[i]));
    if sub !in groups {
      FirstSeenKeys(vmList[..i]);
      SelectUnseen(vmList[..i], sub);
    }
    forall k | k in g ensures g[k] == Select(vmList[..i + 1], k) {
      SelectStep(vmList, i, k);
    }
  }

  /** Line `i` extends the grouping of the lines before it to the grouping
      of the lines up to and including it. */
  lemma GroupedStep(vmList: seq<string>, i: nat, order: seq<string>, groups: map<string, seq<Entry>>)
    requires AllWellFormed(vmList) && i < |vmList|
    requires GroupedUpTo(vmList, i, order, groups)
    ensures var sub := KeyOf(vmList[i]);
      GroupedUpTo(vmList, i + 1, if sub in groups then order else order + [sub],
                  Enlisted(groups, sub, ParseLine(vmList[i])))
  {
    KeysStep(vmList, i, order, groups);
    GroupsStep(vmList, i, order, groups);
  }

  /** The body of the loop of `group_vms_by_subscription`: line `i` joins
      the list of its subscription, which is created when it is new. */
  method AddLine(vmList: seq<string>, i: nat, order: seq<string>, groups: map<string, seq<Entry>>)
    returns (order': seq<string>, groups': map<string, seq<Entry>>)
    requires AllWellFormed(vmList) && i < |vmList|
    requires GroupedUpTo(vmList, i, order, groups)
    ensures GroupedUpTo(vmList, i + 1, order', groups')
  {
    var entry := ParseLine(vmList[i]);
    var sub := SubscriptionOf(entry.0);
    assert sub == KeyOf(vmList[i]);
    GroupedStep(vmList, i, order, groups);
    order', groups' := order, groups;
    if sub !in groups' {
      groups' := groups'[sub := []];
      order' := order' + [sub];
    }
    groups' := groups'[sub := groups'[sub] + [entry]];
    assert groups' == Enlisted(groups, sub, entry);
  }

  /** `group_vms_by_subscription`: fills an insertion-ordered dictionary of
      lists, one list per subscription. */
  method GroupBySubscription(vmList: seq<string>) returns (order: seq<string>, groups: map<string, seq<Entry>>)
    requires AllWellFormed(vmList)
    ensures order == FirstSeen(vmList)
    ensures forall k :: k in groups <==> k in order
    ensures forall k :: k in groups ==> groups[k] == Select(vmList, k)
  {
    order := [];
    groups := map[];
    var i := 0;
    while i < |vmList|
      invariant 0 <= i <= |vmList|
      invariant GroupedUpTo(vmList, i, order, groups)
    {
      order, groups := AddLine(vmList, i, order, groups);
      i := i + 1;
    }
    TakeAll(vmList);
  }

  /** The outcomes of a whole run, group by group, in input order within each group. */
  function RunOutcomes(cfg: Config, keys: seq<string>, lines: seq<string>): seq<Outcome>
    requires AllWellFormed(lines)
  {
    if keys == [] then []
    else
      var k := keys[|keys| - 1];
      RunOutcomes(cfg, keys[..|keys| - 1], lines) + GroupOutcomes(cfg, k, Select(lines, k))
  }

  lemma RunOutcomesSnoc(cfg: Config, keys: seq<string>, k: string, lines: seq<string>)
    requires AllWellFormed(lines)
    ensures RunOutcomes(cfg, keys + [k], lines)
         == RunOutcomes(cfg, keys, lines) + GroupOutcomes(cfg, k, Select(lines, k))
  {
    var ks := keys + [k];
    assert ks[..|ks| - 1] == keys && ks[|ks| - 1] == k;
  }

  lemma {:induction false} RunOutcomesLength(cfg: Config, keys: seq<string>, lines: seq<string>)
    requires AllWellFormed(lines)
    ensures |RunOutcomes(cfg, keys, lines)| == SumSizes(keys, lines)
    decreases |keys|
  {
    if keys != [] {
      var k := keys[|keys| - 1];
      RunOutcomesLength(cfg, keys[..|keys| - 1], lines);
      GroupOutcomesPerVm(cfg, k, Select(lines, k));
    }
  }

  /** Every VM of the inventory gets exactly one outcome. */
  lemma OneOutcomePerVm(cfg: Config, lines: seq<string>)
    requires AllWellFormed(lines)
    ensures |RunOutcomes(cfg, FirstSeen(lines), lines)| == |lines|
  {
    RunOutcomesLength(cfg, FirstSeen(lines), lines);
    GroupsPartition(lines);
  }

  /** Whatever order the tasks finished in, a run that recorded its outcomes
      reports one success or failure per inventory VM, the expected ones, and
      one ledger line per success. */
  lemma RunTotals(cfg: Config, os: seq<Outcome>, lines: seq<string>)
    requires AllWellFormed(lines)
    requires multiset(os) == multiset(RunOutcomes(cfg, FirstSeen(lines), lines))
    ensures |Successes(os)| + |Failures(os)| == |lines|
    ensures |Ids(os)| == |Successes(os)|
    ensures multiset(Successes(os)) == multiset(Successes(RunOutcomes(cfg, FirstSeen(lines), lines)))
    ensures multiset(Failures(os)) == multiset(Failures(RunOutcomes(cfg, FirstSeen(lines), lines)))
  {
    var expected := RunOutcomes(cfg, FirstSeen(lines), lines);
    OneOutcomePerVm(cfg, lines);
    assert |os| == |multiset(os)| == |multiset(expected)| == |expected|;
    Accounting(os);
    GatherPermutation(os, expected, SuccessEntry);
    GatherPermutation(os, expected, FailureEntry);
  }

  /** `[line.strip() for line in file if line.strip()]`. */
  function NonBlank(lines: seq<string>): (vms: seq<string>)
    ensures |vms| <= |lines|
    ensures forall k :: 0 <= k < |vms| ==> vms[k] != [] && !IsSpace(vms[k][0]) && !IsSpace(vms[k][|vms[k]| - 1])
  {
    if lines == [] then []
    else
      var s := Strip(lines[0]);
      var rest := NonBlank(lines[1..]);
      if s != [] then [s] + rest else rest
  }

  /** What one line of the snapshot list contributes to the VM list. */
  function KeptLine(line: string): (vm: seq<string>)
    ensures |vm| <= 1
  {
    if AllSpace(line) then [] else [Strip(line)]
  }

  /** The VM list is the stripped non-blank lines, in file order: one entry
      per line that is not blank, and none for the others. */
  lemma {:induction false} NonBlankInOrder(lines: seq<string>)
    ensures NonBlank(lines) == Gather(lines, KeptLine)
    decreases |lines|
  {
    if lines != [] {
      var rest := lines[1..];
      var head := [lines[0]];
      NonBlankInOrder(rest);
      assert lines == head + rest;
      GatherAppend(head, rest, KeptLine);
      GatherSingle(lines[0], KeptLine);
    }
  }

  /** Every line that is not blank reaches the VM list, stripped. */
  lemma {:induction false} NonBlankKeeps(lines: seq<string>)
    ensures forall i :: 0 <= i < |lines| && !AllSpace(lines[i]) ==> Strip(lines[i]) in NonBlank(lines)
    decreases |lines|
  {
    if lines != [] {
      var rest := lines[1..];
      NonBlankKeeps(rest);
      assert NonBlank(rest) <= NonBlank(lines) || NonBlank(lines) == [Strip(lines[0])] + NonBlank(rest);
      forall i | 0 <= i < |lines| && !AllSpace(lines[i]) ensures Strip(lines[i]) in NonBlank(lines) {
        if i > 0 {
          assert lines[i] == rest[i - 1];
        }
      }
    }
  }

  /** Everything on the VM list is the stripped form of a line that is not blank. */
  lemma {:induction false} NonBlankOnly(lines: seq<string>)
    ensures forall v :: v in NonBlank(lines) ==> exists i :: 0 <= i < |lines| && !AllSpace(lines[i]) && v == Strip(lines[i])
    decreases |lines|
  {
    if lines != [] {
      var rest := lines[1..];
      NonBlankOnly(rest);
      forall v | v in NonBlank(lines)
        ensures exists i :: 0 <= i < |lines| && !AllSpace(lines[i]) && v == Strip(lines[i])
      {
        if v in NonBlank(rest) {
          var j :| 0 <= j < |rest| && !AllSpace(rest[j]) && v == Strip(rest[j]);
          assert lines[j + 1] == rest[j];
        } else {
          assert v == Strip(lines[0]);
        }
      }
    }
  }

  /** Bookkeeping of one iteration of the details loop: the tasks, the
      outcomes and the commands of the lookups so far. */
  lemma TasksStep(cfg: Config, vms: seq<Entry>, i: nat)
    requires i < |vms|
    ensures Tasks(cfg, vms[..i + 1]) == Tasks(cfg, vms[..i]) + TaskOf(cfg, vms[i])
  {
    TakeSnoc(vms, i);
    GatherSnoc(vms[..i], vms[i], TaskOfEntry(cfg));
  }

  lemma OutcomesStep(cfg: Config, vms: seq<Entry>, i: nat, ran: seq<Task>, stepRan: seq<Task>, added: seq<Outcome>)
    requires i < |vms|
    requires multiset(added) == multiset(DetailFailures(cfg, vms[..i])) + multiset(TaskOutcomes(cfg, ran))
    ensures multiset(added + DetailFailure(cfg, vms[i]) + TaskOutcomes(cfg, stepRan))
         == multiset(DetailFailures(cfg, vms[..i + 1])) + multiset(TaskOutcomes(cfg, ran + stepRan))
  {
    TakeSnoc(vms, i);
    GatherSnoc(vms[..i], vms[i], DetailFailureOf(cfg));
    MapAppend(ran, stepRan, OutcomeOf(cfg));
    MultisetShuffle(added, DetailFailures(cfg, vms[..i]), TaskOutcomes(cfg, ran),
                    DetailFailure(cfg, vms[i]), TaskOutcomes(cfg, stepRan));
  }

  lemma CommandsStep(cfg: Config, vms: seq<Entry>, i: nat, ran: seq<Task>, stepRan: seq<Task>, cmds: seq<Command>)
    requires i < |vms|
    requires multiset(cmds) == multiset(ShowCommands(vms[..i])) + multiset(CreateCommands(cfg, ran))
    ensures multiset(cmds + [ShowCommand(vms[i])] + CreateCommands(cfg, stepRan))
         == multiset(ShowCommands(vms[..i + 1])) + multiset(CreateCommands(cfg, ran + stepRan))
  {
    TakeSnoc(vms, i);
    MapSnoc(vms[..i], vms[i], ShowCommand);
    MapAppend(ran, stepRan, CommandOf(cfg));
    MultisetShuffle(cmds, ShowCommands(vms[..i]), CreateCommands(cfg, ran),
                    [ShowCommand(vms[i])], CreateCommands(cfg, stepRan));
  }

  /** The tasks finished during the details loop together with those the
      gather waited for are the group's tasks, so a selected group ends with
      its specified outcomes. */
  lemma GroupTotals(cfg: Config, sub: string, vms: seq<Entry>, ran: seq<Task>, order: seq<Task>, pending: seq<Task>,
                    added1: seq<Outcome>)
    requires Call(cfg, AccountSet(sub)).code == 0
    requires multiset(ran) + multiset(pending) == multiset(Tasks(cfg, vms))
    requires multiset(order) == multiset(pending)
    requires multiset(added1) == multiset(DetailFailures(cfg, vms)) + multiset(TaskOutcomes(cfg, ran))
    ensures multiset(added1 + TaskOutcomes(cfg, order)) == multiset(GroupOutcomes(cfg, sub, vms))
    ensures |added1 + TaskOutcomes(cfg, order)| == |vms|
  {
    var all := Tasks(cfg, vms);
    assert multiset(ran + order) == multiset(all);
    TasksReordered(cfg, ran + order, all);
    MapAppend(ran, order, OutcomeOf(cfg));
    Regroup(added1, DetailFailures(cfg, vms), TaskOutcomes(cfg, ran), TaskOutcomes(cfg, order), TaskOutcomes(cfg, all));
    GroupSplit(cfg, vms);
    GroupOutcomesPerVm(cfg, sub, vms);
    SameSize(added1 + TaskOutcomes(cfg, order), GroupOutcomes(cfg, sub, vms));
  }

  /** The same for the commands: every lookup and one create per task. */
  lemma GroupCommands(cfg: Config, vms: seq<Entry>, ran: seq<Task>, order: seq<Task>, pending: seq<Task>,
                      cmds1: seq<Command>)
    requires multiset(ran) + multiset(pending) == multiset(Tasks(cfg, vms))
    requires multiset(order) == multiset(pending)
    requires multiset(cmds1) == multiset(ShowCommands(vms)) + multiset(CreateCommands(cfg, ran))
    ensures multiset(cmds1 + CreateCommands(cfg, order))
         == multiset(ShowCommands(vms)) + multiset(CreateCommands(cfg, Tasks(cfg, vms)))
  {
    var all := Tasks(cfg, vms);
    assert multiset(ran + order) == multiset(all);
    TasksReordered(cfg, ran + order, all);
    MapAppend(ran, order, CommandOf(cfg));
    Regroup(cmds1, ShowCommands(vms), CreateCommands(cfg, ran), CreateCommands(cfg, order), CreateCommands(cfg, all));
  }

  /** The accounts of the details loop after its first `i` lookups: the
      tasks started so far are the finished ones (`ran`) and the pending
      ones; the outcomes recorded are the details failures and the finished
      tasks' outcomes; the commands issued are the lookups and the finished
      tasks' creates. */
  ghost predicate DetailsSoFar(cfg: Config, vms: seq<Entry>, i: nat, ran: seq<Task>, pending: seq<Task>,
                               added: seq<Outcome>, cmds: seq<Command>)
  {
    i <= |vms|
    && multiset(ran) + multiset(pending) == multiset(Tasks(cfg, vms[..i]))
    && multiset(added) == multiset(DetailFailures(cfg, vms[..i])) + multiset(TaskOutcomes(cfg, ran))
    && multiset(cmds) == multiset(ShowCommands(vms[..i])) + multiset(CreateCommands(cfg, ran))
  }

  /** One lookup and the tasks that finish after it keep the accounts. */
  lemma DetailsAdvance(cfg: Config, vms: seq<Entry>, i: nat, ran: seq<Task>, pending: seq<Task>,
                       added: seq<Outcome>, cmds: seq<Command>, stepRan: seq<Task>, pending': seq<Task>)
    requires i < |vms| && DetailsSoFar(cfg, vms, i, ran, pending, added, cmds)
    requires multiset(stepRan) + multiset(pending') == multiset(pending) + multiset(TaskOf(cfg, vms[i]))
    ensures DetailsSoFar(cfg, vms, i + 1, ran + stepRan, pending',
                         added + DetailFailure(cfg, vms[i]) + TaskOutcomes(cfg, stepRan),
                         cmds + [ShowCommand(vms[i])] + CreateCommands(cfg, stepRan))
  {
    TasksStep(cfg, vms, i);
    Advance(ran, pending, stepRan, pending', Tasks(cfg, vms[..i]), TaskOf(cfg, vms[i]));
    OutcomesStep(cfg, vms, i, ran, stepRan, added);
    CommandsStep(cfg, vms, i, ran, stepRan, cmds);
  }

  /** What one group of `main`'s loop leaves behind: its outcomes `os`, one
      per VM and the specified ones as a multiset, and its commands `cs`,
      which start with the group's own `az account set`. A failed switch
      records every VM as failed in input order and issues nothing more; a
      successful one issues one details lookup per VM and one create per
      task. */
  ghost predicate GroupRecord(cfg: Config, sub: string, vms: seq<Entry>, os: seq<Outcome>, cs: seq<Command>) {
    |os| == |vms|
    && multiset(os) == multiset(GroupOutcomes(cfg, sub, vms))
    && cs != [] && cs[0] == AccountSet(sub)
    && (Call(cfg, AccountSet(sub)).code != 0 ==> os == GroupOutcomes(cfg, sub, vms) && cs == [AccountSet(sub)])
    && (Call(cfg, AccountSet(sub)).code == 0 ==>
          multiset(cs[1..]) == multiset(ShowCommands(vms)) + multiset(CreateCommands(cfg, Tasks(cfg, vms))))
  }

  /** `ProcessGroup`'s promises, as the record of that group. */
  lemma GroupRecordOf(cfg: Config, sub: string, vms: seq<Entry>, added: seq<Outcome>, cmds: seq<Command>)
    requires |added| == |vms| && multiset(added) == multiset(GroupOutcomes(cfg, sub, vms))
    requires Call(cfg, AccountSet(sub)).code != 0 ==> added == GroupOutcomes(cfg, sub, vms) && cmds == []
    requires Call(cfg, AccountSet(sub)).code == 0 ==>
      multiset(cmds) == multiset(ShowCommands(vms)) + multiset(CreateCommands(cfg, Tasks(cfg, vms)))
    ensures GroupRecord(cfg, sub, vms, added, [AccountSet(sub)] + cmds)
  {
    assert ([AccountSet(sub)] + cmds)[1..] == cmds;
  }

  /** How the event loop interleaves a group's `process_vm` tasks with
      `main`: after lookup `i` of group `g`, `ready(g, i)` of the pending
      tasks finish before `main` resumes, and `pick(g, s)` chooses which
      pending task is the `s`-th of the group to finish. */
  datatype Schedule = Schedule(ready: (nat, nat) -> nat, pick: (nat, nat) -> nat)

  /** What the summary table reports. */
  datatype Summary = Summary(total: nat, succeeded: nat, failed: nat)

  // ---------------------------------------------------------------------------
  // The driver: main's per-group loop over shared result lists
  // ---------------------------------------------------------------------------

  class SnapshotRun {
    const cfg: Config
    /** Contents of `snap_rid_list.txt` before the run (it is opened for append). */
    const priorLedger: seq<string>
    /** `successful_snapshots`: (VM name, snapshot name). */
    var successful: seq<(string, string)>
    /** `failed_snapshots`: (VM name, reason). */
    var failed: seq<(string, string)>
    /** The lines of `snap_rid_list.txt`. */
    var ledger: seq<string>
    /** Outcomes in the order they were recorded. */
    ghost var outcomes: seq<Outcome>
    /** Every `az` command issued, in order. */
    ghost var issued: seq<Command>

    ghost predicate Valid()
      reads this
    {
      successful == Successes(outcomes) && failed == Failures(outcomes)
      && ledger == priorLedger + Ids(outcomes)
    }

    constructor (cfg: Config, priorLedger: seq<string>)
      ensures Valid() && this.cfg == cfg && this.priorLedger == priorLedger
      ensures outcomes == [] && issued == [] && successful == [] && failed == [] && ledger == priorLedger
    {
      this.cfg := cfg;
      this.priorLedger := priorLedger;
      successful, failed, ledger := [], [], priorLedger;
      outcomes, issued := [], [];
    }

    /** Appends one outcome to the list it belongs to; a success first writes
        its snapshot id to the ledger. */
    method Record(o: Outcome)
      requires Valid()
      modifies this
      ensures Valid() && outcomes == old(outcomes) + [o] && issued == old(issued)
    {
      if o.Succeeded? {
        ledger := ledger + [o.id];
        successful := successful + [(o.vm, o.snapshot)];
      } else {
        failed := failed + [(o.vm, o.reason)];
      }
      outcomes := outcomes + [o];
      SplitConcat(old(outcomes), [o]);
    }

    /** `process_vm`. */
    method ProcessVm(t: Task)
      requires Valid()
      modifies this
      ensures Valid()
      ensures outcomes == old(outcomes) + [CreateOutcome(cfg, t)]
      ensures issued == old(issued) + [CreateCommand(cfg, t)]
    {
      var snapshotName := SnapshotName(cfg.chg, t.vm, cfg.timestamp);
      var cmd := SnapshotCreate(snapshotName, t.details.resourceGroup, t.details.diskId);
      var r, _, _ := RunAzCommand(cfg.cli.run, cmd, cfg.maxRetries);
      issued := issued + [cmd];
      if r.code != 0 {
        Record(Failed(t.vm, CreateFailure));
      } else {
        var snapshotId := cfg.cli.snapshotId(r.stdout);
        if snapshotId.Some? && snapshotId.value != "" {
          Record(Succeeded(t.vm, snapshotName, snapshotId.value));
        } else {
          Record(Failed(t.vm, MissingIdFailure));
        }
      }
    }

    /** The branch of `main` taken when `az account set` fails. */
    method FailGroup(vms: seq<Entry>)
      requires Valid()
      modifies this
      ensures Valid() && issued == old(issued)
      ensures outcomes == old(outcomes) + Map(vms, SwitchFailed)
    {
      var i := 0;
      while i < |vms|
        invariant 0 <= i <= |vms|
        invariant Valid() && issued == old(issued)
        invariant outcomes == old(outcomes) + Map(vms[..i], SwitchFailed)
      {
        Record(Failed(vms[i].1, SubscriptionFailure));
        TakeTake(vms, i);
        i := i + 1;
      }
      TakeAll(vms);
    }

    /** One details lookup of `main`: a VM whose `az vm show` fails is
        recorded as failed, any other becomes a `process_vm` task. */
    method LookupVm(e: Entry) returns (found: seq<Task>)
      requires Valid()
      modifies this
      ensures Valid()
      ensures outcomes == old(outcomes) + DetailFailure(cfg, e)
      ensures found == TaskOf(cfg, e)
      ensures issued == old(issued) + [ShowCommand(e)]
    {
      var (resourceId, vmName) := e;
      var r, _, _ := RunAzCommand(cfg.cli.run, VmShow(resourceId), cfg.maxRetries);
      issued := issued + [VmShow(resourceId)];
      if r.code != 0 {
        Record(Failed(vmName, DetailsFailure));
        found := [];
      } else {
        found := [Task(resourceId, vmName, cfg.cli.details(r.stdout))];
      }
    }

    /** The `process_vm` tasks that finish while `main` is suspended:
        `count` of the `tasks` (all of them when fewer are left), chosen one
        after another by `pick(g, step)`, `pick(g, step + 1)`, ... Returns
        the tasks still pending. */
    method RunTasks(tasks: seq<Task>, count: nat, g: nat, step: nat, pick: (nat, nat) -> nat)
      returns (pending: seq<Task>, finished: nat, ghost order: seq<Task>)
      requires Valid()
      modifies this
      ensures Valid()
      ensures multiset(order) + multiset(pending) == multiset(tasks)
      ensures finished == |order| == if count < |tasks| then count else |tasks|
      ensures outcomes == old(outcomes) + TaskOutcomes(cfg, order)
      ensures issued == old(issued) + CreateCommands(cfg, order)
    {
      pending := tasks;
      order := [];
      var n := 0;
      while n < count && pending != []
        invariant Valid()
        invariant n <= count && n == |order| && n + |pending| == |tasks|
        invariant multiset(order) + multiset(pending) == multiset(tasks)
        invariant outcomes == old(outcomes) + TaskOutcomes(cfg, order)
        invariant issued == old(issued) + CreateCommands(cfg, order)
        decreases |pending|
      {
        var j := pick(g, step + n) % |pending|;
        var t := pending[j];
        MovePicked(order, pending, j);
        pending := pending[..j] + pending[j + 1..];
        ProcessVm(t);
        MapSnoc(order, t, OutcomeOf(cfg));
        MapSnoc(order, t, CommandOf(cfg));
        AppendAssoc(old(outcomes), TaskOutcomes(cfg, order), [CreateOutcome(cfg, t)]);
        AppendAssoc(old(issued), CreateCommands(cfg, order), [CreateCommand(cfg, t)]);
        order := order + [t];
        n := n + 1;
      }
      finished := n;
    }

    /** One iteration of the details loop of `main`: the `az vm show` of
        VM `i` of group `g`, which starts a `process_vm` task when it
        succeeds, and then the tasks that finish while `main` awaits the
        next lookup. */
    method LookupStep(e: Entry, pending: seq<Task>, g: nat, i: nat, step: nat, sched: Schedule)
      returns (pending': seq<Task>, step': nat, ghost ran: seq<Task>)
      requires Valid()
      modifies this
      ensures Valid()
      ensures multiset(ran) + multiset(pending') == multiset(pending) + multiset(TaskOf(cfg, e))
      ensures step' == step + |ran|
      ensures outcomes == old(outcomes) + DetailFailure(cfg, e) + TaskOutcomes(cfg, ran)
      ensures issued == old(issued) + [ShowCommand(e)] + CreateCommands(cfg, ran)
    {
      var found := LookupVm(e);
      var finished;
      pending', finished, ran := RunTasks(pending + found, sched.ready(g, i), g, step, sched.pick);
      step' := step + finished;
    }

    /** The details loop of `main` for group `g`: one `az vm show` per VM in
        input order, with the started tasks finishing in between as `sched`
        decides. Returns the tasks still pending, and the number finished. */
    method LookupDetails(vms: seq<Entry>, g: nat, sched: Schedule)
      returns (pending: seq<Task>, step: nat, ghost ran: seq<Task>, ghost added: seq<Outcome>, ghost cmds: seq<Command>)
      requires Valid()
      modifies this
      ensures Valid()
      ensures multiset(ran) + multiset(pending) == multiset(Tasks(cfg, vms))
      ensures outcomes == old(outcomes) + added
      ensures multiset(added) == multiset(DetailFailures(cfg, vms)) + multiset(TaskOutcomes(cfg, ran))
      ensures issued == old(issued) + cmds
      ensures multiset(cmds) == multiset(ShowCommands(vms)) + multiset(CreateCommands(cfg, ran))
    {
      pending, step := [], 0;
      ran, added, cmds := [], [], [];
      var i := 0;
      while i < |vms|
        invariant 0 <= i <= |vms|
        invariant Valid()
        invariant DetailsSoFar(cfg, vms, i, ran, pending, added, cmds)
        invariant outcomes == old(outcomes) + added
        invariant issued == old(issued) + cmds
      {
        ghost var stepRan: seq<Task>;
        ghost var pending0 := pending;
        pending, step, stepRan := LookupStep(vms[i], pending, g, i, step, sched);
        DetailsAdvance(cfg, vms, i, ran, pending0, added, cmds, stepRan, pending);
        AppendAssoc(old(outcomes), added, DetailFailure(cfg, vms[i]));
        AppendAssoc(old(outcomes), added + DetailFailure(cfg, vms[i]), TaskOutcomes(cfg, stepRan));
        AppendAssoc(old(issued), cmds, [ShowCommand(vms[i])]);
        AppendAssoc(old(issued), cmds + [ShowCommand(vms[i])], CreateCommands(cfg, stepRan));
        ran := ran + stepRan;
        added := added + DetailFailure(cfg, vms[i]) + TaskOutcomes(cfg, stepRan);
        cmds := cmds + [ShowCommand(vms[i])] + CreateCommands(cfg, stepRan);
        i := i + 1;
      }
      TakeAll(vms);
    }

    /** One iteration of `main`'s loop over subscription groups: the switch,
        the details loop with tasks finishing in between, and the
        `asyncio.gather` that waits for the remaining tasks. Only the
        `az account set` is known to come first; the other commands and the
        outcomes are stated as multisets, since the event loop interleaves
        them. */
    method ProcessGroup(sub: string, vms: seq<Entry>, g: nat, sched: Schedule)
      returns (ghost added: seq<Outcome>, ghost cmds: seq<Command>)
      requires Valid()
      modifies this
      ensures Valid()
      ensures outcomes == old(outcomes) + added && |added| == |vms|
      ensures multiset(added) == multiset(GroupOutcomes(cfg, sub, vms))
      ensures issued == old(issued) + [AccountSet(sub)] + cmds
      ensures Call(cfg, AccountSet(sub)).code != 0 ==> added == GroupOutcomes(cfg, sub, vms) && cmds == []
      ensures Call(cfg, AccountSet(sub)).code == 0 ==>
        multiset(cmds) == multiset(ShowCommands(vms)) + multiset(CreateCommands(cfg, Tasks(cfg, vms)))
    {
      var r, _, _ := RunAzCommand(cfg.cli.run, AccountSet(sub), cfg.maxRetries);
      issued := issued + [AccountSet(sub)];
      GroupOutcomesPerVm(cfg, sub, vms);
      if r.code != 0 {
        FailGroup(vms);
        added, cmds := GroupOutcomes(cfg, sub, vms), [];
        assert issued == old(issued) + [AccountSet(sub)] + cmds;
        return;
      }
      ghost var afterSwitch := issued;
      var pending, step, ran, added1, cmds1 := LookupDetails(vms, g, sched);
      var rest, _, order := RunTasks(pending, |pending|, g, step, sched.pick);
      added, cmds := added1 + TaskOutcomes(cfg, order), cmds1 + CreateCommands(cfg, order);
      NothingLeft(order, rest, pending);
      GroupTotals(cfg, sub, vms, ran, order, pending, added1);
      GroupCommands(cfg, vms, ran, order, pending, cmds1);
      AppendAssoc(old(outcomes), added1, TaskOutcomes(cfg, order));
      AppendAssoc(afterSwitch, cmds1, CreateCommands(cfg, order));
    }

    /** One group of `main`'s loop, with the records it leaves: the
        outcomes `seg` and the commands `cseg` it adds. */
    method RunGroup(sub: string, vms: seq<Entry>, g: nat, sched: Schedule)
      returns (ghost seg: seq<Outcome>, ghost cseg: seq<Command>)
      requires Valid()
      modifies this
      ensures Valid()
      ensures outcomes == old(outcomes) + seg && issued == old(issued) + cseg
      ensures GroupRecord(cfg, sub, vms, seg, cseg)
    {
      ghost var cmds;
      seg, cmds := ProcessGroup(sub, vms, g, sched);
      AppendAssoc(old(issued), [AccountSet(sub)], cmds);
      cseg := [AccountSet(sub)] + cmds;
      GroupRecordOf(cfg, sub, vms, seg, cmds);
    }

    /** `main`, from reading the inventory to the summary counts. `None` in
        `inventory` is a missing file. */
    method Run(inventory: Option<seq<string>>, sched: Schedule)
      returns (summary: Option<Summary>, ghost segs: seq<seq<Outcome>>, ghost cmdSegs: seq<seq<Command>>)
      requires Valid() && outcomes == []
      requires inventory.Some? ==> AllWellFormed(NonBlank(inventory.value))
      modifies this
      ensures Valid()
      ensures inventory.None? ==> summary.None? && issued == old(issued) && outcomes == []
      ensures inventory.Some? ==>
        var vms := NonBlank(inventory.value);
        summary == Some(Summary(|vms|, |successful|, |failed|))
        && |successful| + |failed| == |vms|
        && multiset(outcomes) == multiset(RunOutcomes(cfg, FirstSeen(vms), vms))
        && multiset(successful) == multiset(Successes(RunOutcomes(cfg, FirstSeen(vms), vms)))
        && multiset(failed) == multiset(Failures(RunOutcomes(cfg, FirstSeen(vms), vms)))
        && ledger[..|priorLedger|] == priorLedger
        && |ledger| == |priorLedger| + |successful|
      // The groups run one after another in first-seen order: group g's
      // outcomes and commands form segment g of the records.
      ensures inventory.Some? ==>
        var vms := NonBlank(inventory.value);
        |segs| == |cmdSegs| == |FirstSeen(vms)|
        && outcomes == Flatten(segs)
        && issued == old(issued) + Flatten(cmdSegs)
        && forall g :: 0 <= g < |segs| ==>
             GroupRecord(cfg, FirstSeen(vms)[g], Select(vms, FirstSeen(vms)[g]), segs[g], cmdSegs[g])
    {
      segs, cmdSegs := [], [];
      if inventory.None? {
        return None, segs, cmdSegs;
      }
      var vmList := NonBlank(inventory.value);
      var totalVms := |vmList|;
      var order, groups := GroupBySubscription(vmList);
      // Group `j` of `order` left the records `os` and `cs`.
      ghost var recorded := (j: nat, os: seq<Outcome>, cs: seq<Command>) =>
        j < |order| && order[j] in groups && GroupRecord(cfg, order[j], groups[order[j]], os, cs);
      var g := 0;
      while g < |order|
        invariant 0 <= g <= |order|
        invariant Valid()
        invariant multiset(outcomes) == multiset(RunOutcomes(cfg, order[..g], vmList))
        invariant |segs| == |cmdSegs| == g
        invariant outcomes == Flatten(segs)
        invariant issued == old(issued) + Flatten(cmdSegs)
        invariant AllPairs(segs, cmdSegs, recorded)
      {
        var sub := order[g];
        ghost var added: seq<Outcome>, seg: seq<Command>;
        ghost var before := outcomes;
        added, seg := RunGroup(sub, groups[sub], g, sched);
        TakeSnoc(order, g);
        RunOutcomesSnoc(cfg, order[..g], sub, vmList);
        assert multiset(outcomes) == multiset(before) + multiset(added);
        assert recorded(g, added, seg);
        AllPairsSnoc(segs, cmdSegs, recorded, added, seg);
        FlattenSnoc(segs, added);
        FlattenSnoc(cmdSegs, seg);
        AppendAssoc(old(issued), Flatten(cmdSegs), seg);
        segs, cmdSegs := segs + [added], cmdSegs + [seg];
        g := g + 1;
      }
      TakeAll(order);
      RunTotals(cfg, outcomes, vmList);
      summary := Some(Summary(totalVms, |successful|, |failed|));
      forall j | 0 <= j < |segs|
        ensures GroupRecord(cfg, FirstSeen(vmList)[j], Select(vmList, FirstSeen(vmList)[j]), segs[j], cmdSegs[j])
      {
        assert recorded(j, segs[j], cmdSegs[j]);
      }
    }
  }
}
