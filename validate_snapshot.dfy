/** The validation pass of validate_snapshot.py: one `az snapshot show` per
    line of the snapshot list, one record per line, and the existing and
    missing counts.

    The `az` call is an oracle keyed by the snapshot id. Decoding the JSON
    document is an oracle too: it answers `None` where `json.loads` raises
    `JSONDecodeError`. The error log file is the returned `errorLog`. */
module SnapshotValidation {
  import opened Process
  import opened Text
  import opened Seqs

  /** The five values copied from the `az snapshot show` document, each as
      the text the table and the saved log print for it. */
  datatype SnapshotDetails = SnapshotDetails(
    name: string, resourceGroup: string, timeCreated: string, sizeGb: string, state: string)

  /** The `az` CLI as the script observes it. */
  datatype Cli = Cli(
    show: string -> Attempt,                    // az snapshot show --ids <id> --query {...} -o json
    parse: string -> Option<SnapshotDetails>)   // json.loads; None where it raises JSONDecodeError

  /** `snapshot_info`: the id, the `exists` flag (`present`), and the five copied fields,
      which are present exactly when `update` has run. */
  datatype SnapshotInfo = SnapshotInfo(id: string, present: bool, details: Option<SnapshotDetails>)

  /** One line of the error log. */
  datatype LogEntry =
    | CommandError(id: string, stderr: string)  // "Error running command: ... Error: <stderr>"
    | ParseError(id: string)                    // "Failed to parse JSON for snapshot: <id>"

  // ---------------------------------------------------------------------------
  // run_az_command
  // ---------------------------------------------------------------------------

  /** `run_az_command`: `check=True` raises on a non-zero exit status, which
      is caught and turned into `None`; otherwise the stripped stdout. */
  function RunAzCommand(p: Attempt): (out: Option<string>)
    ensures out.Some? <==> p.code == 0
    ensures out.Some? ==> out.value == Strip(p.stdout)
    ensures out.Some? && out.value != [] ==> !IsSpace(out.value[0]) && !IsSpace(out.value[|out.value| - 1])
    ensures out == Some([]) <==> p.code == 0 && AllSpace(p.stdout)
  {
    if p.code == 0 then Some(Strip(p.stdout)) else None
  }

  // ---------------------------------------------------------------------------
  // One snapshot id
  // ---------------------------------------------------------------------------

  /** The record `validate_snapshots` builds for one snapshot id: it starts
      as not existing and is filled in only when the command succeeds with
      output that is not blank and that decodes. */
  function Check(cli: Cli, id: string): (info: SnapshotInfo)
    ensures info.id == id
    ensures info.present <==> info.details.Some?
    ensures info.present <==>
      cli.show(id).code == 0 && !AllSpace(cli.show(id).stdout) && cli.parse(Strip(cli.show(id).stdout)).Some?
    ensures info.present ==> info.details == cli.parse(Strip(cli.show(id).stdout))
  {
    var initial := SnapshotInfo(id, false, None);
    match RunAzCommand(cli.show(id))
    case None => initial
    case Some(details) =>
      if details == [] then initial
      else match cli.parse(details)
        case None => initial
        case Some(d) => initial.(present := true, details := Some(d))
  }

  /** The error-log lines written while checking one snapshot id. */
  function Logged(cli: Cli, id: string): (log: seq<LogEntry>)
    ensures cli.show(id).code != 0 ==> log == [CommandError(id, cli.show(id).stderr)]
    ensures cli.show(id).code == 0 ==> log == [] || log == [ParseError(id)]
    ensures log == [ParseError(id)] <==>
      cli.show(id).code == 0 && !AllSpace(cli.show(id).stdout) && cli.parse(Strip(cli.show(id).stdout)).None?
  {
    var p := cli.show(id);
    if p.code != 0 then [CommandError(id, p.stderr)]
    else if Strip(p.stdout) != [] && cli.parse(Strip(p.stdout)).None? then [ParseError(id)]
    else []
  }

  function CheckOf(cli: Cli): string -> SnapshotInfo { id => Check(cli, id) }

  function LoggedOf(cli: Cli): string -> seq<LogEntry> { id => Logged(cli, id) }

  /** A snapshot reported missing either had its command fail (logged), had
      output that does not decode (logged with its id), or had blank output
      (not logged). */
  lemma MissingExplained(cli: Cli, id: string)
    ensures !Check(cli, id).present <==>
      Logged(cli, id) != [] || (cli.show(id).code == 0 && AllSpace(cli.show(id).stdout))
  {
    if cli.show(id).code == 0 && !AllSpace(cli.show(id).stdout) && cli.parse(Strip(cli.show(id).stdout)).Some? {
      assert Logged(cli, id) == [];
    }
  }

  // ---------------------------------------------------------------------------
  // The counts
  // ---------------------------------------------------------------------------

  /** `sum(1 for s in validated_snapshots if s['exists'])`. */
  function CountExisting(rs: seq<SnapshotInfo>): (n: nat)
    ensures n <= |rs|
    ensures n == 0 <==> forall i :: 0 <= i < |rs| ==> !rs[i].present
  {
    if rs == [] then 0 else (if rs[0].present then 1 else 0) + CountExisting(rs[1..])
  }

  /** `sum(1 for s in validated_snapshots if not s['exists'])`. */
  function CountMissing(rs: seq<SnapshotInfo>): (n: nat)
    ensures n <= |rs|
    ensures n == 0 <==> forall i :: 0 <= i < |rs| ==> rs[i].present
  {
    if rs == [] then 0 else (if rs[0].present then 0 else 1) + CountMissing(rs[1..])
  }

  /** Every record is counted once, as existing or as missing. */
  lemma {:induction false} ExistingPlusMissing(rs: seq<SnapshotInfo>)
    ensures CountExisting(rs) + CountMissing(rs) == |rs|
    decreases |rs|
  {
    if rs != [] {
      ExistingPlusMissing(rs[1..]);
    }
  }

  /** The existing count is the number of records whose fields were filled in. */
  lemma {:induction false} ExistingAreFilled(rs: seq<SnapshotInfo>)
    requires forall k :: 0 <= k < |rs| ==> (rs[k].present <==> rs[k].details.Some?)
    ensures CountExisting(rs) == |Gather(rs, Filled)|
    decreases |rs|
  {
    if rs != [] {
      var p, last := rs[..|rs| - 1], rs[|rs| - 1];
      ExistingAreFilled(p);
      LastSplit(rs);
      GatherSnoc(p, last, Filled);
      CountSnoc(p, last);
    }
  }

  function Filled(s: SnapshotInfo): seq<SnapshotDetails> {
    if s.details.Some? then [s.details.value] else []
  }

  lemma {:induction false} CountSnoc(rs: seq<SnapshotInfo>, s: SnapshotInfo)
    ensures CountExisting(rs + [s]) == CountExisting(rs) + (if s.present then 1 else 0)
    decreases |rs|
  {
    if rs == [] {
      assert [] + [s] == [s];
    } else {
      assert (rs + [s])[1..] == rs[1..] + [s];
      CountSnoc(rs[1..], s);
    }
  }

  // ---------------------------------------------------------------------------
  // validate_snapshots
  // ---------------------------------------------------------------------------

  /** The body of the loop of `validate_snapshots`: the record for one
      snapshot id and what it writes to the error log. */
  method CheckSnapshot(cli: Cli, snapshotId: string) returns (snapshotInfo: SnapshotInfo, log: seq<LogEntry>)
    ensures snapshotInfo == Check(cli, snapshotId) && log == Logged(cli, snapshotId)
  {
    snapshotInfo := SnapshotInfo(snapshotId, false, None);
    log := [];
    var details := RunAzCommand(cli.show(snapshotId));
    if details.None? {
      log := [CommandError(snapshotId, cli.show(snapshotId).stderr)];
    } else if details.value != [] {
      var parsed := cli.parse(details.value);
      if parsed.Some? {
        snapshotInfo := snapshotInfo.(present := true, details := parsed);
      } else {
        log := [ParseError(snapshotId)];
      }
    }
  }

  /** The record-building loop of `validate_snapshots` and the counts it
      reports. `snapshotIds` are the lines of the snapshot list file, blank
      lines included. */
  method ValidateSnapshots(cli: Cli, snapshotIds: seq<string>)
    returns (validated: seq<SnapshotInfo>, errorLog: seq<LogEntry>, total: nat, existing: nat, missing: nat)
    ensures total == |snapshotIds| == |validated|
    ensures validated == Map(snapshotIds, CheckOf(cli))
    ensures forall k :: 0 <= k < |validated| ==> validated[k] == Check(cli, snapshotIds[k])
    ensures errorLog == Gather(snapshotIds, LoggedOf(cli))
    ensures existing == CountExisting(validated) && missing == CountMissing(validated)
    ensures existing + missing == total
    ensures existing == |Gather(validated, Filled)|
  {
    total := |snapshotIds|;
    validated, errorLog := [], [];
    var i := 0;
    while i < |snapshotIds|
      invariant 0 <= i <= |snapshotIds|
      invariant validated == Map(snapshotIds[..i], CheckOf(cli))
      invariant errorLog == Gather(snapshotIds[..i], LoggedOf(cli))
    {
      var snapshotInfo, log := CheckSnapshot(cli, snapshotIds[i]);
      TakeSnoc(snapshotIds, i);
      MapSnoc(snapshotIds[..i], snapshotIds[i], CheckOf(cli));
      GatherSnoc(snapshotIds[..i], snapshotIds[i], LoggedOf(cli));
      validated := validated + [snapshotInfo];
      errorLog := errorLog + log;
      i := i + 1;
    }
    TakeAll(snapshotIds);
    forall k | 0 <= k < |validated| ensures validated[k] == Check(cli, snapshotIds[k]) {
      MapAt(snapshotIds, CheckOf(cli), k);
    }
    existing := CountExisting(validated);
    missing := CountMissing(validated);
    ExistingPlusMissing(validated);
    ExistingAreFilled(validated);
  }

  // ---------------------------------------------------------------------------
  // Rendering
  // ---------------------------------------------------------------------------

  const NotAvailable := "N/A"

  /** `snapshot.get(key, 'N/A')` for the five copied fields. */
  function Fields(s: SnapshotInfo): (f: seq<string>)
    ensures |f| == 5
    ensures s.details.None? ==> forall k :: 0 <= k < 5 ==> f[k] == NotAvailable
  {
    match s.details
    case Some(d) => [d.name, d.resourceGroup, d.timeCreated, d.sizeGb, d.state]
    case None => [NotAvailable, NotAvailable, NotAvailable, NotAvailable, NotAvailable]
  }

  /** One row of the summary table: id, name, a check or a cross, resource
      group, creation time, size and state. */
  function TableRow(s: SnapshotInfo): (row: seq<string>)
    ensures |row| == 7 && row[0] == s.id
    ensures row[2] == "\U{2705}" <==> s.present
    ensures s.details.None? ==> forall k :: 0 <= k < 7 && k != 0 && k != 2 ==> row[k] == NotAvailable
    ensures [row[1]] + row[3..] == Fields(s)
  {
    var f := Fields(s);
    [s.id, f[0], if s.present then "\U{2705}" else "\U{274C}", f[1], f[2], f[3], f[4]]
  }

  /** The block the saved log holds for one snapshot: its id, Yes or No, the
      five detail lines only when it exists, then a blank line. */
  function LogBlock(s: SnapshotInfo): (lines: seq<string>)
    ensures |lines| == if s.present then 8 else 3
    ensures lines[0] == "Snapshot ID: " + s.id
    ensures lines[1] == "Exists: " + (if s.present then "Yes" else "No")
    ensures lines[|lines| - 1] == ""
  {
    var head := ["Snapshot ID: " + s.id, "Exists: " + (if s.present then "Yes" else "No")];
    if s.present then
      var f := Fields(s);
      head + ["Name: " + f[0], "Resource Group: " + f[1], "Time Created: " + f[2],
              "Size (GB): " + f[3], "State: " + f[4]] + [""]
    else head + [""]
  }
}
