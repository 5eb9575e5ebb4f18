/** make_inventory_linux_vm.py: list the subscriptions, select each in
    turn, collect its Linux VMs, and write one `"<id> <name>"` row per VM
    after a header row.

    Each `az` command is an oracle. `az vm list` is keyed by the
    subscription that `az account set` selected just before it. Decoding
    the JSON output of the two listing commands is an oracle too. The
    written file is returned as its sequence of CSV records. */
module MakeInventory {
  import opened Process
  import opened Seqs

  /** An entry of `az account list`: the two keys the script reads. */
  datatype Subscription = Subscription(id: string, name: string)

  /** An entry of `az vm list --query "[?...=='Linux'].{SubscriptionId:id, Name:name}"`.
      Despite its key, `subscriptionId` holds the VM's full resource id. */
  datatype Vm = Vm(subscriptionId: string, name: string)

  /** The `az` CLI as the script observes it. */
  datatype Cli = Cli(
    accountList: Attempt,                        // az account list -o json
    subscriptions: string -> seq<Subscription>,  // json.loads of its stdout
    accountSet: string -> Attempt,               // az account set --subscription <id>
    vmList: string -> Attempt,                   // az vm list ... -o json, with <id> selected
    vms: string -> seq<Vm>)                      // json.loads of its stdout

  // ---------------------------------------------------------------------------
  // get_subscriptions, get_linux_vms
  // ---------------------------------------------------------------------------

  /** `get_subscriptions`: the decoded list, or `[]` when the command fails. */
  function GetSubscriptions(cli: Cli): (subs: seq<Subscription>)
    ensures cli.accountList.code != 0 ==> subs == []
    ensures cli.accountList.code == 0 ==> subs == cli.subscriptions(cli.accountList.stdout)
  {
    var result := cli.accountList;
    if result.code != 0 then [] else cli.subscriptions(result.stdout)
  }

  /** `get_linux_vms` with subscription `sub` selected: the decoded list, or
      `[]` when the command fails. */
  function GetLinuxVms(cli: Cli, sub: string): (vms: seq<Vm>)
    ensures cli.vmList(sub).code != 0 ==> vms == []
    ensures cli.vmList(sub).code == 0 ==> vms == cli.vms(cli.vmList(sub).stdout)
  {
    var result := cli.vmList(sub);
    if result.code != 0 then [] else cli.vms(result.stdout)
  }

  // ---------------------------------------------------------------------------
  // The aggregation loop of main
  // ---------------------------------------------------------------------------

  /** What one subscription contributes: nothing when it cannot be selected,
      its Linux VMs otherwise. */
  function Contribution(cli: Cli, s: Subscription): seq<Vm> {
    if cli.accountSet(s.id).code != 0 then [] else GetLinuxVms(cli, s.id)
  }

  function ContributionOf(cli: Cli): Subscription -> seq<Vm> { s => Contribution(cli, s) }

  /** `all_vms`: the VM lists of the selectable subscriptions, concatenated
      in subscription order. */
  function AllVms(cli: Cli, subs: seq<Subscription>): seq<Vm> {
    Gather(subs, ContributionOf(cli))
  }

  /** A subscription that cannot be selected is skipped: the VMs collected
      are those of the subscriptions before it followed by those after it. */
  lemma SkippedSubscription(cli: Cli, before: seq<Subscription>, s: Subscription, after: seq<Subscription>)
    requires cli.accountSet(s.id).code != 0
    ensures AllVms(cli, before + [s] + after) == AllVms(cli, before) + AllVms(cli, after)
  {
    GatherAppend(before + [s], after, ContributionOf(cli));
    GatherSnoc(before, s, ContributionOf(cli));
  }

  /** Every collected VM comes from a subscription that was selected. */
  lemma {:induction false} CollectedFromSelected(cli: Cli, subs: seq<Subscription>, vm: Vm)
    requires vm in AllVms(cli, subs)
    ensures exists i :: 0 <= i < |subs| && cli.accountSet(subs[i].id).code == 0 && vm in GetLinuxVms(cli, subs[i].id)
    decreases |subs|
  {
    var init, last := subs[..|subs| - 1], subs[|subs| - 1];
    LastSplit(subs);
    GatherSnoc(init, last, ContributionOf(cli));
    if vm in AllVms(cli, init) {
      CollectedFromSelected(cli, init, vm);
      var i :| 0 <= i < |init| && cli.accountSet(init[i].id).code == 0 && vm in GetLinuxVms(cli, init[i].id);
      assert subs[i] == init[i];
    } else {
      assert vm in Contribution(cli, last);
      assert subs[|subs| - 1] == last;
    }
  }

  /** Every VM listed for a selected subscription is collected. */
  lemma {:induction false} SelectedAreCollected(cli: Cli, subs: seq<Subscription>, i: nat, vm: Vm)
    requires i < |subs| && cli.accountSet(subs[i].id).code == 0 && vm in GetLinuxVms(cli, subs[i].id)
    ensures vm in AllVms(cli, subs)
    decreases |subs|
  {
    var init, last := subs[..|subs| - 1], subs[|subs| - 1];
    LastSplit(subs);
    GatherSnoc(init, last, ContributionOf(cli));
    if i < |init| {
      assert init[i] == subs[i];
      SelectedAreCollected(cli, init, i, vm);
    }
  }

  /** The subscription loop of `main`: `account set` each subscription, skip
      it on failure, extend `all_vms` with its VMs otherwise. */
  method CollectVms(cli: Cli, subscriptions: seq<Subscription>) returns (allVms: seq<Vm>)
    ensures allVms == AllVms(cli, subscriptions)
  {
    allVms := [];
    for i := 0 to |subscriptions|
      invariant allVms == AllVms(cli, subscriptions[..i])
    {
      var subscription := subscriptions[i];
      TakeSnoc(subscriptions, i);
      GatherSnoc(subscriptions[..i], subscription, ContributionOf(cli));
      var result := cli.accountSet(subscription.id);
      if result.code != 0 {
        continue;
      }
      var vms := GetLinuxVms(cli, subscription.id);
      if vms != [] {
        allVms := allVms + vms;
      }
    }
    TakeAll(subscriptions);
  }

  // ---------------------------------------------------------------------------
  // csv.writer(file, delimiter='\t') with the default dialect
  // ---------------------------------------------------------------------------

  /** The default dialect's line terminator. */
  const LineTerminator := "\r\n"

  /** Minimal quoting: a field is quoted when it holds the delimiter (a tab),
      the quote character or a line-terminator character. */
  predicate NeedsQuotes(field: string) {
    '\t' in field || '"' in field || '\r' in field || '\n' in field
  }

  /** Inside a quoted field every quote character is doubled. */
  function DoubleQuotes(field: string): string {
    if field == [] then []
    else (if field[0] == '"' then "\"\"" else [field[0]]) + DoubleQuotes(field[1..])
  }

  /** How the writer renders one field. */
  function CsvField(field: string): (r: string)
    ensures !NeedsQuotes(field) ==> r == field
    ensures NeedsQuotes(field) ==> |r| >= 2 && r[0] == '"' && r[|r| - 1] == '"'
  {
    if NeedsQuotes(field) then "\"" + DoubleQuotes(field) + "\"" else field
  }

  /** `writer.writerow([field])`: a record of one field. */
  function WriteRow(field: string): (r: string)
    ensures |r| == |CsvField(field)| + 2 && r[|r| - 2..] == LineTerminator
  {
    CsvField(field) + LineTerminator
  }

  /** A reader's view of the doubled quotes: each pair becomes one quote. */
  function UndoubleQuotes(s: string): string {
    if s == [] then []
    else if |s| >= 2 && s[0] == '"' && s[1] == '"' then "\"" + UndoubleQuotes(s[2..])
    else [s[0]] + UndoubleQuotes(s[1..])
  }

  /** How a CSV reader recovers a field from its rendering. */
  function ReadField(s: string): string {
    if |s| >= 2 && s[0] == '"' && s[|s| - 1] == '"' then UndoubleQuotes(s[1..|s| - 1]) else s
  }

  lemma {:induction false} UndoubleDouble(field: string)
    ensures UndoubleQuotes(DoubleQuotes(field)) == field
    decreases |field|
  {
    if field != [] {
      var rest := DoubleQuotes(field[1..]);
      UndoubleDouble(field[1..]);
      if field[0] == '"' {
        assert DoubleQuotes(field) == "\"\"" + rest;
        assert ("\"\"" + rest)[2..] == rest;
      } else {
        assert DoubleQuotes(field) == [field[0]] + rest;
        assert ([field[0]] + rest)[1..] == rest;
      }
      assert field == [field[0]] + field[1..];
    }
  }

  /** Reading a written field gives back the field, quoted or not. */
  lemma CsvFieldRoundTrip(field: string)
    ensures ReadField(CsvField(field)) == field
  {
    if NeedsQuotes(field) {
      var q := "\"" + DoubleQuotes(field) + "\"";
      assert q[1..|q| - 1] == DoubleQuotes(field);
      UndoubleDouble(field);
    } else if |field| >= 2 {
      assert field[0] != '"';
    }
  }

  /** A field free of tabs, quotes and line breaks is written as it is. */
  lemma PlainField(field: string)
    requires !NeedsQuotes(field)
    ensures WriteRow(field) == field + LineTerminator
  {
  }

  // ---------------------------------------------------------------------------
  // write_to_csv
  // ---------------------------------------------------------------------------

  /** "Subscription ID,VM Name/Hostname". It is spelled in four pieces so
      that `HeaderPlain` can show, piece by piece, that it needs no quoting:
      the verifier reasons about a short literal's characters cheaply, but
      about one 32-character literal only at a high cost. */
  const Header := "Subscri" + "ption ID" + ",VM Name" + "/Hostname"

  /** The single field written for one VM: its id and its name, one space apart. */
  function RowText(vm: Vm): (t: string)
    ensures |t| == |vm.subscriptionId| + 1 + |vm.name|
    ensures t[..|vm.subscriptionId|] == vm.subscriptionId && t[|vm.subscriptionId|] == ' '
    ensures t[|vm.subscriptionId| + 1..] == vm.name
  {
    vm.subscriptionId + " " + vm.name
  }

  function RowOf(vm: Vm): string { WriteRow(RowText(vm)) }

  /** The records of the inventory file: the header, then one per VM. */
  function InventoryRows(vms: seq<Vm>): seq<string> {
    [WriteRow(Header)] + Map(vms, RowOf)
  }

  /** Two pieces that need no quoting make a field that needs none. */
  lemma PlainAppend(a: string, b: string)
    requires !NeedsQuotes(a) && !NeedsQuotes(b)
    ensures !NeedsQuotes(a + b)
  {
  }

  /** Text made of printable characters other than the quote needs no quoting. */
  lemma PiecePlain(s: string)
    requires forall i :: 0 <= i < |s| ==> ' ' <= s[i] && s[i] != '"'
    ensures !NeedsQuotes(s)
  {
  }

  /** The header holds no tab, quote or line break, so it is written unquoted. */
  lemma HeaderPlain()
    ensures !NeedsQuotes(Header)
  {
    var a, b, c, d := "Subscri", "ption ID", ",VM Name", "/Hostname";
    PiecePlain(a);
    PiecePlain(b);
    PiecePlain(c);
    PiecePlain(d);
    PlainAppend(a, b);
    PlainAppend(a + b, c);
    PlainAppend(a + b + c, d);
  }

  /** The header comes first, unquoted, and record `k + 1` is VM `k`'s row. */
  lemma InventoryLayout(vms: seq<Vm>)
    ensures |InventoryRows(vms)| == |vms| + 1
    ensures InventoryRows(vms)[0] == Header + LineTerminator
    ensures forall k :: 0 <= k < |vms| ==> InventoryRows(vms)[k + 1] == WriteRow(RowText(vms[k]))
  {
    HeaderPlain();
    PlainField(Header);
    forall k | 0 <= k < |vms| ensures InventoryRows(vms)[k + 1] == WriteRow(RowText(vms[k])) {
      MapAt(vms, RowOf, k);
    }
  }

  /** `write_to_csv`: the header row, then one row per VM in list order. */
  method WriteToCsv(vms: seq<Vm>) returns (rows: seq<string>)
    ensures rows == InventoryRows(vms)
  {
    rows := [WriteRow(Header)];
    for i := 0 to |vms|
      invariant rows == [WriteRow(Header)] + Map(vms[..i], RowOf)
    {
      TakeSnoc(vms, i);
      MapSnoc(vms[..i], vms[i], RowOf);
      rows := rows + [WriteRow(RowText(vms[i]))];
    }
    TakeAll(vms);
  }

  // ---------------------------------------------------------------------------
  // main
  // ---------------------------------------------------------------------------

  /** `main`: collect the VMs of every selectable subscription and write the
      inventory file only when there is at least one. `inventory` is `None`
      when the file is not written; `totalVms` is the summary count. */
  method Run(cli: Cli) returns (inventory: Option<seq<string>>, totalVms: nat)
    ensures totalVms == |AllVms(cli, GetSubscriptions(cli))|
    ensures inventory.Some? <==> AllVms(cli, GetSubscriptions(cli)) != []
    ensures inventory.Some? ==> inventory.value == InventoryRows(AllVms(cli, GetSubscriptions(cli)))
  {
    var subscriptions := GetSubscriptions(cli);
    var allVms := CollectVms(cli, subscriptions);
    inventory := None;
    if allVms != [] {
      var rows := WriteToCsv(allVms);
      inventory := Some(rows);
    }
    totalVms := |allVms|;
  }
}
