/** vm_resource_id_extractor.py: for each hostname of a list file, find the
    first inventory line that contains it and append that line, stripped,
    to `snapshot_vmlist.txt`.

    Files are passed in as their contents; `None` is a file that does not
    exist. The inventory is the sequence of lines that iterating the open
    file yields, each with its line break. */
module VmResourceIdExtractor {
  import opened Process
  import opened Text
  import opened Seqs

  // ---------------------------------------------------------------------------
  // get_vm_info
  // ---------------------------------------------------------------------------

  /** `get_vm_info`: the first line of the inventory that contains
      `hostname` as a substring, stripped; `None` when no line does. An
      empty hostname is a substring of every line, so it matches the first
      line, which in an inventory file is the header. */
  function GetVmInfo(hostname: string, inventory: seq<string>): (info: Option<string>)
    ensures info.None? <==> forall k :: 0 <= k < |inventory| ==> !Contains(inventory[k], hostname)
    ensures hostname == [] && inventory != [] ==> info == Some(Strip(inventory[0]))
    decreases |inventory|
  {
    if inventory == [] then None
    else if Contains(inventory[0], hostname) then Some(Strip(inventory[0]))
    else
      var rest := inventory[1..];
      var info := GetVmInfo(hostname, rest);
      assert forall j :: 0 <= j < |rest| ==> rest[j] == inventory[j + 1];
      info
  }

  /** The first matching line decides: a hostname found on line `k` of the
      inventory, and on no earlier line, yields line `k` stripped. */
  lemma {:induction false} FirstMatchWins(hostname: string, inventory: seq<string>, k: nat)
    requires k < |inventory| && Contains(inventory[k], hostname)
    requires forall j :: 0 <= j < k ==> !Contains(inventory[j], hostname)
    ensures GetVmInfo(hostname, inventory) == Some(Strip(inventory[k]))
    decreases k
  {
    if k > 0 {
      FirstMatchWins(hostname, inventory[1..], k - 1);
    }
  }

  // ---------------------------------------------------------------------------
  // main
  // ---------------------------------------------------------------------------

  /** `if vm_info:` — a line is written only for a match that is not blank. */
  predicate Found(info: Option<string>) {
    info.Some? && info.value != []
  }

  /** What the loop of `main` writes for one hostname. */
  function Written(inventory: seq<string>, hostname: string): string {
    var info := GetVmInfo(hostname, inventory);
    if Found(info) then info.value + "\n" else ""
  }

  /** The hostnames `main` warns about. */
  function Warned(inventory: seq<string>, hostname: string): seq<string> {
    if Found(GetVmInfo(hostname, inventory)) then [] else [hostname]
  }

  /** The lines `main` adds to the output, one per found hostname. */
  function FoundLine(inventory: seq<string>, hostname: string): seq<string> {
    var info := GetVmInfo(hostname, inventory);
    if Found(info) then [info.value] else []
  }

  function WrittenOf(inventory: seq<string>): string -> string { h => Written(inventory, h) }

  function WarnedOf(inventory: seq<string>): string -> seq<string> { h => Warned(inventory, h) }

  function FoundLineOf(inventory: seq<string>): string -> seq<string> { h => FoundLine(inventory, h) }

  /** `l + "\n"` for a line of the output. */
  function Terminated(line: string): string { line + "\n" }

  /** What `main` appends is the found lines, in hostname order, each
      followed by a line break. */
  lemma {:induction false} WrittenAreFoundLines(inventory: seq<string>, hostnames: seq<string>)
    ensures Gather(hostnames, WrittenOf(inventory))
         == Gather(Gather(hostnames, FoundLineOf(inventory)), Terminated)
    decreases |hostnames|
  {
    if hostnames != [] {
      var init, h := hostnames[..|hostnames| - 1], hostnames[|hostnames| - 1];
      WrittenAreFoundLines(inventory, init);
      LastSplit(hostnames);
      GatherSnoc(init, h, WrittenOf(inventory));
      GatherSnoc(init, h, FoundLineOf(inventory));
      var found := Gather(init, FoundLineOf(inventory));
      if Found(GetVmInfo(h, inventory)) {
        GatherSnoc(found, GetVmInfo(h, inventory).value, Terminated);
      } else {
        assert found + [] == found;
      }
    }
  }

  /** Every hostname is either written once or warned about once. */
  lemma {:induction false} FoundOrWarned(inventory: seq<string>, hostnames: seq<string>)
    ensures |Gather(hostnames, FoundLineOf(inventory))| + |Gather(hostnames, WarnedOf(inventory))| == |hostnames|
    decreases |hostnames|
  {
    if hostnames != [] {
      var init, h := hostnames[..|hostnames| - 1], hostnames[|hostnames| - 1];
      FoundOrWarned(inventory, init);
      LastSplit(hostnames);
      GatherSnoc(init, h, FoundLineOf(inventory));
      GatherSnoc(init, h, WarnedOf(inventory));
    }
  }

  /** Why `main` stopped, or how it opened the output file. */
  datatype Report =
    | MissingInventory               // "Error: Inventory file ... not found."
    | MissingList                    // "Error: List file ... not found."
    | Done(appended: bool)           // "appended to" or "written to"

  /** `main`. `listFile` holds the hostnames (the lines of the list file),
      `inventory` the lines of `linux_vm-inventory.csv`, and `output` the
      contents of `snapshot_vmlist.txt`. Returns the new contents of the
      output file and the hostnames warned about. */
  method Extract(listFile: Option<seq<string>>, inventory: Option<seq<string>>, output: Option<string>)
    returns (newOutput: Option<string>, warnings: seq<string>, report: Report)
    ensures inventory.None? ==> report == MissingInventory && newOutput == output && warnings == []
    ensures inventory.Some? && listFile.None? ==> report == MissingList && newOutput == output && warnings == []
    ensures inventory.Some? && listFile.Some? ==>
      var prior := if output.Some? then output.value else "";
      report == Done(output.Some?)
      && newOutput == Some(prior + Gather(listFile.value, WrittenOf(inventory.value)))
      && warnings == Gather(listFile.value, WarnedOf(inventory.value))
  {
    if inventory.None? {
      return output, [], MissingInventory;
    }
    if listFile.None? {
      return output, [], MissingList;
    }
    var hostnames := listFile.value;
    var appended := output.Some?;
    var content := if appended then output.value else "";
    ghost var prior := content;
    warnings := [];
    for i := 0 to |hostnames|
      invariant content == prior + Gather(hostnames[..i], WrittenOf(inventory.value))
      invariant warnings == Gather(hostnames[..i], WarnedOf(inventory.value))
    {
      var hostname := hostnames[i];
      var vmInfo := GetVmInfo(hostname, inventory.value);
      TakeSnoc(hostnames, i);
      GatherSnoc(hostnames[..i], hostname, WrittenOf(inventory.value));
      GatherSnoc(hostnames[..i], hostname, WarnedOf(inventory.value));
      AppendAssoc(prior, Gather(hostnames[..i], WrittenOf(inventory.value)), Written(inventory.value, hostname));
      if vmInfo.Some? && vmInfo.value != [] {
        content := content + (vmInfo.value + "\n");
      } else {
        warnings := warnings + [hostname];
      }
    }
    TakeAll(hostnames);
    newOutput := Some(content);
    report := Done(appended);
  }
}
