# snapauto, modelled in Dafny

snapauto is four Python scripts that drive the Azure CLI (`az`) to snapshot
the OS disks of Linux VMs:

- `make_inventory_linux_vm.py` lists every subscription, selects each in
  turn, collects its Linux VMs and writes `linux_vm-inventory.csv`, one
  `"<resource id> <name>"` row per VM after a header row.
- `vm_resource_id_extractor.py` looks each hostname of a list file up in
  that inventory (first line containing it) and appends the stripped line
  to `snapshot_vmlist.txt`.
- `create_snapshot.py` reads that VM list, groups the VMs by subscription
  (the third `/`-segment of the resource id), switches to each
  subscription, looks up each VM's resource group and OS disk, creates the
  snapshots concurrently, and keeps three accounts: `successful_snapshots`,
  `failed_snapshots` and the append-only `snap_rid_list.txt` of snapshot ids.
  Every `az` call is retried up to `max_retries` times.
- `validate_snapshot.py` runs `az snapshot show` for each id in a list and
  reports which snapshots exist.

The model replaces every `az` invocation by an oracle: a function from the
command (and, where the script retries, the attempt number) to an exit
status, a standard output and a standard error. Decoding a JSON document is
an oracle as well. Files are passed in as their contents (`None` for a file
that does not exist) and written files are returned. With these oracles,
each script is modelled in its own form:

- `create_snapshot.dfy` (module `SnapshotCreation`). The retry loop is a
  method proved against a specification function of the attempts. Grouping
  is a loop over the lines filling an insertion-ordered map. The global
  result lists and the ledger file are the fields of the class
  `SnapshotRun`, whose methods follow `process_vm` and `main`. A ghost log
  of outcomes ties the three accounts together.
- `validate_snapshot.dfy` (module `SnapshotValidation`): the record-building
  loop, the counts, and the rendering of a record as a table row and as a
  block of the saved log.
- `make_inventory.dfy` (module `MakeInventory`): the subscription loop with
  its `continue`, `csv.writer` with the default dialect and a tab delimiter
  (minimal quoting, `"\r\n"` terminators), and `main`.
- `vm_extractor.dfy` (module `VmResourceIdExtractor`): the first-match
  search as a recursive function and `main` as a loop over the hostnames.
- `inventory_roundtrip.dfy` (module `InventoryRoundTrip`): the inventory
  file as the interface between the scripts. A row written for a VM is
  found by its name, copied, and split back into that VM's id and name.
- `text.dfy` (module `Text`): Python's `str.strip()`, `str.split()`,
  `str.split(sep)` and substring test. `seqs.dfy` (module `Seqs`): the list
  comprehensions and generic sequence facts. `process.dfy` (module
  `Process`): `Option` and one captured process run.

## Model

| member | source | states |
|---|---|---|
| Text.Strip | create_snapshot.py:37 | `strip()` drops exactly the leading and trailing whitespace: the result is a slice of the input, neither end is whitespace, and it is empty iff the input is all whitespace |
| Text.StripAround | create_snapshot.py:110 | stripping whitespace-only text from around a word that neither starts nor ends with whitespace gives back the word |
| Text.Words | create_snapshot.py:88 | `split()` yields only non-empty pieces free of whitespace |
| Text.WordsBlank | create_snapshot.py:88 | whitespace-only text splits into no pieces |
| Text.WordsSplit | create_snapshot.py:88 | leading whitespace is skipped and a maximal run of non-whitespace characters is the next piece; with the previous row this fixes `split()` on every input |
| Text.WordsCons | create_snapshot.py:88 | a word free of whitespace followed by a space is split off as the first piece |
| Text.WordsOfPair | create_snapshot.py:88 | two words joined by one space split back into exactly those two words |
| Text.SplitOn | create_snapshot.py:89 | `split("/")` always yields at least one piece, and no piece holds the separator |
| Text.SplitJoin | create_snapshot.py:89 | joining the pieces of `split("/")` with the separator gives back the input |
| Text.SplitOnPrefix | create_snapshot.py:89 | a piece free of the separator followed by the separator is split off as the first piece |
| Text.Contains | vm_resource_id_extractor.py:6 | `sub in s` as a recursive search; no contract of its own, characterised by the next row |
| Text.ContainsAt | vm_resource_id_extractor.py:6 | `hostname in line` holds exactly when the hostname occurs as a slice of the line at some position |
| SnapshotCreation.Finish | create_snapshot.py:36-44 | the exit code and the stripped stderr of the deciding attempt are kept; stdout is stripped on success and dropped on failure |
| SnapshotCreation.Retry | create_snapshot.py:28-44 | 1 to max_retries attempts are made, the result carries the code of the last one, every earlier one failed, and a failure used all attempts |
| SnapshotCreation.Deciding | create_snapshot.py:29-43 | the deciding attempt is the first one that exits with 0, or the last permitted one; every earlier attempt failed |
| SnapshotCreation.RetryFirstSuccess | create_snapshot.py:29-37 | when attempt k is the first success, the result is that attempt's stripped stdout and stderr with code 0, after k+1 attempts |
| SnapshotCreation.RetryExhausted | create_snapshot.py:39-44 | when every attempt fails, the result is empty stdout with the last attempt's stripped stderr and exit code, after max_retries attempts |
| SnapshotCreation.RetrySucceedsIff | create_snapshot.py:28-44 | the result has code 0 iff some permitted attempt succeeded; a failure always used all attempts and carries the last attempt's code |
| SnapshotCreation.RunAzCommand | create_snapshot.py:28-44 | the loop returns the specified result; it makes 1 to max_retries attempts, sleeps once fewer than it attempts (never after the last), and every attempt but the last failed |
| SnapshotCreation.Classify | create_snapshot.py:60-81 | a VM succeeds iff the create exits with 0 and its output has a non-empty `id`, keeping the snapshot name and id; otherwise "Failed to create snapshot" on a non-zero exit, "Failed to extract snapshot ID" on a missing or empty id |
| SnapshotCreation.SnapshotName | create_snapshot.py:60 | the name is "RH_", the change number, "_", the VM name, "_" and the timestamp, each at its own position |
| SnapshotCreation.CreateOutcome | create_snapshot.py:54-81 | the outcome of `process_vm` for a task: its create command classified; no contract of its own, characterised by `Classify` |
| SnapshotCreation.Successes | create_snapshot.py:65-81 | `successful_snapshots` as a sequence of outcomes leaves it; no contract of its own, characterised by `Accounting` and `RunTotals` |
| SnapshotCreation.Failures | create_snapshot.py:65-81 | `failed_snapshots` likewise; characterised by `Accounting` and `RunTotals` |
| SnapshotCreation.Ids | create_snapshot.py:50-52 | the lines appended to `snap_rid_list.txt`; characterised by `Accounting`, `LedgerIds` and `LedgerComplete` |
| SnapshotCreation.Accounting | create_snapshot.py:65-81 | each outcome lands in exactly one of the success and failure lists, and the ledger gains one line per success |
| SnapshotCreation.LedgerIds | create_snapshot.py:74-76 | every ledger line is the id of a successful outcome |
| SnapshotCreation.LedgerComplete | create_snapshot.py:74-78 | the id of every successful outcome is on the ledger |
| SnapshotCreation.Lookup | create_snapshot.py:151-164 | the details are missing exactly when `az vm show` fails |
| SnapshotCreation.VmOutcome | create_snapshot.py:149-166 | a selected VM's outcome is about that VM, and is "Failed to get VM details" when its lookup fails |
| SnapshotCreation.GroupOutcomes | create_snapshot.py:134-170 | a group specifies one outcome per VM |
| SnapshotCreation.DetailFailures | create_snapshot.py:149-160 | the "Failed to get VM details" outcomes of a group's lookups, in input order; characterised by `GroupSplit` and `LookupDetails` |
| SnapshotCreation.Tasks | create_snapshot.py:149-167 | the `process_vm` tasks a group's lookups start, in input order; characterised by `GroupSplit` and `LookupDetails` |
| SnapshotCreation.TaskOutcomes | create_snapshot.py:166-169 | the outcomes of tasks run in a given order; characterised by `TasksReordered` and `GroupTotals` |
| SnapshotCreation.CreateCommands | create_snapshot.py:61-63 | the `az snapshot create` commands of tasks run in a given order; characterised by `TasksReordered` and `GroupCommands` |
| SnapshotCreation.ShowCommands | create_snapshot.py:149-153 | the `az vm show` commands of a group, in input order; characterised by `LookupDetails` and `GroupCommands` |
| SnapshotCreation.GroupOutcomesPerVm | create_snapshot.py:134-170 | every VM of a group gets exactly one outcome, about that VM, in input order |
| SnapshotCreation.SwitchFailureFailsGroup | create_snapshot.py:136-144 | when `az account set` fails, every VM of the group fails with "Failed to set subscription" and nothing succeeds |
| SnapshotCreation.TasksReordered | create_snapshot.py:166-169 | running the same `process_vm` tasks in any order yields the same outcomes and create commands, as multisets |
| SnapshotCreation.GroupSplit | create_snapshot.py:148-169 | a selected group's outcomes are its details failures plus the outcomes of the tasks for the VMs whose details were found |
| SnapshotCreation.WellFormedLine | create_snapshot.py:88-89 | a line that unpacks into two words and whose resource id has a third `/`-segment; no contract of its own |
| SnapshotCreation.ParseLine | create_snapshot.py:88 | both fields are non-empty and free of whitespace, and the resource id has a third `/`-segment |
| SnapshotCreation.SubscriptionOf | create_snapshot.py:89 | the grouping key holds no `/` |
| SnapshotCreation.Select | create_snapshot.py:85-91 | a group holds at most one entry per line, and every entry it holds has the group's subscription |
| SnapshotCreation.FirstSeen | create_snapshot.py:85-91 | there are at most as many groups as lines, and at least one when there is a line |
| SnapshotCreation.SubscriptionOfAzureId | create_snapshot.py:89 | on an id `/subscriptions/<sub>/...` the grouping key is `<sub>` |
| SnapshotCreation.FirstSeenKeys | create_snapshot.py:85-91 | the group keys are distinct and are exactly the subscriptions that occur in the VM list |
| SnapshotCreation.GroupsPartition | create_snapshot.py:85-91 | the group sizes add up to the number of VM list lines, so every line lands in exactly one group |
| SnapshotCreation.AddLine | create_snapshot.py:88-91 | one line joins the end of its subscription's list, which is created and added to the order when the subscription is new, keeping the grouping of the lines read so far |
| SnapshotCreation.GroupBySubscription | create_snapshot.py:85-91 | the groups come in first-seen order and each holds the (resource id, name) pairs of its subscription in input order |
| SnapshotCreation.RunOutcomes | create_snapshot.py:134-170 | the specified outcomes of the groups, in the given order of subscriptions; characterised by `OneOutcomePerVm`, `RunTotals` and `SnapshotRun.Run` |
| SnapshotCreation.OneOutcomePerVm | create_snapshot.py:127-170 | a whole run specifies exactly one outcome per VM of the list |
| SnapshotCreation.RunTotals | create_snapshot.py:176-178 | whatever order the tasks finished in, successes plus failures equal the number of VMs, the ledger gains one id per success, and both lists hold the specified entries |
| SnapshotCreation.NonBlank | create_snapshot.py:110-111 | the VM list holds no more lines than the file, and each is stripped and not empty |
| SnapshotCreation.NonBlankInOrder | create_snapshot.py:110 | the VM list is the stripped non-blank lines in file order: one entry per non-blank line and none for a blank one |
| SnapshotCreation.NonBlankKeeps | create_snapshot.py:110 | every line of the file that is not blank reaches the VM list, stripped |
| SnapshotCreation.NonBlankOnly | create_snapshot.py:110 | everything on the VM list is the stripped form of a line of the file that is not blank |
| SnapshotCreation.SnapshotRun.constructor | create_snapshot.py:21-26 | both result lists start empty and the ledger holds its earlier contents |
| SnapshotCreation.SnapshotRun.Record | create_snapshot.py:65-81 | recording an outcome appends it to exactly one list and, for a success, its id to the ledger |
| SnapshotCreation.SnapshotRun.ProcessVm | create_snapshot.py:54-81 | `process_vm` issues one snapshot create and records the classified outcome |
| SnapshotCreation.SnapshotRun.FailGroup | create_snapshot.py:140-144 | every VM of the group is recorded as "Failed to set subscription", in order, and no command is issued |
| SnapshotCreation.SnapshotRun.LookupVm | create_snapshot.py:149-167 | one `az vm show`; a failure records "Failed to get VM details" and makes no task, a success makes one task |
| SnapshotCreation.SnapshotRun.RunTasks | create_snapshot.py:54-81 | the given number of pending tasks (all, when fewer are left) run to completion in the order the schedule picks; each records its outcome and issues its create once, and the rest stay pending |
| SnapshotCreation.SnapshotRun.LookupStep | create_snapshot.py:149-167 | one `az vm show`; a failure is recorded, a success starts a task; then the tasks the schedule lets finish while `main` awaits record their outcomes and creates, in that order |
| SnapshotCreation.DetailsAdvance | create_snapshot.py:149-167 | one lookup and the tasks that finish after it keep the loop's accounts: started tasks are finished or pending, outcomes are the details failures and finished tasks' outcomes, commands are the lookups and finished tasks' creates |
| SnapshotCreation.SnapshotRun.LookupDetails | create_snapshot.py:148-167 | one `az vm show` per VM; afterwards the started tasks are those finished during the loop plus those pending, and the outcomes and commands added are, as multisets, the details failures and lookups plus the finished tasks' outcomes and creates |
| SnapshotCreation.GroupTotals | create_snapshot.py:148-169 | the tasks finished during the loop together with those the gather waits for yield, as a multiset, the group's specified outcomes, one per VM |
| SnapshotCreation.GroupCommands | create_snapshot.py:148-169 | likewise the commands are every lookup and one create per task |
| SnapshotCreation.SnapshotRun.ProcessGroup | create_snapshot.py:134-170 | the switch comes first; a failed switch records every VM as failed in order and issues nothing more; otherwise the group adds exactly one outcome per VM, the specified ones as a multiset, and issues one details lookup per VM and one create per task |
| SnapshotCreation.GroupRecord | create_snapshot.py:134-170 | what one group leaves: one outcome per VM, the specified ones as a multiset; its commands start with its own `az account set`; a failed switch gives the failures in input order and no further command, a successful one one lookup per VM and one create per task; no contract of its own |
| SnapshotCreation.GroupRecordOf | create_snapshot.py:134-170 | what `ProcessGroup` promises is that group's record |
| SnapshotCreation.SnapshotRun.RunGroup | create_snapshot.py:134-170 | one pass of the loop over groups appends to the outcomes and to the commands issued exactly that group's record |
| SnapshotCreation.SnapshotRun.Run | create_snapshot.py:108-178 | a missing file stops before any command; otherwise the total is the number of non-blank lines, successes plus failures equal it, and the ledger keeps its old lines and gains one per success; the groups run one after another in first-seen order, so the outcomes and the commands issued are one segment per group in that order, each the record of its group |
| SnapshotValidation.RunAzCommand | validate_snapshot.py:31-37 | the result is present iff the exit status is 0, and is then the stripped stdout; it is empty iff stdout is all whitespace |
| SnapshotValidation.Check | validate_snapshot.py:61-75 | the record keeps its id and starts as not existing; it exists iff the command succeeds with output that is not blank and decodes, and only then holds the five copied fields |
| SnapshotValidation.Logged | validate_snapshot.py:35-37 | a failed command logs its stderr; a decode failure of non-blank output logs the snapshot id; nothing else is logged |
| SnapshotValidation.MissingExplained | validate_snapshot.py:61-77 | a snapshot is reported missing iff its check logged an error or its output was blank |
| SnapshotValidation.CountExisting | validate_snapshot.py:111 | at most one per record, and zero exactly when no snapshot exists |
| SnapshotValidation.CountMissing | validate_snapshot.py:112 | at most one per record, and zero exactly when every snapshot exists |
| SnapshotValidation.ExistingPlusMissing | validate_snapshot.py:111-112 | the existing and missing counts add up to the number of records |
| SnapshotValidation.ExistingAreFilled | validate_snapshot.py:65-75 | the existing count is the number of records whose fields were filled in |
| SnapshotValidation.CheckSnapshot | validate_snapshot.py:61-77 | the loop body builds the specified record and error-log lines for one id |
| SnapshotValidation.ValidateSnapshots | validate_snapshot.py:46-79 | one record per line of the list file, blank lines included, in file order, each built for its own id; the error log is the per-id logs in order; total, existing and missing counts agree |
| SnapshotValidation.Fields | validate_snapshot.py:99-104 | `snapshot.get(key, 'N/A')` for the five copied fields: five values, all "N/A" when nothing was copied |
| SnapshotValidation.TableRow | validate_snapshot.py:96-105 | a row has seven cells, starts with the id, shows the check mark iff the snapshot exists, and shows "N/A" for every absent field |
| SnapshotValidation.LogBlock | validate_snapshot.py:121-130 | the saved log shows id and Yes/No for every snapshot and five detail lines only for existing ones |
| MakeInventory.GetSubscriptions | make_inventory_linux_vm.py:9-20 | a failing `az account list` gives the empty list |
| MakeInventory.GetLinuxVms | make_inventory_linux_vm.py:22-37 | a failing `az vm list` gives the empty list |
| MakeInventory.AllVms | make_inventory_linux_vm.py:57-72 | the VM lists of the selectable subscriptions in order; no contract of its own, characterised by the next three rows |
| MakeInventory.SkippedSubscription | make_inventory_linux_vm.py:65-68 | a subscription that cannot be selected contributes nothing, and the subscriptions after it are still processed |
| MakeInventory.CollectedFromSelected | make_inventory_linux_vm.py:57-72 | every collected VM was listed for a subscription that was selected |
| MakeInventory.SelectedAreCollected | make_inventory_linux_vm.py:57-72 | every VM listed for a selected subscription is collected |
| MakeInventory.CollectVms | make_inventory_linux_vm.py:57-74 | `all_vms` is the VM lists of the selectable subscriptions concatenated in order |
| MakeInventory.NeedsQuotes | make_inventory_linux_vm.py:41 | the default dialect quotes a field holding a tab, a quote or a line break; no contract of its own |
| MakeInventory.CsvField | make_inventory_linux_vm.py:41-44 | a field needing no quotes is written as it is; any other is enclosed in quotes |
| MakeInventory.WriteRow | make_inventory_linux_vm.py:42-44 | a record is the rendered field followed by "\r\n" |
| MakeInventory.RowText | make_inventory_linux_vm.py:44 | the row text is the VM's id, one space, and its name |
| MakeInventory.CsvFieldRoundTrip | make_inventory_linux_vm.py:41-44 | a CSV reader recovers every field the writer renders, quoted or not |
| MakeInventory.PlainField | make_inventory_linux_vm.py:41-44 | a field without tab, quote or line break is written as it is, followed by "\r\n" |
| MakeInventory.HeaderPlain | make_inventory_linux_vm.py:42 | the header row needs no quoting |
| MakeInventory.InventoryRows | make_inventory_linux_vm.py:39-44 | the records of the written file; no contract of its own, characterised by `InventoryLayout` and `WriteToCsv` |
| MakeInventory.InventoryLayout | make_inventory_linux_vm.py:42-44 | the file holds one record more than there are VMs: the header first, unquoted, then VM k's row as record k+1 |
| MakeInventory.WriteToCsv | make_inventory_linux_vm.py:39-45 | the loop writes the header and then one row per VM in list order |
| MakeInventory.Run | make_inventory_linux_vm.py:47-88 | the file is written iff some VM was collected, and then holds exactly the collected VMs; the summary count is their number |
| VmResourceIdExtractor.GetVmInfo | vm_resource_id_extractor.py:3-8 | none iff no line contains the hostname; an empty hostname matches the first line, stripped |
| VmResourceIdExtractor.Found | vm_resource_id_extractor.py:30 | a lookup result is written only when it is a non-empty line; no contract of its own |
| VmResourceIdExtractor.Written | vm_resource_id_extractor.py:29-31 | what is written for one hostname: the found line and a line break, or nothing; no contract of its own, characterised by `WrittenAreFoundLines` and `FoundOrWarned` |
| VmResourceIdExtractor.Warned | vm_resource_id_extractor.py:32-33 | the hostname when nothing is found for it; characterised by `FoundOrWarned` |
| VmResourceIdExtractor.FirstMatchWins | vm_resource_id_extractor.py:5-7 | a hostname found on line k and on no earlier line yields line k stripped; with the previous row this fixes the result for every input |
| VmResourceIdExtractor.WrittenAreFoundLines | vm_resource_id_extractor.py:28-31 | what is appended is the found lines in hostname order, each followed by a line break |
| VmResourceIdExtractor.FoundOrWarned | vm_resource_id_extractor.py:28-33 | every hostname is either written once or warned about once |
| VmResourceIdExtractor.Extract | vm_resource_id_extractor.py:10-35 | a missing inventory or list file stops before the output is opened; otherwise the earlier output is kept, the new lines follow it, and the report says whether it was appended to |
| InventoryRoundTrip.TextModeLine | vm_resource_id_extractor.py:4-5 | reading a record in text mode never lengthens it, and a record ending in "\r\n" reads as a line ending in "\n" |
| InventoryRoundTrip.ReadInventory | vm_resource_id_extractor.py:4-5 | the lines read back from the written file, one per record; characterised by `ExtractedRowParses` and `HeaderShadows` |
| InventoryRoundTrip.RowWrittenPlain | make_inventory_linux_vm.py:44 | a VM whose id and name hold no whitespace or quote is written unquoted and read back in text mode as its row text and "\n" |
| InventoryRoundTrip.RowParsesBack | create_snapshot.py:88 | after `strip()`, `split()` of such a row gives exactly the id and the name |
| InventoryRoundTrip.RowIsWellFormed | create_snapshot.py:88-89 | such a row, with an id that has a third `/`-segment, parses into (id, name) and is grouped under that segment |
| InventoryRoundTrip.NameInRow | vm_resource_id_extractor.py:6 | a VM's name occurs in its own row |
| InventoryRoundTrip.ExtractedRowParses | vm_resource_id_extractor.py:3-8 | looking up VM k by name finds its row when neither the header nor an earlier row contains the name, and create_snapshot.py reads the copied line back as that VM's id and name |
| InventoryRoundTrip.HeaderReadBack | make_inventory_linux_vm.py:42 | the header record reads back as the header and a line break, which `strip()` removes |
| InventoryRoundTrip.HeaderShadows | vm_resource_id_extractor.py:6 | any hostname that occurs in the header, the empty one included, finds the header row |
| InventoryRoundTrip.HeaderIsNotAVmLine | create_snapshot.py:88 | the header splits into three words, so a header line in the VM list cannot be unpacked |

## Left out

- Running processes (`asyncio.create_subprocess_shell`, `subprocess.run`) and the exact command strings: each `az` call is an oracle keyed by its structured command. The oracle is deterministic, so two identical commands get identical answers. In create_snapshot.py the answer also depends on the attempt number.
- Byte decoding of process output (`stdout.decode()`): outputs are text from the start.
- JSON decoding: it is an oracle. Paths that raise are outside the model: the `KeyError`s at create_snapshot.py:163-164, validate_snapshot.py:70-74, make_inventory_linux_vm.py:58-59 (`subscription['id']`, `subscription['name']`) and make_inventory_linux_vm.py:44 (`vm['SubscriptionId']`, `vm['Name']`); the decoded records always carry these keys, and `json.loads` on output that is not JSON at create_snapshot.py:71 and 162 and make_inventory_linux_vm.py:19 and 36. The oracles are total. The decode error caught at validate_snapshot.py:76-77 is modelled as the parse oracle answering `None`.
- `validate_snapshot.py` prints `str(diskSizeGb)`: the parse oracle delivers each copied value already as the text that is printed.
- `line.split()` unpacking errors and a resource id without a third `/`-segment (create_snapshot.py:88-89): `SnapshotRun.Run` requires every non-blank line to be well formed.
- validate_snapshot.py:46 opens the snapshot list without catching `FileNotFoundError`, so a missing list ends the script with a traceback. `SnapshotValidation.ValidateSnapshots` takes the list's lines, so that crash is not modelled.
- `max_retries = 0` leaves `process` unbound at create_snapshot.py:44, so the `Retries` type starts at 1.
- asyncio: a task started at create_snapshot.py:166 runs whenever `main` next awaits, that is during a later `az vm show` (its retries and sleeps included) or during the `gather`. The model lets a schedule parameter decide, after each lookup, how many pending tasks finish and which, and the `gather` finishes the rest. Each task's create and its recorded outcome form one step, so runs where two tasks interleave inside `process_vm` are not produced. A details failure is recorded before the tasks that finish during the next lookup. This means a task whose create is issued after a lookup but whose outcome lands before that lookup's failure is not produced. The `Semaphore(10)` bound is not modelled. The group's totals are stated as multisets, which hold for every such order.
- `asyncio.sleep`: only the number of sleeps is kept, as a ghost count. The delay is not modelled.
- Clocks, `getpass`, `input` prompts, `Confirm.ask`, the `rich` console, progress bars and the printed tables. The per-VM and overall progress counters, including the double advance at create_snapshot.py:159 and 170, are display only.
- The text of `write_log` and `log_error` messages and the creation of the log directory. The snapshot summary file at create_snapshot.py:182-193, and the header and totals of the saved validation log, are not modelled. Their counts are the modelled ones.
- Reading files: a file is given as the lines the script iterates (create_snapshot.py, vm_resource_id_extractor.py) or as its `splitlines()` (validate_snapshot.py, and the hostname list). Universal-newline translation appears only where the inventory is read back (`InventoryRoundTrip.TextModeLine`). There each written record is read back as one line. A quoted field holding "\r" or "\n" would come back as several lines, but Azure resource ids and VM names hold no line breaks.
- `csv.writer`: only one-field rows are modelled, which is all the script writes. The quoting of a lone empty field does not arise, because every written field is non-empty.
- SnapshotCreation.SnapshotRun.Run: states the success and failure lists only up to order within each group (as multisets), because the order in which the concurrent `process_vm` tasks of a group finish is left open. The order across groups is stated: the outcomes and the commands are one segment per group, in first-seen order.
- SnapshotCreation.SnapshotRun.ProcessGroup: states the outcomes and the commands after the switch only as multisets, for the same reason. `LookupStep` and `RunTasks` state their exact sequences for a given schedule.
