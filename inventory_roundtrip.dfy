/** The inventory file is the interface between the scripts:
    make_inventory_linux_vm.py writes it, vm_resource_id_extractor.py
    searches it and copies matching lines, stripped, into the VM list, and
    create_snapshot.py splits each VM list line back into a resource id and
    a VM name. */
module InventoryRoundTrip {
  import opened Process
  import opened Text
  import opened Seqs
  import opened MakeInventory
  import SnapshotCreation
  import VmResourceIdExtractor

  /** A VM whose id and name are non-empty and hold no whitespace and no
      quote character, as Azure resource ids and VM names do. */
  predicate PlainVm(vm: Vm) {
    vm.subscriptionId != [] && vm.name != []
    && NoSpace(vm.subscriptionId) && NoSpace(vm.name)
    && '"' !in vm.subscriptionId && '"' !in vm.name
  }

  /** A record read back in text mode: universal newlines turn the
      writer's "\r\n" into "\n". */
  function TextModeLine(record: string): (line: string)
    ensures |line| <= |record|
    ensures |record| >= 2 && record[|record| - 2..] == LineTerminator ==> line != [] && line[|line| - 1] == '\n'
  {
    if |record| >= 2 && record[|record| - 2..] == LineTerminator then record[..|record| - 2] + "\n" else record
  }

  /** The lines that iterating the open inventory file yields. */
  function ReadInventory(rows: seq<string>): (lines: seq<string>)
    ensures |lines| == |rows|
  {
    Map(rows, TextModeLine)
  }

  /** Tabs and line breaks are whitespace, so text without whitespace or
      quotes needs no quoting. */
  lemma PlainText(s: string)
    requires NoSpace(s) && '"' !in s
    ensures !NeedsQuotes(s)
  {
  }

  /** The row of a plain VM is written unquoted, and text mode reads it back
      as the row text followed by "\n". */
  lemma RowWrittenPlain(vm: Vm)
    requires PlainVm(vm)
    ensures WriteRow(RowText(vm)) == RowText(vm) + LineTerminator
    ensures TextModeLine(WriteRow(RowText(vm))) == RowText(vm) + "\n"
  {
    PlainText(vm.subscriptionId);
    PlainText(vm.name);
    PlainAppend(vm.subscriptionId, " ");
    PlainAppend(vm.subscriptionId + " ", vm.name);
    PlainField(RowText(vm));
    TextModeRecord(RowText(vm));
  }

  /** Text mode reads any record the writer ends with "\r\n" as ending in "\n". */
  lemma TextModeRecord(t: string)
    ensures TextModeLine(t + LineTerminator) == t + "\n"
  {
    var r := t + LineTerminator;
    assert r[|r| - 2..] == LineTerminator;
    assert r[..|r| - 2] == t;
  }

  /** `strip` removes a trailing line break from text that neither starts
      nor ends with whitespace. */
  lemma StripLine(t: string, terminator: string)
    requires t != [] && !IsSpace(t[0]) && !IsSpace(t[|t| - 1])
    requires terminator == "\n" || terminator == LineTerminator
    ensures Strip(t + terminator) == t
  {
    assert AllSpace(terminator);
    assert [] + t + terminator == t + terminator;
    StripAround([], t, terminator);
  }

  /** `line.strip()` removes the line break again, and `line.split()` in
      create_snapshot.py recovers exactly the id and the name. */
  lemma RowParsesBack(vm: Vm, terminator: string)
    requires PlainVm(vm)
    requires terminator == "\n" || terminator == LineTerminator
    ensures Strip(RowText(vm) + terminator) == RowText(vm)
    ensures Words(RowText(vm)) == [vm.subscriptionId, vm.name]
  {
    var t := RowText(vm);
    assert t[0] == vm.subscriptionId[0];
    assert t[|t| - 1] == vm.name[|vm.name| - 1];
    StripLine(t, terminator);
    WordsOfPair(vm.subscriptionId, vm.name);
  }

  /** A plain VM whose id has a third `/`-segment makes a VM list line that
      create_snapshot.py parses into that id and name, grouped under that
      segment. */
  lemma RowIsWellFormed(vm: Vm)
    requires PlainVm(vm) && |SplitOn(vm.subscriptionId, '/')| >= 3
    ensures SnapshotCreation.WellFormedLine(RowText(vm))
    ensures SnapshotCreation.ParseLine(RowText(vm)) == (vm.subscriptionId, vm.name)
    ensures SnapshotCreation.KeyOf(RowText(vm)) == SplitOn(vm.subscriptionId, '/')[2]
  {
    RowParsesBack(vm, "\n");
  }

  /** The name of a plain VM occurs in its own row. */
  lemma NameInRow(vm: Vm)
    requires PlainVm(vm)
    ensures Contains(RowText(vm) + "\n", vm.name)
  {
    var s := RowText(vm) + "\n";
    var i := |vm.subscriptionId| + 1;
    assert s[i..] == vm.name + "\n";
    ContainsAt(s, vm.name);
  }

  /** The whole chain for VM `k` of an inventory: looking up its name finds
      its row (when neither the header nor an earlier row contains the name),
      the extractor copies the row text, and create_snapshot.py reads that
      line back as the VM's id and name. */
  lemma ExtractedRowParses(vms: seq<Vm>, k: nat)
    requires k < |vms| && PlainVm(vms[k]) && |SplitOn(vms[k].subscriptionId, '/')| >= 3
    requires var lines := ReadInventory(InventoryRows(vms));
      forall j :: 0 <= j <= k ==> !Contains(lines[j], vms[k].name)
    ensures VmResourceIdExtractor.GetVmInfo(vms[k].name, ReadInventory(InventoryRows(vms)))
         == Some(RowText(vms[k]))
    ensures SnapshotCreation.WellFormedLine(Strip(RowText(vms[k]) + "\n"))
    ensures SnapshotCreation.ParseLine(Strip(RowText(vms[k]) + "\n")) == (vms[k].subscriptionId, vms[k].name)
  {
    var vm := vms[k];
    var lines := ReadInventory(InventoryRows(vms));
    InventoryLayout(vms);
    MapAt(InventoryRows(vms), TextModeLine, k + 1);
    RowWrittenPlain(vm);
    assert lines[k + 1] == RowText(vm) + "\n";
    NameInRow(vm);
    RowParsesBack(vm, "\n");
    VmResourceIdExtractor.FirstMatchWins(vm.name, lines, k + 1);
    RowIsWellFormed(vm);
  }

  /** The header record reads back as the header and a line break, which
      `strip` removes. */
  lemma HeaderReadBack()
    ensures TextModeLine(WriteRow(Header)) == Header + "\n"
    ensures Strip(Header + "\n") == Header
  {
    InventoryLayout([]);
    TextModeRecord(Header);
    HeaderEnds();
    StripLine(Header, "\n");
  }

  lemma HeaderEnds()
    ensures Header != [] && !IsSpace(Header[0]) && !IsSpace(Header[|Header| - 1])
  {
    assert Header[0] == 'S';
    assert Header[|Header| - 1] == 'e';
  }

  /** A hostname that occurs in the header — "VM", "Name", or the empty
      string a blank line of the list file gives — finds the header row, not
      a VM row. */
  lemma HeaderShadows(vms: seq<Vm>, hostname: string)
    requires Contains(Header + "\n", hostname)
    ensures VmResourceIdExtractor.GetVmInfo(hostname, ReadInventory(InventoryRows(vms))) == Some(Header)
  {
    var lines := ReadInventory(InventoryRows(vms));
    InventoryLayout(vms);
    MapAt(InventoryRows(vms), TextModeLine, 0);
    HeaderReadBack();
    VmResourceIdExtractor.FirstMatchWins(hostname, lines, 0);
  }

  /** The header splits into three words, so the header line, once copied
      into the VM list, is not a line that create_snapshot.py can unpack. */
  lemma HeaderIsNotAVmLine()
    ensures !SnapshotCreation.WellFormedLine(Header)
  {
    HeaderSpelling();
    HeaderWords();
    ThreeWords("Subscription", "ID,VM", "Name/Hostname");
  }

  lemma ThreeWords(a: string, b: string, c: string)
    requires a != [] && b != [] && c != [] && NoSpace(a) && NoSpace(b) && NoSpace(c)
    ensures |Words(a + " " + (b + " " + c))| == 3
  {
    WordsCons(a, b + " " + c);
    WordsOfPair(b, c);
  }

  lemma HeaderSpelling()
    ensures Header == "Subscription" + " " + ("ID,VM" + " " + "Name/Hostname")
  {
  }

  lemma HeaderWords()
    ensures NoSpace("Subscription") && NoSpace("ID,VM") && NoSpace("Name/Hostname")
  {
  }
}
