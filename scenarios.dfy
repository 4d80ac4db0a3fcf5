/** Client scenarios of the table model, proved from its contracts alone. */
module SeqFileScenarios {
  import opened JavaValues
  import opened SeqFileData
  import opened SeqFileTable
  import AddSeqFile

  /** An empty table, then one confirmed file: one row holding the path and the defaults. */
  method AppendToEmpty() returns (count: nat, name: Value, nSev: Value, xSev: Value, refDal: Value)
    ensures count == 1
    ensures name == Str("/tmp/a.seq") && nSev == Integer(3) && xSev == Double(-9.0) && refDal == Str("A")
  {
    var t := new SeqFileTableModel();
    AddSeqFile.ActionPerformed(t, Some("/tmp/a.seq"));
    count := t.GetRowCount();
    name, nSev := t.GetValueAt(0, 0), t.GetValueAt(0, 1);
    xSev, refDal := t.GetValueAt(0, 2), t.GetValueAt(0, 3);
  }

  /** A cancelled dialog leaves the table as it was. */
  method CancelledDialog() returns (before: nat, after: nat)
    ensures before == after == 1
  {
    var t := new SeqFileTableModel();
    AddSeqFile.ActionPerformed(t, Some("/data/x.seq"));
    before := t.GetRowCount();
    AddSeqFile.ActionPerformed(t, None);
    after := t.GetRowCount();
  }

  /** Three rows, then the middle one removed: the first stays, the last moves up. */
  method RemoveMiddle() returns (count: nat, first: Value, second: Value)
    ensures count == 2 && first == Str("a.seq") && second == Str("c.seq")
  {
    var t := new SeqFileTableModel();
    AddSeqFile.ActionPerformed(t, Some("a.seq"));
    AddSeqFile.ActionPerformed(t, Some("b.seq"));
    AddSeqFile.ActionPerformed(t, Some("c.seq"));
    t.RemoveSeqFile(1);
    count := t.GetRowCount();
    first, second := t.GetValueAt(0, 0), t.GetValueAt(1, 0);
  }

  /** Written cells read back; a null write and a write to column 7 change nothing,
      and reading column 7 gives null even for a row that does not exist. */
  method SetThenGet() returns (nSev: Value, xSev: Value, refDal: Value, outside: Value)
    ensures nSev == Integer(5) && xSev == Double(-7.0) && refDal == Str("B") && outside == Null
  {
    var t := new SeqFileTableModel();
    AddSeqFile.ActionPerformed(t, Some("a.seq"));
    t.SetValueAt(Integer(5), 0, 1);
    t.SetValueAt(Null, 0, 2);
    t.SetValueAt(Null, 42, 0);
    t.SetValueAt(Double(-7.0), 0, 2);
    t.SetValueAt(Str("B"), 0, 3);
    t.SetValueAt(Other(1), 0, 7);
    nSev, xSev, refDal := t.GetValueAt(0, 1), t.GetValueAt(0, 2), t.GetValueAt(0, 3);
    outside := t.GetValueAt(42, 7);
  }

  /** One record added twice sits in two rows; writing through one row shows in the other. */
  method AliasedRows() returns (first: Value, second: Value)
    ensures first == second == Str("B")
  {
    var t := new SeqFileTableModel();
    var r := new SeqFileDataModel(Str("a.seq"), Integer(3), Double(-9.0), Str("A"));
    t.AddSeqFile(r);
    t.AddSeqFile(r);
    t.SetValueAt(Str("B"), 0, 3);
    first, second := t.GetValueAt(0, 3), t.GetValueAt(1, 3);
  }
}
