/** The seq-file list shown as a table: an ordered list of row records
    exposed as rows by four fixed columns, with row notifications to the view. */
module SeqFileTable {
  import opened JavaValues
  import opened SeqFileData

  /** What `setValueAt` casts a non-null value to before storing it in column `c`;
      None for a column it ignores. Columns 0 and 3 take a `String`, column 1
      an `Integer`, column 2 a `Double`. */
  function StoredClass(c: int): (k: Option<ColumnClass>) {
    match c
    case 0 => Some(StringClass)
    case 1 => Some(IntegerClass)
    case 2 => Some(DoubleClass)
    case 3 => Some(StringClass)
    case _ => None
  }

  /** The cast `setValueAt` applies to `v` for column `c` does not throw. */
  predicate CastOk(v: Value, c: int) {
    StoredClass(c).Some? ==> CastSucceeds(v, StoredClass(c).value)
  }

  /** Cell `c` of a row, as `getValueAt` reads it: the field that column maps
      to, and null for any other column. What comes out can always be written
      back, and it is null or an instance of the class the column reports. */
  function Cell(row: Row, c: int): (v: Value)
    ensures !(0 <= c < 4) ==> v == Null
    ensures CastOk(v, c)
    ensures v.Null? || InstanceOf(v, SeqFileTableModel.GetColumnClass(c))
  {
    match c
    case 0 => row.seqFileName
    case 1 => row.nSev
    case 2 => row.xSev
    case 3 => row.refDal
    case _ => Null
  }

  /** The row after `setValueAt` has written `v` into column `c`: that cell
      now reads `v` and every other cell reads as before; a column outside
      0..3 leaves the row as it was. */
  function SetCell(row: Row, c: int, v: Value): (r: Row)
    requires CastOk(v, c)
    ensures 0 <= c < 4 ==> Cell(r, c) == v
    ensures forall d :: d != c ==> Cell(r, d) == Cell(row, d)
    ensures !(0 <= c < 4) ==> r == row
  {
    match c
    case 0 => row.(seqFileName := v)
    case 1 => row.(nSev := v)
    case 2 => row.(xSev := v)
    case 3 => row.(refDal := v)
    case _ => row
  }

  /** Writing back what was read from a cell changes nothing. */
  lemma GetThenSet(row: Row, c: int)
    ensures SetCell(row, c, Cell(row, c)) == row
  {
  }

  /** `ArrayList.remove(r)`: one element fewer, the ones before `r` where
      they were and the ones after `r` one place down. */
  function RemoveAt<T>(s: seq<T>, r: int): (t: seq<T>)
    requires 0 <= r < |s|
    ensures |t| == |s| - 1
    ensures forall i :: 0 <= i < r ==> t[i] == s[i]
    ensures forall i :: r <= i < |t| ==> t[i] == s[i + 1]
  {
    s[..r] + s[r + 1..]
  }

  /** Removing the row just appended gives back the list as it was. */
  lemma RemoveUndoesAppend<T>(s: seq<T>, e: T)
    ensures RemoveAt(s + [e], |s|) == s
  {
  }

  /** The notifications the table sends its listeners; both name an inclusive range of rows. */
  datatype TableEvent = RowsInserted(first: int, last: int) | RowsDeleted(first: int, last: int)

  /** The row count a listener believes in after hearing `e` when it believed
      in `n` rows; None when `e` cannot apply to `n` rows. */
  function Apply(n: nat, e: TableEvent): (m: Option<nat>) {
    match e
    case RowsInserted(f, l) => if 0 <= f <= l && f <= n then Some(n + (l - f + 1)) else None
    case RowsDeleted(f, l) => if 0 <= f <= l < n then Some(n - (l - f + 1)) else None
  }

  /** A listener that starts out believing in `n` rows and hears `es` in order. */
  function Replay(n: nat, es: seq<TableEvent>): (m: Option<nat>)
    decreases |es|
  {
    if es == [] then Some(n)
    else match Apply(n, es[0])
      case None => None
      case Some(m) => Replay(m, es[1..])
  }

  /** Hearing one more notification is one more step of the listener. */
  lemma {:induction false} ReplaySnoc(n: nat, es: seq<TableEvent>, e: TableEvent)
    ensures Replay(n, es + [e]) == match Replay(n, es) case None => None case Some(m) => Apply(m, e)
    decreases |es|
  {
    if es == [] {
      assert es + [e] == [e];
      assert [e][1..] == [];
    } else {
      assert (es + [e])[0] == es[0];
      assert (es + [e])[1..] == es[1..] + [e];
      match Apply(n, es[0])
      case None =>
      case Some(m) => ReplaySnoc(m, es[1..], e);
    }
  }

  /** The table model: the list of row records (references, which can be
      aliased) and, as a ghost, every notification it has sent. */
  class SeqFileTableModel {
    var seqFileList: seq<SeqFileDataModel>
    ghost var events: seq<TableEvent>

    static const Headers: seq<string> := ["Failure Condition", "nSev", "xSev", "refDAL"]

    /** A listener that has heard every notification knows the row count. */
    ghost predicate Valid()
      reads this
    {
      Replay(0, events) == Some(|seqFileList|)
    }

    /** The rows as values, in display order. */
    ghost function Contents(): (s: seq<Row>)
      reads this, seqFileList
    {
      var rs := seqFileList;
      seq(|rs|, i reads rs requires 0 <= i < |rs| => rs[i].Snapshot())
    }

    constructor ()
      ensures Valid() && Contents() == [] && events == []
    {
      seqFileList := [];
      events := [];
    }

    static function IsCellEditable(rowIndex: int, columnIndex: int): (editable: bool)
      ensures editable
    {
      true
    }

    static function GetColumnCount(): (n: nat)
      ensures n == 4
    {
      |Headers|
    }

    static function GetColumnName(columnIndex: int): (name: string)
      requires 0 <= columnIndex < GetColumnCount()
      ensures columnIndex == 0 ==> name == "Failure Condition"
      ensures columnIndex == 1 ==> name == "nSev"
      ensures columnIndex == 2 ==> name == "xSev"
      ensures columnIndex == 3 ==> name == "refDAL"
    {
      Headers[columnIndex]
    }

    static function GetColumnClass(columnIndex: int): (k: ColumnClass)
      ensures k == ObjectClass <==> !(1 <= columnIndex <= 3)
      ensures columnIndex == 1 ==> k == IntegerClass
      ensures columnIndex == 2 ==> k == DoubleClass
      ensures columnIndex == 3 ==> k == StringClass
    {
      match columnIndex
      case 1 => IntegerClass
      case 2 => DoubleClass
      case 3 => StringClass
      case _ => ObjectClass
    }

    /** The four columns, their headers and the classes they report. */
    static lemma ColumnLayout()
      ensures GetColumnCount() == 4
      ensures GetColumnName(0) == "Failure Condition" && GetColumnName(1) == "nSev"
      ensures GetColumnName(2) == "xSev" && GetColumnName(3) == "refDAL"
      ensures GetColumnClass(0) == ObjectClass && GetColumnClass(1) == IntegerClass
      ensures GetColumnClass(2) == DoubleClass && GetColumnClass(3) == StringClass
      ensures forall c :: !(0 <= c < 4) ==> GetColumnClass(c) == ObjectClass
    {
    }

    function GetRowCount(): (n: nat)
      reads this, seqFileList
      ensures n == |Contents()|
    {
      |seqFileList|
    }

    /** `getValueAt` looks the row up only for columns 0..3, so any row index
        is accepted together with another column. */
    function GetValueAt(rowIndex: int, columnIndex: int): (v: Value)
      reads this, seqFileList
      requires 0 <= columnIndex < 4 ==> 0 <= rowIndex < |seqFileList|
      ensures 0 <= columnIndex < 4 ==> v == Cell(Contents()[rowIndex], columnIndex)
      ensures !(0 <= columnIndex < 4) ==> v == Null
    {
      match columnIndex
      case 0 => seqFileList[rowIndex].GetSeqFileName()
      case 1 => seqFileList[rowIndex].GetNSev()
      case 2 => seqFileList[rowIndex].GetXSev()
      case 3 => seqFileList[rowIndex].GetRefDal()
      case _ => Null
    }

    /** A null value is ignored before the list is touched. Otherwise the row
        is looked up (so it must exist) and the value is cast and stored in
        the row record, which every index holding that same record sees.
        No notification is sent. */
    method SetValueAt(aValue: Value, rowIndex: int, columnIndex: int)
      requires Valid()
      requires !aValue.Null? ==> 0 <= rowIndex < |seqFileList| && CastOk(aValue, columnIndex)
      modifies if aValue.Null? then {} else {seqFileList[rowIndex]}
      ensures Valid() && seqFileList == old(seqFileList) && events == old(events)
      ensures |Contents()| == |old(Contents())|
      ensures forall j :: 0 <= j < |seqFileList| ==>
        Contents()[j] == if !aValue.Null? && seqFileList[j] == seqFileList[rowIndex]
                         then SetCell(old(Contents())[j], columnIndex, aValue)
                         else old(Contents())[j]
    {
      if !aValue.Null? {
        var seqFile := seqFileList[rowIndex];
        match columnIndex
        case 0 => seqFile.SetSeqFileName(aValue);
        case 1 => seqFile.SetNSev(aValue);
        case 2 => seqFile.SetXSev(aValue);
        case 3 => seqFile.SetRefDal(aValue);
        case _ =>
      }
    }

    /** Appends a row record and announces the new last row. */
    method AddSeqFile(seqFile: SeqFileDataModel)
      requires Valid()
      modifies this
      ensures Valid()
      ensures seqFileList == old(seqFileList) + [seqFile]
      ensures Contents() == old(Contents()) + [seqFile.Snapshot()]
      ensures events == old(events) + [RowsInserted(|seqFileList| - 1, |seqFileList| - 1)]
    {
      seqFileList := seqFileList + [seqFile];
      events := events + [RowsInserted(|seqFileList| - 1, |seqFileList| - 1)];
      ReplaySnoc(0, old(events), RowsInserted(|seqFileList| - 1, |seqFileList| - 1));
    }

    /** Removes the row at `rowIndex` and announces it. */
    method RemoveSeqFile(rowIndex: int)
      requires Valid()
      requires 0 <= rowIndex < |seqFileList|
      modifies this
      ensures Valid()
      ensures seqFileList == RemoveAt(old(seqFileList), rowIndex)
      ensures Contents() == RemoveAt(old(Contents()), rowIndex)
      ensures events == old(events) + [RowsDeleted(rowIndex, rowIndex)]
    {
      seqFileList := RemoveAt(seqFileList, rowIndex);
      events := events + [RowsDeleted(rowIndex, rowIndex)];
      ReplaySnoc(0, old(events), RowsDeleted(rowIndex, rowIndex));
    }
  }
}
