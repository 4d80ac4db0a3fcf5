# Dalculator seq-file table model, in Dafny

Dalculator's GUI keeps the seq files that feed a DAL computation in a table.
Each row is a `SeqFileDataModel` record with four fields: the failure-condition
file name, `nSev`, `xSev` and `refDal`. The table model `SeqFileTableModel`
holds these records in an ordered list.
It shows them as rows by four fixed columns and tells its view when rows are inserted or deleted.
The "add seq file" action appends a confirmed file with the defaults
`(3, -9.0, "A")`.

Modules:

- `JavaValues` (java_values.dfy): the values a cell can hold. `Value` stands for a
  Java `Object` reference (null, `String`, `Integer`, `Double` or anything else).
  `StringValue`, `IntegerValue` and `DoubleValue` are the nullable references of
  those static types. It also holds `instanceof` and the reference cast.
- `SeqFileData` (seq_file_data_model.dfy): the row record as a class with four
  mutable fields, and `Row`, its state as a value.
- `SeqFileTable` (seq_file_table_model.dfy): the cell mapping (`Cell`, `SetCell`),
  list removal (`RemoveAt`), and the notifications (`TableEvent`). `Replay` is a
  listener that follows those notifications. `SeqFileTableModel` is the class holding
  the list of row references and a ghost log of the notifications it has sent.
  Its invariant `Valid()` says that a listener replaying the log from an empty
  table arrives at the current row count.
- `AddSeqFile` (add_seq_file.dfy): the add action. The dialog is reduced to an
  optional absolute path.
- `SeqFileScenarios` (scenarios.dfy): client scenarios, proved from the contracts alone.

The list stores references, so one record can sit in several rows.
`SetValueAt` states its effect on every row that holds the record it writes to, not only on row `rowIndex`.

Two behaviours of the code are worth noting:

- `getColumnClass(0)` reports `Object`, not `String`. Only `setValueAt` casts column 0 to `String`.
- `setValueAt` sends no notification. Only `addSeqFile` and `removeSeqFile` fire events.

## Model

| member | source | states |
|---|---|---|
| `SeqFileData.SeqFileDataModel.constructor` | src/main/java/dalculator/gui/SeqFileDataModel.java:26-31 | the four getters return exactly the file name, `nSev`, `xSev` and `refDal` given, null included |
| `SeqFileData.SeqFileDataModel.GetSeqFileName` | src/main/java/dalculator/gui/SeqFileDataModel.java:33-35 | reads the stored file name; its value is stated by the constructor's and `SetSeqFileName`'s ensures |
| `SeqFileData.SeqFileDataModel.GetNSev` | src/main/java/dalculator/gui/SeqFileDataModel.java:41-43 | reads the stored `nSev`; its value is stated by the constructor's and `SetNSev`'s ensures |
| `SeqFileData.SeqFileDataModel.GetXSev` | src/main/java/dalculator/gui/SeqFileDataModel.java:49-51 | reads the stored `xSev`; its value is stated by the constructor's and `SetXSev`'s ensures |
| `SeqFileData.SeqFileDataModel.GetRefDal` | src/main/java/dalculator/gui/SeqFileDataModel.java:56-58 | reads the stored `refDal`; its value is stated by the constructor's and `SetRefDal`'s ensures |
| `SeqFileData.SeqFileDataModel.SetSeqFileName` | src/main/java/dalculator/gui/SeqFileDataModel.java:37-39 | afterwards `GetSeqFileName()` is the argument; `nSev`, `xSev`, `refDal` unchanged |
| `SeqFileData.SeqFileDataModel.SetNSev` | src/main/java/dalculator/gui/SeqFileDataModel.java:45-47 | afterwards `GetNSev()` is the argument; the other three fields unchanged |
| `SeqFileData.SeqFileDataModel.SetXSev` | src/main/java/dalculator/gui/SeqFileDataModel.java:53-55 | afterwards `GetXSev()` is the argument; the other three fields unchanged |
| `SeqFileData.SeqFileDataModel.SetRefDal` | src/main/java/dalculator/gui/SeqFileDataModel.java:60-62 | afterwards `GetRefDal()` is the argument; the other three fields unchanged |
| `SeqFileTable.Cell` | src/main/java/dalculator/gui/SeqFileTableModel.java:67-82 | a column outside 0..3 reads null; every cell read can be written back by `setValueAt` without a failing cast, and is null or an instance of the class `getColumnClass` reports |
| `SeqFileTable.SetCell` | src/main/java/dalculator/gui/SeqFileTableModel.java:88-101 | after a write to column 0..3 that cell reads the value written and every other cell reads as before; a write to another column leaves the row unchanged |
| `SeqFileTable.GetThenSet` | src/main/java/dalculator/gui/SeqFileTableModel.java:67-101 | writing back the value read from a cell leaves the row unchanged |
| `SeqFileTable.RemoveAt` | src/main/java/dalculator/gui/SeqFileTableModel.java:111 | one element fewer; elements before the index unchanged, elements after it one place down |
| `SeqFileTable.RemoveUndoesAppend` | src/main/java/dalculator/gui/SeqFileTableModel.java:105-113 | removing the row that `addSeqFile` just appended restores the list |
| `SeqFileTable.ReplaySnoc` | src/main/java/dalculator/gui/SeqFileTableModel.java:105-113 | a listener hearing one more notification takes one more step from where the earlier ones left it |
| `SeqFileTable.SeqFileTableModel.constructor` | src/main/java/dalculator/gui/SeqFileTableModel.java:26-31 | a new table has no rows and has sent no notifications |
| `SeqFileTable.SeqFileTableModel.IsCellEditable` | src/main/java/dalculator/gui/SeqFileTableModel.java:34-36 | every cell is editable |
| `SeqFileTable.SeqFileTableModel.GetColumnCount` | src/main/java/dalculator/gui/SeqFileTableModel.java:39-41 | there are always 4 columns |
| `SeqFileTable.SeqFileTableModel.GetColumnName` | src/main/java/dalculator/gui/SeqFileTableModel.java:27-45 | for a column in range, "Failure Condition", "nSev", "xSev", "refDAL" for 0..3 |
| `SeqFileTable.SeqFileTableModel.GetColumnClass` | src/main/java/dalculator/gui/SeqFileTableModel.java:48-59 | Integer for 1, Double for 2, String for 3, and Object exactly for every other index, 0 included |
| `SeqFileTable.SeqFileTableModel.ColumnLayout` | src/main/java/dalculator/gui/SeqFileTableModel.java:27-59 | four columns named "Failure Condition", "nSev", "xSev", "refDAL" in order; classes Object, Integer, Double, String for 0..3 and Object for every other index |
| `SeqFileTable.SeqFileTableModel.GetRowCount` | src/main/java/dalculator/gui/SeqFileTableModel.java:62-64 | the number of rows of the table's contents |
| `SeqFileTable.SeqFileTableModel.GetValueAt` | src/main/java/dalculator/gui/SeqFileTableModel.java:67-82 | for columns 0..3 the matching field of the row (which must exist); null for any other column, whatever the row index; reads only |
| `SeqFileTable.SeqFileTableModel.SetValueAt` | src/main/java/dalculator/gui/SeqFileTableModel.java:85-103 | a null value changes nothing, for any row index; otherwise the row must exist and the cast succeed; every row holding that record becomes `SetCell(old row, column, value)` and every other row, the list itself and the notification log are unchanged |
| `SeqFileTable.SeqFileTableModel.AddSeqFile` | src/main/java/dalculator/gui/SeqFileTableModel.java:105-108 | the record is appended, so the count grows by one, the record sits at the old count and the earlier rows are unchanged; a rows-inserted notification for (old count, old count) is logged; the listener invariant is kept |
| `SeqFileTable.SeqFileTableModel.RemoveSeqFile` | src/main/java/dalculator/gui/SeqFileTableModel.java:110-113 | for an index in range, list and contents are `RemoveAt` of the old ones; a rows-deleted notification for (index, index) is logged; the listener invariant is kept |
| `AddSeqFile.ActionPerformed` | src/main/java/dalculator/gui/AddSeqFileListener.java:34-41 | a cancelled dialog changes nothing; a confirmed path is appended as a fresh row (path, 3, -9.0, "A") with its rows-inserted notification |
| `SeqFileScenarios.AppendToEmpty` | src/main/java/dalculator/gui/AddSeqFileListener.java:39 | empty table plus one confirmed file: one row reading the path, 3, -9.0 and "A" |
| `SeqFileScenarios.CancelledDialog` | src/main/java/dalculator/gui/AddSeqFileListener.java:37-40 | a cancelled dialog leaves the row count as it was |
| `SeqFileScenarios.RemoveMiddle` | src/main/java/dalculator/gui/SeqFileTableModel.java:110-113 | three rows, the middle one removed: two rows, the first unchanged, the former third now second |
| `SeqFileScenarios.SetThenGet` | src/main/java/dalculator/gui/SeqFileTableModel.java:67-103 | written cells read back; null writes and writes to column 7 change nothing; column 7 reads null for a missing row |
| `SeqFileScenarios.AliasedRows` | src/main/java/dalculator/gui/SeqFileTableModel.java:85-108 | one record added twice: a write through row 0 is read back in row 1 |

## Left out

- The Swing base class `AbstractTableModel` and its listener dispatch. Notifications are recorded in a ghost log instead of being delivered.
- Java runtime exceptions are preconditions: `ClassCastException` from a wrong-typed value in `setValueAt` (`CastOk`), and `IndexOutOfBoundsException` for a missing row in `getValueAt`, `setValueAt` and `removeSeqFile` or a bad column in `getColumnName`.
- The `JFileChooser` dialog in `AddSeqFileListener` (working directory, `*.seq` filter, modal display). It is a parameter: the confirmed absolute path, or none when cancelled.
- `JTextAreaOutputStream` only forwards writes to a Swing text area. It has no logic of its own and is not part of this model.
- Floating point: `xSev` is stored and returned only, so a `Double` is kept as a `real`. IEEE rounding, NaN and signed zeros are not modelled.
- Java `int` overflow of the row count and row indices. A list with more than 2^31 - 1 entries cannot arise; indices are unbounded integers.
- Threading and the event-dispatch thread.
- `SeqFileTable.SeqFileTableModel.AddSeqFile` takes a non-null record. Java's `addSeqFile(null)` would append a null entry and fire the event, and later reads of that row would throw; the one caller in the code always passes a new record.
