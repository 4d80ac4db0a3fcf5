/** The "add seq file" action: the file dialog reduced to its outcome. */
module AddSeqFile {
  import opened JavaValues
  import opened SeqFileData
  import opened SeqFileTable

  /** The figures a newly chosen seq file starts with. */
  const DefaultNSev: Int32 := 3
  const DefaultXSev: real := -9.0
  const DefaultRefDal: string := "A"

  /** `chosen` is the absolute path the user confirmed, or None when the
      dialog was cancelled. A confirmed file becomes a new last row with the
      default figures; a cancelled dialog changes nothing. */
  method ActionPerformed(model: SeqFileTableModel, chosen: Option<string>)
    requires model.Valid()
    modifies model
    ensures model.Valid()
    ensures chosen.None? ==> model.seqFileList == old(model.seqFileList) && model.events == old(model.events)
    ensures chosen.None? ==> model.Contents() == old(model.Contents())
    ensures chosen.Some? ==>
      |model.seqFileList| == |old(model.seqFileList)| + 1 && fresh(model.seqFileList[|old(model.seqFileList)|])
    ensures chosen.Some? ==>
      model.seqFileList == old(model.seqFileList) + [model.seqFileList[|old(model.seqFileList)|]]
    ensures chosen.Some? ==>
      model.Contents() == old(model.Contents())
        + [Row(Str(chosen.value), Integer(DefaultNSev), Double(DefaultXSev), Str(DefaultRefDal))]
    ensures chosen.Some? ==>
      model.events == old(model.events) + [RowsInserted(old(model.GetRowCount()), old(model.GetRowCount()))]
  {
    if chosen.Some? {
      var seqFile := new SeqFileDataModel(Str(chosen.value), Integer(DefaultNSev), Double(DefaultXSev), Str(DefaultRefDal));
      model.AddSeqFile(seqFile);
    }
  }
}
