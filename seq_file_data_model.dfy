/** One row of the seq-file list: a seq file and the three figures attached to it. */
module SeqFileData {
  import opened JavaValues

  /** The state of a row record, as a value. */
  datatype Row = Row(seqFileName: StringValue, nSev: IntegerValue, xSev: DoubleValue, refDal: StringValue)

  /** The mutable row record. The constructor and the setters store what they
      are given without any check, null included. */
  class SeqFileDataModel {
    var seqFileName: StringValue
    var nSev: IntegerValue
    var refDal: StringValue
    var xSev: DoubleValue

    constructor (filename: StringValue, nSev: IntegerValue, xSev: DoubleValue, refDal: StringValue)
      ensures GetSeqFileName() == filename && GetNSev() == nSev
      ensures GetXSev() == xSev && GetRefDal() == refDal
    {
      this.seqFileName := filename;
      this.nSev := nSev;
      this.xSev := xSev;
      this.refDal := refDal;
    }

    /** The whole record as a value. */
    function Snapshot(): (row: Row)
      reads this
    {
      Row(seqFileName, nSev, xSev, refDal)
    }

    function GetSeqFileName(): (name: StringValue)
      reads this
    {
      seqFileName
    }

    method SetSeqFileName(seqFileName: StringValue)
      modifies this
      ensures GetSeqFileName() == seqFileName
      ensures GetNSev() == old(GetNSev()) && GetXSev() == old(GetXSev()) && GetRefDal() == old(GetRefDal())
    {
      this.seqFileName := seqFileName;
    }

    function GetNSev(): (n: IntegerValue)
      reads this
    {
      nSev
    }

    method SetNSev(nSev: IntegerValue)
      modifies this
      ensures GetNSev() == nSev
      ensures GetSeqFileName() == old(GetSeqFileName()) && GetXSev() == old(GetXSev()) && GetRefDal() == old(GetRefDal())
    {
      this.nSev := nSev;
    }

    function GetXSev(): (x: DoubleValue)
      reads this
    {
      xSev
    }

    method SetXSev(xSev: DoubleValue)
      modifies this
      ensures GetXSev() == xSev
      ensures GetSeqFileName() == old(GetSeqFileName()) && GetNSev() == old(GetNSev()) && GetRefDal() == old(GetRefDal())
    {
      this.xSev := xSev;
    }

    function GetRefDal(): (dal: StringValue)
      reads this
    {
      refDal
    }

    method SetRefDal(refDal: StringValue)
      modifies this
      ensures GetRefDal() == refDal
      ensures GetSeqFileName() == old(GetSeqFileName()) && GetNSev() == old(GetNSev()) && GetXSev() == old(GetXSev())
    {
      this.refDal := refDal;
    }
  }
}
