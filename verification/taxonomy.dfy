/**
 * The record builders of the Nice classification export (xml_parse.py): the
 * objects filled in while walking the taxonomy XML, and the conversion of a
 * class into the flat record that the indexer and the agent consume.
 */
module Taxonomy {
  import opened Common

  /** One `GoodOrService` entry of a class with its labels. */
  class GoodOrService {
    var basicNumber: string
    var id: string
    var labels: seq<string>

    constructor ()
      ensures basicNumber == "" && id == "" && labels == []
    {
      basicNumber, id, labels := "", "", [];
    }
  }

  /** The label lists of a sequence of goods or services, in order. */
  function LabelsOf(goods: seq<GoodOrService>): (r: seq<seq<string>>)
    reads goods
    ensures |r| == |goods|
    ensures forall i :: 0 <= i < |goods| ==> r[i] == goods[i].labels
  {
    if goods == [] then [] else LabelsOf(goods[..|goods| - 1]) + [goods[|goods| - 1].labels]
  }

  /** The explanatory note of a class: introduction and the two example lists. */
  class ExplanatoryNote {
    var introduction: string
    var includesParticular: seq<string>
    var excludesParticular: seq<string>

    constructor ()
      ensures introduction == "" && includesParticular == [] && excludesParticular == []
    {
      introduction, includesParticular, excludesParticular := "", [], [];
    }

    /** Appends to the include list only. */
    method AddInclude(item: string)
      modifies this
      ensures includesParticular == old(includesParticular) + [item]
      ensures excludesParticular == old(excludesParticular)
      ensures introduction == old(introduction)
    {
      includesParticular := includesParticular + [item];
    }

    /** Appends to the exclude list only. */
    method AddExclude(item: string)
      modifies this
      ensures excludesParticular == old(excludesParticular) + [item]
      ensures includesParticular == old(includesParticular)
      ensures introduction == old(introduction)
    {
      excludesParticular := excludesParticular + [item];
    }
  }

  /** The texts of a class: heading items and the explanatory note. */
  class ClassText {
    var id: string
    var heading: seq<string>
    var explanatoryNote: ExplanatoryNote

    constructor ()
      ensures id == "" && heading == []
      ensures fresh(explanatoryNote)
      ensures explanatoryNote.introduction == ""
      ensures explanatoryNote.includesParticular == [] && explanatoryNote.excludesParticular == []
    {
      id, heading := "", [];
      explanatoryNote := new ExplanatoryNote();
    }

    /** Appends a heading item at the end; earlier items stay where they were. */
    method AddHeadingItem(item: string)
      modifies this
      ensures heading == old(heading) + [item]
      ensures |heading| == |old(heading)| + 1 && heading[..|old(heading)|] == old(heading)
      ensures id == old(id) && explanatoryNote == old(explanatoryNote)
    {
      heading := heading + [item];
    }
  }

  /** A class of the top structure, with its texts and its goods or services. */
  class NiceClass {
    var classNumber: int
    var isGoodOrService: string
    var id: string
    var classTexts: ClassText?
    var goodOrServices: seq<GoodOrService>

    constructor ()
      ensures classNumber == 0 && isGoodOrService == "" && id == ""
      ensures classTexts == null && goodOrServices == []
    {
      classNumber, isGoodOrService, id := 0, "", "";
      classTexts, goodOrServices := null, [];
    }

    /**
     * The flat record of this class. The class number is already an `int`, so
     * `int(classNumber)` is the number itself; a class whose texts were never
     * attached fails, as `None.heading` does.
     */
    method ToDict() returns (r: Result<ClassRecord>)
      ensures r.Err? <==> classTexts == null
      ensures r.Err? ==> r.error == NoClassTexts
      ensures r.Ok? ==> r.value.classId == classNumber
      ensures r.Ok? ==> r.value.heading == classTexts.heading
      ensures r.Ok? ==> r.value.introduction == classTexts.explanatoryNote.introduction
      ensures r.Ok? ==> r.value.includes == classTexts.explanatoryNote.includesParticular
      ensures r.Ok? ==> r.value.excludes == classTexts.explanatoryNote.excludesParticular
      ensures r.Ok? ==> r.value.goodOrService == Flatten(LabelsOf(goodOrServices))
    {
      if classTexts == null {
        return Err(NoClassTexts);
      }
      var note := classTexts.explanatoryNote;
      var goods: seq<string> := [];
      var i := 0;
      while i < |goodOrServices|
        invariant 0 <= i <= |goodOrServices|
        invariant goods == Flatten(LabelsOf(goodOrServices[..i]))
      {
        assert goodOrServices[..i + 1][..i] == goodOrServices[..i];
        goods := goods + goodOrServices[i].labels;
        i := i + 1;
      }
      assert goodOrServices[..i] == goodOrServices;
      r := Ok(ClassRecord(classNumber, classTexts.heading, note.introduction,
                          note.includesParticular, note.excludesParticular, goods));
    }
  }
}
