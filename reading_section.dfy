/** The reading-logic card and its "copy as text" action. */
module ReadingSection {
  import opened Types
  import opened Text

  /** The i-th (0-based) structure point as copied, numbered from 1. */
  function StructureLine(i: nat, pt: StructurePoint): (l: string)
    ensures NatToString(i + 1) + ". " + pt.en <= l
    ensures LineFree(pt.en) && LineFree(pt.cn) ==> LineFree(l)
  {
    NatToString(i + 1) + ". " + pt.en + " (CN: " + pt.cn + ")"
  }

  /** The numbered structure points, one per line. */
  function StructureBlock(pts: seq<StructurePoint>): string
  {
    Join(seq(|pts|, i requires 0 <= i < |pts| => StructureLine(i, pts[i])), "\n")
  }

  /** The copied text: main idea, numbered structure points one per line,
      critical-thinking point. The description is not copied. */
  function CopyText(r: ReadingLogicAnalysis): string
  {
    "IELTS Reading Logic Analysis" + "\n" + "\n" + "Main Idea:" + "\n" + r.mainIdea
    + "\n" + ("CN: " + r.mainIdeaCn)
    + "\n" + "\n" + "Structure Breakdown:" + "\n" + StructureBlock(r.structureBreakdown)
    + "\n" + "\n" + "Critical Thinking Point:" + "\n" + r.criticalThinkingPoint
    + "\n" + ("CN: " + r.criticalThinkingPointCn)
  }

  /** Every copied field is a single line. */
  predicate SingleLineFields(r: ReadingLogicAnalysis)
  {
    && LineFree(r.mainIdea) && LineFree(r.mainIdeaCn)
    && LineFree(r.criticalThinkingPoint) && LineFree(r.criticalThinkingPointCn)
    && forall i :: 0 <= i < |r.structureBreakdown| ==>
         LineFree(r.structureBreakdown[i].en) && LineFree(r.structureBreakdown[i].cn)
  }

  /** The structure block line by line: one numbered line per point, in order;
      no points leave one empty line. */
  function StructureLines(pts: seq<StructurePoint>): seq<string>
  {
    if |pts| == 0 then [""] else seq(|pts|, i requires 0 <= i < |pts| => StructureLine(i, pts[i]))
  }

  /** The copied text, line by line, when no field spans lines. */
  lemma {:induction false} CopyTextLines(r: ReadingLogicAnalysis)
    requires SingleLineFields(r)
    ensures Lines(CopyText(r)) ==
      ["IELTS Reading Logic Analysis", "", "Main Idea:", r.mainIdea, "CN: " + r.mainIdeaCn,
       "", "Structure Breakdown:"]
      + StructureLines(r.structureBreakdown)
      + ["", "Critical Thinking Point:", r.criticalThinkingPoint, "CN: " + r.criticalThinkingPointCn]
  {
    var pts := r.structureBreakdown;
    var title, l1, l2, l3 := "IELTS Reading Logic Analysis", "Main Idea:", "Structure Breakdown:",
                             "Critical Thinking Point:";
    var x2, y2 := "CN: " + r.mainIdeaCn, "CN: " + r.criticalThinkingPointCn;
    LabelsAreLines();
    assert LineFree("CN: ");
    LineFreeAppend("CN: ", r.mainIdeaCn);
    LineFreeAppend("CN: ", r.criticalThinkingPointCn);
    LinesOfCard(title, l1, r.mainIdea, x2, l2, StructureBlock(pts), l3, r.criticalThinkingPoint, y2);
    StructureBlockLines(pts);
  }

  /** The template's labels are single lines. */
  lemma LabelsAreLines()
    ensures LineFree("IELTS Reading Logic Analysis") && LineFree("Main Idea:")
    ensures LineFree("Structure Breakdown:") && LineFree("Critical Thinking Point:")
  {
  }

  /** The numbered structure lines are single lines and split back apart. */
  lemma StructureBlockLines(pts: seq<StructurePoint>)
    requires forall i :: 0 <= i < |pts| ==> LineFree(pts[i].en) && LineFree(pts[i].cn)
    ensures Lines(StructureBlock(pts)) == StructureLines(pts)
  {
    var lines := seq(|pts|, i requires 0 <= i < |pts| => StructureLine(i, pts[i]));
    forall i | 0 <= i < |pts|
      ensures LineFree(lines[i])
    {
      NumberIsLineFree(i + 1);
    }
    LinesOfJoinedLines(lines);
  }

  /** The description never reaches the copied text. */
  lemma DescriptionNotCopied(r: ReadingLogicAnalysis, d: string)
    ensures CopyText(r.(description := d)) == CopyText(r)
  {
  }

  /** The card's state: the section shown and the "copied" acknowledgement. */
  class ReadingSection {
    const data: ReadingLogicAnalysis
    var copied: bool

    constructor (data: ReadingLogicAnalysis)
      ensures this.data == data && !copied
    {
      this.data := data;
      copied := false;
    }

    /** Copy: the text handed to the clipboard; the acknowledgement shows. */
    method HandleCopy() returns (clipboard: string)
      modifies this
      ensures clipboard == CopyText(data) && copied
    {
      clipboard := CopyText(data);
      copied := true;
    }

    /** The acknowledgement timer ran out. */
    method CopiedTimeout()
      modifies this
      ensures !copied
    {
      copied := false;
    }
  }
}
