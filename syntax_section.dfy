/** The syntax card and its "copy as text" action. */
module SyntaxSection {
  import opened Types
  import opened Text

  /** A clause as copied: its role in English and Chinese, then the clause. */
  function ClauseLine(c: ClauseBreakdown): (l: string)
    ensures "- [" + c.role <= l
    ensures LineFree(c.part) && LineFree(c.role) && LineFree(c.roleCn) ==> LineFree(l)
  {
    "- [" + c.role + " / " + c.roleCn + "]: " + c.part
  }

  /** One line per clause. */
  function ClauseBlock(cs: seq<ClauseBreakdown>): string
  {
    Join(seq(|cs|, i requires 0 <= i < |cs| => ClauseLine(cs[i])), "\n")
  }

  /** The copied text: the quoted sentence and its type, one line per clause,
      the grammar focus. The description is not copied. */
  function CopyText(s: SyntaxAnalysis): string
  {
    "IELTS Syntax Analysis" + "\n" + "\n" + "Target Sentence:" + "\n" + ("\"" + s.targetSentence + "\"")
    + "\n" + ("Type: " + s.analysis.sentenceType)
    + "\n" + "\n" + "Clause Breakdown:" + "\n" + ClauseBlock(s.analysis.clausesBreakdown)
    + "\n" + "\n" + "Grammar Focus:" + "\n" + s.analysis.grammarHighlight
    + "\n" + ("CN: " + s.analysis.grammarHighlightCn)
  }

  /** Every copied field is a single line. */
  predicate SingleLineFields(s: SyntaxAnalysis)
  {
    && LineFree(s.targetSentence) && LineFree(s.analysis.sentenceType)
    && LineFree(s.analysis.grammarHighlight) && LineFree(s.analysis.grammarHighlightCn)
    && forall i :: 0 <= i < |s.analysis.clausesBreakdown| ==>
         var c := s.analysis.clausesBreakdown[i];
         LineFree(c.part) && LineFree(c.role) && LineFree(c.roleCn)
  }

  /** The clause block line by line: one line per clause, in order; no clauses
      leave one empty line. */
  function ClauseLines(cs: seq<ClauseBreakdown>): seq<string>
  {
    if |cs| == 0 then [""] else seq(|cs|, i requires 0 <= i < |cs| => ClauseLine(cs[i]))
  }

  /** The copied text, line by line, when no field spans lines. */
  lemma {:induction false} CopyTextLines(s: SyntaxAnalysis)
    requires SingleLineFields(s)
    ensures Lines(CopyText(s)) ==
      ["IELTS Syntax Analysis", "", "Target Sentence:", "\"" + s.targetSentence + "\"",
       "Type: " + s.analysis.sentenceType, "", "Clause Breakdown:"]
      + ClauseLines(s.analysis.clausesBreakdown)
      + ["", "Grammar Focus:", s.analysis.grammarHighlight, "CN: " + s.analysis.grammarHighlightCn]
  {
    var a := s.analysis;
    var x1, x2, y2 := "\"" + s.targetSentence + "\"", "Type: " + a.sentenceType, "CN: " + a.grammarHighlightCn;
    LabelsAreLines();
    LineFreeAppend("\"", s.targetSentence);
    LineFreeAppend("\"" + s.targetSentence, "\"");
    LineFreeAppend("Type: ", a.sentenceType);
    LineFreeAppend("CN: ", a.grammarHighlightCn);
    LinesOfCard("IELTS Syntax Analysis", "Target Sentence:", x1, x2, "Clause Breakdown:",
      ClauseBlock(a.clausesBreakdown), "Grammar Focus:", a.grammarHighlight, y2);
    ClauseBlockLines(a.clausesBreakdown);
  }

  /** The template's labels are single lines. */
  lemma LabelsAreLines()
    ensures LineFree("IELTS Syntax Analysis") && LineFree("Target Sentence:") && LineFree("\"")
    ensures LineFree("Type: ") && LineFree("CN: ") && LineFree("Clause Breakdown:")
    ensures LineFree("Grammar Focus:")
  {
  }

  /** The clause lines are single lines and split back apart. */
  lemma ClauseBlockLines(cs: seq<ClauseBreakdown>)
    requires forall i :: 0 <= i < |cs| ==> LineFree(cs[i].part) && LineFree(cs[i].role) && LineFree(cs[i].roleCn)
    ensures Lines(ClauseBlock(cs)) == ClauseLines(cs)
  {
    assert LineFree("- [") && LineFree(" / ") && LineFree("]: ");
    var lines := seq(|cs|, i requires 0 <= i < |cs| => ClauseLine(cs[i]));
    assert forall i :: 0 <= i < |cs| ==> LineFree(lines[i]);
    LinesOfJoinedLines(lines);
  }

  /** The description never reaches the copied text. */
  lemma DescriptionNotCopied(s: SyntaxAnalysis, d: string)
    ensures CopyText(s.(description := d)) == CopyText(s)
  {
  }

  /** The card's state: the section shown and the "copied" acknowledgement. */
  class SyntaxSection {
    const data: SyntaxAnalysis
    var copied: bool

    constructor (data: SyntaxAnalysis)
      ensures this.data == data && !copied
    {
      this.data := data;
      copied := false;
    }

    /** Copy: the text handed to the clipboard; the acknowledgement shows. */
    method HandleCopy() returns (clipboard: string)
      modifies this
      ensures clipboard == CopyText(data) && copied
    {
      clipboard := CopyText(data);
      copied := true;
    }

    /** The acknowledgement timer ran out. */
    method CopiedTimeout()
      modifies this
      ensures !copied
    {
      copied := false;
    }
  }
}
