/** The speaking-practice cards and their "copy as text" action. */
module SpeakingSection {
  import opened Types
  import opened Text

  /** How many practice sentences a card shows. */
  const ShownSentences: nat := 3

  /** `practice_sentences.map(s => ...)`: each sentence as a bulleted, indented line. */
  function SentenceItems(ps: seq<string>): (ls: seq<string>)
    ensures |ls| == |ps|
    ensures forall j :: 0 <= j < |ps| ==> |ls[j]| == 5 + |ps[j]| && ls[j][..5] == "   - " && ls[j][5..] == ps[j]
    ensures forall j :: 0 <= j < |ps| && LineFree(ps[j]) ==> LineFree(ls[j])
  {
    seq(|ps|, j requires 0 <= j < |ps| => "   - " + ps[j])
  }

  /** The i-th (0-based) item as copied: numbered from 1, the quoted phrase, its
      meaning, then every practice sentence. */
  function Entry(i: nat, it: SpeakingItem): string
  {
    (NatToString(i + 1) + ". \"" + it.phrase + "\"")
    + "\n" + ("   Meaning: " + it.meaning + " (" + it.meaningCn + ")")
    + "\n" + "   Practice Sentences:"
    + "\n" + Join(SentenceItems(it.practiceSentences), "\n")
  }

  /** `items.map((item, i) => ...)`: one entry per item, in order. */
  function Entries(items: seq<SpeakingItem>): (es: seq<string>)
    ensures |es| == |items|
  {
    seq(|items|, i requires 0 <= i < |items| => Entry(i, items[i]))
  }

  /** The copied text: a header, then the entries separated by a blank line. */
  function CopyText(sp: SpeakingPractice): string
  {
    "IELTS Speaking Practice" + "\n" + "\n" + Join(Entries(sp.items), "\n\n")
  }

  /** The practice sentences a card shows: the first three at most. */
  function ShownOnCard(it: SpeakingItem): (shown: seq<string>)
    ensures |shown| == if |it.practiceSentences| < ShownSentences then |it.practiceSentences| else ShownSentences
    ensures shown <= it.practiceSentences
    ensures |it.practiceSentences| <= ShownSentences ==> shown == it.practiceSentences
  {
    var ps := it.practiceSentences;
    if |ps| <= ShownSentences then ps else ps[..ShownSentences]
  }

  /** Every copied field of an item is a single line. */
  predicate SingleLineItem(it: SpeakingItem)
  {
    && LineFree(it.phrase) && LineFree(it.meaning) && LineFree(it.meaningCn)
    && forall j :: 0 <= j < |it.practiceSentences| ==> LineFree(it.practiceSentences[j])
  }

  /** An entry line by line: three lines, then one line per sentence (one empty
      line when there are none). */
  function EntryLines(i: nat, it: SpeakingItem): seq<string>
  {
    var ps := it.practiceSentences;
    [NatToString(i + 1) + ". \"" + it.phrase + "\"",
     "   Meaning: " + it.meaning + " (" + it.meaningCn + ")",
     "   Practice Sentences:"]
    + if |ps| == 0 then [""] else SentenceItems(ps)
  }

  /** Each entry's lines, in order. */
  function EntryLineGroups(items: seq<SpeakingItem>): (ls: seq<seq<string>>)
    ensures |ls| == |items|
  {
    seq(|items|, i requires 0 <= i < |items| => EntryLines(i, items[i]))
  }

  /** An entry's labels are single lines. */
  lemma LabelsAreLines()
    ensures LineFree(". \"") && LineFree("\"") && LineFree("   Meaning: ") && LineFree(" (")
    ensures LineFree(")") && LineFree("   Practice Sentences:")
  {
  }

  lemma {:induction false} EntryLinesExact(i: nat, it: SpeakingItem)
    requires SingleLineItem(it)
    ensures Lines(Entry(i, it)) == EntryLines(i, it)
  {
    var ps := it.practiceSentences;
    var block := Join(SentenceItems(ps), "\n");
    var sentenceLines := if |ps| == 0 then [""] else SentenceItems(ps);
    assert Lines(block) == sentenceLines by {
      assert forall j :: 0 <= j < |ps| ==> LineFree(SentenceItems(ps)[j]);
      LinesOfJoinedLines(SentenceItems(ps));
    }
    var first := NatToString(i + 1) + ". \"" + it.phrase + "\"";
    var second := "   Meaning: " + it.meaning + " (" + it.meaningCn + ")";
    assert Lines(Entry(i, it)) == [first, second, "   Practice Sentences:"] + Lines(block) by {
      LabelsAreLines();
      NumberIsLineFree(i + 1);
      LinesOfThreeThen(first, second, "   Practice Sentences:", block);
    }
    assert EntryLines(i, it) == [first, second, "   Practice Sentences:"] + sentenceLines;
  }

  lemma EachEntryLines(items: seq<SpeakingItem>)
    requires forall i :: 0 <= i < |items| ==> SingleLineItem(items[i])
    ensures forall i :: 0 <= i < |items| ==> Lines(Entries(items)[i]) == EntryLineGroups(items)[i]
  {
    forall i | 0 <= i < |items|
      ensures Lines(Entries(items)[i]) == EntryLineGroups(items)[i]
    {
      EntryLinesExact(i, items[i]);
    }
  }

  /** The copied text, line by line, when no field spans lines: the header, a
      blank line, then each item's lines in order, a blank line between items;
      no items leave one empty line after the header. */
  lemma {:induction false} CopyTextLines(sp: SpeakingPractice)
    requires forall i :: 0 <= i < |sp.items| ==> SingleLineItem(sp.items[i])
    ensures Lines(CopyText(sp)) == ["IELTS Speaking Practice", ""]
      + if |sp.items| == 0 then [""] else Join(EntryLineGroups(sp.items), [""])
  {
    var items := sp.items;
    var es, ls := Entries(items), EntryLineGroups(items);
    var body := Join(es, "\n\n");
    assert Lines(body) == if |items| == 0 then [""] else Join(ls, [""]) by {
      EachEntryLines(items);
      LinesOfJoinedBlocks(es, ls);
    }
    TitleIsLine();
    LinesOfTitled("IELTS Speaking Practice", body);
  }

  lemma TitleIsLine()
    ensures LineFree("IELTS Speaking Practice")
  {
  }

  /** Every sentence the card shows is copied, as the same sentence line; the
      copy has one sentence line per sentence, the card at most three. */
  lemma ShownSentencesAreCopied(i: nat, it: SpeakingItem)
    requires |it.practiceSentences| > 0
    ensures |EntryLines(i, it)| == 3 + |it.practiceSentences|
    ensures forall j :: 0 <= j < |ShownOnCard(it)| ==>
      EntryLines(i, it)[3 + j] == "   - " + ShownOnCard(it)[j]
  {
  }

  /** The description never reaches the copied text. */
  lemma DescriptionNotCopied(sp: SpeakingPractice, d: string)
    ensures CopyText(sp.(description := d)) == CopyText(sp)
  {
  }

  /** The cards' state: the section shown and the "copied" acknowledgement. */
  class SpeakingSection {
    const data: SpeakingPractice
    var copied: bool

    constructor (data: SpeakingPractice)
      ensures this.data == data && !copied
    {
      this.data := data;
      copied := false;
    }

    /** Copy: the text handed to the clipboard; the acknowledgement shows. */
    method HandleCopy() returns (clipboard: string)
      modifies this
      ensures clipboard == CopyText(data) && copied
    {
      clipboard := CopyText(data);
      copied := true;
    }

    /** The acknowledgement timer ran out. */
    method CopiedTimeout()
      modifies this
      ensures !copied
    {
      copied := false;
    }
  }
}
