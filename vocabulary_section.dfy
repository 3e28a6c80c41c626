/** The vocabulary cards and their "copy as text" action. */
module VocabularySection {
  import opened Types
  import opened Text

  /** How many synonyms a card shows. */
  const ShownSynonyms: nat := 3

  /** The i-th (0-based) word as copied: numbered from 1, four lines, every synonym. */
  function Entry(i: nat, w: VocabWord): string
  {
    (NatToString(i + 1) + ". " + w.word + " (" + w.partOfSpeech + ")")
    + "\n" + ("   Definition: " + w.definition)
    + "\n" + ("   CN: " + w.definitionCn)
    + "\n" + ("   Synonyms: " + Join(w.synonyms, ", "))
  }

  /** `words.map((word, i) => ...)`: one entry per word, in order. */
  function Entries(ws: seq<VocabWord>): (es: seq<string>)
    ensures |es| == |ws|
  {
    seq(|ws|, i requires 0 <= i < |ws| => Entry(i, ws[i]))
  }

  /** The copied text: a header, then the entries separated by a blank line. */
  function CopyText(v: CoreVocabulary): string
  {
    "IELTS Core Vocabulary" + "\n" + "\n" + Join(Entries(v.words), "\n\n")
  }

  /** The synonyms a card shows: the first three at most. */
  function ShownOnCard(w: VocabWord): (shown: seq<string>)
    ensures |shown| == if |w.synonyms| < ShownSynonyms then |w.synonyms| else ShownSynonyms
    ensures shown <= w.synonyms
    ensures |w.synonyms| <= ShownSynonyms ==> shown == w.synonyms
  {
    if |w.synonyms| <= ShownSynonyms then w.synonyms else w.synonyms[..ShownSynonyms]
  }

  /** Every copied field of a word is a single line. */
  predicate SingleLineWord(w: VocabWord)
  {
    && LineFree(w.word) && LineFree(w.partOfSpeech)
    && LineFree(w.definition) && LineFree(w.definitionCn)
    && forall j :: 0 <= j < |w.synonyms| ==> LineFree(w.synonyms[j])
  }

  /** An entry line by line. */
  function EntryLines(i: nat, w: VocabWord): seq<string>
  {
    [NatToString(i + 1) + ". " + w.word + " (" + w.partOfSpeech + ")",
     "   Definition: " + w.definition,
     "   CN: " + w.definitionCn,
     "   Synonyms: " + Join(w.synonyms, ", ")]
  }

  /** An entry's labels are single lines. */
  lemma LabelsAreLines()
    ensures LineFree(". ") && LineFree(" (") && LineFree(")") && LineFree("   Definition: ")
    ensures LineFree("   CN: ") && LineFree("   Synonyms: ") && LineFree(", ")
  {
  }

  lemma {:induction false} EntryLinesExact(i: nat, w: VocabWord)
    requires SingleLineWord(w)
    ensures Lines(Entry(i, w)) == EntryLines(i, w)
  {
    LabelsAreLines();
    NumberIsLineFree(i + 1);
    JoinLineFree(w.synonyms, ", ");
    LinesOfFour(NatToString(i + 1) + ". " + w.word + " (" + w.partOfSpeech + ")",
      "   Definition: " + w.definition, "   CN: " + w.definitionCn,
      "   Synonyms: " + Join(w.synonyms, ", "));
  }

  /** Each entry's lines, in order. */
  function EntryLineGroups(ws: seq<VocabWord>): (ls: seq<seq<string>>)
    ensures |ls| == |ws|
  {
    seq(|ws|, i requires 0 <= i < |ws| => EntryLines(i, ws[i]))
  }

  /** The copied text, line by line, when no field spans lines: the header, a
      blank line, then each word's four lines in order, a blank line between
      words; no words leave one empty line after the header. */
  lemma {:induction false} CopyTextLines(v: CoreVocabulary)
    requires forall i :: 0 <= i < |v.words| ==> SingleLineWord(v.words[i])
    ensures Lines(CopyText(v)) == ["IELTS Core Vocabulary", ""]
      + if |v.words| == 0 then [""]
        else Join(EntryLineGroups(v.words), [""])
  {
    var ws := v.words;
    var es, ls := Entries(ws), EntryLineGroups(ws);
    var body := Join(es, "\n\n");
    assert Lines(body) == if |ws| == 0 then [""] else Join(ls, [""]) by {
      forall i | 0 <= i < |ws|
        ensures Lines(es[i]) == ls[i]
      {
        EntryLinesExact(i, ws[i]);
      }
      LinesOfJoinedBlocks(es, ls);
    }
    TitleIsLine();
    LinesOfTitled("IELTS Core Vocabulary", body);
  }

  lemma TitleIsLine()
    ensures LineFree("IELTS Core Vocabulary")
  {
  }

  /** With no words the copied text is the header alone. */
  lemma EmptyIsHeader(v: CoreVocabulary)
    requires v.words == []
    ensures CopyText(v) == "IELTS Core Vocabulary" + "\n\n"
  {
  }

  /** The copied synonym list extends the one on the card: the shown synonyms,
      joined, are a prefix of the copied line's list, and all of it when the word
      has three synonyms or fewer. */
  lemma CopiedSynonymsExtendShown(w: VocabWord)
    ensures Join(ShownOnCard(w), ", ") <= Join(w.synonyms, ", ")
    ensures |w.synonyms| <= ShownSynonyms ==> Join(ShownOnCard(w), ", ") == Join(w.synonyms, ", ")
  {
    JoinTakeIsPrefix(w.synonyms, ", ", |ShownOnCard(w)|);
    assert w.synonyms[..|ShownOnCard(w)|] == ShownOnCard(w);
  }

  /** The description never reaches the copied text. */
  lemma DescriptionNotCopied(v: CoreVocabulary, d: string)
    ensures CopyText(v.(description := d)) == CopyText(v)
  {
  }

  /** The cards' state: the section shown and the "copied" acknowledgement. */
  class VocabularySection {
    const data: CoreVocabulary
    var copied: bool

    constructor (data: CoreVocabulary)
      ensures this.data == data && !copied
    {
      this.data := data;
      copied := false;
    }

    /** Copy: the text handed to the clipboard; the acknowledgement shows. */
    method HandleCopy() returns (clipboard: string)
      modifies this
      ensures clipboard == CopyText(data) && copied
    {
      clipboard := CopyText(data);
      copied := true;
    }

    /** The acknowledgement timer ran out. */
    method CopiedTimeout()
      modifies this
      ensures !copied
    {
      copied := false;
    }
  }
}
