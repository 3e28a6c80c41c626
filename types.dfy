/** The records of an analysis result and of the AI settings. Field names follow
    the JSON names of the result in camel case (`meaning_cn` is `meaningCn`); the
    `function` field of a clause is `role`, since `function` is a Dafny keyword.
    Every section carries a `description`, every record its English/Chinese pair,
    every list is an ordered sequence, and a response always holds all four
    sections: the datatypes admit nothing else. */
module Types {

  datatype Option<+T> = None | Some(value: T)

  datatype SpeakingItem = SpeakingItem(
    phrase: string,
    meaning: string,
    meaningCn: string,
    practiceSentences: seq<string>)

  datatype SpeakingPractice = SpeakingPractice(description: string, items: seq<SpeakingItem>)

  datatype VocabWord = VocabWord(
    word: string,
    partOfSpeech: string,
    definition: string,
    definitionCn: string,
    synonyms: seq<string>)

  datatype CoreVocabulary = CoreVocabulary(description: string, words: seq<VocabWord>)

  datatype StructurePoint = StructurePoint(en: string, cn: string)

  datatype ReadingLogicAnalysis = ReadingLogicAnalysis(
    description: string,
    mainIdea: string,
    mainIdeaCn: string,
    structureBreakdown: seq<StructurePoint>,
    criticalThinkingPoint: string,
    criticalThinkingPointCn: string)

  datatype ClauseBreakdown = ClauseBreakdown(part: string, role: string, roleCn: string)

  datatype SyntaxAnalysisDetails = SyntaxAnalysisDetails(
    sentenceType: string,
    clausesBreakdown: seq<ClauseBreakdown>,
    grammarHighlight: string,
    grammarHighlightCn: string)

  datatype SyntaxAnalysis = SyntaxAnalysis(
    description: string,
    targetSentence: string,
    analysis: SyntaxAnalysisDetails)

  datatype IeltsAnalysisResponse = IeltsAnalysisResponse(
    speakingPractice: SpeakingPractice,
    coreVocabulary: CoreVocabulary,
    readingLogicAnalysis: ReadingLogicAnalysis,
    syntaxAnalysis: SyntaxAnalysis)

  /** The model providers offered by the settings dialog. */
  datatype Provider = Google | OpenAI | DeepSeek | Moonshot

  /** The AI settings. A key map may lack a provider: settings restored from
      storage take the stored key record wholesale, whatever it holds. */
  datatype AISettings = AISettings(provider: Provider, model: string, apiKeys: map<Provider, string>)
  {
    /** The key for `p` as the application reads it; a missing entry reads as empty. */
    function KeyFor(p: Provider): string
    {
      if p in apiKeys then apiKeys[p] else ""
    }
  }

  /** The model list and the display name of each provider. */
  datatype Catalog = Catalog(models: Provider -> seq<string>, names: Provider -> string)
  {
    /** Every provider offers at least one model. */
    predicate Valid()
    {
      forall p: Provider :: |models(p)| > 0
    }
  }
}
