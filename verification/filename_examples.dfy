/** Worked examples of the naming rules on concrete topics and headers.
    Each string is first pinned to its UTF-16 code units; the sanitised
    stems are then compared unit by unit. */
module FilenameExamples {
  import opened Wrappers
  import opened JsText
  import opened Filename

  /** A topic whose sanitised form is `stem` gets the default name
      `stem` followed by the suffix. */
  lemma DefaultFilenameFromStem(topic: JsString, stem: string, name: string)
    requires forall i :: 0 <= i < |stem| ==> stem[i] as int < 0x1_0000
    requires Sanitize(topic) == FromString(stem)
    requires name == stem + "_presentation.pptx"
    ensures DefaultFilename(topic) == FromString(name)
  {
    FromStringAppend(stem, "_presentation.pptx");
  }

  lemma AiBasicsSanitized(t: JsString)
    requires t == [0x41, 0x49, 0x20, 0x42, 0x61, 0x73, 0x69, 0x63, 0x73]
    ensures Sanitize(t) == [0x41, 0x49, 0x5F, 0x42, 0x61, 0x73, 0x69, 0x63, 0x73]
  {
    var r := Sanitize(t);
    assert |r| == 9;
    forall i | 0 <= i < 9
      ensures r[i] == [0x41, 0x49, 0x5F, 0x42, 0x61, 0x73, 0x69, 0x63, 0x73][i]
    {
    }
  }

  lemma AiBasicsStem(topic: JsString)
    requires topic == FromString("AI Basics")
    ensures Sanitize(topic) == FromString("AI_Basics")
  {
    assert topic == [0x41, 0x49, 0x20, 0x42, 0x61, 0x73, 0x69, 0x63, 0x73];
    assert FromString("AI_Basics") == [0x41, 0x49, 0x5F, 0x42, 0x61, 0x73, 0x69, 0x63, 0x73];
    AiBasicsSanitized(topic);
  }

  /** "AI Basics" is saved as `AI_Basics_presentation.pptx`. */
  lemma DefaultFilenameAiBasics(topic: JsString)
    requires topic == FromString("AI Basics")
    ensures DefaultFilename(topic) == FromString("AI_Basics_presentation.pptx")
  {
    AiBasicsStem(topic);
    DefaultFilenameFromStem(topic, "AI_Basics", "AI_Basics_presentation.pptx");
  }

  lemma MachineLearningSanitized(t: JsString)
    requires t == [0x4D, 0x61, 0x63, 0x68, 0x69, 0x6E, 0x65, 0x20, 0x4C, 0x65, 0x61, 0x72, 0x6E, 0x69, 0x6E, 0x67, 0x21]
    ensures Sanitize(t) == [0x4D, 0x61, 0x63, 0x68, 0x69, 0x6E, 0x65, 0x5F, 0x4C, 0x65, 0x61, 0x72, 0x6E, 0x69, 0x6E, 0x67, 0x5F]
  {
    var r := Sanitize(t);
    assert |r| == 17;
    forall i | 0 <= i < 17
      ensures r[i] == [0x4D, 0x61, 0x63, 0x68, 0x69, 0x6E, 0x65, 0x5F, 0x4C, 0x65, 0x61, 0x72, 0x6E, 0x69, 0x6E, 0x67, 0x5F][i]
    {
    }
  }

  lemma MachineLearningStem(topic: JsString)
    requires topic == FromString("Machine Learning!")
    ensures Sanitize(topic) == FromString("Machine_Learning_")
  {
    assert topic ==
      [0x4D, 0x61, 0x63, 0x68, 0x69, 0x6E, 0x65, 0x20, 0x4C, 0x65, 0x61, 0x72, 0x6E, 0x69, 0x6E, 0x67, 0x21];
    assert FromString("Machine_Learning_") ==
      [0x4D, 0x61, 0x63, 0x68, 0x69, 0x6E, 0x65, 0x5F, 0x4C, 0x65, 0x61, 0x72, 0x6E, 0x69, 0x6E, 0x67, 0x5F];
    MachineLearningSanitized(topic);
  }

  /** Both the space and the `!` of "Machine Learning!" become underscores. */
  lemma DefaultFilenameMachineLearning(topic: JsString)
    requires topic == FromString("Machine Learning!")
    ensures DefaultFilename(topic) == FromString("Machine_Learning__presentation.pptx")
  {
    MachineLearningStem(topic);
    DefaultFilenameFromStem(topic, "Machine_Learning_", "Machine_Learning__presentation.pptx");
  }

  /** `attachment; filename="deck.pptx"` as code units; the key starts at 12. */
  const QuotedHeader: JsString :=
    [0x61, 0x74, 0x74, 0x61, 0x63, 0x68, 0x6D, 0x65, 0x6E, 0x74, 0x3B, 0x20,
     0x66, 0x69, 0x6C, 0x65, 0x6E, 0x61, 0x6D, 0x65, 0x3D,
     0x22, 0x64, 0x65, 0x63, 0x6B, 0x2E, 0x70, 0x70, 0x74, 0x78, 0x22]

  lemma KeyUnits()
    ensures Key == [0x66, 0x69, 0x6C, 0x65, 0x6E, 0x61, 0x6D, 0x65, 0x3D]
  {
  }

  lemma QuotedHeaderUnits(header: JsString)
    requires header == FromString("attachment; filename=\"deck.pptx\"")
    ensures header == QuotedHeader
  {
    assert |header| == |QuotedHeader|;
    forall i | 0 <= i < |header| ensures header[i] == QuotedHeader[i] {
    }
  }

  lemma DeckNameUnits(name: JsString)
    requires name == FromString("deck.pptx\"")
    ensures name == QuotedHeader[22..]
  {
    assert |name| == 10;
    forall i | 0 <= i < 10 ensures name[i] == QuotedHeader[22 + i] {
    }
  }

  lemma QuotedHeaderMatchesAtKey()
    ensures MatchAt(QuotedHeader, 12) == Some(QuotedHeader[22..])
  {
    KeyUnits();
    assert QuotedHeader[12..21] == Key;
    assert QuoteTaken(QuotedHeader, 12);
    assert RunEnd(QuotedHeader, 22) == 32;
    var m := MatchAt(QuotedHeader, 12);
    assert m.value == QuotedHeader[22..32];
    assert QuotedHeader[22..32] == QuotedHeader[22..];
  }

  lemma QuotedHeaderNoEarlierMatch(q: nat)
    requires q < 12
    ensures MatchAt(QuotedHeader, q).None?
  {
    KeyUnits();
    assert QuotedHeader[q] != Key[0];
    if q + 9 < |QuotedHeader| {
      assert QuotedHeader[q..q + 9][0] == QuotedHeader[q];
    }
  }

  /** The search over the whole header stops at the key, position 12. */
  lemma QuotedHeaderFound()
    ensures FindFrom(QuotedHeader, 0) == Some(QuotedHeader[22..])
  {
    QuotedHeaderMatchesAtKey();
    forall q | 0 <= q < 12 ensures MatchAt(QuotedHeader, q).None? {
      QuotedHeaderNoEarlierMatch(q);
    }
    FindFromLeftmost(QuotedHeader, 0, 12);
  }

  /** The regular expression keeps the closing quote: the header
      `attachment; filename="deck.pptx"` names the file `deck.pptx"`. */
  lemma QuotedHeaderKeepsClosingQuote(topic: JsString, header: JsString)
    requires header == FromString("attachment; filename=\"deck.pptx\"")
    ensures ResponseFilename(topic, Some(header)) == FromString("deck.pptx\"")
  {
    QuotedHeaderUnits(header);
    DeckNameUnits(FromString("deck.pptx\""));
    QuotedHeaderFound();
  }
}
