/** End-to-end runs of the generator form. */
module GeneratorExamples {
  import opened Wrappers
  import opened JsText
  import opened FilenameExamples
  import opened Messages
  import opened Delivery
  import opened Generator

  /** Typing "AI Basics", pressing the button and receiving a body without
      a filename header: one request ("AI Basics", 5), one success toast, one
      save named `AI_Basics_presentation.pptx`, and the form back at ("", 5). */
  lemma SubmitAiBasics(b: Browser, topic: JsString, data: Blob)
    requires Delivery.HandlesFresh(b)
    requires topic == FromString("AI Basics")
    ensures
      var m := Run(Init(b), [EditTopic(topic), ClickGenerate, Settle(Ok(data, None))]);
      && m.requests == [Request(topic, 5, 60000)]
      && m.toasts == [SuccessToast(SuccessMessage)]
      && m.ui == Ui([], 5, false)
      && m.browser.saves == b.saves + [Save(ObjectUrl(b.nextId), FromString("AI_Basics_presentation.pptx"), Some(data))]
  {
    assert topic == [0x41, 0x49, 0x20, 0x42, 0x61, 0x73, 0x69, 0x63, 0x73];
    TrimUnique(topic, 0, |topic|);
    assert Trim(topic) == topic by { assert topic[0..|topic|] == topic; }
    DefaultFilenameAiBasics(topic);
    var m0 := Init(b);
    var m1 := Step(m0, EditTopic(topic));
    var m2 := Step(m1, ClickGenerate);
    var m3 := Step(m2, Settle(Ok(data, None)));
    var es := [EditTopic(topic), ClickGenerate, Settle(Ok(data, None))];
    assert es[1..] == [ClickGenerate, Settle(Ok(data, None))];
    assert es[1..][1..] == [Settle(Ok(data, None))];
    assert Run(m0, es) == Run(m1, es[1..]);
    assert Run(m1, es[1..]) == Run(m2, es[1..][1..]);
    assert Run(m2, es[1..][1..]) == Run(m3, []);
  }

  /** Pressing the button twice before the response arrives sends one
      request. */
  lemma DoubleClickSendsOnce(m: Machine)
    requires Generator.Valid(m) && !m.ui.isGenerating && !IsBlank(m.ui.topic)
    ensures |Run(m, [ClickGenerate, ClickGenerate]).requests| == |m.requests| + 1
  {
  }
}
