/** The dashboard's card summary `parseAiResponse` (app/Dashboard/page.jsx):
    the stored artifact becomes a title and a subheading, with a two-pass
    fence cleaner and its own defaults. */
module Dashboard {
  import opened JsValue
  import opened JsText
  import FormArtifact
  import EditorSession

  /** The object `parseAiResponse` returns, `{form_title, form_subheading}`. */
  datatype Summary = Summary(formTitle: Json, formSubheading: Json)

  /** Returned for a falsy raw value. */
  const MissingSummary := Summary(Str("Untitled"), Str("No description"))

  /** Returned when the cleaned text does not parse. */
  const MalformedSummary := Summary(Str("Error Parsing"), Str("Malformed data"))

  /** The dashboard's subheading default, which differs from the editor's. */
  const DefaultDescription := Str("No description provided.")

  /** `.replace(/```json/g, "").replace(/```/g, "").trim()`. */
  function CleanTwoPass(s: string): string
  {
    Trim(Erase(Erase(s, ["```json"]), [Fence]))
  }

  /** Lines 58-64: the same `||` chains as the editor for the title, a
      different default for the subheading. Reading from `null` throws. */
  function Summarize(parsed: Json): Completion<Summary>
  {
    if parsed.Null? then TypeError
    else
      Normal(Summary(
        Pick(parsed, FormArtifact.TitleKeys, FormArtifact.DefaultTitle),
        Pick(parsed, FormArtifact.SubheadingKeys, DefaultDescription)))
  }

  /** `parseAiResponse(rawResponse)`, with `parse` standing for `JSON.parse`
      (None when it throws). */
  function ParseAiResponse(raw: Option<Json>, parse: string -> Option<Json>): Completion<Summary>
  {
    if !Present(raw) then Normal(MissingSummary)
    else if raw.value.Str? then SummarizeCleaned(CleanTwoPass(raw.value.s), parse)
    else Summarize(raw.value)
  }

  /** The text branch once the text is cleaned: parse it, then summarise. */
  function SummarizeCleaned(cleaned: string, parse: string -> Option<Json>): Completion<Summary>
  {
    match parse(cleaned)
    case None => Normal(MalformedSummary)
    case Some(parsed) => Summarize(parsed)
  }

  /** Non-empty text is summarised as its cleaned form is. */
  lemma TextSummarizesCleaned(text: string, parse: string -> Option<Json>)
    requires text != []
    ensures ParseAiResponse(Some(Str(text)), parse) == SummarizeCleaned(CleanTwoPass(text), parse)
  {
  }

  /** The outcomes: a falsy value gives the "Untitled" card, text that does
      not parse the "Error Parsing" card, and only text parsing to `null`
      throws. */
  lemma SummaryOutcomes(raw: Option<Json>, parse: string -> Option<Json>)
    ensures !Present(raw) ==> ParseAiResponse(raw, parse) == Normal(MissingSummary)
    ensures Present(raw) && raw.value.Str? && parse(CleanTwoPass(raw.value.s)).None? ==>
              ParseAiResponse(raw, parse) == Normal(MalformedSummary)
    ensures ParseAiResponse(raw, parse).TypeError? <==>
              Present(raw) && raw.value.Str? && parse(CleanTwoPass(raw.value.s)) == Some(Null)
  {
    if Present(raw) {
      var parsed := if raw.value.Str? then parse(CleanTwoPass(raw.value.s)) else Some(raw.value);
      if parsed.Some? {
        assert Summarize(parsed.value).TypeError? <==> parsed.value.Null?;
      }
    }
  }

  /** The title is the camelCase value when truthy, else the snake_case
      value when truthy, else "Untitled Form"; likewise the subheading with
      "No description provided.". */
  lemma SummaryOrder(parsed: Json)
    requires !parsed.Null?
    ensures var card := Summarize(parsed).value;
      && card.formTitle == (if Holds(parsed, "formTitle") then Get(parsed, "formTitle").value
                            else if Holds(parsed, "form_title") then Get(parsed, "form_title").value
                            else FormArtifact.DefaultTitle)
      && card.formSubheading == (if Holds(parsed, "formSubheading") then Get(parsed, "formSubheading").value
                                 else if Holds(parsed, "form_subheading") then Get(parsed, "form_subheading").value
                                 else DefaultDescription)
  {
    PickTwo(parsed, "formTitle", "form_title", FormArtifact.DefaultTitle);
    PickTwo(parsed, "formSubheading", "form_subheading", DefaultDescription);
  }

  /** The two-pass cleaner leaves no fence either. */
  lemma TwoPassLeavesNoFence(s: string)
    ensures NoFence(CleanTwoPass(s))
  {
    var once := Erase(s, ["```json"]);
    EraseLeavesNoFence(once, [Fence]);
    TrimKeepsNoFence(Erase(once, [Fence]));
  }

  /** Both cleaners only trim text that has no fence, so they agree on it. */
  lemma CleanersAgreeWithoutFence(s: string)
    requires NoFence(s)
    ensures CleanTwoPass(s) == FormArtifact.Clean(s) == Trim(s)
  {
    EraseFenceFree(s, ["```json"]);
    EraseFenceFree(s, [Fence]);
    FormArtifact.CleanOnlyTrimsFenceFree(s);
  }

  /** "``json`" holds no fence. */
  lemma NoFenceInTail(rest: string)
    requires rest == "``json`"
    ensures NoFence(rest)
  {
    assert NoFence(rest[5..]);
    assert rest[4..][..3][0] != Fence[0] && rest[4..][1..] == rest[5..];
    assert NoFence(rest[4..]);
    assert rest[3..][..3][0] != Fence[0] && rest[3..][1..] == rest[4..];
    assert NoFence(rest[3..]);
    assert rest[2..][..3][0] != Fence[0] && rest[2..][1..] == rest[3..];
    assert NoFence(rest[2..]);
    assert rest[1..][..3][1] != Fence[1] && rest[1..][1..] == rest[2..];
    assert NoFence(rest[1..]);
    assert rest[..3][2] != Fence[2];
  }

  /** The one-pass alternation on "`````json`" removes only the first three
      backticks. */
  lemma OnePassOnBacktickRun(s: string)
    requires s == "`````json`"
    ensures FormArtifact.Clean(s) == s[3..]
  {
    assert StartsWith(s, Fence);
    assert s[..7][3] != "```json"[3];
    assert MatchLength(s, FormArtifact.FenceTags) == 3;
    NoFenceInTail(s[3..]);
    EraseFenceFree(s[3..], FormArtifact.FenceTags);
    TrimOfSpaceFree(s[3..]);
  }

  /** The first of the two passes on "`````json`" removes the "```json"
      that starts at the third backtick. */
  lemma FirstPassOnBacktickRun(s: string)
    requires s == "`````json`"
    ensures Erase(s, ["```json"]) == Fence
  {
    var tag := ["```json"];
    assert s[..7][3] != "```json"[3];
    assert MatchLength(s, tag) == 0;
    assert s[1..][..7][4] != "```json"[4];
    assert MatchLength(s[1..], tag) == 0;
    assert s[1..][1..] == s[2..];
    assert StartsWith(s[2..], "```json");
    assert s[2..][7..] == "`";
    assert Erase(s[2..][7..], tag) == "`";
    assert Erase(s[2..], tag) == "`";
  }

  /** The cleaners are not equivalent: on "`````json`" the one-pass
      alternation keeps "``json`", while the two-pass cleaner leaves a bare
      fence after its first pass, which the second pass erases. */
  lemma CleanersDiffer(s: string)
    requires s == "`````json`"
    ensures FormArtifact.Clean(s) == "``json`"
    ensures CleanTwoPass(s) == ""
  {
    OnePassOnBacktickRun(s);
    FirstPassOnBacktickRun(s);
    DropsFence(Fence, [Fence]);
  }

  /** The first pass keeps a closing fence, and what comes before it is
      erased as it is on its own: no "```json" can start inside the fence
      or run into it. */
  lemma {:induction false} TagPassKeepsClosingFence(s: string)
    ensures Erase(s + Fence, ["```json"]) == Erase(s, ["```json"]) + Fence
    decreases |s|
  {
    var tag := ["```json"];
    var t := s + Fence;
    if s == [] {
      assert t == Fence;
      EraseShort(Fence, tag);
    } else if StartsWith(s, "```json") {
      assert t[..7] == s[..7];
      assert t[7..] == s[7..] + Fence;
      TagPassKeepsClosingFence(s[7..]);
    } else {
      if |s| < 7 && |t| >= 7 {
        assert t[..7][|s|] == '`';
      } else if |s| >= 7 {
        assert t[..7] == s[..7];
      }
      assert !StartsWith(t, "```json");
      assert t[1..] == s[1..] + Fence;
      TagPassKeepsClosingFence(s[1..]);
    }
  }

  /** The second pass erases a closing fence, whatever comes before it. */
  lemma {:induction false} FencePassErasesClosingFence(s: string)
    ensures Erase(s + Fence, [Fence]) == Erase(s, [Fence])
    decreases |s|
  {
    var bare := [Fence];
    if |s| >= 3 {
      OpeningUnchanged(s);
    }
    if s == [] {
      assert s + Fence == Fence;
      LoneFenceErased(bare);
    } else if StartsWith(s, Fence) {
      assert StartsWith(s + Fence, Fence);
      DropsFence(s, bare);
      ErasedBeforeClosingFence(s, bare, 3);
      FencePassErasesClosingFence(s[3..]);
    } else if StartsWith(s + Fence, Fence) {
      ShortBacktickRun(s, bare);
    } else {
      HeadKeptBeforeFence(s, bare);
      KeepsHead(s, bare);
      FencePassErasesClosingFence(s[1..]);
    }
  }

  /** The two passes clean "```json" + body + "```" to what they make of
      the body alone, whatever it holds; a fence-free body comes back
      trimmed. */
  lemma TwoPassUnwrapsFenced(body: string)
    ensures CleanTwoPass("```json" + body + Fence) == CleanTwoPass(body)
    ensures NoFence(body) ==> CleanTwoPass("```json" + body + Fence) == Trim(body)
  {
    var s := "```json" + body + Fence;
    assert StartsWith(s, "```json");
    assert s[7..] == body + Fence;
    TagPassKeepsClosingFence(body);
    FencePassErasesClosingFence(Erase(body, ["```json"]));
    if NoFence(body) {
      CleanersAgreeWithoutFence(body);
    }
  }

  /** The dashboard reads a non-empty body in a "```json" fence as it reads
      the bare body. */
  lemma TwoPassFencedDecodesLikeBare(body: string, parse: string -> Option<Json>)
    requires body != []
    ensures ParseAiResponse(Some(Str("```json" + body + Fence)), parse) == ParseAiResponse(Some(Str(body)), parse)
  {
    TwoPassUnwrapsFenced(body);
    TextSummarizesCleaned("```json" + body + Fence, parse);
    TextSummarizesCleaned(body, parse);
  }

  /** Both cleaners reduce a fence-free body in a "```json" fence to the
      trimmed body. */
  lemma CleanersAgreeOnFencedJson(body: string)
    requires NoFence(body)
    ensures CleanTwoPass("```json" + body + Fence) == FormArtifact.Clean("```json" + body + Fence) == Trim(body)
  {
    TwoPassUnwrapsFenced(body);
    FormArtifact.CleanUnwrapsFenced(body);
    FormArtifact.CleanOnlyTrimsFenceFree(body);
  }

  /** "```json" + body + "```": the shape a model's answer usually has. */
  predicate FencedJson(s: string)
  {
    |s| >= 10 && StartsWith(s, "```json") && s[|s| - 3..] == Fence
  }

  /** Text both pages clean alike: fence-free, or a fence-free body in a
      "```json" fence. */
  predicate PlainOrFencedJson(s: string)
  {
    NoFence(s) || (FencedJson(s) && NoFence(s[7..|s| - 3]))
  }

  /** The text both pages hand to `JSON.parse`: the trimmed body of a
      fenced answer, or the trimmed text. */
  function Unwrapped(s: string): string
  {
    if FencedJson(s) then Trim(s[7..|s| - 3]) else Trim(s)
  }

  /** Both cleaners turn such text into `Unwrapped(s)`. */
  lemma CleanersAgreeOnPlainOrFenced(s: string)
    requires PlainOrFencedJson(s)
    ensures CleanTwoPass(s) == FormArtifact.Clean(s) == Unwrapped(s)
  {
    if NoFence(s) {
      assert !FencedJson(s) by {
        assert |s| >= 7 ==> s[..7][..3] == s[..3];
      }
      CleanersAgreeWithoutFence(s);
    } else {
      var body := s[7..|s| - 3];
      assert s == "```json" + body + Fence;
      CleanersAgreeOnFencedJson(body);
    }
  }

  /** The card agrees with the editor's header read from the same parsed
      value: the same title, and the same subheading when a subheading key
      is truthy; otherwise each page shows its own default. */
  predicate Agrees(card: Summary, ai: FormArtifact.AiData, parsed: Json)
    requires !parsed.Null?
  {
    && card.formTitle == ai.title
    && if Holds(parsed, "formSubheading") || Holds(parsed, "form_subheading")
       then card.formSubheading == ai.subheading
       else card.formSubheading == DefaultDescription && ai.subheading == FormArtifact.DefaultSubheading
  }

  /** On any parsed value the card agrees with the editor's header, and one
      throws exactly when the other does. */
  lemma SummaryMatchesEditor(parsed: Json)
    ensures Summarize(parsed).TypeError? <==> FormArtifact.Resolve(parsed).TypeError?
    ensures !parsed.Null? ==> Agrees(Summarize(parsed).value, FormArtifact.Resolve(parsed).value, parsed)
  {
    if !parsed.Null? {
      SummaryOrder(parsed);
      FormArtifact.ResolveOrder(parsed);
    }
  }

  /** For a truthy artifact that is an object, fence-free text, or a
      fence-free body in a "```json" fence, the dashboard card and the
      editor header are read from the same parsed value: both fail to parse
      together, and otherwise both throw or agree. */
  lemma DashboardMatchesEditor(raw: Option<Json>, parse: string -> Option<Json>)
    requires Present(raw) && (raw.value.Str? ==> PlainOrFencedJson(raw.value.s))
    ensures raw.value.Str? && parse(Unwrapped(raw.value.s)).None? ==>
              FormArtifact.GetAiData(raw, parse) == Normal(FormArtifact.FixingData)
              && ParseAiResponse(raw, parse) == Normal(MalformedSummary)
    ensures !(raw.value.Str? && parse(Unwrapped(raw.value.s)).None?) ==>
              var parsed := if raw.value.Str? then parse(Unwrapped(raw.value.s)).value else raw.value;
              && ParseAiResponse(raw, parse) == Summarize(parsed)
              && FormArtifact.GetAiData(raw, parse) == FormArtifact.Resolve(parsed)
              && (ParseAiResponse(raw, parse).Normal? <==> !parsed.Null?)
              && (FormArtifact.GetAiData(raw, parse).Normal? <==> !parsed.Null?)
              && (!parsed.Null? ==>
                    Agrees(ParseAiResponse(raw, parse).value, FormArtifact.GetAiData(raw, parse).value, parsed))
  {
    var parsed := if raw.value.Str? then parse(Unwrapped(raw.value.s)) else Some(raw.value);
    if raw.value.Str? {
      CleanersAgreeOnPlainOrFenced(raw.value.s);
    }
    if parsed.Some? {
      assert ParseAiResponse(raw, parse) == Summarize(parsed.value);
      assert FormArtifact.GetAiData(raw, parse) == FormArtifact.Resolve(parsed.value);
      SummaryMatchesEditor(parsed.value);
    }
  }

  /** A form saved from the editor shows on the dashboard as
      "Untitled Form" / "No description provided.": the saved payload
      carries `title` and `subheading`, which neither page reads. */
  lemma SavedFormCard(ai: FormArtifact.AiData, fields: seq<Json>, parse: string -> Option<Json>)
    ensures ParseAiResponse(Some(EditorSession.SavePayload(ai, fields)), parse) ==
              Normal(Summary(FormArtifact.DefaultTitle, DefaultDescription))
  {
    var payload := EditorSession.SavePayload(ai, fields);
    SummaryOrder(payload);
  }
}
