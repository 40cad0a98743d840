/** The editor's artifact decoder `getAiData` (app/_component/form.jsx):
    the stored "AI response" becomes a title, a subheading and a field list,
    each the raw JS value its `||` chain selected. */
module FormArtifact {
  import opened JsValue
  import opened JsText

  /** The object `getAiData` returns. The fields are NOT canonicalised: they
      are whatever value the chain picked, usually an array of raw objects. */
  datatype AiData = AiData(title: Json, subheading: Json, fields: Json)

  /** Returned when there is no artifact yet (a falsy raw value). */
  const LoadingData := AiData(Str("Loading..."), Str(""), Arr([]))

  /** Returned when the cleaned text does not parse. */
  const FixingData :=
    AiData(Str("Fixing Form Structure..."), Str("Please wait or edit manually."), Arr([]))

  const TitleKeys := ["formTitle", "form_title"]
  const SubheadingKeys := ["formSubheading", "form_subheading"]
  const FieldsKeys := ["formFields", "form_fields"]
  const DefaultTitle := Str("Untitled Form")
  const DefaultSubheading := Str("Fill details below.")
  const DefaultFields := Arr([])

  /** The alternatives of the one-pass regex `/```json|```/g`. */
  const FenceTags := ["```json", "```"]

  /** `raw.replace(/```json|```/g, "").trim()`. */
  function Clean(s: string): string
  {
    Trim(Erase(s, FenceTags))
  }

  /** Lines 116-123: reading the attributes of the parsed value. Reading a
      property of `null` throws a TypeError, outside the try block. */
  function Resolve(parsed: Json): Completion<AiData>
  {
    if parsed.Null? then TypeError
    else
      Normal(AiData(
        Pick(parsed, TitleKeys, DefaultTitle),
        Pick(parsed, SubheadingKeys, DefaultSubheading),
        Pick(parsed, FieldsKeys, DefaultFields)))
  }

  /** `getAiData()`: `raw` is `formData?.["AI response"]` (None when
      undefined), `parse` is `JSON.parse` (None when it throws). A string is
      cleaned and parsed; any other truthy value is read as it is. */
  function GetAiData(raw: Option<Json>, parse: string -> Option<Json>): Completion<AiData>
  {
    if !Present(raw) then Normal(LoadingData)
    else if raw.value.Str? then ParseCleaned(Clean(raw.value.s), parse)
    else Resolve(raw.value)
  }

  /** Lines 106-123 on the cleaned text: a text that does not parse gives
      the fixing record, anything else is read as the parsed value. */
  function ParseCleaned(cleaned: string, parse: string -> Option<Json>): Completion<AiData>
  {
    match parse(cleaned)
    case None => Normal(FixingData)
    case Some(parsed) => Resolve(parsed)
  }

  /** The outcomes of decoding: a falsy value is still loading, text that
      does not parse gives the fixing record with no partial result, and the
      only failure is a text that parses to `null`. */
  lemma DecodeOutcomes(raw: Option<Json>, parse: string -> Option<Json>)
    ensures !Present(raw) ==> GetAiData(raw, parse) == Normal(LoadingData)
    ensures Present(raw) && raw.value.Str? && parse(Clean(raw.value.s)).None? ==>
              GetAiData(raw, parse) == Normal(FixingData)
    ensures GetAiData(raw, parse).TypeError? <==>
              Present(raw) && raw.value.Str? && parse(Clean(raw.value.s)) == Some(Null)
  {
    if Present(raw) {
      var parsed := if raw.value.Str? then parse(Clean(raw.value.s)) else Some(raw.value);
      if parsed.Some? {
        assert Resolve(parsed.value).TypeError? <==> parsed.value.Null?;
      }
    }
  }

  /** A truthy value that is not a string is neither cleaned nor parsed. */
  lemma NonTextSkipsParse(v: Json, parse: string -> Option<Json>, parse': string -> Option<Json>)
    requires Truthy(v) && !v.Str?
    ensures GetAiData(Some(v), parse) == GetAiData(Some(v), parse') == Resolve(v)
    ensures GetAiData(Some(v), parse).Normal?
  {
  }

  /** The cleaned text contains no fence at all. */
  lemma CleanLeavesNoFence(s: string)
    ensures NoFence(Clean(s))
  {
    EraseLeavesNoFence(s, FenceTags);
    TrimKeepsNoFence(Erase(s, FenceTags));
  }

  /** Text with no fence is only trimmed. */
  lemma CleanOnlyTrimsFenceFree(s: string)
    requires NoFence(s)
    ensures Clean(s) == Trim(s)
  {
    EraseFenceFree(s, FenceTags);
  }

  /** A "```json ... ```" wrapping around fence-free text is removed. */
  lemma UnwrapFenced(body: string)
    requires NoFence(body)
    ensures Erase("```json" + body + Fence, FenceTags) == body
  {
    var s := "```json" + body + Fence;
    assert StartsWith(s, "```json");
    assert s[7..] == body + Fence;
    EraseBeforeClosingFence(body, FenceTags);
  }

  /** An untagged "``` ... ```" wrapping is removed as well, unless the text
      inside starts with "json", which the first alternative then takes as
      the tag. */
  lemma UnwrapBareFenced(body: string)
    requires NoFence(body) && !StartsWith(body, "json")
    ensures Erase(Fence + body + Fence, FenceTags) == body
  {
    var s := Fence + body + Fence;
    assert s[3..] == body + Fence;
    if |body| >= 4 {
      TagComesFromBody(body);
    } else {
      ShortBodyIsUntagged(body);
    }
    assert MatchLength(s, FenceTags) == 3;
    EraseBeforeClosingFence(body, FenceTags);
  }

  /** The "```json" alternative matches an untagged fence only through
      the text inside it. */
  lemma TagComesFromBody(body: string)
    requires |body| >= 4
    ensures StartsWith(Fence + body + Fence, "```json") ==> StartsWith(body, "json")
  {
    var s := Fence + body + Fence;
    assert s[3..7] == body[..4];
  }

  /** With fewer than four characters inside, the closing fence stops the
      "```json" alternative. */
  lemma ShortBodyIsUntagged(body: string)
    requires |body| < 4
    ensures !StartsWith(Fence + body + Fence, "```json")
  {
    var s := Fence + body + Fence;
    assert s[3 + |body|] == '`';
  }

  /** A closing fence adds nothing to what the replace leaves: it only
      lengthens the run of backticks at the end, and no match that starts
      before that run reaches into it. */
  lemma {:induction false} ClosingFenceIsErased(s: string)
    ensures Erase(s + Fence, FenceTags) == Erase(s, FenceTags)
    decreases |s|
  {
    if |s| >= 3 {
      OpeningUnchanged(s);
    }
    if s == [] {
      assert s + Fence == Fence;
      LoneFenceErased(FenceTags);
    } else if StartsWith(s, Fence) {
      var m := MatchLength(s, FenceTags);
      TagUnchanged(s);
      DropsFence(s, FenceTags);
      ErasedBeforeClosingFence(s, FenceTags, m);
      ClosingFenceIsErased(s[m..]);
    } else if StartsWith(s + Fence, Fence) {
      ShortBacktickRun(s, FenceTags);
    } else {
      HeadKeptBeforeFence(s, FenceTags);
      KeepsHead(s, FenceTags);
      ClosingFenceIsErased(s[1..]);
    }
  }

  /** Appending a closing fence to text that opens with a fence does not
      change which alternative matches there. */
  lemma TagUnchanged(s: string)
    requires StartsWith(s, Fence)
    ensures StartsWith(s + Fence, Fence)
    ensures MatchLength(s + Fence, FenceTags) == MatchLength(s, FenceTags)
  {
    var t := s + Fence;
    assert t[..3] == s[..3];
    if |s| >= 7 {
      assert t[..7] == s[..7];
    } else if |t| >= 7 {
      assert t[..7][|s|] == '`';
    }
  }

  /** The replace turns "```json" + body + "```" into what it makes of the
      body alone, whatever the body holds. */
  lemma TaggedFenceErased(body: string)
    ensures Erase("```json" + body + Fence, FenceTags) == Erase(body, FenceTags)
  {
    var s := "```json" + body + Fence;
    assert StartsWith(s, "```json");
    assert s[7..] == body + Fence;
    ClosingFenceIsErased(body);
  }

  /** So it does with "```" + body + "```", unless the body starts with
      "json", which the first alternative then takes as the tag. */
  lemma UntaggedFenceErased(body: string)
    requires !StartsWith(body, "json")
    ensures Erase(Fence + body + Fence, FenceTags) == Erase(body, FenceTags)
  {
    var s := Fence + body + Fence;
    assert s[3..] == body + Fence;
    if |body| >= 4 {
      TagComesFromBody(body);
    } else {
      ShortBodyIsUntagged(body);
    }
    assert MatchLength(s, FenceTags) == 3;
    ClosingFenceIsErased(body);
  }

  /** Fenced JSON is cleaned to the same text as its bare body. */
  lemma CleanUnwrapsFenced(body: string)
    ensures Clean("```json" + body + Fence) == Clean(body)
  {
    TaggedFenceErased(body);
  }

  /** Text in an untagged fence is cleaned to the same text as its body,
      unless the body starts with "json". */
  lemma CleanUnwrapsBareFenced(body: string)
    requires !StartsWith(body, "json")
    ensures Clean(Fence + body + Fence) == Clean(body)
  {
    UntaggedFenceErased(body);
  }

  /** A non-empty text is decoded from its cleaned form alone. */
  lemma TextDecodesCleaned(text: string, parse: string -> Option<Json>)
    requires text != []
    ensures GetAiData(Some(Str(text)), parse) == ParseCleaned(Clean(text), parse)
  {
  }

  /** Fenced JSON decodes exactly as its bare text does, when that text is
      not empty. */
  lemma FencedDecodesLikeBare(body: string, parse: string -> Option<Json>)
    requires body != []
    ensures GetAiData(Some(Str("```json" + body + Fence)), parse) == GetAiData(Some(Str(body)), parse)
  {
    CleanUnwrapsFenced(body);
    TextDecodesCleaned("```json" + body + Fence, parse);
    TextDecodesCleaned(body, parse);
  }

  /** So does JSON in an untagged fence, unless it starts with "json". */
  lemma BareFencedDecodesLikeBare(body: string, parse: string -> Option<Json>)
    requires body != [] && !StartsWith(body, "json")
    ensures GetAiData(Some(Str(Fence + body + Fence)), parse) == GetAiData(Some(Str(body)), parse)
  {
    CleanUnwrapsBareFenced(body);
    TextDecodesCleaned(Fence + body + Fence, parse);
    TextDecodesCleaned(body, parse);
  }

  /** Each attribute is the camelCase value when truthy, else the snake_case
      value when truthy, else the default: a falsy camelCase value such as ""
      falls through to the snake_case key. */
  lemma ResolveOrder(parsed: Json)
    requires !parsed.Null?
    ensures var ai := Resolve(parsed).value;
      && ai.title == (if Holds(parsed, "formTitle") then Get(parsed, "formTitle").value
                      else if Holds(parsed, "form_title") then Get(parsed, "form_title").value
                      else DefaultTitle)
      && ai.subheading == (if Holds(parsed, "formSubheading") then Get(parsed, "formSubheading").value
                           else if Holds(parsed, "form_subheading") then Get(parsed, "form_subheading").value
                           else DefaultSubheading)
      && ai.fields == (if Holds(parsed, "formFields") then Get(parsed, "formFields").value
                       else if Holds(parsed, "form_fields") then Get(parsed, "form_fields").value
                       else DefaultFields)
  {
    PickTwo(parsed, "formTitle", "form_title", DefaultTitle);
    PickTwo(parsed, "formSubheading", "form_subheading", DefaultSubheading);
    PickTwo(parsed, "formFields", "form_fields", DefaultFields);
  }

  /** An object written with snake_case keys decodes exactly as one written
      with camelCase keys: each camelCase key reads as its snake_case
      partner (both absent, or both holding the same value), and the keys of
      the other spelling are absent or falsy. Any other key may hold
      anything. */
  lemma SnakeCaseMatchesCamelCase(camel: Json, snake: Json)
    requires !camel.Null? && !snake.Null?
    requires Get(camel, "formTitle") == Get(snake, "form_title")
    requires Get(camel, "formSubheading") == Get(snake, "form_subheading")
    requires Get(camel, "formFields") == Get(snake, "form_fields")
    requires !Holds(camel, "form_title") && !Holds(camel, "form_subheading") && !Holds(camel, "form_fields")
    requires !Holds(snake, "formTitle") && !Holds(snake, "formSubheading") && !Holds(snake, "formFields")
    ensures Resolve(camel) == Resolve(snake)
  {
    ResolveOrder(camel);
    ResolveOrder(snake);
  }
}
