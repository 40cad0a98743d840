# Form builder core, modelled in Dafny

This project models the data handling of an AI form builder written in React and JavaScript. The model covers:

- **Decoding the stored artifact.** An "AI response" column holds a form. It is either JSON text, possibly wrapped in Markdown code fences, or an already parsed object. The editor's `getAiData` decodes it into a title, a subheading and a field list. The dashboard's `parseAiResponse` decodes it into a title and a subheading for the form's card.
- **Reading field attributes.** Every attribute is read through a JavaScript `||` chain. The chain prefers camelCase keys over snake_case keys and ends in a default.
- **The editing session** of the form page:
  - seeding the field list from the artifact;
  - deleting a field and updating a field by object spread;
  - editing a field's label and placeholder in the settings popover, whose draft lives with the row position;
  - typing a response into the shared response map;
  - switching preview on and off;
  - building the save payload and the submitted response row.
- **Rendering.** Each stored field is resolved into the control the page shows.

Modules:

- `JsValue`: JSON values, JS truthiness, property reads that throw on `null`, `||` chains, object spread, and the `String(v)` conversion used for object keys.
- `JsText`: the global literal-alternation regex replace used to strip fences, and `String.prototype.trim`.
- `FormArtifact`: `getAiData`.
- `FieldRender`: the `fields.map` render callback, the popover's draft and its payload.
- `EditorSession`: the class `Editor`, which holds the session state (`fields`, `formValues`, `isPreview`, and the popover drafts) and its handlers. It also holds the save payload and the response row.
- `Dashboard`: `parseAiResponse`, and how it relates to `getAiData`.

`JSON.parse` is a parameter `parse: string -> Option<Json>`, where `None` stands for a thrown syntax error. Store writes are boolean parameters that say whether the write succeeded. A JavaScript expression that can throw, such as reading a property of `null`, yields a `Completion`: `Normal(v)` or `TypeError`.

Where the code and the intended design disagree, the model follows the code. Saving writes `{...ai, formFields: fields}`, so the header is stored under `title` and `subheading`. Neither decoder reads those keys. Decoding the saved payload therefore gives back the saved fields, but the header becomes "Untitled Form" / "Fill details below." in the editor and "Untitled Form" / "No description provided." on the dashboard. `EditorSession.SaveRoundTrip` and `Dashboard.SavedFormCard` state this. These results assume the editor receives the stored object as it was written. The edit page that loads it (app/editform/[id]/page.jsx) is not part of this model.

The popover's label and placeholder are `useState` values of `EditFieldController`. They are set once, when the controller mounts, and the rows are keyed by position. A controller therefore keeps its draft while the field beside it changes. After a delete, the rows from the deleted position on show the next field but hold the draft of the field that was there before. Confirming such a popover without typing copies the deleted field's label and placeholder onto the next field. `EditorSession.DeleteLeavesDraftsBehind` and `EditorSession.StaleDraftAfterDelete` state this.

A session exists only for an artifact that decodes. `getAiData()` runs in the render, and text that parses to `null` makes it throw outside its `try`, so nothing shows and the seeding effect never runs. The constructor and `Receive` require that the header decodes.

## Model

| member | source | states |
|---|---|---|
| JsValue.Truthy | app/_component/form.jsx:100 | JavaScript truthiness: `null`, `false`, `0` and `""` are falsy, and every array and object is truthy. |
| JsValue.Get | app/_component/form.jsx:117 | A property read such as `parsed.formTitle`: the value of an own key of an object, else `undefined`. |
| JsValue.Pick | app/_component/form.jsx:117-122 | The `a \|\| b \|\| ... \|\| fallback` chain over property reads. Its meaning is stated by `PickFirstTruthy`. |
| JsValue.ToJsString | app/_component/form.jsx:327 | `String(v)`, the key under which `formValues[fLabel]` reads and writes. |
| JsValue.PickFirstTruthy | app/_component/form.jsx:117-122 | An `a \|\| b \|\| fallback` chain yields the value of the first key whose value is truthy. It yields the fallback exactly when no key's value is truthy. |
| JsValue.PickOne | app/_component/form.jsx:320 | `v.a \|\| fallback` is `v.a` when truthy, else the fallback. |
| JsValue.PickTwo | app/_component/form.jsx:117 | `v.a \|\| v.b \|\| fallback` is `v.a` when truthy, else `v.b` when truthy, else the fallback. |
| JsValue.PickThree | app/_component/form.jsx:286-290 | `v.a \|\| v.b \|\| v.c \|\| fallback` takes the first truthy of the three, else the fallback. |
| JsValue.PickSameKeys | app/_component/form.jsx:23-28 | Two chains over the same keys with different fallbacks both yield their own fallback, or both yield the same truthy value. |
| JsValue.Spread | app/_component/form.jsx:140 | `{...a, ...b}` has the keys of both. On shared keys `b`'s value wins. The other keys keep `a`'s value. |
| JsValue.OwnProps | app/_component/form.jsx:140 | The properties that `{...v}` copies: an object's own keys. A `null`, boolean or number copies nothing. |
| JsText.Erase | app/_component/form.jsx:105 | The global replace of literal alternatives by "". `EraseLeavesNoFence`, `EraseFenceFree` and `EraseBeforeClosingFence` state what it does to fences. |
| JsText.Trim | app/_component/form.jsx:105 | `String.prototype.trim`: `TrimEnd` after `TrimStart`. |
| JsText.MatchLength | app/_component/form.jsx:105 | The match at the start of the text is never longer than the text. It is non-empty exactly when some alternative of the regex opens the text. |
| JsText.TrimStart | app/_component/form.jsx:105 | The result is a suffix of the input. Everything dropped is whitespace. The result is empty or starts with a non-whitespace character. |
| JsText.TrimEnd | app/_component/form.jsx:105 | The result is a prefix of the input. Everything dropped is whitespace. The result is empty or ends with a non-whitespace character. |
| JsText.EraseLeavesNoFence | app/_component/form.jsx:105 | After the global replace of the fence alternatives by "", no three-backtick fence remains anywhere. This holds even where erasing joins backticks from both sides. |
| JsText.EraseFenceFree | app/_component/form.jsx:105 | Text without a fence is left unchanged by the replace. |
| JsText.EraseMissesClosingFence | app/Dashboard/page.jsx:44 | A pass whose alternatives all open with a fence and are longer than five characters, such as `/```json/g`, leaves fence-free text followed by a closing fence unchanged. |
| JsText.EraseBeforeClosingFence | app/_component/form.jsx:105 | Fence-free text followed by a closing fence loses exactly the closing fence. |
| FormArtifact.GetAiData | app/_component/form.jsx:98-124 | `getAiData`. Its outcomes are stated by `DecodeOutcomes` and `NonTextSkipsParse`, and its attribute order by `ResolveOrder`. |
| FormArtifact.Resolve | app/_component/form.jsx:116-123 | Reading title, subheading and fields from the parsed value. It throws on `null`. |
| FormArtifact.ParseCleaned | app/_component/form.jsx:106-123 | Parsing the cleaned text: a text that does not parse gives the "Fixing Form Structure..." record, and anything else is read as the parsed value. |
| FormArtifact.TextDecodesCleaned | app/_component/form.jsx:102-114 | A non-empty text is decoded from its cleaned form alone. |
| FormArtifact.Clean | app/_component/form.jsx:105 | The one-pass fence cleaner. `CleanLeavesNoFence` and `CleanOnlyTrimsFenceFree` state its effect. |
| FormArtifact.DecodeOutcomes | app/_component/form.jsx:98-124 | A falsy artifact gives the "Loading..." record. Text that does not parse gives the "Fixing Form Structure..." record. The decoder throws exactly when the text parses to `null`. |
| FormArtifact.NonTextSkipsParse | app/_component/form.jsx:102-103 | A truthy artifact that is not a string is read as it is. It never reaches `JSON.parse` and never throws. |
| FormArtifact.CleanLeavesNoFence | app/_component/form.jsx:105 | The cleaned text passed to `JSON.parse` contains no fence. |
| FormArtifact.CleanOnlyTrimsFenceFree | app/_component/form.jsx:105 | On fence-free text the cleaner only trims. |
| FormArtifact.UnwrapFenced | app/_component/form.jsx:105 | The replace turns "```json" + body + "```" into exactly the body, for fence-free body text. |
| FormArtifact.CleanUnwrapsFenced | app/_component/form.jsx:105 | Text fenced with "```json" and "```" is cleaned to the same text as its body, whatever the body holds. |
| FormArtifact.FencedDecodesLikeBare | app/_component/form.jsx:102-114 | An artifact fenced with "```json" and "```" decodes to the same record as its body, for any non-empty body, including one with fences inside. |
| FormArtifact.UnwrapBareFenced | app/_component/form.jsx:105 | The replace turns "```" + body + "```" into exactly the body, for fence-free body text that does not start with "json". |
| FormArtifact.ClosingFenceIsErased | app/_component/form.jsx:105 | Appending "```" to any text does not change what the one-pass replace leaves. |
| FormArtifact.TaggedFenceErased | app/_component/form.jsx:105 | The replace turns "```json" + body + "```" into what it makes of the body alone, for any body. |
| FormArtifact.UntaggedFenceErased | app/_component/form.jsx:105 | The replace turns "```" + body + "```" into what it makes of the body alone, for any body not starting with "json". |
| FormArtifact.CleanUnwrapsBareFenced | app/_component/form.jsx:105 | Text in an untagged "```" fence is cleaned to the same text as its body, for any body that does not start with "json". |
| FormArtifact.BareFencedDecodesLikeBare | app/_component/form.jsx:102-114 | An artifact in an untagged "```" fence decodes to the same record as its body, for any non-empty body that does not start with "json". |
| FormArtifact.ResolveOrder | app/_component/form.jsx:116-123 | Title, subheading and fields each take the camelCase value when truthy, else the snake_case value when truthy, else "Untitled Form", "Fill details below." or `[]`. |
| FormArtifact.SnakeCaseMatchesCamelCase | app/_component/form.jsx:116-123 | A parsed object written with snake_case header keys decodes exactly like one written with camelCase keys. Each camelCase key must read like its snake_case partner, both absent or both holding the same value. The keys of the other spelling must be absent or falsy. Any other key may hold anything. |
| FieldRender.FieldLabel | app/_component/form.jsx:286-290 | The shown label's chain. `LabelOrder` states it. |
| FieldRender.FieldType | app/_component/form.jsx:291 | The type's chain. `TypeAndPlaceholderOrder` states it. |
| FieldRender.FieldPlaceholder | app/_component/form.jsx:292-296 | The placeholder's chain. `TypeAndPlaceholderOrder` states it. |
| FieldRender.SyntheticLabel | app/_component/form.jsx:290 | `Field ${index + 1}`, the label of a field that has none. |
| FieldRender.ShownValue | app/_component/form.jsx:327 | `formValues[fLabel] \|\| ""`: the answer in the slot `String(fLabel)`, or "". |
| FieldRender.RenderField | app/_component/form.jsx:285-296 | The callback for one field throws exactly when the field is `null`. |
| FieldRender.MapFrom | app/_component/form.jsx:285 | `fields.map(callback)`. `MapKeepsEvery` states it. |
| FieldRender.RenderFields | app/_component/form.jsx:285-359 | The whole field list rendered. `RenderKeepsEveryField` states it. |
| FieldRender.MapKeepsEvery | app/_component/form.jsx:285 | `fields.map(callback)` fails exactly when some callback throws. Otherwise it holds, at each position, the callback's result for that field and its index. |
| FieldRender.RenderKeepsEveryField | app/_component/form.jsx:285-359 | Rendering throws exactly when some stored field is `null`. Otherwise it yields one control per field, in order, each built from its own field and index. |
| FieldRender.LabelOrder | app/_component/form.jsx:286-290 | The shown label is `label`, else `formLabel`, else `form_label`, else "Field n" with n the 1-based position. It is always truthy. |
| FieldRender.TypeAndPlaceholderOrder | app/_component/form.jsx:291-296 | The type is `fieldType`, else `field_type`, else "text". The placeholder is `placeholder`, else `placeholderName`, else `placeholder_name`, else "". |
| FieldRender.ControlRules | app/_component/form.jsx:308-338 | A non-null field renders a textarea exactly when its type is "textarea", with rows defaulting to 4. Otherwise it renders an input of that type. Controls are disabled exactly outside preview. `required` holds only in preview and only for a truthy `field.required`. The shown value is the label's response slot, or "". |
| FieldRender.PopoverLabel | app/_component/form.jsx:23-25 | The popover's initial label: the label chain ending in "". |
| FieldRender.PopoverPlaceholder | app/_component/form.jsx:26-28 | The popover's initial placeholder: the placeholder chain ending in "". |
| FieldRender.FreshDraft | app/_component/form.jsx:23-28 | A controller mounted on a non-null field starts with that field's popover label and placeholder. |
| FieldRender.PopoverPayload | app/_component/form.jsx:31-38 | The popover's update has every key of the field. `label` and `formLabel` hold the edited label, `placeholder` and `placeholderName` hold the edited placeholder, and every other key is unchanged. |
| FieldRender.EditedFieldShowsEdit | app/_component/form.jsx:22-38 | After an edit with a non-empty label and placeholder, the field shows exactly what was typed, whatever snake_case keys remain. Its type is unchanged. |
| FieldRender.EditKeepsType | app/_component/form.jsx:31-38 | The popover's update leaves a field's resolved type unchanged. |
| FieldRender.ClearedLabelFallsThrough | app/_component/form.jsx:31-38 | Clearing the label does not remove a stored `form_label`. That value then shows, else the synthetic label does. |
| FieldRender.UntouchedEditKeepsLook | app/_component/form.jsx:22-38 | Confirming, without typing, a popover whose draft was mounted on this same non-null field leaves its shown label, placeholder and type as they were. |
| FieldRender.UntouchedLabel | app/_component/form.jsx:23-25 | Confirming, without typing, a popover mounted on any non-null field keeps the shown label. |
| FieldRender.UntouchedPlaceholder | app/_component/form.jsx:26-28 | Confirming, without typing, a popover mounted on any non-null field keeps the shown placeholder. |
| FieldRender.SnakeCaseFieldScenario | app/_component/form.jsx:285-338 | `{form_label: "Email", field_type: "email"}` renders in preview as an email input labelled "Email", with an empty placeholder, and not required. |
| FieldRender.SnakeCaseFieldMatchesCamelCase | app/_component/form.jsx:285-338 | A field written with `form_label`, `field_type` and `placeholder_name` renders the same control as one written with `formLabel`, `fieldType` and `placeholderName`. Each camelCase key must read like its snake_case partner, both absent or both holding the same value. The keys of the other spelling must be absent or falsy, and every other key must read alike. |
| EditorSession.Seeded | app/_component/form.jsx:128-132 | The seeding effect: a non-empty decoded field array replaces the list, and anything else keeps it. |
| EditorSession.Without | app/_component/form.jsx:135 | `fields.filter((_, index) => index !== i)`. `WithoutShifts` states it. |
| EditorSession.WithoutShifts | app/_component/form.jsx:134-136 | Deleting an in-range index removes exactly that element and keeps the rest in order. Any other index changes nothing. |
| EditorSession.SavePayload | app/_component/form.jsx:152-155 | `{...ai, formFields: fields}`: the keys `title`, `subheading` and `fields` of the decoded record, plus `formFields`. |
| EditorSession.Responses | app/_component/form.jsx:179 | The responses as a JSON object: its keys are exactly the answered slots, and each holds its answer as a string. |
| EditorSession.Submission | app/_component/form.jsx:176-187 | The inserted row: `form_id` is the id or "unknown", and `response_data` holds the title, the subheading and the responses. |
| EditorSession.FreshDrafts | app/_component/form.jsx:342-347 | Controllers mounted on a whole list hold one draft per field, each that field's fresh draft. |
| EditorSession.Remount | app/_component/form.jsx:300 | Rows keyed by position: a staying row keeps its draft, a new row gets a fresh draft, and the length follows the field list. |
| EditorSession.DeleteLeavesDraftsBehind | app/_component/form.jsx:134-136 | After a delete, each row from the deleted position on shows the next field but keeps its old draft. |
| EditorSession.StaleDraftAfterDelete | app/_component/form.jsx:22-38 | With fields "Name" (placeholder "Your name") and "Email", deleting the first and confirming row 0 untouched gives the email field label "Name" and placeholder "Your name". |
| EditorSession.Editor.Ai | app/_component/form.jsx:126 | `const ai = getAiData()`, recomputed from the current form data on every render. |
| EditorSession.Editor.SubmitShown | app/_component/form.jsx:361 | The submit button shows exactly in preview with at least one field. |
| EditorSession.SaveRoundTrip | app/_component/form.jsx:152-155 | Decoding the saved payload gives back exactly the saved field list, but the default title and subheading. |
| EditorSession.ReloadSeedsSavedFields | app/_component/form.jsx:128-132 | A session loading the saved payload starts from the saved fields, unless none were saved. |
| EditorSession.SetValueSharedSlot | app/_component/form.jsx:144-146 | Typing a response for a label changes what every control with the same slot key shows. Controls on other slots show what they showed before. |
| EditorSession.Editor.View | app/_component/form.jsx:126-359 | The page: a throw from `getAiData()` or from the `fields.map` callback, or the controls. |
| EditorSession.Editor.ViewShowsFields | app/_component/form.jsx:126-359 | The page renders exactly when the header decodes and no field is `null`, and then shows one control per field, in order. |
| EditorSession.Editor.constructor | app/_component/form.jsx:90-132 | A session on an artifact that decodes starts with no responses, outside preview, with the fields seeded from the artifact and a fresh draft per field. |
| EditorSession.Editor.Receive | app/_component/form.jsx:128-132 | New form data that decodes re-seeds the fields only when they decode to a non-empty array. Outside preview the rows are reconciled by position. Responses and mode are kept. |
| EditorSession.Editor.DeleteField | app/_component/form.jsx:134-136 | The filter loop leaves the field list without the element at the index, as `Without` defines it. The drafts stay with their positions. |
| EditorSession.Editor.UpdateField | app/_component/form.jsx:138-142 | The field at the index becomes its spread with the update. Every other field and the length are unchanged. |
| EditorSession.Editor.TypeLabel | app/_component/form.jsx:63 | Typing in a popover's label input changes only that row's draft label. |
| EditorSession.Editor.TypePlaceholder | app/_component/form.jsx:73 | Typing in a popover's placeholder input changes only that row's draft placeholder. |
| EditorSession.Editor.EditField | app/_component/form.jsx:31-38 | Confirming the popover in a row spreads the row's draft over that row's current field. The drafts are unchanged. |
| EditorSession.Editor.SetValue | app/_component/form.jsx:144-146 | Only the response slot of the label changes. |
| EditorSession.Editor.TogglePreview | app/_component/form.jsx:231 | The preview flag flips. Entering preview unmounts every popover, and leaving it mounts a fresh popover on every field. |
| EditorSession.Editor.Save | app/_component/form.jsx:148-169 | Without a form id nothing is written. Otherwise one write of `{...ai, formFields: fields}` goes to that id, and its result is reported. |
| EditorSession.Editor.Submit | app/_component/form.jsx:171-196 | The inserted row carries the form id or "unknown", the header and the responses. The response map is cleared exactly when the insert succeeds. |
| Dashboard.ParseAiResponse | app/Dashboard/page.jsx:34-65 | `parseAiResponse`. Its outcomes are stated by `SummaryOutcomes`, and its attribute order by `SummaryOrder`. |
| Dashboard.Summarize | app/Dashboard/page.jsx:58-64 | Reading the card's title and subheading from the parsed value. It throws on `null`. |
| Dashboard.CleanTwoPass | app/Dashboard/page.jsx:43-46 | The two-pass cleaner. `TwoPassLeavesNoFence` and `TwoPassUnwrapsFenced` state its effect. |
| Dashboard.SummarizeCleaned | app/Dashboard/page.jsx:47-64 | The text branch after cleaning: text that does not parse gives the "Error Parsing" card, and anything else is summarised from the parsed value. |
| Dashboard.TextSummarizesCleaned | app/Dashboard/page.jsx:41-55 | A non-empty text gets its card from its cleaned form alone. |
| Dashboard.SummaryOutcomes | app/Dashboard/page.jsx:34-65 | A falsy artifact gives "Untitled" / "No description". Text that does not parse gives "Error Parsing" / "Malformed data". The function throws exactly when the text parses to `null`. |
| Dashboard.SummaryOrder | app/Dashboard/page.jsx:58-64 | The card's title and subheading take the camelCase value, else the snake_case value, else "Untitled Form" or "No description provided.". |
| Dashboard.TwoPassLeavesNoFence | app/Dashboard/page.jsx:43-46 | After both replaces and the trim, no fence remains. |
| Dashboard.CleanersAgreeWithoutFence | app/Dashboard/page.jsx:43-46 | On fence-free text the dashboard's cleaner and the editor's cleaner both only trim. |
| Dashboard.OnePassOnBacktickRun | app/_component/form.jsx:105 | The editor's cleaner turns "`````json`" into "``json`". |
| Dashboard.FirstPassOnBacktickRun | app/Dashboard/page.jsx:44 | The dashboard's first pass turns "`````json`" into "```". |
| Dashboard.CleanersDiffer | app/Dashboard/page.jsx:43-46 | The two cleaners are not equivalent: on "`````json`" the editor's keeps "``json`", while the dashboard's leaves "". |
| Dashboard.TagPassKeepsClosingFence | app/Dashboard/page.jsx:44 | The first pass, which erases "```json", keeps a closing "```" and erases the text before it as it would on its own, for any text. |
| Dashboard.FencePassErasesClosingFence | app/Dashboard/page.jsx:45 | The second pass, which erases "```", removes a closing "```" and changes nothing else about the text before it, for any text. |
| Dashboard.TwoPassUnwrapsFenced | app/Dashboard/page.jsx:43-46 | For any body, the dashboard's cleaner gives the same text for "```json" + body + "```" as for the body alone. For a body with no fence, that text is the trimmed body. |
| Dashboard.TwoPassFencedDecodesLikeBare | app/Dashboard/page.jsx:34-55 | An artifact fenced with "```json" and "```" gives the same card as its body, for any non-empty body, including one with fences inside. |
| Dashboard.CleanersAgreeOnFencedJson | app/Dashboard/page.jsx:43-46 | On a fence-free body wrapped in "```json" and "```", both cleaners give the trimmed body. |
| Dashboard.CleanersAgreeOnPlainOrFenced | app/Dashboard/page.jsx:43-46 | On fence-free text, and on a fence-free body in a "```json" fence, both cleaners give the same text: the trimmed text or the trimmed body. |
| Dashboard.SummaryMatchesEditor | app/Dashboard/page.jsx:58-64 | On any parsed value the card throws exactly when the editor's header does. Otherwise the titles are equal, and the subheadings are equal whenever `formSubheading` or `form_subheading` is truthy. When neither is, the card shows "No description provided." and the editor "Fill details below.". |
| Dashboard.DashboardMatchesEditor | app/Dashboard/page.jsx:34-65 | For an object artifact, fence-free text, or a fence-free body in a "```json" fence (the usual shape of a model's answer), the card and the editor's header are read from the same parsed value. Both fail to parse together, both throw together, and otherwise they agree as `SummaryMatchesEditor` states. |
| Dashboard.SavedFormCard | app/Dashboard/page.jsx:58-64 | A form saved by the editor shows on the dashboard as "Untitled Form" / "No description provided.". |

## Left out

- `JSON.parse` itself is a parameter, so the JSON grammar is not modelled. Numbers are integers: the core only tests them for truthiness and prints them as labels, and fractional or exponent forms of `String(n)` are not modelled.
- Supabase I/O, `alert`, `confirm`, `console`, the clipboard and timers are left out. A write's outcome is a boolean parameter. The spinner (`loading`, `isSaving`), the "Copied!" flag and the popover's open flag are not modelled.
- Rendering is stated over JSON values only. React's refusal to render an object-valued label or title as a child is not modelled.
- Property reads return only own keys of objects. A label such as "constructor", which reads an inherited `Object.prototype` member through `formValues[fLabel]`, is not modelled.
- Strings are sequences of code points, not UTF-16 code units.
- EditorSession.Editor.Valid: it holds on a field list that contains `null`, where the page throws and shows no controls. The handlers require only `Valid()`, so the model lets them run on such a list. On the page they cannot be reached.
- EditorSession.Seeded: when the chain yields a truthy non-array with a positive `length`, such as a non-empty string, the code stores it as `fields` and the next `fields.map` throws. The model keeps the previous list in that case.
- JsValue.OwnProps: spreading a string or an array copies its indices in JavaScript. The model copies nothing. Only objects are spread in practice.
- EditorSession.Editor.Submit: the row is built from the responses, the insert is awaited, and then the map is cleared. The model treats this as one atomic step. A response typed while the insert is pending is missing from the row, yet it is cleared on success. The model does not capture that.
- EditorSession.Editor.Save: the write is awaited while the session stays live. The model treats the save as one atomic step. Fields edited during the await are neither in the written payload nor modelled.
- EditorSession.Editor.Save: the round trip through the decoder is stated by `EditorSession.SaveRoundTrip` about the payload this method writes, not in the method's own contract.
- The dashboard list's newest-first order comes from the store query. It is not modelled, and neither is the rest of the dashboard page (deleting a form, navigation).
- The form creation dialog, the AI route, PDF download, the edit and preview pages, the side navigation, the header and sign-in are not part of this model.
