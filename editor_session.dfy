/** The editor session of `Formpage` (app/_component/form.jsx): the field
    list, the response map and the preview flag, with the operations that
    update them, the save payload and the submitted response record. */
module EditorSession {
  import opened JsValue
  import opened FormArtifact
  import opened FieldRender

  /** The seeding effect: a non-empty array of decoded fields replaces the
      current list; anything else leaves the list as it is. */
  function Seeded(ai: Completion<AiData>, current: seq<Json>): seq<Json>
  {
    if ai.Normal? && ai.value.fields.Arr? && |ai.value.fields.items| > 0
    then ai.value.fields.items
    else current
  }

  /** `fields.filter((_, index) => index !== i)`. */
  function Without(fields: seq<Json>, i: int): seq<Json>
  {
    if 0 <= i < |fields| then fields[..i] + fields[i + 1..] else fields
  }

  /** Deleting removes exactly the element at an in-range index and keeps
      the others in order; any other index leaves the list unchanged. */
  lemma WithoutShifts(fields: seq<Json>, i: int)
    ensures 0 <= i < |fields| ==>
              && |Without(fields, i)| == |fields| - 1
              && (forall j | 0 <= j < i :: Without(fields, i)[j] == fields[j])
              && (forall j | i <= j < |fields| - 1 :: Without(fields, i)[j] == fields[j + 1])
    ensures !(0 <= i < |fields|) ==> Without(fields, i) == fields
  {
  }

  /** Filtering one more element of a prefix keeps it exactly when its
      position is not the deleted one. */
  lemma WithoutGrows(fields: seq<Json>, j: nat, i: int)
    requires j < |fields|
    ensures Without(fields[..j + 1], i) ==
              if j == i then Without(fields[..j], i) else Without(fields[..j], i) + [fields[j]]
  {
    var prefix := fields[..j + 1];
    assert prefix[..j] == fields[..j];
    if 0 <= i < j {
      assert prefix[..i] == fields[..i];
      assert prefix[i + 1..] == fields[i + 1..j] + [fields[j]];
      assert fields[..j][i + 1..] == fields[i + 1..j];
    } else if i == j {
      assert prefix[i + 1..] == [];
    }
  }

  /** `{...ai, formFields: fields}`: the object the save writes back. It
      keeps the keys `title`, `subheading` and `fields` of the decoded record
      and adds the current field list under `formFields`. */
  function SavePayload(ai: AiData, fields: seq<Json>): Json
  {
    Obj(map["title" := ai.title, "subheading" := ai.subheading, "fields" := ai.fields,
            "formFields" := Arr(fields)])
  }

  /** What a save does: nothing without a form id, else one update of the
      stored artifact with the given payload, which the store accepts or
      refuses. */
  datatype SaveOutcome = NoFormId | Written(formId: Json, payload: Json, ok: bool)

  /** The response map as a JSON object: one string property per answered
      slot, and nothing else. */
  function Responses(values: map<string, string>): (r: Json)
    ensures r.Obj? && r.props.Keys == values.Keys
    ensures forall k | k in values :: r.props[k] == Str(values[k])
  {
    Obj(map k | k in values :: Str(values[k]))
  }

  /** The row inserted into the response table:
      `{form_id: id || "unknown", response_data: {form_title, form_subheading, responses}}`. */
  function Submission(ai: AiData, values: map<string, string>, formId: Option<Json>): Json
  {
    Obj(map[
      "form_id" := if Present(formId) then formId.value else Str("unknown"),
      "response_data" := Obj(map[
        "form_title" := ai.title,
        "form_subheading" := ai.subheading,
        "responses" := Responses(values)])])
  }

  /** Saving and decoding again gives back exactly the saved field list, but
      the title and subheading fall back to their defaults: the payload names
      them `title`/`subheading`, which the decoder does not read. */
  lemma SaveRoundTrip(ai: AiData, fields: seq<Json>, parse: string -> Option<Json>)
    ensures GetAiData(Some(SavePayload(ai, fields)), parse) ==
              Normal(AiData(DefaultTitle, DefaultSubheading, Arr(fields)))
  {
    var payload := SavePayload(ai, fields);
    assert !payload.Str? && Truthy(payload);
    ResolveOrder(payload);
  }

  /** A later session that loads the saved payload starts from the saved
      fields, unless there were none. */
  lemma ReloadSeedsSavedFields(ai: AiData, fields: seq<Json>, parse: string -> Option<Json>, current: seq<Json>)
    ensures Seeded(GetAiData(Some(SavePayload(ai, fields)), parse), current) ==
              if fields == [] then current else fields
  {
    SaveRoundTrip(ai, fields, parse);
  }

  /** After a response is set for a label, every control whose label names
      the same slot shows it (when non-empty), and controls on other slots
      show what they showed before. */
  lemma SetValueSharedSlot(values: map<string, string>, edited: Json, value: string, other: Json)
    ensures ToJsString(other) == ToJsString(edited) ==>
              ShownValue(values[ToJsString(edited) := value], other) == value
    ensures ToJsString(other) != ToJsString(edited) ==>
              ShownValue(values[ToJsString(edited) := value], other) == ShownValue(values, other)
  {
  }

  /** The drafts of controllers freshly mounted on each field. */
  function FreshDrafts(fields: seq<Json>): (r: seq<Draft>)
    ensures |r| == |fields|
    ensures forall i | 0 <= i < |fields| :: r[i] == FreshDraft(fields[i])
  {
    if fields == [] then []
    else
      var rest := FreshDrafts(fields[1..]);
      assert forall i | 1 <= i < |fields| :: fields[1..][i - 1] == fields[i];
      [FreshDraft(fields[0])] + rest
  }

  /** How React reconciles the rows, which are keyed by position: a row
      that stays keeps its controller and the controller's draft, a new row
      mounts a fresh controller, and rows past the end unmount. */
  function Remount(drafts: seq<Draft>, fields: seq<Json>): (r: seq<Draft>)
    ensures |r| == |fields|
    ensures forall i | 0 <= i < |fields| && i < |drafts| :: r[i] == drafts[i]
    ensures forall i | |drafts| <= i < |fields| :: r[i] == FreshDraft(fields[i])
  {
    if |fields| <= |drafts| then drafts[..|fields|] else drafts + FreshDrafts(fields[|drafts|..])
  }

  /** The drafts stay with their positions, not with their fields: after
      deleting a field, the rows from the deleted position on show the next
      field but keep the draft of the field that was there before. */
  lemma DeleteLeavesDraftsBehind(drafts: seq<Draft>, fields: seq<Json>, index: nat)
    requires |drafts| == |fields| && index < |fields|
    ensures var after := Remount(drafts, Without(fields, index));
      && |after| == |fields| - 1
      && forall k | index <= k < |fields| - 1 :: after[k] == drafts[k] && Without(fields, index)[k] == fields[k + 1]
  {
    WithoutShifts(fields, index);
  }

  /** One editing session: the state behind `fields`, `formValues` and
      `isPreview`, the `formData` it was given, and the drafts of the
      popovers on screen. */
  class Editor {
    /** `formData?.["AI response"]`. */
    var raw: Option<Json>
    /** `formData?.id`. */
    var formId: Option<Json>
    /** `JSON.parse`, None when it throws. */
    const parse: string -> Option<Json>
    var fields: seq<Json>
    var values: map<string, string>
    var preview: bool
    /** The `label`/`placeholder` state of the `EditFieldController` in each
        row. The controllers are rendered only outside preview. */
    var drafts: seq<Draft>

    /** `getAiData()`, recomputed on every render. */
    function Ai(): Completion<AiData>
      reads this`raw
    {
      GetAiData(raw, parse)
    }

    /** A live session: its header decodes, since a render whose
        `getAiData()` throws shows nothing and runs no effect, and each row
        has one controller exactly outside preview. It does not say that the
        rows render: a `null` field makes the page throw (see `View`). */
    predicate Valid()
      reads this`raw, this`fields, this`preview, this`drafts
    {
      Ai().Normal? && |drafts| == (if preview then 0 else |fields|)
    }

    /** The controllers on screen, or a throw from `getAiData()` or from the
        `fields.map` callback. */
    function View(): Completion<seq<Control>>
      reads this`raw, this`fields, this`values, this`preview
    {
      if Ai().TypeError? then TypeError else RenderFields(fields, values, preview)
    }

    /** The page renders exactly when the header decodes and no field is
        `null`, and then shows one control per field, in order. */
    lemma ViewShowsFields()
      ensures View().Normal? <==> Ai().Normal? && forall k | 0 <= k < |fields| :: !fields[k].Null?
      ensures View().Normal? ==>
                && |View().value| == |fields|
                && forall k | 0 <= k < |fields| :: View().value[k] == RenderField(fields[k], k, values, preview).value
    {
      RenderKeepsEveryField(fields, values, preview);
    }

    /** The submit button shows only in preview and with at least one field. */
    predicate SubmitShown()
      reads this`fields, this`preview
    {
      preview && |fields| > 0
    }

    /** The first render: empty state, then the seeding effect, which mounts
        a controller on every seeded field. */
    constructor (raw: Option<Json>, formId: Option<Json>, parse: string -> Option<Json>)
      requires GetAiData(raw, parse).Normal?
      ensures this.raw == raw && this.formId == formId && this.parse == parse
      ensures fields == Seeded(GetAiData(raw, parse), [])
      ensures values == map[] && !preview
      ensures drafts == FreshDrafts(fields)
      ensures Valid()
    {
      this.raw := raw;
      this.formId := formId;
      this.parse := parse;
      fields := Seeded(GetAiData(raw, parse), []);
      values := map[];
      preview := false;
      drafts := FreshDrafts(Seeded(GetAiData(raw, parse), []));
    }

    /** New `formData`: the seeding effect runs again; responses and mode
        are kept, and outside preview the rows are reconciled. */
    method Receive(raw': Option<Json>, formId': Option<Json>)
      requires Valid() && GetAiData(raw', parse).Normal?
      modifies this`raw, this`formId, this`fields, this`drafts
      ensures raw == raw' && formId == formId'
      ensures fields == Seeded(GetAiData(raw', parse), old(fields))
      ensures drafts == if preview then [] else Remount(old(drafts), fields)
      ensures values == old(values) && preview == old(preview)
      ensures Valid()
    {
      var seeded := Seeded(GetAiData(raw', parse), fields);
      var remounted := if preview then [] else Remount(drafts, seeded);
      raw, formId, fields, drafts := raw', formId', seeded, remounted;
    }

    /** `deleteField(i)`: the filter keeps every element whose position is
        not `i`. The delete button is rendered only outside preview. */
    method DeleteField(index: int)
      requires Valid() && !preview
      modifies this`fields, this`drafts
      ensures fields == Without(old(fields), index)
      ensures drafts == Remount(old(drafts), fields)
      ensures Valid()
    {
      var current := fields;
      var mounted := drafts;
      var kept: seq<Json> := [];
      var j := 0;
      while j < |current|
        invariant 0 <= j <= |current|
        invariant kept == Without(current[..j], index)
      {
        WithoutGrows(current, j, index);
        if j != index {
          kept := kept + [current[j]];
        }
        j := j + 1;
      }
      assert current[..|current|] == current;
      fields := kept;
      drafts := Remount(mounted, kept);
    }

    /** `handleFinalUpdate(i, d)`: the element at `i` becomes `{...old, ...d}`
        and every other element stays. The editor only passes the index of
        a rendered field. */
    method UpdateField(index: nat, data: Json)
      requires index < |fields|
      modifies this`fields
      ensures |fields| == |old(fields)|
      ensures fields == old(fields)[index := Spread(old(fields)[index], data)]
      ensures Valid() == old(Valid())
    {
      var updated := fields;
      updated := updated[index := Spread(updated[index], data)];
      fields := updated;
    }

    /** Typing in the label input of the popover in row `index`. */
    method TypeLabel(index: nat, text: string)
      requires Valid() && !preview && index < |fields|
      modifies this`drafts
      ensures drafts == old(drafts)[index := Draft(Str(text), old(drafts)[index].placeholderValue)]
      ensures Valid()
    {
      drafts := drafts[index := Draft(Str(text), drafts[index].placeholderValue)];
    }

    /** Typing in the placeholder input of the popover in row `index`. */
    method TypePlaceholder(index: nat, text: string)
      requires Valid() && !preview && index < |fields|
      modifies this`drafts
      ensures drafts == old(drafts)[index := Draft(old(drafts)[index].labelValue, Str(text))]
      ensures Valid()
    {
      drafts := drafts[index := Draft(drafts[index].labelValue, Str(text))];
    }

    /** The popover's `handleUpdate` in row `index`, then
        `handleFinalUpdate`: the row's current field is spread with the
        row's draft, whichever field that draft was mounted on. */
    method EditField(index: nat)
      requires Valid() && !preview && index < |fields|
      modifies this`fields
      ensures fields == old(fields)[index := PopoverPayload(old(fields)[index], drafts[index].labelValue, drafts[index].placeholderValue)]
      ensures Valid()
    {
      var draft := drafts[index];
      var payload := PopoverPayload(fields[index], draft.labelValue, draft.placeholderValue);
      assert Spread(fields[index], payload) == payload;
      UpdateField(index, payload);
    }

    /** `handleInputChange(label, value)`: only the label's slot changes. */
    method SetValue(fieldLabel: Json, value: string)
      modifies this`values
      ensures values == old(values)[ToJsString(fieldLabel) := value]
    {
      values := values[ToJsString(fieldLabel) := value];
    }

    /** The Live Preview / Exit Preview button: entering preview unmounts
        every controller, leaving it mounts a fresh one on every field. */
    method TogglePreview()
      requires Valid()
      modifies this`preview, this`drafts
      ensures preview == !old(preview)
      ensures drafts == if preview then [] else FreshDrafts(fields)
      ensures Valid()
    {
      preview := !preview;
      drafts := if preview then [] else FreshDrafts(fields);
    }

    /** `handleSaveFormStructure`: with no form id nothing is written; else
        the payload is written and the store's answer reported. The local
        state does not change either way. */
    method Save(writeOk: bool) returns (outcome: SaveOutcome)
      requires Ai().Normal?
      ensures !Present(formId) ==> outcome == NoFormId
      ensures Present(formId) ==> outcome.Written? && outcome.formId == formId.value && outcome.ok == writeOk
      ensures Present(formId) ==> outcome.payload == SavePayload(Ai().value, fields)
    {
      if !Present(formId) {
        outcome := NoFormId;
      } else {
        var ai := Ai().value;
        var payload := SavePayload(ai, fields);
        outcome := Written(formId.value, payload, writeOk);
      }
    }

    /** `handleSubmitResponse`: builds the row and inserts it; the response
        map is cleared only when the insert succeeds. */
    method Submit(insertOk: bool) returns (row: Json, ok: bool)
      requires Ai().Normal?
      modifies this`values
      ensures row == Submission(Ai().value, old(values), formId)
      ensures ok == insertOk
      ensures values == if insertOk then map[] else old(values)
    {
      row := Submission(Ai().value, values, formId);
      ok := insertOk;
      if ok {
        values := map[];
      }
    }
  }

  /** A stored artifact written with snake_case keys. */
  const EmailField := Obj(map["form_label" := Str("Email"), "field_type" := Str("email")])
  const ContactForm := Obj(map["form_title" := Str("Contact Us"), "form_fields" := Arr([EmailField])])

  /** It decodes by the snake_case fallbacks. */
  lemma ContactFormDecodes(form: Json, parse: string -> Option<Json>)
    requires form == ContactForm
    ensures GetAiData(Some(form), parse) ==
              Normal(AiData(Str("Contact Us"), DefaultSubheading, Arr([EmailField])))
  {
    assert Get(form, "formTitle") == Get(form, "formSubheading") == Get(form, "form_subheading") == None;
    assert Get(form, "formFields") == None;
    ResolveOrder(form);
  }

  /** A session on a stored object artifact: one response typed and
      submitted, then the map is empty again. */
  method SubmitOnceClearsResponses(form: Json, parse: string -> Option<Json>)
    requires form == ContactForm
  {
    var answer := "a@b.com";
    ContactFormDecodes(form, parse);
    var editor := new Editor(Some(form), Some(Num(7)), parse);
    assert editor.fields == [EmailField];
    editor.TogglePreview();
    editor.SetValue(Str("Email"), answer);
    assert editor.values == map["Email" := answer];
    assert editor.SubmitShown();
    var row, ok := editor.Submit(true);
    assert row.props["response_data"].props["responses"].props.Keys == {"Email"};
    assert row.props["response_data"].props["responses"].props["Email"] == Str(answer);
    assert row.props["response_data"].props["form_title"] == Str("Contact Us");
    assert editor.values == map[];
  }

  /** A name field with a placeholder and an email field without one. */
  const NameField := Obj(map["label" := Str("Name"), "placeholder" := Str("Your name")])
  const PlainEmailField := Obj(map["label" := Str("Email")])
  /** The draft a controller mounts with on the name field. */
  lemma NameFieldDraft(field: Json)
    requires field == NameField
    ensures FreshDraft(field) == Draft(Str("Name"), Str("Your name"))
  {
    assert Get(field, "label") == Some(Str("Name"));
    assert Get(field, "placeholder") == Some(Str("Your name"));
    PickThree(field, "label", "formLabel", "form_label", Str(""));
    PickThree(field, "placeholder", "placeholderName", "placeholder_name", Str(""));
  }

  /** Deleting the first field and then confirming, without typing, the
      popover now beside the email field renames it "Name": row 0 keeps the
      controller, and so the draft, of the deleted field. The steps are the
      contracts of the constructor, `DeleteField` and `EditField`. */
  lemma StaleDraftAfterDelete(fields: seq<Json>)
    requires fields == [NameField, PlainEmailField]
    ensures var kept := Without(fields, 0);
      var drafts := Remount(FreshDrafts(fields), kept);
      var edited := PopoverPayload(kept[0], drafts[0].labelValue, drafts[0].placeholderValue);
      && kept == [PlainEmailField]
      && drafts == [Draft(Str("Name"), Str("Your name"))]
      && FieldLabel(edited, 0) == Str("Name")
      && FieldPlaceholder(edited) == Str("Your name")
  {
    var kept := Without(fields, 0);
    assert kept == [PlainEmailField];
    NameFieldDraft(fields[0]);
    var drafts := Remount(FreshDrafts(fields), kept);
    assert drafts == [Draft(Str("Name"), Str("Your name"))];
    EditedFieldShowsEdit(PlainEmailField, 0, "Name", "Your name");
  }
}
