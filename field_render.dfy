/** Render-time field resolution (app/_component/form.jsx, the `fields.map`
    callback) and the field-settings popover `EditFieldController`. Stored
    fields stay raw JSON objects; label, type and placeholder are resolved
    afresh on every render. */
module FieldRender {
  import opened JsValue

  const LabelKeys := ["label", "formLabel", "form_label"]
  const TypeKeys := ["fieldType", "field_type"]
  const PlaceholderKeys := ["placeholder", "placeholderName", "placeholder_name"]
  const DefaultType := Str("text")
  const DefaultPlaceholder := Str("")
  const DefaultRows := Num(4)

  /** The field keys that come in a camelCase and a snake_case spelling. */
  const CaseKeys := ["formLabel", "form_label", "fieldType", "field_type", "placeholderName", "placeholder_name"]

  /** `Field ${index + 1}`: the label of a field that has none. */
  function SyntheticLabel(index: nat): Json
  {
    Str("Field " + Decimal(index + 1))
  }

  /** `field.label || field.formLabel || field.form_label || "Field n"`. */
  function FieldLabel(field: Json, index: nat): Json
    requires !field.Null?
  {
    Pick(field, LabelKeys, SyntheticLabel(index))
  }

  /** `field.fieldType || field.field_type || "text"`. */
  function FieldType(field: Json): Json
    requires !field.Null?
  {
    Pick(field, TypeKeys, DefaultType)
  }

  /** `field.placeholder || field.placeholderName || field.placeholder_name || ""`. */
  function FieldPlaceholder(field: Json): Json
    requires !field.Null?
  {
    Pick(field, PlaceholderKeys, DefaultPlaceholder)
  }

  /** `formValues[fLabel] || ""`: the value a control shows, read from the
      response slot `String(fLabel)`. */
  function ShownValue(values: map<string, string>, fieldLabel: Json): string
  {
    var key := ToJsString(fieldLabel);
    if key in values then values[key] else ""
  }

  /** One rendered control. A textarea carries no `required` attribute. */
  datatype Control =
    | TextArea(shownLabel: Json, placeholder: Json, value: string, rows: Json, disabled: bool)
    | Input(shownLabel: Json, inputType: Json, placeholder: Json, value: string, disabled: bool, required: bool)

  /** The `fields.map` callback for the field at `index`. Reading a property
      of a `null` field throws. */
  function RenderField(field: Json, index: nat, values: map<string, string>, preview: bool): (r: Completion<Control>)
    ensures r.Normal? <==> !field.Null?
  {
    if field.Null? then TypeError
    else
      var shownLabel := FieldLabel(field, index);
      var fieldType := FieldType(field);
      var placeholder := FieldPlaceholder(field);
      var shown := ShownValue(values, shownLabel);
      if fieldType == Str("textarea") then
        Normal(TextArea(shownLabel, placeholder, shown, Pick(field, ["rows"], DefaultRows), !preview))
      else
        Normal(Input(shownLabel, fieldType, placeholder, shown, !preview, preview && Holds(field, "required")))
  }

  /** `fields.map(callback)` from position `i` on: the callback gets each
      field and its index, and the first callback that throws aborts the
      whole map. */
  function MapFrom(callback: (Json, nat) -> Completion<Control>, fields: seq<Json>, i: nat): Completion<seq<Control>>
    requires i <= |fields|
    decreases |fields| - i
  {
    if i == |fields| then Normal([])
    else
      match callback(fields[i], i)
      case TypeError => TypeError
      case Normal(c) =>
        match MapFrom(callback, fields, i + 1)
        case TypeError => TypeError
        case Normal(cs) => Normal([c] + cs)
  }

  /** The render callback, closing over the responses and the mode. */
  function Callback(values: map<string, string>, preview: bool): (Json, nat) -> Completion<Control>
  {
    (field: Json, index: nat) => RenderField(field, index, values, preview)
  }

  /** The whole field list. */
  function RenderFields(fields: seq<Json>, values: map<string, string>, preview: bool): Completion<seq<Control>>
  {
    MapFrom(Callback(values, preview), fields, 0)
  }

  /** The map fails exactly when some callback throws, and otherwise holds
      at each position the callback's result for that field and index. */
  lemma {:induction false} MapKeepsEvery(callback: (Json, nat) -> Completion<Control>, fields: seq<Json>, i: nat)
    requires i <= |fields|
    ensures MapFrom(callback, fields, i).Normal? <==>
              forall k | i <= k < |fields| :: callback(fields[k], k).Normal?
    ensures MapFrom(callback, fields, i).Normal? ==>
              && |MapFrom(callback, fields, i).value| == |fields| - i
              && forall k | i <= k < |fields| ::
                   MapFrom(callback, fields, i).value[k - i] == callback(fields[k], k).value
    decreases |fields| - i
  {
    if i < |fields| {
      MapKeepsEvery(callback, fields, i + 1);
      var head := callback(fields[i], i);
      var rest := MapFrom(callback, fields, i + 1);
      if head.Normal? && rest.Normal? {
        var all := MapFrom(callback, fields, i);
        assert all.value == [head.value] + rest.value;
        forall k | i < k < |fields|
          ensures all.value[k - i] == callback(fields[k], k).value
        {
          assert all.value[k - i] == rest.value[k - (i + 1)];
        }
      }
    }
  }

  /** Rendering never drops or reorders fields: it fails exactly when some
      field is `null`, and otherwise yields one control per field, the
      control at position k being that field's own at index k. */
  lemma {:induction false} RenderKeepsEveryField(fields: seq<Json>, values: map<string, string>, preview: bool)
    ensures RenderFields(fields, values, preview).Normal? <==> forall k | 0 <= k < |fields| :: !fields[k].Null?
    ensures RenderFields(fields, values, preview).Normal? ==>
              && |RenderFields(fields, values, preview).value| == |fields|
              && forall k | 0 <= k < |fields| ::
                   RenderFields(fields, values, preview).value[k] == RenderField(fields[k], k, values, preview).value
  {
    RenderFailsOnNull(fields, values, preview);
    RenderInOrder(fields, values, preview);
  }

  /** The failure half of `RenderKeepsEveryField`. */
  lemma {:induction false} RenderFailsOnNull(fields: seq<Json>, values: map<string, string>, preview: bool)
    ensures RenderFields(fields, values, preview).Normal? <==> forall k | 0 <= k < |fields| :: !fields[k].Null?
  {
    MapKeepsEvery(Callback(values, preview), fields, 0);
  }

  /** The positional half of `RenderKeepsEveryField`. */
  lemma {:induction false} RenderInOrder(fields: seq<Json>, values: map<string, string>, preview: bool)
    ensures RenderFields(fields, values, preview).Normal? ==>
              && |RenderFields(fields, values, preview).value| == |fields|
              && forall k | 0 <= k < |fields| ::
                   Normal(RenderFields(fields, values, preview).value[k]) == RenderField(fields[k], k, values, preview)
  {
    MapKeepsEvery(Callback(values, preview), fields, 0);
  }

  /** The label chain in order, ending in the synthetic 1-based label. */
  lemma LabelOrder(field: Json, index: nat)
    requires !field.Null?
    ensures FieldLabel(field, index) ==
              if Holds(field, "label") then Get(field, "label").value
              else if Holds(field, "formLabel") then Get(field, "formLabel").value
              else if Holds(field, "form_label") then Get(field, "form_label").value
              else SyntheticLabel(index)
    ensures Truthy(FieldLabel(field, index))
  {
    PickThree(field, "label", "formLabel", "form_label", SyntheticLabel(index));
  }

  /** The type and placeholder chains in order. */
  lemma TypeAndPlaceholderOrder(field: Json)
    requires !field.Null?
    ensures FieldType(field) ==
              if Holds(field, "fieldType") then Get(field, "fieldType").value
              else if Holds(field, "field_type") then Get(field, "field_type").value
              else DefaultType
    ensures FieldPlaceholder(field) ==
              if Holds(field, "placeholder") then Get(field, "placeholder").value
              else if Holds(field, "placeholderName") then Get(field, "placeholderName").value
              else if Holds(field, "placeholder_name") then Get(field, "placeholder_name").value
              else DefaultPlaceholder
  {
    PickTwo(field, "fieldType", "field_type", DefaultType);
    PickThree(field, "placeholder", "placeholderName", "placeholder_name", DefaultPlaceholder);
  }

  /** The rendering rules: a multi-line control exactly when the type is the
      string "textarea" (rows default 4), inputs disabled exactly outside
      preview, `required` only in preview and only when `field.required` is
      truthy, and the shown value read from the label's response slot. */
  lemma ControlRules(field: Json, index: nat, values: map<string, string>, preview: bool)
    requires !field.Null?
    ensures RenderField(field, index, values, preview).Normal?
    ensures var c := RenderField(field, index, values, preview).value;
      && (c.TextArea? <==> FieldType(field) == Str("textarea"))
      && c.shownLabel == FieldLabel(field, index) && Truthy(c.shownLabel)
      && c.placeholder == FieldPlaceholder(field)
      && c.disabled == !preview
      && c.value == (if ToJsString(c.shownLabel) in values then values[ToJsString(c.shownLabel)] else "")
      && (c.TextArea? ==> c.rows == if Holds(field, "rows") then Get(field, "rows").value else DefaultRows)
      && (c.Input? ==> c.inputType == FieldType(field) && c.inputType != Str("textarea"))
      && (c.Input? ==> (c.required <==> preview && Holds(field, "required")))
  {
    LabelOrder(field, index);
    PickOne(field, "rows", DefaultRows);
  }

  /** The popover's initial label: the same chain, ending in "" rather than
      the synthetic label. */
  function PopoverLabel(field: Json): Json
    requires !field.Null?
  {
    Pick(field, LabelKeys, Str(""))
  }

  /** The popover's initial placeholder. */
  function PopoverPlaceholder(field: Json): Json
    requires !field.Null?
  {
    Pick(field, PlaceholderKeys, Str(""))
  }

  /** A popover's own state: the `label` and `placeholder` its inputs edit.
      It belongs to the controller, which lives as long as its row. */
  datatype Draft = Draft(labelValue: Json, placeholderValue: Json)

  /** The state `useState` gives a controller when it mounts on `field`.
      A `null` field never gets a controller, because its row's render
      throws first; its entry is the empty draft. */
  function FreshDraft(field: Json): (d: Draft)
    ensures !field.Null? ==> d.labelValue == PopoverLabel(field) && d.placeholderValue == PopoverPlaceholder(field)
  {
    if field.Null? then Draft(Str(""), Str("")) else Draft(PopoverLabel(field), PopoverPlaceholder(field))
  }

  /** `handleUpdate`'s object: the field with `label`/`formLabel` set to the
      edited label and `placeholder`/`placeholderName` to the edited
      placeholder. */
  function PopoverPayload(field: Json, newLabel: Json, newPlaceholder: Json): (r: Json)
    ensures r.Obj?
    ensures r.props.Keys == OwnProps(field).Keys + {"label", "formLabel", "placeholder", "placeholderName"}
    ensures r.props["label"] == r.props["formLabel"] == newLabel
    ensures r.props["placeholder"] == r.props["placeholderName"] == newPlaceholder
    ensures forall k | k in OwnProps(field) && k !in {"label", "formLabel", "placeholder", "placeholderName"} ::
              r.props[k] == OwnProps(field)[k]
  {
    Obj(OwnProps(field)["label" := newLabel]["formLabel" := newLabel]
                       ["placeholder" := newPlaceholder]["placeholderName" := newPlaceholder])
  }

  /** After an edit with a non-empty label and placeholder, the field shows
      exactly what was typed, whatever snake_case keys it still carries, and
      keeps its type. */
  lemma EditedFieldShowsEdit(field: Json, index: nat, typedLabel: string, typedPlaceholder: string)
    requires typedLabel != [] && typedPlaceholder != []
    ensures FieldLabel(PopoverPayload(field, Str(typedLabel), Str(typedPlaceholder)), index) == Str(typedLabel)
    ensures FieldPlaceholder(PopoverPayload(field, Str(typedLabel), Str(typedPlaceholder))) == Str(typedPlaceholder)
    ensures !field.Null? ==>
              FieldType(PopoverPayload(field, Str(typedLabel), Str(typedPlaceholder))) == FieldType(field)
  {
    var r := PopoverPayload(field, Str(typedLabel), Str(typedPlaceholder));
    LabelOrder(r, index);
    TypeAndPlaceholderOrder(r);
    if !field.Null? {
      EditKeepsType(field, Str(typedLabel), Str(typedPlaceholder));
    }
  }

  /** The popover's update leaves the type keys as they were. */
  lemma EditKeepsType(field: Json, newLabel: Json, newPlaceholder: Json)
    requires !field.Null?
    ensures FieldType(PopoverPayload(field, newLabel, newPlaceholder)) == FieldType(field)
  {
    var r := PopoverPayload(field, newLabel, newPlaceholder);
    assert Get(r, "fieldType") == Get(field, "fieldType");
    assert Get(r, "field_type") == Get(field, "field_type");
    PickTwo(r, "fieldType", "field_type", DefaultType);
    PickTwo(field, "fieldType", "field_type", DefaultType);
  }

  /** Clearing the label keeps the old `form_label`, which then shows
      through: the edit writes "" to `label` and `formLabel` only. */
  lemma ClearedLabelFallsThrough(field: Json, index: nat, placeholder: Json)
    ensures FieldLabel(PopoverPayload(field, Str(""), placeholder), index) ==
              if field.Obj? && "form_label" in field.props && Truthy(field.props["form_label"])
              then field.props["form_label"] else SyntheticLabel(index)
  {
    LabelOrder(PopoverPayload(field, Str(""), placeholder), index);
  }

  /** Confirming, without typing, a popover that was mounted on this very
      field changes nothing the user sees: label, placeholder and type
      resolve as before. */
  lemma UntouchedEditKeepsLook(field: Json, index: nat)
    requires !field.Null?
    ensures var d := FreshDraft(field);
      var r := PopoverPayload(field, d.labelValue, d.placeholderValue);
      && FieldLabel(r, index) == FieldLabel(field, index)
      && FieldPlaceholder(r) == FieldPlaceholder(field)
      && FieldType(r) == FieldType(field)
  {
    UntouchedLabel(field, index);
    UntouchedPlaceholder(field);
    EditKeepsType(field, PopoverLabel(field), PopoverPlaceholder(field));
  }

  lemma UntouchedLabel(field: Json, index: nat)
    requires !field.Null?
    ensures FieldLabel(PopoverPayload(field, PopoverLabel(field), PopoverPlaceholder(field)), index)
         == FieldLabel(field, index)
  {
    var r := PopoverPayload(field, PopoverLabel(field), PopoverPlaceholder(field));
    PickSameKeys(field, LabelKeys, Str(""), SyntheticLabel(index));
    LabelOrder(r, index);
    if forall i | 0 <= i < |LabelKeys| :: !Holds(field, LabelKeys[i]) {
      assert !Holds(field, LabelKeys[2]);
      assert Get(r, "form_label") == Get(field, "form_label");
    }
  }

  lemma UntouchedPlaceholder(field: Json)
    requires !field.Null?
    ensures FieldPlaceholder(PopoverPayload(field, PopoverLabel(field), PopoverPlaceholder(field)))
         == FieldPlaceholder(field)
  {
    var r := PopoverPayload(field, PopoverLabel(field), PopoverPlaceholder(field));
    PickSameKeys(field, PlaceholderKeys, Str(""), DefaultPlaceholder);
    TypeAndPlaceholderOrder(r);
    if forall i | 0 <= i < |PlaceholderKeys| :: !Holds(field, PlaceholderKeys[i]) {
      assert !Holds(field, PlaceholderKeys[2]);
      assert Get(r, "placeholder_name") == Get(field, "placeholder_name");
    }
  }

  /** A field written with snake_case keys renders as the camelCase-free
      object it is: `{form_label: "Email", field_type: "email"}` becomes an
      email input labelled "Email" with an empty placeholder, not required. */
  lemma SnakeCaseFieldScenario(field: Json, values: map<string, string>)
    requires field == Obj(map["form_label" := Str("Email"), "field_type" := Str("email")])
    ensures RenderField(field, 0, values, true) ==
              Normal(Input(Str("Email"), Str("email"), Str(""), ShownValue(values, Str("Email")), false, false))
  {
    assert Get(field, "label") == Get(field, "formLabel") == None;
    assert Get(field, "fieldType") == None;
    assert Get(field, "placeholder") == Get(field, "placeholderName") == Get(field, "placeholder_name") == None;
    assert Get(field, "required") == None;
    PickThree(field, "label", "formLabel", "form_label", SyntheticLabel(0));
    PickTwo(field, "fieldType", "field_type", DefaultType);
    PickThree(field, "placeholder", "placeholderName", "placeholder_name", DefaultPlaceholder);
    assert FieldLabel(field, 0) == Str("Email");
    assert FieldType(field) == Str("email");
    assert FieldPlaceholder(field) == Str("");
  }

  /** A field written with snake_case keys renders exactly as one written
      with camelCase keys: each camelCase key reads as its snake_case
      partner (both absent, or both holding the same value), the keys of the
      other spelling are absent or falsy, and every other key reads alike. */
  lemma SnakeCaseFieldMatchesCamelCase(camel: Json, snake: Json, index: nat, values: map<string, string>, preview: bool)
    requires !camel.Null? && !snake.Null?
    requires forall k | k !in CaseKeys :: Get(camel, k) == Get(snake, k)
    requires Get(camel, "formLabel") == Get(snake, "form_label")
    requires Get(camel, "fieldType") == Get(snake, "field_type")
    requires Get(camel, "placeholderName") == Get(snake, "placeholder_name")
    requires !Holds(camel, "form_label") && !Holds(camel, "field_type") && !Holds(camel, "placeholder_name")
    requires !Holds(snake, "formLabel") && !Holds(snake, "fieldType") && !Holds(snake, "placeholderName")
    ensures RenderField(camel, index, values, preview) == RenderField(snake, index, values, preview)
  {
    OtherKeysAlike(camel, snake);
    SameLabel(camel, snake, index);
    SameTypeAndPlaceholder(camel, snake);
    SameControl(camel, snake, index, values, preview);
  }

  /** The keys read in one spelling only are the render's other reads. */
  lemma OtherKeysAlike(camel: Json, snake: Json)
    requires !camel.Null? && !snake.Null?
    requires forall k | k !in CaseKeys :: Get(camel, k) == Get(snake, k)
    ensures Get(camel, "label") == Get(snake, "label")
    ensures Get(camel, "placeholder") == Get(snake, "placeholder")
    ensures Get(camel, "rows") == Get(snake, "rows")
    ensures Get(camel, "required") == Get(snake, "required")
  {
    assert "label" !in CaseKeys && "placeholder" !in CaseKeys;
    assert "rows" !in CaseKeys && "required" !in CaseKeys;
  }

  /** The label chain reads `formLabel` in one spelling where it reads
      `form_label` in the other. */
  lemma SameLabel(camel: Json, snake: Json, index: nat)
    requires !camel.Null? && !snake.Null?
    requires Get(camel, "label") == Get(snake, "label")
    requires Get(camel, "formLabel") == Get(snake, "form_label")
    requires !Holds(camel, "form_label") && !Holds(snake, "formLabel")
    ensures FieldLabel(camel, index) == FieldLabel(snake, index)
  {
    LabelOrder(camel, index);
    LabelOrder(snake, index);
  }

  /** Likewise the type and placeholder chains. */
  lemma SameTypeAndPlaceholder(camel: Json, snake: Json)
    requires !camel.Null? && !snake.Null?
    requires Get(camel, "fieldType") == Get(snake, "field_type")
    requires Get(camel, "placeholder") == Get(snake, "placeholder")
    requires Get(camel, "placeholderName") == Get(snake, "placeholder_name")
    requires !Holds(camel, "field_type") && !Holds(camel, "placeholder_name")
    requires !Holds(snake, "fieldType") && !Holds(snake, "placeholderName")
    ensures FieldType(camel) == FieldType(snake)
    ensures FieldPlaceholder(camel) == FieldPlaceholder(snake)
  {
    TypeAndPlaceholderOrder(camel);
    TypeAndPlaceholderOrder(snake);
  }

  /** Two fields with the same label, type, placeholder, rows and
      `required` render the same control. */
  lemma SameControl(a: Json, b: Json, index: nat, values: map<string, string>, preview: bool)
    requires !a.Null? && !b.Null?
    requires FieldLabel(a, index) == FieldLabel(b, index)
    requires FieldType(a) == FieldType(b) && FieldPlaceholder(a) == FieldPlaceholder(b)
    requires Get(a, "rows") == Get(b, "rows") && Get(a, "required") == Get(b, "required")
    ensures RenderField(a, index, values, preview) == RenderField(b, index, values, preview)
  {
    PickOne(a, "rows", DefaultRows);
    PickOne(b, "rows", DefaultRows);
  }
}
