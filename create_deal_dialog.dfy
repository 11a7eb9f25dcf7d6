/**
 * The "Create New Deal" dialog: a form of six text fields, and on submit a
 * deal payload for the column's stage built from them, after which the form
 * goes back to its initial values.
 */
module CreateDeal {
  import opened Wrappers
  import opened JsText
  import opened UseDeals

  /** The form state; every field is the raw text of its input. */
  datatype DealForm = DealForm(
    name: string,
    company: string,
    value: string,
    priority: string,
    notes: string,
    probability: string)

  /** The form as it starts and as every submit leaves it. */
  const InitialForm := DealForm("", "", "", "medium", "", "50")

  /** The inputs that call `handleChange`. */
  datatype DealField = Name | Company | Value | Priority | Notes | Probability

  function FieldOf(form: DealForm, field: DealField): string {
    match field
    case Name => form.name
    case Company => form.company
    case Value => form.value
    case Priority => form.priority
    case Notes => form.notes
    case Probability => form.probability
  }

  /** `{ ...prev, [field]: value }`: only `field` changes. */
  function WithField(form: DealForm, field: DealField, text: string): (r: DealForm)
    ensures FieldOf(r, field) == text
    ensures forall other :: other != field ==> FieldOf(r, other) == FieldOf(form, other)
  {
    match field
    case Name => form.(name := text)
    case Company => form.(company := text)
    case Value => form.(value := text)
    case Priority => form.(priority := text)
    case Notes => form.(notes := text)
    case Probability => form.(probability := text)
  }

  /**
   * The payload `handleSubmit` passes to `onSubmit`. `parsedValue` is what
   * `parseFloat` made of the value text (`None` for `NaN`).
   */
  function Payload(form: DealForm, stage: string, parsedValue: Option<int>): (d: DealDraft)
    ensures d.stage == stage && d.daysInStage == 0
    ensures d.name == form.name && d.company == form.company
    ensures d.priority == form.priority && d.notes == form.notes
  {
    DealDraft(
      name := form.name,
      company := form.company,
      value := OrNumber(parsedValue, 0),
      priority := form.priority,
      notes := form.notes,
      probability := OrNumber(ParseInt(form.probability), 50),
      stage := stage,
      daysInStage := 0)
  }

  /** The probability text "0", like unparsable text, becomes 50; any other integer text is read as written. */
  lemma PayloadProbability(form: DealForm, stage: string, parsedValue: Option<int>, n: nat)
    ensures ParseInt(form.probability).None? ==> Payload(form, stage, parsedValue).probability == 50
    ensures form.probability == "0" ==> Payload(form, stage, parsedValue).probability == 50
    ensures form.probability == NatToString(n) && n != 0 ==> Payload(form, stage, parsedValue).probability == n
  {
    ParseIntOfNatToString(0);
    assert NatToString(0) == "0";
    ParseIntOfNatToString(n);
  }

  /** The value is the parsed number, or 0 when the text does not parse. */
  lemma PayloadValue(form: DealForm, stage: string, parsedValue: Option<int>)
    ensures parsedValue.None? ==> Payload(form, stage, parsedValue).value == 0
    ensures parsedValue.Some? ==> Payload(form, stage, parsedValue).value == parsedValue.value
  {
  }

  /** The initial form submits as a medium-priority deal at 50%. */
  lemma InitialPayload(stage: string)
    ensures var d := Payload(InitialForm, stage, None);
            d.probability == 50 && d.value == 0 && d.priority == "medium" && d.name == ""
  {
    ParseFifty();
  }

  lemma ParseFifty()
    ensures ParseInt("50") == Some(50)
  {
    assert NatToString(5) == "5";
    assert NatToString(50) == NatToString(5) + "0" == "50";
    ParseIntOfNatToString(50);
  }

  class CreateDealDialog {
    var form: DealForm

    constructor ()
      ensures form == InitialForm
    {
      form := InitialForm;
    }

    /** `handleChange(field, value)`. */
    method Change(field: DealField, text: string)
      modifies this
      ensures FieldOf(form, field) == text
      ensures forall other :: other != field ==> FieldOf(form, other) == FieldOf(old(form), other)
    {
      form := WithField(form, field, text);
    }

    /** `handleSubmit`: the payload for the current form, then the form is reset. */
    method Submit(stage: string, parsedValue: Option<int>) returns (payload: DealDraft)
      modifies this
      ensures payload == Payload(old(form), stage, parsedValue)
      ensures form == InitialForm
    {
      payload := Payload(form, stage, parsedValue);
      form := InitialForm;
    }
  }
}
