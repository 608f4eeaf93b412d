/**
  The assessment form: its eight-field state, the single-field update that
  every input's change handler performs, and the submit handler, which
  first rejects the form when any field is blank, then walks the fields in
  declaration order and rejects the first one whose number is NaN or
  negative, and only then hands the form on.

  `Number(...)` is a parameter of type `string -> JsNumber`; the notice the
  handler shows is returned as a `SubmitOutcome`.
 */
module DiabetesPredictionForm {
  import opened Options
  import opened JsNumbers
  import opened FormFields

  /** Characters removed by `String.prototype.trim`: white space and line
      terminators */
  predicate IsTrimmed(c: char) {
    || c == '\t' || c == '\n' || c == '\U{B}' || c == '\U{C}' || c == '\r' || c == ' '
    || c == '\U{A0}' || c == '\U{1680}' || ('\U{2000}' <= c <= '\U{200A}')
    || c == '\U{2028}' || c == '\U{2029}' || c == '\U{202F}' || c == '\U{205F}'
    || c == '\U{3000}' || c == '\U{FEFF}'
  }

  /** `!value.trim()`: nothing but white space */
  predicate IsBlank(s: string) {
    forall i :: 0 <= i < |s| ==> IsTrimmed(s[i])
  }

  /** `isNaN(Number(value)) || Number(value) < 0` */
  predicate Rejected(n: JsNumber) {
    n.NaN? || Negative(n)
  }

  datatype SubmitOutcome =
    | MissingInformation
    | InvalidInput(field: Field)
    | Submitted(data: FormData)

  /** The title of the notice shown for an outcome; none is shown on success,
      and the two rejections have titles of their own */
  function NoticeTitle(o: SubmitOutcome): (t: Option<string>)
    ensures t.None? <==> o.Submitted?
    ensures o.MissingInformation? ==> t == Some("Missing Information")
    ensures o.InvalidInput? ==> t == Some("Invalid Input")
  {
    match o
    case MissingInformation => Some("Missing Information")
    case InvalidInput(_) => Some("Invalid Input")
    case Submitted(_) => None
  }

  /** The text under the title: a request to fill in the form, or the key of
      the rejected field inside a fixed sentence */
  function NoticeDescription(o: SubmitOutcome): (t: Option<string>)
    ensures t.None? <==> o.Submitted?
    ensures o.MissingInformation? ==> t == Some("Please fill in all required fields.")
    ensures o.InvalidInput? ==> t == Some(InvalidInputText(o.field))
  {
    match o
    case MissingInformation => Some("Please fill in all required fields.")
    case InvalidInput(f) => Some(InvalidInputText(f))
    case Submitted(_) => None
  }

  const InvalidInputPrefix: string := "Please enter a valid positive number for "

  /** The sentence naming a rejected field: the key, between a fixed prefix
      and a full stop */
  function InvalidInputText(f: Field): (t: string)
    ensures |t| == |InvalidInputPrefix| + |Key(f)| + 1
    ensures t[..|InvalidInputPrefix|] == InvalidInputPrefix
    ensures t[|InvalidInputPrefix|..|t| - 1] == Key(f)
    ensures t[|t| - 1] == '.'
  {
    InvalidInputPrefix + Key(f) + "."
  }

  /** Different fields are named by different sentences, so the notice
      identifies the rejected field */
  lemma InvalidInputTextTellsFieldsApart(f: Field, g: Field)
    ensures InvalidInputText(f) == InvalidInputText(g) <==> f == g
  {
  }

  /** The fields of `fs` whose text is blank, in the order of `fs` */
  function BlankFields(d: FormData, fs: seq<Field>): (r: seq<Field>)
    ensures forall f :: f in r <==> f in fs && IsBlank(Get(d, f))
  {
    if fs == [] then []
    else (if IsBlank(Get(d, fs[0])) then [fs[0]] else []) + BlankFields(d, fs[1..])
  }

  /** `Object.entries(formData).filter(([_, value]) => !value.trim())` */
  function EmptyFields(d: FormData): (r: seq<Field>)
    ensures forall f :: f in r <==> IsBlank(Get(d, f))
  {
    FieldsEnumeration();
    BlankFields(d, Fields)
  }

  /** The first field of `fs` whose number the check rejects */
  function FirstRejected(d: FormData, number: string -> JsNumber, fs: seq<Field>): Option<Field> {
    if fs == [] then None
    else if Rejected(number(Get(d, fs[0]))) then Some(fs[0])
    else FirstRejected(d, number, fs[1..])
  }

  /** What submitting the form does, as a value */
  function Validate(d: FormData, number: string -> JsNumber): SubmitOutcome {
    if |EmptyFields(d)| > 0 then MissingInformation
    else match FirstRejected(d, number, Fields)
      case Some(f) => InvalidInput(f)
      case None => Submitted(d)
  }

  class PredictionForm {
    var formData: FormData

    constructor ()
      ensures formData == EmptyForm
    {
      formData := EmptyForm;
    }

    /** `handleInputChange` */
    method InputChange(field: Field, value: string)
      modifies this
      ensures formData == Update(old(formData), field, value)
    {
      formData := Update(formData, field, value);
    }

    /** `handleSubmit`: the emptiness filter, then the ordered scan with an
        early return, then the hand-off */
    method HandleSubmit(number: string -> JsNumber) returns (outcome: SubmitOutcome)
      ensures outcome == Validate(formData, number)
    {
      var emptyFields := EmptyFields(formData);
      if |emptyFields| > 0 {
        return MissingInformation;
      }
      for i := 0 to |Fields|
        invariant FirstRejected(formData, number, Fields) == FirstRejected(formData, number, Fields[i..])
      {
        var value := Get(formData, Fields[i]);
        if Rejected(number(value)) {
          return InvalidInput(Fields[i]);
        }
        assert Fields[i..][1..] == Fields[i + 1..];
      }
      return Submitted(formData);
    }
  }

  // ---------------------------------------------------------------------
  // Properties of the submit handler

  lemma {:induction false} FirstRejectedSpec(d: FormData, number: string -> JsNumber, fs: seq<Field>)
    ensures FirstRejected(d, number, fs).Some? ==>
              && FirstRejected(d, number, fs).value in fs
              && Rejected(number(Get(d, FirstRejected(d, number, fs).value)))
    ensures FirstRejected(d, number, fs).Some? ==>
              exists k :: 0 <= k < |fs| && fs[k] == FirstRejected(d, number, fs).value
                          && forall j :: 0 <= j < k ==> !Rejected(number(Get(d, fs[j])))
    ensures FirstRejected(d, number, fs).None? <==> forall f :: f in fs ==> !Rejected(number(Get(d, f)))
  {
    if fs != [] {
      FirstRejectedSpec(d, number, fs[1..]);
      if !Rejected(number(Get(d, fs[0]))) && FirstRejected(d, number, fs[1..]).Some? {
        var k :| 0 <= k < |fs[1..]| && fs[1..][k] == FirstRejected(d, number, fs[1..]).value
                 && forall j :: 0 <= j < k ==> !Rejected(number(Get(d, fs[1..][j])));
        assert fs[k + 1] == FirstRejected(d, number, fs).value;
        assert forall j :: 0 <= j < k + 1 ==> !Rejected(number(Get(d, fs[j]))) by {
          forall j | 0 <= j < k + 1 ensures !Rejected(number(Get(d, fs[j]))) {
            if j > 0 {
              assert fs[j] == fs[1..][j - 1];
            }
          }
        }
      }
      if FirstRejected(d, number, fs).None? {
        forall f | f in fs ensures !Rejected(number(Get(d, f))) {
          if f != fs[0] {
            assert f in fs[1..];
          }
        }
      }
    }
  }

  lemma EmptyFieldsNonEmpty(d: FormData)
    ensures |EmptyFields(d)| > 0 <==> exists g :: IsBlank(Get(d, g))
  {
    var r := EmptyFields(d);
    if |r| > 0 {
      assert r[0] in r;
    }
    if g :| IsBlank(Get(d, g)) {
      assert g in r;
    }
  }

  /** A blank field is reported as missing information whatever the other
      fields hold, before any number is looked at */
  lemma BlankComesFirst(d: FormData, number: string -> JsNumber, f: Field)
    requires IsBlank(Get(d, f))
    ensures Validate(d, number) == MissingInformation
  {
  }

  /** "Invalid Input" names the first field, in declaration order, whose
      number is NaN or negative, and only when no field is blank */
  lemma InvalidNamesFirstRejected(d: FormData, number: string -> JsNumber, f: Field)
    ensures Validate(d, number) == InvalidInput(f) <==>
              && (forall g :: !IsBlank(Get(d, g)))
              && Rejected(number(Get(d, f)))
              && (forall g :: Position(g) < Position(f) ==> !Rejected(number(Get(d, g))))
  {
    FirstRejectedSpec(d, number, Fields);
    FieldsEnumeration();
    EmptyFieldsNonEmpty(d);
    if Validate(d, number) == InvalidInput(f) {
      var k :| 0 <= k < |Fields| && Fields[k] == f
               && forall j :: 0 <= j < k ==> !Rejected(number(Get(d, Fields[j])));
      assert k == Position(f);
      forall g | Position(g) < Position(f) ensures !Rejected(number(Get(d, g))) {
        assert Fields[Position(g)] == g;
      }
    }
  }

  /** The form is handed on exactly when every field is filled in and its
      number is neither NaN nor negative, and it is handed on unchanged */
  lemma SubmittedExactlyWhenAllValid(d: FormData, number: string -> JsNumber)
    ensures Validate(d, number).Submitted? <==>
              forall f :: !IsBlank(Get(d, f)) && !Rejected(number(Get(d, f)))
    ensures Validate(d, number).Submitted? ==> Validate(d, number).data == d
  {
    FirstRejectedSpec(d, number, Fields);
    FieldsEnumeration();
    EmptyFieldsNonEmpty(d);
  }

  /** Zero passes, and so does any number however large, infinity included */
  lemma NoUpperBoundAndZeroAccepted(d: FormData, number: string -> JsNumber)
    requires forall f :: !IsBlank(Get(d, f))
    requires forall f :: number(Get(d, f)) == Finite(0.0) || number(Get(d, f)) == PosInfinity
                         || (number(Get(d, f)).Finite? && number(Get(d, f)).value > 1000000.0)
    ensures Validate(d, number) == Submitted(d)
  {
    SubmittedExactlyWhenAllValid(d, number);
  }

  /** The notice names field `f` exactly when `f` is the first field, in
      declaration order, whose number is NaN or negative, and no field is
      blank; an accepted form gets no notice at all */
  lemma NoticeNamesFirstRejected(d: FormData, number: string -> JsNumber, f: Field)
    ensures NoticeDescription(Validate(d, number)) == Some(InvalidInputText(f)) <==>
              && (forall g :: !IsBlank(Get(d, g)))
              && Rejected(number(Get(d, f)))
              && (forall g :: Position(g) < Position(f) ==> !Rejected(number(Get(d, g))))
    ensures NoticeTitle(Validate(d, number)).None? <==>
              forall g :: !IsBlank(Get(d, g)) && !Rejected(number(Get(d, g)))
  {
    InvalidNamesFirstRejected(d, number, f);
    SubmittedExactlyWhenAllValid(d, number);
    var o := Validate(d, number);
    if o.InvalidInput? {
      InvalidInputTextTellsFieldsApart(o.field, f);
    }
  }

  /** The form starts empty, so submitting it at once asks for the missing
      information */
  lemma FreshFormIsMissingInformation(number: string -> JsNumber)
    ensures Validate(EmptyForm, number) == MissingInformation
    ensures NoticeTitle(Validate(EmptyForm, number)) == Some("Missing Information")
  {
  }
}
