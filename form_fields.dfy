/**
  The record of eight text inputs that both the page and the form component
  declare (`PredictionFormData`). Every field holds the raw text the user
  typed; nothing is parsed here.
 */
module FormFields {

  /** The eight measurements, one constructor per key of the form state */
  datatype Field =
    | Pregnancies
    | Glucose
    | BloodPressure
    | SkinThickness
    | Insulin
    | Bmi
    | DiabetesPedigreeFunction
    | Age

  /** The order in which the form state declares its keys, which is the
      order `Object.entries` walks them in */
  const Fields: seq<Field> :=
    [Pregnancies, Glucose, BloodPressure, SkinThickness, Insulin, Bmi, DiabetesPedigreeFunction, Age]

  datatype FormData = FormData(
    pregnancies: string,
    glucose: string,
    bloodPressure: string,
    skinThickness: string,
    insulin: string,
    bmi: string,
    diabetesPedigreeFunction: string,
    age: string)

  /** The state the form starts in: every field empty */
  const EmptyForm: FormData := FormData("", "", "", "", "", "", "", "")

  /** `formData[field]` */
  function Get(d: FormData, f: Field): string {
    match f
    case Pregnancies => d.pregnancies
    case Glucose => d.glucose
    case BloodPressure => d.bloodPressure
    case SkinThickness => d.skinThickness
    case Insulin => d.insulin
    case Bmi => d.bmi
    case DiabetesPedigreeFunction => d.diabetesPedigreeFunction
    case Age => d.age
  }

  /** The key under which the field is stored, which is also the name an
      "Invalid Input" notice gives it */
  function Key(f: Field): string {
    match f
    case Pregnancies => "pregnancies"
    case Glucose => "glucose"
    case BloodPressure => "bloodPressure"
    case SkinThickness => "skinThickness"
    case Insulin => "insulin"
    case Bmi => "bmi"
    case DiabetesPedigreeFunction => "diabetesPedigreeFunction"
    case Age => "age"
  }

  /** Position of a field in declaration order */
  function Position(f: Field): (i: nat)
    ensures i < |Fields| && Fields[i] == f
  {
    match f
    case Pregnancies => 0
    case Glucose => 1
    case BloodPressure => 2
    case SkinThickness => 3
    case Insulin => 4
    case Bmi => 5
    case DiabetesPedigreeFunction => 6
    case Age => 7
  }

  /** `{ ...prev, [field]: value }`: the named field takes the new text and
      every other field keeps its old text */
  function Update(d: FormData, f: Field, value: string): (e: FormData)
    ensures Get(e, f) == value
    ensures forall g :: g != f ==> Get(e, g) == Get(d, g)
  {
    match f
    case Pregnancies => d.(pregnancies := value)
    case Glucose => d.(glucose := value)
    case BloodPressure => d.(bloodPressure := value)
    case SkinThickness => d.(skinThickness := value)
    case Insulin => d.(insulin := value)
    case Bmi => d.(bmi := value)
    case DiabetesPedigreeFunction => d.(diabetesPedigreeFunction := value)
    case Age => d.(age := value)
  }

  /** A form is determined by what `Get` reads from it */
  lemma Extensionality(d: FormData, e: FormData)
    requires forall f :: Get(d, f) == Get(e, f)
    ensures d == e
  {
    assert Get(d, Pregnancies) == Get(e, Pregnancies);
    assert Get(d, Glucose) == Get(e, Glucose);
    assert Get(d, BloodPressure) == Get(e, BloodPressure);
    assert Get(d, SkinThickness) == Get(e, SkinThickness);
    assert Get(d, Insulin) == Get(e, Insulin);
    assert Get(d, Bmi) == Get(e, Bmi);
    assert Get(d, DiabetesPedigreeFunction) == Get(e, DiabetesPedigreeFunction);
    assert Get(d, Age) == Get(e, Age);
  }

  /** Writing back the text a field already holds changes nothing, and a
      second write to the same field overrides the first */
  lemma UpdateLaws(d: FormData, f: Field, a: string, b: string)
    ensures Update(d, f, Get(d, f)) == d
    ensures Update(Update(d, f, a), f, b) == Update(d, f, b)
  {
  }

  /** Every field appears exactly once in the declaration order, and the
      keys name the fields apart */
  lemma FieldsEnumeration()
    ensures |Fields| == 8
    ensures forall f :: f in Fields
    ensures forall i, j :: 0 <= i < j < |Fields| ==> Fields[i] != Fields[j]
    ensures forall f, g :: f != g ==> Key(f) != Key(g)
  {
    forall f ensures f in Fields {
      assert Fields[Position(f)] == f;
    }
  }
}
