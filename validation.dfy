/**
 * Form validation: four independent rules over the trimmed field values, one
 * error slot per field, and the create button that mirrors the outcome.
 * Whether a string is a valid URL is decided by the browser's URL parser, so
 * every member that needs it takes it as the parameter `urlOk`.
 */
module Validation {
  import opened Wrappers
  import opened Text

  datatype Field = ImageUrl | FullName | HomeTown | Purpose

  const ImageUrlRequired := "Image URL is required"
  const InvalidUrl := "Please enter a valid URL"
  const FullNameRequired := "Full name is required"
  const NameTooShort := "Name must be at least 2 characters"
  const HomeTownRequired := "Home town is required"
  const PurposeRequired := "Purpose is required"

  /** The raw text of the four inputs. */
  datatype FormValues = FormValues(imageUrl: string, fullName: string, homeTown: string, purpose: string)
  {
    function Of(f: Field): string {
      match f
      case ImageUrl => imageUrl
      case FullName => fullName
      case HomeTown => homeTown
      case Purpose => purpose
    }
  }

  /** The message shown when a field is left blank. */
  function RequiredMessage(f: Field): string {
    match f
    case ImageUrl => ImageUrlRequired
    case FullName => FullNameRequired
    case HomeTown => HomeTownRequired
    case Purpose => PurposeRequired
  }

  /** The messages a field can show: its "required" message, and for the image URL and the name one more each. */
  function Messages(f: Field): set<string> {
    match f
    case ImageUrl => {ImageUrlRequired, InvalidUrl}
    case FullName => {FullNameRequired, NameTooShort}
    case HomeTown => {HomeTownRequired}
    case Purpose => {PurposeRequired}
  }

  /** The rule of one field: the message its slot shows for input `raw`, or None when it passes. */
  function FieldError(f: Field, raw: string, urlOk: string -> bool): (e: Option<string>)
    ensures e.Some? ==> e.value in Messages(f)
    ensures Trim(raw) == "" ==> e.Some?
  {
    var v := Trim(raw);
    if v == "" then Some(RequiredMessage(f))
    else match f
      case ImageUrl => if !urlOk(v) then Some(InvalidUrl) else None
      case FullName => if |v| < 2 then Some(NameTooShort) else None
      case HomeTown => None
      case Purpose => None
  }

  /** The value `validateForm` returns: no field has an error. */
  predicate FormValid(v: FormValues, urlOk: string -> bool)
    ensures FormValid(v, urlOk) <==> forall f :: FieldError(f, v.Of(f), urlOk) == None
  {
    FieldError(ImageUrl, v.Of(ImageUrl), urlOk) == None
    && FieldError(FullName, v.Of(FullName), urlOk) == None
    && FieldError(HomeTown, v.Of(HomeTown), urlOk) == None
    && FieldError(Purpose, v.Of(Purpose), urlOk) == None
  }

  /** The form is valid exactly when the four rules hold of the trimmed values. */
  lemma FormValidIff(v: FormValues, urlOk: string -> bool)
    ensures FormValid(v, urlOk) <==>
      Trim(v.imageUrl) != "" && urlOk(Trim(v.imageUrl))
      && |Trim(v.fullName)| >= 2
      && Trim(v.homeTown) != ""
      && Trim(v.purpose) != ""
  {
  }

  /**
   * Which message a field gets: "required" exactly when the trimmed value is
   * empty; otherwise the URL message for a URL the parser rejects, the length
   * message for a one-character name, and nothing for a home town or purpose.
   */
  lemma MessageChoice(f: Field, raw: string, urlOk: string -> bool)
    ensures FieldError(f, raw, urlOk) == Some(RequiredMessage(f)) <==> Trim(raw) == ""
    ensures f == ImageUrl && Trim(raw) != "" ==>
      (FieldError(f, raw, urlOk) == Some(InvalidUrl) <==> !urlOk(Trim(raw)))
    ensures f == FullName && Trim(raw) != "" ==>
      (FieldError(f, raw, urlOk) == Some(NameTooShort) <==> |Trim(raw)| < 2)
    ensures (f == HomeTown || f == Purpose) && Trim(raw) != "" ==> FieldError(f, raw, urlOk) == None
  {
  }

  /** A field's verdict does not change when its value is trimmed first. */
  lemma FieldErrorOfTrimmed(f: Field, raw: string, urlOk: string -> bool)
    ensures FieldError(f, Trim(raw), urlOk) == FieldError(f, raw, urlOk)
  {
    TrimIdempotent(raw);
  }

  /** One text input of the form, with the error element that may follow it. */
  class Input {
    var value: string
    /** The `.error-message` element beside the input, if there is one: at most one by construction. */
    var error: Option<string>
    /** The border is drawn in the error colour (#ef4444) rather than the neutral one (#e0e0e0). */
    var highlighted: bool

    constructor ()
      ensures value == "" && error == None && !highlighted
    {
      value := "";
      error := None;
      highlighted := false;
    }

    /** Marks the input and replaces any earlier message with `message`. */
    method ShowError(message: string)
      modifies this
      ensures value == old(value)
      ensures error == Some(message) && highlighted
    {
      highlighted := true;
      error := Some(message);
    }

    /** Clears the mark and removes the message, if any. */
    method RemoveError()
      modifies this
      ensures value == old(value)
      ensures error == None && !highlighted
    {
      highlighted := false;
      error := None;
    }
  }

  class Form {
    const imageUrl: Input
    const fullName: Input
    const homeTown: Input
    const purpose: Input
    /** `createBtn.disabled`. */
    var createDisabled: bool

    ghost predicate Valid()
    {
      imageUrl != fullName && imageUrl != homeTown && imageUrl != purpose
      && fullName != homeTown && fullName != purpose && homeTown != purpose
    }

    function Values(): FormValues
      reads imageUrl, fullName, homeTown, purpose
    {
      FormValues(imageUrl.value, fullName.value, homeTown.value, purpose.value)
    }

    /** Every input shows the message its rule gives, and is highlighted exactly when it has one. */
    ghost predicate Displays(urlOk: string -> bool)
      reads imageUrl, fullName, homeTown, purpose
    {
      imageUrl.error == FieldError(ImageUrl, imageUrl.value, urlOk)
      && fullName.error == FieldError(FullName, fullName.value, urlOk)
      && homeTown.error == FieldError(HomeTown, homeTown.value, urlOk)
      && purpose.error == FieldError(Purpose, purpose.value, urlOk)
      && imageUrl.highlighted == imageUrl.error.Some?
      && fullName.highlighted == fullName.error.Some?
      && homeTown.highlighted == homeTown.error.Some?
      && purpose.highlighted == purpose.error.Some?
    }

    /** The error slot and the border mark of each input, in form order. */
    ghost function Marks(): seq<(Option<string>, bool)>
      reads imageUrl, fullName, homeTown, purpose
    {
      [(imageUrl.error, imageUrl.highlighted), (fullName.error, fullName.highlighted),
       (homeTown.error, homeTown.highlighted), (purpose.error, purpose.highlighted)]
    }

    /** The page starts with empty inputs and the create button disabled. */
    constructor ()
      ensures Valid() && createDisabled
      ensures Values() == FormValues("", "", "", "")
      ensures Marks() == [(None, false), (None, false), (None, false), (None, false)]
      ensures fresh(imageUrl) && fresh(fullName) && fresh(homeTown) && fresh(purpose)
    {
      imageUrl := new Input();
      fullName := new Input();
      homeTown := new Input();
      purpose := new Input();
      createDisabled := true;
    }

    /**
     * Runs all four rules (a failing field does not stop the others), updates
     * every error slot, and enables the create button exactly when all pass.
     */
    method ValidateForm(urlOk: string -> bool) returns (isValid: bool)
      requires Valid()
      modifies this`createDisabled, imageUrl, fullName, homeTown, purpose
      ensures Values() == old(Values())
      ensures isValid == FormValid(Values(), urlOk)
      ensures Displays(urlOk)
      ensures isValid ==> Marks() == [(None, false), (None, false), (None, false), (None, false)]
      ensures createDisabled == !isValid
    {
      isValid := true;
      if Trim(imageUrl.value) == "" {
        imageUrl.ShowError(ImageUrlRequired);
        isValid := false;
      } else if !urlOk(Trim(imageUrl.value)) {
        imageUrl.ShowError(InvalidUrl);
        isValid := false;
      } else {
        imageUrl.RemoveError();
      }

      if Trim(fullName.value) == "" {
        fullName.ShowError(FullNameRequired);
        isValid := false;
      } else if |Trim(fullName.value)| < 2 {
        fullName.ShowError(NameTooShort);
        isValid := false;
      } else {
        fullName.RemoveError();
      }

      if Trim(homeTown.value) == "" {
        homeTown.ShowError(HomeTownRequired);
        isValid := false;
      } else {
        homeTown.RemoveError();
      }

      if Trim(purpose.value) == "" {
        purpose.ShowError(PurposeRequired);
        isValid := false;
      } else {
        purpose.RemoveError();
      }

      createDisabled := !isValid;
    }

    /**
     * `callForm.reset()`: the inputs return to their empty defaults; error
     * messages, border marks and the create button are left as they are.
     */
    method Reset()
      requires Valid()
      modifies imageUrl, fullName, homeTown, purpose
      ensures Values() == FormValues("", "", "", "")
      ensures Marks() == old(Marks())
    {
      imageUrl.value := "";
      fullName.value := "";
      homeTown.value := "";
      purpose.value := "";
    }
  }
}
