/** The step-1 company form: its five fields, the validation rule each field
    follows, and the hook-held state (`formData`, `formErrors`,
    `formTouched`) that the field handlers and the validator update.

    The root component and the stand-alone form-entry component carry the
    same validator and the same field-change handler line for line; both are
    modelled once here, by the class `FormState`.

    The string tests follow JavaScript: `trim()` strips the ECMAScript white
    space and line terminator code points, `.length` counts UTF-16 code units,
    and `/^\d+$/` accepts a non-empty run of ASCII digits and nothing else. */
module CompanyForm {
  import opened Wrappers

  datatype Field = CompanyName | CompanyType | ActivityType | CommercialRegister | Capital

  const AllFields: set<Field> := {CompanyName, CompanyType, ActivityType, CommercialRegister, Capital}

  /** The kinds of message a field can show (the texts themselves are fixed
      localized strings, one per field and kind). */
  datatype FieldError = Required | TooShort | DigitsOnly

  /** The `FormErrors` record: each field's error, if it has one. */
  datatype FormErrors = FormErrors(
    companyName: Option<FieldError>,
    companyType: Option<FieldError>,
    activityType: Option<FieldError>,
    commercialRegister: Option<FieldError>,
    capital: Option<FieldError>)

  const NoErrors: FormErrors := FormErrors(None, None, None, None, None)

  /** The form's data. The two selects start unset (`undefined`). */
  datatype FormData = FormData(
    companyName: string,
    companyType: Option<string>,
    activityType: Option<string>,
    commercialRegister: string,
    capital: string)

  const EmptyForm: FormData := FormData("", None, None, "", "")

  /** The minimum length of a company name, in UTF-16 code units. */
  const MinNameLength: nat := 3

  // ---------------------------------------------------------------------------
  // JavaScript string primitives.
  // ---------------------------------------------------------------------------

  /** The code points `String.prototype.trim` strips: ECMAScript WhiteSpace
      (tab, vertical tab, form feed, no-break space, zero-width no-break space
      and every space separator) and LineTerminator. */
  predicate IsJsWhitespace(c: char) {
    var n := c as int;
    n == 0x09 || n == 0x0A || n == 0x0B || n == 0x0C || n == 0x0D || n == 0x20 ||
    n == 0xA0 || n == 0x1680 || (0x2000 <= n <= 0x200A) || n == 0x2028 || n == 0x2029 ||
    n == 0x202F || n == 0x205F || n == 0x3000 || n == 0xFEFF
  }

  /** How many white-space characters open `s`. */
  function LeadingWhitespace(s: string): (k: nat)
    ensures k <= |s|
    ensures forall i :: 0 <= i < k ==> IsJsWhitespace(s[i])
    ensures k < |s| ==> !IsJsWhitespace(s[k])
    decreases |s|
  {
    if s != [] && IsJsWhitespace(s[0]) then 1 + LeadingWhitespace(s[1..]) else 0
  }

  /** How many white-space characters close `s`. */
  function TrailingWhitespace(s: string): (k: nat)
    ensures k <= |s|
    ensures forall i :: |s| - k <= i < |s| ==> IsJsWhitespace(s[i])
    ensures k < |s| ==> !IsJsWhitespace(s[|s| - 1 - k])
    decreases |s|
  {
    if s != [] && IsJsWhitespace(s[|s| - 1]) then 1 + TrailingWhitespace(s[..|s| - 1]) else 0
  }

  /** `s.trim()`: `s` without its leading and trailing white space. The
      result is the slice of `s` that starts after the leading white space and
      is followed only by white space, and it neither starts nor ends with
      white space. */
  function Trim(s: string): (r: string)
    ensures var a := LeadingWhitespace(s);
      a + |r| <= |s| && r == s[a..a + |r|] &&
      forall i :: a + |r| <= i < |s| ==> IsJsWhitespace(s[i])
    ensures r != [] ==> !IsJsWhitespace(r[0]) && !IsJsWhitespace(r[|r| - 1])
  {
    var a := LeadingWhitespace(s);
    var rest := s[a..];
    var r := rest[..|rest| - TrailingWhitespace(rest)];
    assert r == s[a..a + |r|];
    assert forall i :: a + |r| <= i < |s| ==> IsJsWhitespace(s[i]) by {
      forall i | a + |r| <= i < |s|
        ensures IsJsWhitespace(s[i])
      {
        assert s[i] == rest[i - a];
      }
    }
    r
  }

  /** `!s.trim()`: the trimmed string is empty, hence falsy. */
  predicate IsBlank(s: string) {
    Trim(s) == []
  }

  /** A string is blank exactly when every character of it is white space. */
  lemma BlankIffAllWhitespace(s: string)
    ensures IsBlank(s) <==> forall i :: 0 <= i < |s| ==> IsJsWhitespace(s[i])
  {
    var rest := s[LeadingWhitespace(s)..];
    if IsBlank(s) {
      assert |rest| == TrailingWhitespace(rest);
    }
  }

  /** `s.length`: the number of UTF-16 code units, two for a code point
      outside the Basic Multilingual Plane. */
  function Utf16Length(s: string): (n: nat)
    ensures |s| <= n <= 2 * |s|
    decreases |s|
  {
    if s == [] then 0
    else (if s[0] as int > 0xFFFF then 2 else 1) + Utf16Length(s[1..])
  }

  /** On text within the Basic Multilingual Plane `.length` is the number of
      characters. */
  lemma {:induction false} Utf16LengthOfBmp(s: string)
    requires forall i :: 0 <= i < |s| ==> s[i] as int <= 0xFFFF
    ensures Utf16Length(s) == |s|
    decreases |s|
  {
    if s != [] {
      Utf16LengthOfBmp(s[1..]);
    }
  }

  /** `.length` of a single character: two code units above U+FFFF, one
      otherwise. */
  lemma Utf16LengthOfChar(c: char)
    ensures Utf16Length([c]) == if c as int > 0xFFFF then 2 else 1
  {
    assert [c][1..] == [];
  }

  /** `.length` is additive over concatenation; with `Utf16LengthOfChar` this
      fixes the length of every string, one character at a time. */
  lemma {:induction false} Utf16LengthAppend(a: string, b: string)
    ensures Utf16Length(a + b) == Utf16Length(a) + Utf16Length(b)
    decreases |a|
  {
    if a != [] {
      assert (a + b)[1..] == a[1..] + b;
      Utf16LengthAppend(a[1..], b);
    } else {
      assert a + b == b;
    }
  }

  /** `/^\d+$/.test(s)`: one or more ASCII digits and nothing else. */
  predicate IsAsciiDigits(s: string) {
    |s| > 0 && forall i :: 0 <= i < |s| ==> '0' <= s[i] <= '9'
  }

  /** A truthy `string | undefined`: set and not empty. */
  predicate IsSet(v: Option<string>) {
    v.Some? && v.value != ""
  }

  // ---------------------------------------------------------------------------
  // The validation rules.
  // ---------------------------------------------------------------------------

  /** The rule of a required numeric field: "required" when blank after
      trimming, otherwise "digits only" unless the untrimmed value is all
      ASCII digits. */
  function NumericFieldError(s: string): Option<FieldError> {
    if IsBlank(s) then Some(Required)
    else if !IsAsciiDigits(s) then Some(DigitsOnly)
    else None
  }

  /** The company name's rule: "required" when blank after trimming,
      otherwise "too short" when the untrimmed value is under three UTF-16
      code units. */
  function CompanyNameError(s: string): Option<FieldError> {
    if IsBlank(s) then Some(Required)
    else if Utf16Length(s) < MinNameLength then Some(TooShort)
    else None
  }

  /** A select's rule: "required" unless a non-empty value is chosen. */
  function SelectError(v: Option<string>): Option<FieldError> {
    if !IsSet(v) then Some(Required) else None
  }

  /** The error `validateForm` records for one field, if any. */
  function FieldErrorOf(d: FormData, f: Field): Option<FieldError> {
    match f
    case CompanyName => CompanyNameError(d.companyName)
    case CompanyType => SelectError(d.companyType)
    case ActivityType => SelectError(d.activityType)
    case CommercialRegister => NumericFieldError(d.commercialRegister)
    case Capital => NumericFieldError(d.capital)
  }

  /** `errors[field]`. */
  function ErrorAt(e: FormErrors, f: Field): Option<FieldError> {
    match f
    case CompanyName => e.companyName
    case CompanyType => e.companyType
    case ActivityType => e.activityType
    case CommercialRegister => e.commercialRegister
    case Capital => e.capital
  }

  /** `Object.keys(errors).length`: how many fields carry an error. */
  function ErrorCount(e: FormErrors): (n: nat)
    ensures n == 0 <==> forall f :: ErrorAt(e, f).None?
  {
    assert ErrorAt(e, CompanyName) == e.companyName && ErrorAt(e, CompanyType) == e.companyType;
    assert ErrorAt(e, ActivityType) == e.activityType && ErrorAt(e, Capital) == e.capital;
    assert ErrorAt(e, CommercialRegister) == e.commercialRegister;
    (if e.companyName.Some? then 1 else 0) + (if e.companyType.Some? then 1 else 0) +
    (if e.activityType.Some? then 1 else 0) + (if e.commercialRegister.Some? then 1 else 0) +
    (if e.capital.Some? then 1 else 0)
  }

  /** The error record `validateForm` builds: each field carries exactly the
      error its rule gives. */
  function Errors(d: FormData): (e: FormErrors)
    ensures forall f :: ErrorAt(e, f) == FieldErrorOf(d, f)
  {
    FormErrors(
      CompanyNameError(d.companyName), SelectError(d.companyType), SelectError(d.activityType),
      NumericFieldError(d.commercialRegister), NumericFieldError(d.capital))
  }

  /** `{ ...prev, [field]: undefined }`: the field's error is cleared, every
      other field keeps its own. */
  function ClearError(e: FormErrors, f: Field): (r: FormErrors)
    ensures ErrorAt(r, f).None?
    ensures forall g :: g != f ==> ErrorAt(r, g) == ErrorAt(e, g)
  {
    match f
    case CompanyName => e.(companyName := None)
    case CompanyType => e.(companyType := None)
    case ActivityType => e.(activityType := None)
    case CommercialRegister => e.(commercialRegister := None)
    case Capital => e.(capital := None)
  }

  /** A run of digits is never blank. */
  lemma DigitsAreNotBlank(s: string)
    requires IsAsciiDigits(s)
    ensures !IsBlank(s)
  {
    BlankIffAllWhitespace(s);
    assert !IsJsWhitespace(s[0]);
  }

  /** The rule of a numeric field: accepted exactly when the untrimmed value
      is a non-empty run of ASCII digits, "required" exactly when every
      character is white space, and never "too short". */
  lemma NumericFieldRule(s: string)
    ensures NumericFieldError(s).None? <==> IsAsciiDigits(s)
    ensures NumericFieldError(s) == Some(Required) <==> forall i :: 0 <= i < |s| ==> IsJsWhitespace(s[i])
    ensures NumericFieldError(s) != Some(TooShort)
  {
    BlankIffAllWhitespace(s);
    if IsAsciiDigits(s) {
      DigitsAreNotBlank(s);
    }
  }

  /** Digits followed by a space are neither blank nor accepted. */
  lemma TrailingSpaceIsRejected()
    ensures NumericFieldError("12 ") == Some(DigitsOnly)
  {
    BlankIffAllWhitespace("12 ");
    assert !IsJsWhitespace("12 "[0]);
  }

  /** The company name's rule: "required" exactly when every character is
      white space, "too short" exactly when it is not blank but under three
      UTF-16 code units, never "digits only". For a name within the Basic
      Multilingual Plane the length rule counts characters: such a name is
      accepted exactly when it is not blank and has at least three
      characters. */
  lemma CompanyNameRule(s: string)
    ensures CompanyNameError(s) == Some(Required) <==> forall i :: 0 <= i < |s| ==> IsJsWhitespace(s[i])
    ensures CompanyNameError(s) == Some(TooShort) <==> !IsBlank(s) && Utf16Length(s) < MinNameLength
    ensures CompanyNameError(s) != Some(DigitsOnly)
    ensures (forall i :: 0 <= i < |s| ==> s[i] as int <= 0xFFFF) ==>
      (CompanyNameError(s).None? <==> !IsBlank(s) && |s| >= MinNameLength)
  {
    BlankIffAllWhitespace(s);
    if forall i :: 0 <= i < |s| ==> s[i] as int <= 0xFFFF {
      Utf16LengthOfBmp(s);
    }
  }

  /** Outside the Basic Multilingual Plane the length rule counts UTF-16 code
      units, so one astral character and one letter already make a company
      name long enough. */
  lemma AstralCharactersCountTwice()
    ensures CompanyNameError("\U{1F3ED}a").None?
  {
    var t := "\U{1F3ED}a";
    assert Utf16Length(t) == 3 by {
      assert t[1..] == "a";
      assert t[1..][1..] == [];
    }
    BlankIffAllWhitespace(t);
    assert !IsJsWhitespace(t[1]);
  }

  /** A select fails exactly when unset or set to the empty string, and then
      always with "required". */
  lemma SelectRule(v: Option<string>)
    ensures SelectError(v).Some? <==> v == None || v == Some("")
    ensures SelectError(v).Some? ==> SelectError(v).value == Required
  {
  }

  /** The regular expression `^\d+$`, whose `\d` is `[0-9]`: the empty string,
      signs, decimal points and the Arabic-Indic digits are all rejected. */
  lemma DigitsPatternExamples()
    ensures IsAsciiDigits("0042")
    ensures !IsAsciiDigits("")
    ensures !IsAsciiDigits("-3") && !IsAsciiDigits("1.5")
    ensures !IsAsciiDigits("\U{0661}\U{0662}")
  {
    assert "-3"[0] == '-';
    assert "1.5"[1] == '.';
    assert "\U{0661}\U{0662}"[0] == '\U{0661}';
  }

  /** What `trim` strips and what it keeps: the no-break space, the
      ideographic space and the byte-order mark are white space; the
      zero-width space and the next-line control character are not. */
  lemma TrimWhitespaceExamples()
    ensures IsBlank("\U{00A0}\U{3000}\U{FEFF}")
    ensures !IsBlank("\U{200B}") && !IsBlank("\U{0085}")
  {
    BlankIffAllWhitespace("\U{00A0}\U{3000}\U{FEFF}");
    BlankIffAllWhitespace("\U{200B}");
    BlankIffAllWhitespace("\U{0085}");
    assert "\U{200B}"[0] == '\U{200B}';
    assert "\U{0085}"[0] == '\U{0085}';
  }

  /** The form is valid (`validateForm` returns true) exactly when every field
      passes its rule, stated field by field. */
  lemma NoErrorsIff(d: FormData)
    ensures ErrorCount(Errors(d)) == 0 <==>
      !IsBlank(d.companyName) && Utf16Length(d.companyName) >= MinNameLength &&
      IsSet(d.companyType) && IsSet(d.activityType) &&
      IsAsciiDigits(d.commercialRegister) && IsAsciiDigits(d.capital)
  {
    NumericFieldRule(d.commercialRegister);
    NumericFieldRule(d.capital);
    assert ErrorAt(Errors(d), CompanyName) == FieldErrorOf(d, CompanyName);
    assert ErrorAt(Errors(d), CommercialRegister) == FieldErrorOf(d, CommercialRegister);
    assert ErrorAt(Errors(d), Capital) == FieldErrorOf(d, Capital);
  }

  /** The untouched initial form has an error on every field. */
  lemma EmptyFormIsInvalid()
    ensures forall f :: ErrorAt(Errors(EmptyForm), f) == Some(Required)
  {
    assert IsBlank("");
  }

  // ---------------------------------------------------------------------------
  // Keyed updates of the form data.
  // ---------------------------------------------------------------------------

  /** The value a field currently holds: text fields always hold a string,
      the selects hold one once chosen. */
  function Get(d: FormData, f: Field): Option<string> {
    match f
    case CompanyName => Some(d.companyName)
    case CompanyType => d.companyType
    case ActivityType => d.activityType
    case CommercialRegister => Some(d.commercialRegister)
    case Capital => Some(d.capital)
  }

  /** `{ ...prev, [field]: value }`: the named field takes the value, every
      other field keeps its own. */
  function With(d: FormData, f: Field, v: string): (r: FormData)
    ensures Get(r, f) == Some(v)
    ensures forall g :: g != f ==> Get(r, g) == Get(d, g)
  {
    match f
    case CompanyName => d.(companyName := v)
    case CompanyType => d.(companyType := Some(v))
    case ActivityType => d.(activityType := Some(v))
    case CommercialRegister => d.(commercialRegister := v)
    case Capital => d.(capital := v)
  }

  /** Changing one field changes no other field's verdict. */
  lemma ChangeKeepsOtherVerdicts(d: FormData, f: Field, v: string, g: Field)
    requires g != f
    ensures FieldErrorOf(With(d, f, v), g) == FieldErrorOf(d, g)
  {
  }

  // ---------------------------------------------------------------------------
  // The hook-held form state.
  // ---------------------------------------------------------------------------

  /** The form's React state: its data, the last computed error record, and
      the set of fields the user has touched. */
  class FormState {
    var data: FormData
    var errors: FormErrors
    var touched: set<Field>

    /** Empty text fields, unset selects, no errors, nothing touched. */
    constructor ()
      ensures data == EmptyForm && errors == NoErrors && touched == {}
    {
      data := EmptyForm;
      errors := NoErrors;
      touched := {};
    }

    /** The error a field's input shows: its recorded error once the field is
        touched, nothing before. */
    function DisplayedError(f: Field): (r: Option<FieldError>)
      reads this
      ensures f !in touched ==> r.None?
      ensures f in touched ==> r == ErrorAt(errors, f)
    {
      if f in touched then ErrorAt(errors, f) else None
    }

    /** `validateForm`: build the error record field by field, store it, and
        report whether it is empty. */
    method ValidateForm() returns (valid: bool)
      modifies this`errors
      ensures errors == Errors(data)
      ensures valid <==> ErrorCount(errors) == 0
    {
      var d := data;
      var errs := NoErrors;
      if IsBlank(d.companyName) {
        errs := errs.(companyName := Some(Required));
      } else if Utf16Length(d.companyName) < MinNameLength {
        errs := errs.(companyName := Some(TooShort));
      }
      if !IsSet(d.companyType) {
        errs := errs.(companyType := Some(Required));
      }
      if !IsSet(d.activityType) {
        errs := errs.(activityType := Some(Required));
      }
      if IsBlank(d.commercialRegister) {
        errs := errs.(commercialRegister := Some(Required));
      } else if !IsAsciiDigits(d.commercialRegister) {
        errs := errs.(commercialRegister := Some(DigitsOnly));
      }
      if IsBlank(d.capital) {
        errs := errs.(capital := Some(Required));
      } else if !IsAsciiDigits(d.capital) {
        errs := errs.(capital := Some(DigitsOnly));
      }
      assert errs == Errors(d);
      errors := errs;
      valid := ErrorCount(errs) == 0;
    }

    /** What `handleNext` does to the form on step 1: mark all five fields
        touched, then validate. Every field then shows exactly the error the
        rules give it. */
    method TouchAllAndValidate() returns (valid: bool)
      modifies this`touched, this`errors
      ensures touched == AllFields && errors == Errors(data)
      ensures valid <==> ErrorCount(Errors(data)) == 0
      ensures forall f :: DisplayedError(f) == ErrorAt(errors, f)
    {
      touched := AllFields;
      valid := ValidateForm();
      AllTouchedShowsErrors(this);
    }

    /** `handleFieldChange`: store the value, mark the field touched, and clear
        that field's error if it had one; no other field's data, touched flag
        or error changes. */
    method HandleFieldChange(f: Field, v: string)
      modifies this`data, this`touched, this`errors
      ensures data == With(old(data), f, v)
      ensures touched == old(touched) + {f}
      ensures errors == ClearError(old(errors), f)
      ensures DisplayedError(f) == None
    {
      data := With(data, f, v);
      touched := touched + {f};
      if ErrorAt(errors, f).Some? {
        errors := ClearError(errors, f);
      }
    }
  }

  /** Once every field is touched, each input shows the error recorded for
      it. */
  lemma AllTouchedShowsErrors(fs: FormState)
    requires fs.touched == AllFields
    ensures forall f :: fs.DisplayedError(f) == ErrorAt(fs.errors, f)
  {
  }

  /** The stand-alone step-1 component: the form state and a read-only
      switch that disables every input, initially off. */
  class FormEntry {
    const form: FormState
    var isReadonly: bool

    constructor ()
      ensures fresh(form)
      ensures form.data == EmptyForm && form.errors == NoErrors && form.touched == {}
      ensures !isReadonly
    {
      form := new FormState();
      isReadonly := false;
    }
  }
}
