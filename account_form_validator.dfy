/** `validateAccountForm`: the field checks of the account dialog, as a map
    from field name to the message shown under that field. */
module AccountFormValidator {
  import opened Wrappers
  import opened Text

  /** The form values as the validator's own interface types them: type and
      classification are plain strings. */
  datatype AccountFormValues = AccountFormValues(
    code: string, name: string, accountType: string, classification: string,
    description: string, isActive: bool, initialBalance: int)

  const CodeRequired := "Account code is required"
  const CodeNotNumeric := "Account code must contain only numbers"
  const NameRequired := "Account name is required"
  const TypeRequired := "Account type is required"
  const ClassificationRequired := "Account classification is required"
  const BalanceNegative := "Initial balance cannot be negative"

  /** The keys an error map can have: the checked fields of the form. */
  datatype Field = Code | Name | AccountTypeField | ClassificationField | InitialBalance

  /** The key under which each message is stored. */
  function FieldKey(f: Field): string
  {
    match f
    case Code => "code"
    case Name => "name"
    case AccountTypeField => "type"
    case ClassificationField => "classification"
    case InitialBalance => "initialBalance"
  }

  /** Every check passes: the code is non-blank and all digits (tested on
      the untrimmed text), the name is non-blank, type and classification are
      non-empty, and a new account's opening balance is not negative. */
  predicate AllChecksPass(v: AccountFormValues, isEditing: bool)
  {
    !IsBlank(v.code) && IsDigits(v.code) && !IsBlank(v.name)
    && v.accountType != "" && v.classification != ""
    && (isEditing || v.initialBalance >= 0)
  }

  function CodeError(code: string): Option<string>
  {
    if Trim(code) == [] then Some(CodeRequired)
    else if !IsDigits(code) then Some(CodeNotNumeric)
    else None
  }

  function NameError(name: string): Option<string>
  {
    if Trim(name) == [] then Some(NameRequired) else None
  }

  function TypeError(accountType: string): Option<string>
  {
    if accountType == "" then Some(TypeRequired) else None
  }

  function ClassificationError(classification: string): Option<string>
  {
    if classification == "" then Some(ClassificationRequired) else None
  }

  function BalanceError(initialBalance: int, isEditing: bool): Option<string>
  {
    if !isEditing && initialBalance < 0 then Some(BalanceNegative) else None
  }

  /** The message `validateAccountForm` assigns to field `f`, if any. */
  function FieldError(v: AccountFormValues, isEditing: bool, f: Field): Option<string>
  {
    match f
    case Code => CodeError(v.code)
    case Name => NameError(v.name)
    case AccountTypeField => TypeError(v.accountType)
    case ClassificationField => ClassificationError(v.classification)
    case InitialBalance => BalanceError(v.initialBalance, isEditing)
  }

  /** Each check assigns only its own field, at most once, so the resulting
      record holds exactly the fields whose check produced a message. */
  function ValidateAccountForm(v: AccountFormValues, isEditing: bool): map<Field, string>
  {
    map f: Field | FieldError(v, isEditing, f).Some? :: FieldError(v, isEditing, f).value
  }

  /** Each field is reported exactly when its own check fails. */
  lemma ErrorKeys(v: AccountFormValues, isEditing: bool)
    ensures var errors := ValidateAccountForm(v, isEditing);
      && (Code in errors <==> IsBlank(v.code) || !IsDigits(v.code))
      && (Name in errors <==> IsBlank(v.name))
      && (AccountTypeField in errors <==> v.accountType == "")
      && (ClassificationField in errors <==> v.classification == "")
      && (InitialBalance in errors <==> !isEditing && v.initialBalance < 0)
  {
  }

  /** The error map is empty exactly when every check passes. */
  lemma NoErrorsIffAllChecksPass(v: AccountFormValues, isEditing: bool)
    ensures |ValidateAccountForm(v, isEditing)| == 0 <==> AllChecksPass(v, isEditing)
  {
    var errors := ValidateAccountForm(v, isEditing);
    if AllChecksPass(v, isEditing) {
      forall f: Field ensures f !in errors {
        assert FieldError(v, isEditing, f).None?;
      }
      assert errors.Keys == {};
    } else {
      var f :=
        if IsBlank(v.code) || !IsDigits(v.code) then Code
        else if IsBlank(v.name) then Name
        else if v.accountType == "" then AccountTypeField
        else if v.classification == "" then ClassificationField
        else InitialBalance;
      assert FieldError(v, isEditing, f).Some?;
      assert f in errors.Keys;
    }
  }

  /** The code carries exactly one message: 'required' for a blank code, the
      digits message for any other code that is not all digits. */
  lemma CodeMessage(v: AccountFormValues, isEditing: bool)
    ensures var errors := ValidateAccountForm(v, isEditing);
      && (IsBlank(v.code) ==> errors[Code] == CodeRequired)
      && (!IsBlank(v.code) && !IsDigits(v.code) ==> errors[Code] == CodeNotNumeric)
  {
  }

  /** The other messages are fixed per field. */
  lemma FieldMessages(v: AccountFormValues, isEditing: bool)
    ensures var errors := ValidateAccountForm(v, isEditing);
      && (Name in errors ==> errors[Name] == NameRequired)
      && (AccountTypeField in errors ==> errors[AccountTypeField] == TypeRequired)
      && (ClassificationField in errors ==> errors[ClassificationField] == ClassificationRequired)
      && (InitialBalance in errors ==> errors[InitialBalance] == BalanceNegative)
  {
  }

  /** Editing never reports the opening balance. */
  lemma EditingIgnoresBalance(v: AccountFormValues)
    ensures InitialBalance !in ValidateAccountForm(v, true)
  {
  }

  /** Whitespace anywhere in a non-blank code, surrounding spaces included,
      makes it fail the digits test, because that test sees the untrimmed text. */
  lemma PaddedCodeIsNotNumeric(v: AccountFormValues, isEditing: bool)
    requires !IsBlank(v.code)
    requires exists i :: 0 <= i < |v.code| && IsWhitespace(v.code[i])
    ensures Code in ValidateAccountForm(v, isEditing)
    ensures ValidateAccountForm(v, isEditing)[Code] == CodeNotNumeric
  {
    var i :| 0 <= i < |v.code| && IsWhitespace(v.code[i]);
  }

  /** The example of a padded numeric code. */
  lemma PaddedCodeExample(v: AccountFormValues, isEditing: bool)
    requires v.code == " 1000 "
    ensures ValidateAccountForm(v, isEditing)[Code] == CodeNotNumeric
  {
    assert v.code[1] == '1';
    assert !IsBlank(v.code);
    assert IsWhitespace(v.code[0]);
    PaddedCodeIsNotNumeric(v, isEditing);
  }
}
