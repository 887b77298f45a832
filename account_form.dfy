/** The account dialog: its initial values, its own copy of the field checks,
    the classification reset that follows a type change, and the submit
    handler that creates or updates the account. */
module AccountForm {
  import opened Wrappers
  import opened Text
  import opened Accounting
  import opened Database
  import opened AccountsService
  import opened AccountFormValidator
  import UseForm

  /** The dialog's values. Type and classification come from select lists,
      so they are always among the declared ones. */
  datatype FormValues = FormValues(
    code: string, name: string, accountType: AccountType, classification: Classification,
    description: string, isActive: bool, initialBalance: int)

  /** The text inputs wired to the form's `handleChange`. */
  datatype TextInput = CodeInput | NameInput | DescriptionInput

  /** The field under which a text input's error is stored, if it has one. */
  function InputField(i: TextInput): Option<Field>
  {
    match i
    case CodeInput => Some(Code)
    case NameInput => Some(Name)
    case DescriptionInput => None
  }

  /** Editing starts from the account (opening balance 0, not editable);
      creating starts blank as an active asset account. */
  function InitialValues(account: Option<Account>): FormValues
  {
    match account
    case Some(a) =>
      FormValues(a.code, a.name, a.accountType, a.classification, a.description, a.isActive, 0)
    case None =>
      FormValues("", "", Asset, CurrentAsset, "", true, 0)
  }

  lemma InitialValuesDefaults(account: Option<Account>)
    ensures var v := InitialValues(account);
      && v.initialBalance == 0
      && (account.None? ==>
            && v.code == "" && v.name == "" && v.description == ""
            && v.accountType == Asset && v.classification == CurrentAsset && v.isActive
            && v.classification in ClassificationsOf(v.accountType))
      && (account.Some? ==>
            && v.code == account.value.code && v.name == account.value.name
            && v.accountType == account.value.accountType
            && v.classification == account.value.classification
            && v.description == account.value.description && v.isActive == account.value.isActive)
  {
  }

  /** The values as the shared validator sees them. */
  function AsValidatorValues(v: FormValues): AccountFormValues
  {
    AccountFormValues(v.code, v.name, TypeName(v.accountType), ClassificationName(v.classification),
                      v.description, v.isActive, v.initialBalance)
  }

  /** The dialog's own `validateForm`; an opening balance is checked only
      when no account is being edited. */
  function ValidateForm(v: FormValues, account: Option<Account>): map<Field, string>
  {
    map f: Field | FormFieldError(v, account, f).Some? :: FormFieldError(v, account, f).value
  }

  function FormFieldError(v: FormValues, account: Option<Account>, f: Field): Option<string>
  {
    match f
    case Code => CodeError(v.code)
    case Name => NameError(v.name)
    case AccountTypeField => TypeError(TypeName(v.accountType))
    case ClassificationField => ClassificationError(ClassificationName(v.classification))
    case InitialBalance => BalanceError(v.initialBalance, account.Some?)
  }

  /** The dialog's checks give the same map as `validateAccountForm` with
      "editing" meaning "an account was passed in"; type and classification
      are never reported, since a selected value always has a name. */
  lemma ValidateFormAgrees(v: FormValues, account: Option<Account>)
    ensures ValidateForm(v, account) == ValidateAccountForm(AsValidatorValues(v), account.Some?)
    ensures AccountTypeField !in ValidateForm(v, account)
    ensures ClassificationField !in ValidateForm(v, account)
  {
    TypeNameRoundTrip(v.accountType);
    ClassificationNameRoundTrip(v.classification);
    forall f: Field ensures FormFieldError(v, account, f) == FieldError(AsValidatorValues(v), account.Some?, f) {
    }
  }

  /** The update payload of the submit handler: every field of the dialog
      except the balance. */
  function UpdatePayloadOf(v: FormValues): UpdateAccountPayload
  {
    UpdateAccountPayload(Some(v.code), Some(v.name), Some(v.accountType), Some(v.classification),
                         Some(v.description), None, Some(v.isActive))
  }

  /** The create payload of the submit handler, carrying the opening balance. */
  function CreatePayloadOf(v: FormValues): CreateAccountPayload
  {
    CreateAccountPayload(v.code, v.name, v.accountType, v.classification, Some(v.description),
                         v.isActive, Some(v.initialBalance))
  }

  /** Saving an edited account never changes its balance, and writes every
      other field of the dialog (a blank code or name cannot pass the checks). */
  lemma EditKeepsBalance(row: AccountRow, v: FormValues)
    requires !IsBlank(v.code) && !IsBlank(v.name)
    ensures var a := ApplyUpdate(row, BuildUpdate(UpdatePayloadOf(v)));
      && a.balance == row.balance && a.id == row.id
      && a.code == v.code && a.name == v.name && a.accountType == v.accountType
      && a.classification == v.classification && a.description == Some(v.description)
      && a.isActive == v.isActive
  {
    assert v.code != [] && v.name != [];
  }

  /** A created account opens with the dialog's opening balance. */
  lemma CreateUsesOpeningBalance(v: FormValues, id: Id)
    ensures TransformAccount(NewAccountRow(CreatePayloadOf(v)).(id := id)).balance == v.initialBalance
    ensures TransformAccount(NewAccountRow(CreatePayloadOf(v)).(id := id)).description == v.description
  {
  }

  /** What the submit handler ended with. */
  datatype SubmitOutcome = Rejected | Saved(account: Account) | SaveFailed

  class AccountFormState {
    /** The account being edited, if any. */
    const account: Option<Account>
    var values: FormValues
    var errors: map<Field, string>
    var availableClassifications: seq<Classification>
    /** Whether the dialog asked to be closed. */
    var closed: bool

    /** The classification list on offer is the selected type's. */
    ghost predicate Valid()
      reads this
    {
      availableClassifications == ClassificationsOf(values.accountType)
    }

    /** The dialog opens with its initial values, and the type effect runs
        once on the initial type. */
    constructor (account: Option<Account>)
      ensures Valid()
      ensures this.account == account
      ensures values == InitialValues(account).(classification :=
        if InitialValues(account).classification in ClassificationsOf(InitialValues(account).accountType)
        then InitialValues(account).classification
        else ClassificationsOf(InitialValues(account).accountType)[0])
      ensures errors == map[] && !closed
    {
      this.account := account;
      var v := InitialValues(account);
      var classifications := ClassificationsOf(v.accountType);
      availableClassifications := classifications;
      values := if v.classification in classifications then v else v.(classification := classifications[0]);
      errors := map[];
      closed := false;
    }

    /** Choosing a type. When it differs from the current one, the effect
        offers that type's classifications and keeps the classification
        only if it belongs to them, falling back to the first one. */
    method SelectType(t: AccountType)
      requires Valid()
      modifies this
      ensures Valid()
      ensures values.accountType == t
      ensures t != old(values.accountType) ==> values.classification in ClassificationsOf(t)
      ensures old(values.classification) in ClassificationsOf(t) ==> values.classification == old(values.classification)
      ensures t != old(values.accountType) && old(values.classification) !in ClassificationsOf(t) ==>
        values.classification == ClassificationsOf(t)[0]
      ensures values == old(values).(accountType := t, classification := values.classification)
      ensures errors == old(errors) && closed == old(closed)
    {
      var previous := values.accountType;
      values := values.(accountType := t);
      if t != previous {
        var classifications := ClassificationsOf(t);
        availableClassifications := classifications;
        if values.classification !in classifications {
          values := values.(classification := classifications[0]);
        }
      }
    }

    method SelectClassification(c: Classification)
      requires Valid()
      modifies this
      ensures Valid()
      ensures values == old(values).(classification := c)
      ensures errors == old(errors) && closed == old(closed)
    {
      values := values.(classification := c);
    }

    method SetActive(b: bool)
      requires Valid()
      modifies this
      ensures Valid()
      ensures values == old(values).(isActive := b)
      ensures errors == old(errors) && closed == old(closed)
    {
      values := values.(isActive := b);
    }

    /** Typing into an input sets that value and clears that field's error.
        The component stores `undefined` under the field; here the key is
        removed; the form reads an entry only to show its message when it
        is set, so the two look the same. */
    method HandleChange(input: TextInput, value: string)
      requires Valid()
      modifies this
      ensures Valid()
      ensures values == match input
        case CodeInput => old(values).(code := value)
        case NameInput => old(values).(name := value)
        case DescriptionInput => old(values).(description := value)
      ensures errors == if InputField(input).Some? then old(errors) - {InputField(input).value} else old(errors)
      ensures closed == old(closed)
    {
      match input {
        case CodeInput => values := values.(code := value);
        case NameInput => values := values.(name := value);
        case DescriptionInput => values := values.(description := value);
      }
      var f := InputField(input);
      if f.Some? {
        errors := errors - {f.value};
      }
    }

    /** Typing an opening balance. */
    method SetInitialBalance(amount: int)
      requires Valid()
      modifies this
      ensures Valid()
      ensures values == old(values).(initialBalance := amount)
      ensures errors == old(errors) - {InitialBalance} && closed == old(closed)
    {
      values := values.(initialBalance := amount);
      errors := errors - {InitialBalance};
    }

    /** `onSubmit`: any validation error is shown and nothing is saved;
        otherwise the account is updated (when editing) or created, and the
        dialog closes once the save succeeds. */
    method Submit(db: Store, fails: bool) returns (r: SubmitOutcome)
      requires Valid() && db.Valid()
      modifies this, db
      ensures Valid() && db.Valid()
      ensures values == old(values)
      ensures |ValidateForm(old(values), account)| > 0 ==>
        && r == Rejected && errors == ValidateForm(old(values), account)
        && db.accounts == old(db.accounts) && closed == old(closed)
      ensures |ValidateForm(old(values), account)| == 0 ==> errors == old(errors)
      ensures |ValidateForm(old(values), account)| == 0 && account.None? ==>
        if fails then r == SaveFailed && db.accounts == old(db.accounts) && closed == old(closed)
        else
          var row := NewAccountRow(CreatePayloadOf(values)).(id := old(db.nextId));
          && db.accounts == old(db.accounts)[old(db.nextId) := row]
          && r == Saved(TransformAccount(row)) && closed
      ensures |ValidateForm(old(values), account)| == 0 && account.Some? ==>
        var id := account.value.id;
        if fails || id !in old(db.accounts) then r == SaveFailed && db.accounts == old(db.accounts) && closed == old(closed)
        else
          var row := ApplyUpdate(old(db.accounts)[id], BuildUpdate(UpdatePayloadOf(values)));
          && db.accounts == old(db.accounts)[id := row]
          && r == Saved(TransformAccount(row)) && closed
      ensures db.transactions == old(db.transactions) && db.entries == old(db.entries)
    {
      var validationErrors := ValidateForm(values, account);
      if |validationErrors| > 0 {
        errors := validationErrors;
        return Rejected;
      }
      if account.Some? {
        var updated := UpdateExistingAccount(db, account.value.id, UpdatePayloadOf(values), fails);
        if updated.Failure? {
          return SaveFailed;
        }
        r := Saved(updated.value);
      } else {
        var created := CreateNewAccount(db, CreatePayloadOf(values), fails);
        if created.Failure? {
          return SaveFailed;
        }
        r := Saved(created.value);
      }
      closed := true;
    }
  }

  /** The dialog keeps only messages, so a cleared error is a removed key;
      the hook keeps `undefined` under the field instead. The two show the
      same errors: removing the field's entry here shows exactly what the
      hook shows after `ClearOnChange`, message for message. */
  lemma HandleChangeAgreesWithHook(errors: map<Field, string>, f: Field)
    ensures forall k ::
      UseForm.HasError(UseForm.ClearOnChange(UseForm.AsErrors(errors), f), k)
      <==> UseForm.HasError(UseForm.AsErrors(errors - {f}), k)
    ensures forall k :: UseForm.HasError(UseForm.AsErrors(errors - {f}), k) ==>
      UseForm.ClearOnChange(UseForm.AsErrors(errors), f)[k] == UseForm.AsErrors(errors - {f})[k]
  {
  }
}
