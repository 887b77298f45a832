/** `useForm`: the form state hook shared by the dialogs. Values and errors
    are dictionaries keyed by field name; an error entry that has been
    cleared is present with no message (`undefined`). */
module UseForm {
  import opened Wrappers

  /** How the submit callback returned. */
  datatype SubmitBehaviour = ReturnsValue | ReturnsPromise | Throws

  /** An error is shown for `name` when it holds a non-empty message. */
  predicate HasError<K>(errors: map<K, Option<string>>, name: K)
  {
    name in errors && errors[name].Some? && errors[name].value != ""
  }

  /** `Object.keys(errors).length === 0`. */
  predicate NoKeys<K>(errors: map<K, string>)
  {
    |errors| == 0
  }

  /** The errors after typing into `name`: its shown error is cleared, every
      other entry is kept. */
  function ClearOnChange<K(!new)>(errors: map<K, Option<string>>, name: K): (r: map<K, Option<string>>)
    ensures !HasError(r, name)
    ensures forall k :: k != name ==> (k in r <==> k in errors) && (k in r ==> r[k] == errors[k])
    ensures HasError(errors, name) ==> name in r && r[name] == None
    ensures !HasError(errors, name) ==> r == errors
  {
    if HasError(errors, name) then errors[name := None] else errors
  }

  /** The errors a validation function's result becomes. */
  function AsErrors<K(!new)>(found: map<K, string>): (r: map<K, Option<string>>)
    ensures r.Keys == found.Keys
    ensures forall k :: k in found ==> r[k] == Some(found[k])
  {
    map k | k in found :: Some(found[k])
  }

  class FormHook<K(==,!new), V> {
    const initialValues: map<K, V>
    var values: map<K, V>
    var errors: map<K, Option<string>>
    var isSubmitting: bool
    /** Promises returned by the submit callback that have not settled yet. */
    var pending: nat
    /** The values passed to the submit callback, one per call. */
    var submitted: seq<map<K, V>>

    /** The form is marked as submitting only while a returned promise is pending. */
    ghost predicate Valid()
      reads this
    {
      isSubmitting ==> pending > 0
    }

    constructor (initialValues: map<K, V>)
      ensures Valid()
      ensures this.initialValues == initialValues && values == initialValues
      ensures errors == map[] && !isSubmitting && pending == 0 && submitted == []
    {
      this.initialValues := initialValues;
      values := initialValues;
      errors := map[];
      isSubmitting := false;
      pending := 0;
      submitted := [];
    }

    /** `handleChange`: sets one value and clears that field's shown error. */
    method HandleChange(name: K, value: V)
      requires Valid()
      modifies this
      ensures Valid()
      ensures values == old(values)[name := value]
      ensures errors == ClearOnChange(old(errors), name)
      ensures isSubmitting == old(isSubmitting) && pending == old(pending) && submitted == old(submitted)
    {
      values := values[name := value];
      if HasError(errors, name) {
        errors := errors[name := None];
      }
    }

    /** `validate`: with no function the form is valid and the errors stay;
        otherwise the errors become the function's result, and the form is
        valid when that result has no keys. */
    method Validate(validation: Option<map<K, V> -> map<K, string>>) returns (valid: bool)
      requires Valid()
      modifies this
      ensures Valid()
      ensures validation.None? ==> valid && errors == old(errors)
      ensures validation.Some? ==>
        errors == AsErrors(validation.value(values)) && valid == NoKeys(validation.value(values))
      ensures values == old(values) && isSubmitting == old(isSubmitting)
      ensures pending == old(pending) && submitted == old(submitted)
    {
      if validation.None? {
        return true;
      }
      var found := validation.value(values);
      errors := AsErrors(found);
      valid := |found| == 0;
    }

    /** `handleSubmit(onSubmit, validation)` applied to a submit event: an
        invalid form calls nothing; a valid one calls `onSubmit` once with
        the current values and is submitting until the call is over (for a
        returned promise, until it settles). */
    method HandleSubmit(validation: Option<map<K, V> -> map<K, string>>, behaviour: SubmitBehaviour)
      returns (called: bool)
      requires Valid()
      modifies this
      ensures Valid()
      ensures values == old(values)
      ensures called == (validation.None? || NoKeys(validation.value(old(values))))
      ensures validation.Some? ==> errors == AsErrors(validation.value(old(values)))
      ensures validation.None? ==> errors == old(errors)
      ensures !called ==>
        isSubmitting == old(isSubmitting) && pending == old(pending) && submitted == old(submitted)
      ensures called ==> submitted == old(submitted) + [old(values)]
      ensures called && behaviour == ReturnsPromise ==> isSubmitting && pending == old(pending) + 1
      ensures called && behaviour != ReturnsPromise ==> !isSubmitting && pending == old(pending)
    {
      called := Validate(validation);
      if !called {
        return;
      }
      isSubmitting := true;
      submitted := submitted + [values];
      match behaviour {
        case ReturnsPromise => pending := pending + 1;
        case ReturnsValue => isSubmitting := false;
        case Throws => isSubmitting := false;
      }
    }

    /** A promise returned by `onSubmit` settles: `finally` clears the flag. */
    method SettlePromise()
      requires Valid() && pending > 0
      modifies this
      ensures Valid()
      ensures !isSubmitting && pending == old(pending) - 1
      ensures values == old(values) && errors == old(errors) && submitted == old(submitted)
    {
      pending := pending - 1;
      isSubmitting := false;
    }

    /** `resetForm`: back to the initial values with no errors. The hook
        resets to the `initialValues` argument of the current render; the
        model fixes that argument when the hook is created, so a caller that
        recomputes it on every render is modelled only while it stays the same. */
    method ResetForm()
      requires Valid()
      modifies this
      ensures Valid()
      ensures values == initialValues && errors == map[]
      ensures isSubmitting == old(isSubmitting) && pending == old(pending) && submitted == old(submitted)
    {
      values := initialValues;
      errors := map[];
    }
  }
}
