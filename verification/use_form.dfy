/**
 * `useForm`: a form's field values, per-field error messages and per-field
 * "touched" flags. Each setter replaces one key of one of the three records
 * and leaves everything else as it was.
 */
module UseForm {

  class Form<V> {
    var values: map<string, V>
    var errors: map<string, string>
    var touched: map<string, bool>

    /** The hook's first render: the given values, no errors, nothing touched. */
    constructor (initialValues: map<string, V>)
      ensures values == initialValues
      ensures errors == map[] && touched == map[]
    {
      values := initialValues;
      errors := map[];
      touched := map[];
    }

    /** The message shown for `field`: an absent entry reads as "". */
    function ErrorOf(field: string): (e: string)
      reads this
    {
      if field in errors then errors[field] else ""
    }

    /** `setFieldValue(field, value)`: stores the value and clears that field's error. */
    method SetFieldValue(field: string, value: V)
      modifies this
      ensures values == old(values)[field := value]
      ensures errors == old(errors)[field := ""]
      ensures touched == old(touched)
      ensures forall g :: g != field ==> (g in values <==> g in old(values))
      ensures forall g :: g != field && g in values ==> values[g] == old(values)[g]
      ensures forall g :: g != field ==> ErrorOf(g) == old(ErrorOf(g))
    {
      values := values[field := value];
      errors := errors[field := ""];
    }

    /** `setFieldError(field, error)`: only that field's error changes. */
    method SetFieldError(field: string, error: string)
      modifies this
      ensures errors == old(errors)[field := error]
      ensures values == old(values) && touched == old(touched)
      ensures forall g :: g != field ==> ErrorOf(g) == old(ErrorOf(g))
    {
      errors := errors[field := error];
    }

    /** `touchField(field)`: marks one field touched; other fields stay absent or as they were. */
    method TouchField(field: string)
      modifies this
      ensures touched == old(touched)[field := true]
      ensures values == old(values) && errors == old(errors)
      ensures forall g :: g != field ==> (g in touched <==> g in old(touched))
    {
      touched := touched[field := true];
    }

    /** `setErrors(m)`: replaces the whole error record. */
    method SetErrors(m: map<string, string>)
      modifies this
      ensures errors == m
      ensures values == old(values) && touched == old(touched)
    {
      errors := m;
    }
  }

  /** Setting a value after an error was set on the same field clears that error. */
  method SetValueClearsError<V>(initial: map<string, V>, field: string, error: string, value: V)
    returns (shown: string, stored: V)
    ensures shown == "" && stored == value
  {
    var form := new Form(initial);
    form.SetFieldError(field, error);
    form.SetFieldValue(field, value);
    shown := form.ErrorOf(field);
    stored := form.values[field];
  }

  /** Touching a field twice leaves the same flags as touching it once. */
  method TouchTwiceIsTouchOnce<V>(initial: map<string, V>, field: string, other: string)
    returns (once: map<string, bool>, twice: map<string, bool>)
    requires other != field
    ensures once == twice == map[field := true]
    ensures other !in twice
  {
    var a := new Form(initial);
    a.TouchField(field);
    once := a.touched;
    var b := new Form(initial);
    b.TouchField(field);
    b.TouchField(field);
    twice := b.touched;
  }
}
