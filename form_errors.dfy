/** The error records the forms keep: a message per field key, shown when non-empty. */
module FormErrors {
  /** An error is shown when its key holds a non-empty message. */
  predicate Shown<K>(errors: map<K, string>, f: K) {
    f in errors && errors[f] != ""
  }

  /** `if (errors[f]) setErrors({...errors, [f]: ''})`: hide the one error, keep the rest. */
  function Cleared<K>(errors: map<K, string>, f: K): (r: map<K, string>)
    ensures !Shown(r, f)
    ensures r.Keys == errors.Keys
    ensures forall g | g in errors && g != f :: r[g] == errors[g]
  {
    if Shown(errors, f) then errors[f := ""] else errors
  }
}
