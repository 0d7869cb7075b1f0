/** Result shapes shared by every component. */
module Common {

  datatype Option<+T> = None | Some(value: T)

  datatype Result<+T, +E> = Ok(value: T) | Err(error: E)

  /** A text whose characters nothing in the model looks at: it is stored, compared and handed to
      validity predicates. Where characters matter, texts are sequences. */
  type Text(==,!new)

  /** No value occurs twice; the source's `len(xs) == len(set(xs))`. */
  predicate Distinct<T(==)>(xs: seq<T>) {
    forall i, j :: 0 <= i < j < |xs| ==> xs[i] != xs[j]
  }
}
