/** NDN names as the applications use them: a sequence of components. A generic component is
    kept in its URI form, so two components are equal exactly when their URIs are. */
module Names {
  datatype Option<+T> = None | Some(value: T)

  datatype Component = Generic(uri: string) | Sequence(number: nat)

  type Name = seq<Component>

  const LAMBDA := Generic("lambda")
  const FUNCTION := Generic("Function")
  const DATA := Generic("Data")

  /** The URI of the component begins with the escaped sequence-number marker. */
  predicate IsMarked(c: Component) {
    c.Sequence? || "%FE" <= c.uri
  }

  /** `toUri().find("/Function") != npos`: components hold no slash, so the match has to begin
      at the start of a component. */
  predicate MentionsFunction(n: Name) {
    exists i :: 0 <= i < |n| && n[i].Generic? && "Function" <= n[i].uri
  }
}
