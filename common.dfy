/** Small shared vocabulary: optional values and the navigation effect a page emits. */
module Common {

  /** A value that may be absent (`undefined` in the application). */
  datatype Option<+T> = None | Some(value: T)

  /** A router navigation: the target path and the state object handed to the next page. */
  datatype Navigation<+S> = Navigation(path: string, state: S)
}
