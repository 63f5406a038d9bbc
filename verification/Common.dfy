/** What the components below share: two result shapes, and strings.HasPrefix. */
module Common {
  datatype Option<+T> = None | Some(value: T)

  /** A value, or the reason an operation gave none. */
  datatype Result<+T> = Ok(value: T) | Err(error: string)

  predicate HasPrefix(s: string, p: string) {
    |p| <= |s| && s[..|p|] == p
  }
}
