/** Shared vocabulary: optional values, results and SHA-256 fingerprints. */
module Fingerprints {

  datatype Option<+T> = None | Some(value: T)

  datatype Result<+T, +E> = Ok(value: T) | Err(error: E)

  /** A fingerprint slot in an annotation or a status field. `Digest(x)` is the hex SHA-256 of the
      JSON encoding of `x`; hashing and encoding are taken to be injective, so a digest is
      identified with what it was computed from. `Edited` is any other text a user may have put
      there, and `Unset` is the empty string or an absent key. */
  datatype Fingerprint<+T> = Unset | Digest(of: T) | Edited(text: string)
}
