/** The container and network IDs that the native harnesses accept. */
module Identifiers {
  const ID_LENGTH := 64

  /** Sixty-four lower-case hexadecimal digits. */
  predicate Canonical(id: string) {
    |id| == ID_LENGTH && forall i :: 0 <= i < |id| ==> '0' <= id[i] <= '9' || 'a' <= id[i] <= 'f'
  }
}
