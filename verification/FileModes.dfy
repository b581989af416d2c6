/** Permission bits of files, shared by the models of edits, journal records and archives. */
module FileModes {

  /** The twelve bits of a mode: set-user-id, set-group-id, sticky, and nine permission bits. */
  type Mode = bv12

  const PERMISSION_BITS: Mode := 0x1FF
  const SPECIAL_BITS: Mode := 0xE00

  /** `st_mode & 0o777`. */
  function Permissions(mode: Mode): Mode {
    mode & PERMISSION_BITS
  }

  predicate IsSpecial(mode: Mode) {
    mode & SPECIAL_BITS != 0
  }

  /** Masking keeps a mode exactly when it sets no special bit, and never leaves one. */
  lemma MaskKeepsExactlyOrdinaryModes(mode: Mode)
    ensures Permissions(mode) == mode <==> !IsSpecial(mode)
    ensures !IsSpecial(Permissions(mode)) && Permissions(Permissions(mode)) == Permissions(mode)
  {
  }
}
