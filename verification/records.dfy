/** The two records of the handler: an attendance entry and the identity cookie. */
module Records {
  import opened GoStrings

  /**
   * `Zusage`: one attendance entry. `hasKommt` records that a decision was
   * submitted, as opposed to the zero entry of an unknown nick.
   */
  datatype Zusage = Zusage(nick: GoString, kommt: bool, kommentar: GoString, hasKommt: bool)

  /** `Cookie`: what the client keeps between visits. */
  datatype Cookie = Cookie(nick: GoString, kommentar: GoString)

  /** Go's zero value `Zusage{}`. */
  const ZeroZusage := Zusage([], false, [], false)
}
