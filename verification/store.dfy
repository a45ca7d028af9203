/**
 * The attendance table behind `GetZusage` and `Zusage.Put`. Their SQL lives
 * in a file that is not part of this model, so the rows are a map from nick
 * to entry and the two operations follow these assumptions:
 *  - a lookup of a stored nick returns its row; a lookup of any other nick
 *    (or one whose query fails) returns the entry with only the nick set;
 *  - a successful Put replaces the whole row of its nick; a failed Put
 *    changes nothing.
 */
module Store {
  import opened GoStrings
  import opened Records

  type Rows = map<GoString, Zusage>

  /** Every row is filed under its own nick and carries a submitted decision. */
  ghost predicate WellKeyed(rows: Rows) {
    forall n | n in rows :: rows[n].nick == n && rows[n].hasKommt
  }

  /** `GetZusage(nick)`. */
  function Lookup(rows: Rows, nick: GoString): (z: Zusage)
    requires WellKeyed(rows)
    ensures z.nick == nick
    ensures z.hasKommt <==> nick in rows
    ensures nick !in rows ==> !z.kommt && z.kommentar == []
  {
    if nick in rows then rows[nick] else Zusage(nick, false, [], false)
  }

  /** The rows after a successful `zusage.Put()`: an upsert of the whole record. */
  function Upsert(rows: Rows, z: Zusage): (rows': Rows)
    ensures rows'.Keys == rows.Keys + {z.nick}
    ensures forall n | n in rows && n != z.nick :: rows'[n] == rows[n]
  {
    rows[z.nick := z]
  }

  /** An upsert keeps the table well keyed. */
  lemma UpsertWellKeyed(rows: Rows, z: Zusage)
    requires WellKeyed(rows) && z.hasKommt
    ensures WellKeyed(Upsert(rows, z))
  {
  }

  /** Upsert then lookup of the same nick returns exactly the record written. */
  lemma UpsertThenLookup(rows: Rows, z: Zusage)
    requires WellKeyed(rows) && z.hasKommt
    ensures WellKeyed(Upsert(rows, z)) && Lookup(Upsert(rows, z), z.nick) == z
  {
  }

  /** An upsert leaves the lookups of every other nick as they were. */
  lemma UpsertKeepsOthers(rows: Rows, z: Zusage, nick: GoString)
    requires WellKeyed(rows) && z.hasKommt && nick != z.nick
    ensures WellKeyed(Upsert(rows, z)) && Lookup(Upsert(rows, z), nick) == Lookup(rows, nick)
  {
  }

  /** A later upsert of the same nick overwrites an earlier one in full. */
  lemma UpsertOverwrites(rows: Rows, z1: Zusage, z2: Zusage)
    requires z1.nick == z2.nick
    ensures Upsert(Upsert(rows, z1), z2) == Upsert(rows, z2)
  {
  }
}
