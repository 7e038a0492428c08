/**
  The athlete record exchanged between the roster CSV parser and the
  competition engine: `{ id, firstName, lastName }`.
 */
module Athletes {

  datatype Athlete = Athlete(id: string, firstName: string, lastName: string)

  /** A JavaScript string is truthy exactly when it is non-empty. */
  predicate Truthy(s: string) { s != "" }

  /** The upload check `a.id && a.firstName && a.lastName` for one athlete. */
  predicate HasAllFields(a: Athlete) {
    Truthy(a.id) && Truthy(a.firstName) && Truthy(a.lastName)
  }

  /** `receivedAthletes.every(a => a.id && a.firstName && a.lastName)` */
  predicate AllHaveFields(roster: seq<Athlete>) {
    forall i :: 0 <= i < |roster| ==> HasAllFields(roster[i])
  }

  /** No two positions of a roster hold the same athlete. */
  predicate Distinct(roster: seq<Athlete>) {
    forall i, j :: 0 <= i < j < |roster| ==> roster[i] != roster[j]
  }
}
