/** The two record types of the auditor: an employee of the roster, and a
    finding (called SaltError in the source) about one cell. */
module SaltRecords {
  import opened Wrappers
  import opened Grid

  /** An employee: a name, the row of the roster they occupy, and the cache
      of eligible monthly-drill dates, which starts empty and is filled once. */
  class Employee {
    const name: string
    const row: int
    var validDrillDates: seq<int>

    constructor (name: string, row: int)
      ensures this.name == name && this.row == row && validDrillDates == []
    {
      this.name := name;
      this.row := row;
      validDrillDates := [];
    }
  }

  /** What a finding says; each constructor stands for one message text of
      the source, with the values that text interpolates. */
  datatype Message =
    | CellBlank                                              // Cell should not be blank
    | ResultBlank                                            // Result cannot be blank
    | CategoryBlank                                          // SALT Category cannot be blank
    | ResultMustBeBlank(category: string)                    // Result must be blank if category is {category}
    | InvalidNoResultComment(comment: string, category: string) // {comment} is not a valid comment for {category}
    | InvalidObservationComment                              // Invalid observation comment
    | TooFewObservations                                     // Must have at least 10 observations
    | TooManyObservations(total: nat)                        // Did you really do {total} observations??
    | MoreCorrectThanObserved                                // Can't have more correct than # of observations.
    | ObservationResultBlank                                 // Result can't be blank
    | AcceptableNotPerfect                                   // Can't have an 'A' if not 100%
    | UnacceptableButPerfect                                 // Should not have 'U/R' unless # correct is less than # observed
    | InvalidObservationResult(result: string)               // {result} is not a valid result
    | InvalidSaltType(saltType: string)                      // {saltType} is not a valid SALT type
    | LiveResultU                                            // SALT result may not be 'U'. Did you mean 'U/A'?
    | InvalidLiveResult(result: string)                      // {result} is not a valid live SALT result
    | DrillDateEmpty                                         // Drill date shouldn't be empty
    | NotPresentOn(day: int)                                 // Employee not present on {date}
    | DrillResultEmpty                                       // Drill result shouldn't be empty
    | DrillResultNotP                                        // Monthly training drill result must be "P"
    | OperationNameEmpty                                     // Operation name shouldn't be empty
    | SortCodeMissing                                        // Operation name must be 2DA
    | BuildingCodeMissing                                    // Building must be Wing C
    | PosiCodeMissing                                        // Must include posi, e.g. "Posi 7 North" or "Posi 6S"

  /** A finding: the employee it concerns (none for log-wide findings), the
      one cell it is about, and its message. */
  datatype SaltError = SaltError(employee: Option<Employee>, cell: Coord, message: Message)
}
