/** Failure-carrying results. Every `raise MaintainerError(...)` of the library
    becomes an `Err` carrying the reason the message names. */
module Wrappers {

  datatype Option<+T> = None | Some(value: T)

  /** The reasons the library raises `MaintainerError` for the operations modelled here,
      plus the `NameError` Python raises for an undefined name. */
  datatype Error =
    | NoArguments                 // Subterm()
    | NoTruthyArguments           // Subterm(False, ...)
    | InvalidDay(day: string)     // Weekdays.add_day
    | UndefinedName(name: string) // a name the code reads but never defines
    | EmptyWeekdays               // Meeting.set_weekdays
    | DatesNotOrdered             // Meeting._check_dates
    | TimesNotOrdered             // Meeting._check_times
    | NotComparable               // TypeError: `>=` on objects that define no order

  datatype Result<+T> = Ok(value: T) | Err(error: Error)

  /** The result of an operation that returns nothing (Python's `None`) or raises. */
  datatype Outcome = Pass | Fail(error: Error)
}
