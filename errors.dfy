/**
 * How a build ends when it does not succeed. The program has two ways to stop:
 * `Logging.fatal`, which prints a message after a location tag and exits, and
 * an uncaught Python exception. Both abort the whole build.
 */
module Errors {
  import opened Wrappers

  /** Where a fatal message points. `AtLine(n)` is the tag made by
      `function_ref(path, n)`, with `n` the cursor index at the time;
      `InFile` is the tag made by `generic_ref(path)`; `Unplaced` has no tag. */
  datatype Location = AtLine(index: nat) | InFile | Unplaced

  /** The messages passed to `Logging.fatal`. */
  datatype Reason =
    | UnexpectedToken(token: string)   // directive word is neither 'for' nor 'generate'
    | MissingToken                     // a '#@' line with no directive word
    | TooFewTokens                     // a loop clause with fewer than four words
    | ExpectedIn(token: string)        // the third word of a loop clause is not 'in'
    | RangeTokenCount                  // a 'range' clause that is not exactly five words
    | RangeImpossible                  // a configured range variable that is neither list nor int
    | RangeArguments(spec: string)     // an inline range with a non-numeric part
    | UnknownVariable(name: string)    // loop over a variable the configuration lacks
    | NotAList(name: string)           // loop over a configured variable that is not a list
    | FileNameUnchanged                // a 'generate' file name that the item did not change
    | ForOutsideArray                  // a JSON 'for' object whose parent is not an array
    | MissingConfigKey(key: string)    // 'data_out' or 'assets_out' absent
    | ReservedRange                    // 'range' used as a variable name
    | TableVariable(name: string)      // a variable whose value is a table

  /** The Python exceptions the core can raise and never catches. */
  datatype Exception =
    | IndexError
    | KeyError(key: string)
    | TypeError
    | ValueError
    | AttributeError
    | JsonDecodeError

  /** `OutOfFuel` is not a behaviour of the program: the JSON walk of the model
      carries a step budget, because the program's own walk need not terminate. */
  datatype Error = Fatal(reason: Reason, at: Location) | Crash(exception: Exception) | OutOfFuel

  type Outcome<T> = Result<T, Error>
}
