/** The exceptions raised by the 2D-spectrum core, a Result type that
    carries either a value or the exception that ended the computation, and
    Option for Python's `None`. */
module Errors {

  datatype Option<+T> = None | Some(value: T)

  datatype Error =
    | UnknownResolution            // a name outside off/signals/processes/types/pathways
    | LowerToHigher                // set_resolution asked to raise the resolution
    | CannotConvert(from: nat, to: nat)  // a lowering _convert_resolution does not know
    | NotImplemented               // a read at resolution "off"
    | WrongPathwaysType            // a write at "pathways" whose dtype is not a pathway type
    | TagExists                    // a write under a (type, tag) that is already stored
    | NotAnArray                   // the TypeError of the store setter
    | MissingAttribute             // AttributeError: `_d__data` or an axis was never set
    | MissingKey                   // KeyError of a dictionary lookup
    | ShapeMismatch                // numpy cannot broadcast the operands of `+=`
    | UnboundAccumulator           // UnboundLocalError: a tagless read of an empty type
    | UnknownProcess
    | UnknownSignal
    | MissingArgument              // TypeError: `_types_to_processes(process)` lacks `obj`
    | UnknownDataType              // set_data_type with a name outside Tot/Reph/Nonr
    | IncorrectDataType            // the dtype lock of set_data and add_data
    | UnknownTypeOfData            // set_data/add_data with a dtype they cannot store
    | FlagIndex                    // IndexError of set_data_flag on an empty list
    | FlagTooShort                 // a list flag with a single element
    | NotEnoughResolution          // _add_data asked for a finer resolution than stored
    | TagNotSpecified
    | UnknownPathwayKind           // _add_data with a dtype that is not a pathway type
    | NoData                       // get_value_at before any dtype is fixed
    | NoneArray                    // TypeError: an operation on None
    | IndexOutOfRange              // IndexError of an array or list index
    | UnknownPathwayType           // a pathway that is neither R nor NR
    | UnknownLineShape             // a shape that is neither Gaussian nor Lorentzian

  datatype Result<+T> = Ok(value: T) | Err(error: Error) {
    predicate IsFailure() {
      Err?
    }

    function PropagateFailure<U>(): Result<U>
      requires Err?
    {
      Err(error)
    }

    function Extract(): T
      requires Ok?
    {
      value
    }
  }
}
