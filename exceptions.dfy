/**
 * The exceptions that cross the boundaries of the plotting core.
 *
 * `my_interactive_plots/exceptions.py` is not part of this model; its
 * `PlotCreationError` is modelled as an exception with a message and the
 * exception it was raised `from` (Python's `__cause__`).
 */
module Exceptions {
  import opened Wrappers

  datatype Exception =
    | PlotCreationError(message: string, cause: Option<Exception>)
    | ValueError(message: string)
    | ImportError(message: string)
      /** Anything raised inside plotly, pandas or weasyprint; never inspected here. */
    | LibraryError(detail: string)
}
