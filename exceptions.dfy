/** The exceptions the checker's core raises, as values. */
module Exceptions {
  import opened Util

  datatype Exception =
    /** templates.TemplateNotFoundException: no template for the type. */
    | TemplateNotFound(t: Type)
    /** Python's `ValueError`, with its message. */
    | ValueError(message: string)
    /** Python's `IndexError`, with its message. */
    | IndexError(message: string)
    /** Python's `RuntimeError`, with its message. */
    | RuntimeError(message: string)
}
