/**
 * Shared.Kernel's ValidationException: the exception the validation pipeline
 * raises with the per-property messages, and the message text built from them.
 */
module ValidationErrors {
  import opened Wrappers
  import Text

  /** Environment.NewLine on the Linux hosts the services run on. */
  const NewLine: string := "\n"

  datatype ValidationExceptionModel = ValidationExceptionModel(property: string, errors: Option<seq<string>>)

  datatype ValidationException = ValidationException(message: string, errors: seq<ValidationExceptionModel>)

  /** One property's block: a new line, " -- ", the property, ": " and its messages one per line. */
  function Entry(x: ValidationExceptionModel): string
  {
    NewLine + " -- " + x.property + ": " + Text.Join(NewLine, if x.errors.Some? then x.errors.value else [])
  }

  function Entries(errors: seq<ValidationExceptionModel>): (r: seq<string>)
    ensures |r| == |errors|
    ensures forall i | 0 <= i < |errors| :: r[i] == Entry(errors[i])
  {
    if errors == [] then [] else [Entry(errors[0])] + Entries(errors[1..])
  }

  function BuildErrorMessage(errors: seq<ValidationExceptionModel>): string
  {
    "Validation failed: " + Text.Join("", Entries(errors))
  }

  /** `new ValidationException(errors)`. */
  function FromErrors(errors: seq<ValidationExceptionModel>): (e: ValidationException)
    ensures e.errors == errors
    ensures |e.message| >= 19 && e.message[..19] == "Validation failed: "
  {
    ValidationException(BuildErrorMessage(errors), errors)
  }

  /** The text Exception.Message falls back to when the exception was given no message. */
  const DefaultMessage: string := "Exception of type 'Shared.Kernel.Common.Exceptions.ValidationException' was thrown."

  /**
   * The parameterless, message and (message, inner exception) constructors: no
   * property errors. The parameterless one and a null message (None) carry the
   * runtime's default text; any other message is kept as given.
   */
  function FromMessage(message: Option<string>): (e: ValidationException)
    ensures e.errors == []
    ensures message.Some? ==> e.message == message.value
    ensures message.None? ==> e.message == DefaultMessage
  {
    ValidationException(if message.Some? then message.value else DefaultMessage, [])
  }

  /** The message grows property by property: one more failure appends exactly its block. */
  lemma BuildErrorMessageSnoc(errors: seq<ValidationExceptionModel>, x: ValidationExceptionModel)
    ensures BuildErrorMessage(errors + [x]) == BuildErrorMessage(errors) + Entry(x)
  {
    assert Entries(errors + [x]) == Entries(errors) + [Entry(x)];
    if errors == [] {
      assert Entries(errors + [x]) == [Entry(x)];
    } else {
      Text.JoinSnoc("", Entries(errors), Entry(x));
    }
  }

  /** With no failures the message is the bare prefix. */
  lemma BuildErrorMessageEmpty()
    ensures BuildErrorMessage([]) == "Validation failed: "
  {
  }
}
