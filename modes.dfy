/**
 * The choice of input mode in `main` of `cli.py`: interactive, one message
 * from the command line, or one message read from a file.
 */
module Modes {
  import opened Wrappers
  import opened Session

  datatype Mode = Interactive | SingleMessage(text: string) | MessageFile(path: string)

  /** The argparse error given when no mode is selected. */
  const NoModeMessage: string := "Must specify one of: --interactive, --message, or --file"

  /**
   * The mode `main` runs, from `--interactive`, `--message` and `--file`.
   * An option counts only when it is truthy (an empty string does not); at
   * least one must count, and interactive beats message, which beats file.
   */
  function SelectMode(interactive: bool, message: Option<string>, file: Option<string>): (r: Result<Mode, string>)
    ensures r.Failure? <==> !interactive && !Truthy(message) && !Truthy(file)
    ensures r.Failure? ==> r.error == NoModeMessage
    ensures r.Success? && r.value.Interactive? <==> interactive
    ensures r.Success? && r.value.SingleMessage? <==> !interactive && Truthy(message)
    ensures r.Success? && r.value.SingleMessage? ==> r.value.text == message.value
    ensures r.Success? && r.value.MessageFile? <==> !interactive && !Truthy(message) && Truthy(file)
    ensures r.Success? && r.value.MessageFile? ==> r.value.path == file.value
  {
    if interactive then Success(Interactive)
    else if Truthy(message) then Success(SingleMessage(message.value))
    else if Truthy(file) then Success(MessageFile(file.value))
    else Failure(NoModeMessage)
  }
}
