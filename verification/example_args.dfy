/**
 * The example player's entry point (examples/spc_player.rs, `do_it`): the
 * command line must hold exactly one argument after the program name. The
 * rest of that file repeats the player code modelled in SpcPlay and
 * CpalDriver.
 */
module SpcPlayerExample {
  import opened Wrappers

  datatype ArgError = NoFileSpecified | TooManyArguments

  /** The text each argument error is reported with; the two texts tell the errors apart. */
  function Message(e: ArgError): (msg: string)
    ensures e.NoFileSpecified? <==> msg == "No file specified"
    ensures e.TooManyArguments? <==> msg == "Only one file argument can be specified"
  {
    match e
    case NoFileSpecified => "No file specified"
    case TooManyArguments => "Only one file argument can be specified"
  }

  /**
   * The path to play, taken from the process arguments (program name
   * first): no file argument and more than one are errors.
   */
  function SelectPath(args: seq<string>): (r: Result<string, ArgError>)
    ensures r.Success? <==> |args| == 2
    ensures r.Success? ==> r.value == args[1]
    ensures r == Failure(NoFileSpecified) <==> |args| <= 1
    ensures r == Failure(TooManyArguments) <==> |args| > 2
  {
    match |args|
    case 0 => Failure(NoFileSpecified)
    case 1 => Failure(NoFileSpecified)
    case 2 => Success(args[1])
    case _ => Failure(TooManyArguments)
  }
}
