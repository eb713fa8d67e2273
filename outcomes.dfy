/** Fatal conditions of the client game loop. The program aborts on each of them; here
    a step that would abort yields Fatal and nothing after it happens. */
module Outcomes {
  datatype Fault =
    | InvalidCodePath   // an event or message type the switch does not know
    | UndefinedPlayer   // the assertion that a start message gave us a player id
    | PlayerLimit       // SimulationCreatePlayer with every player slot taken

  datatype Outcome<+T> = Ok(value: T) | Fatal(fault: Fault)
  {
    /** The same verdict without the value: what a procedure that returns nothing reports. */
    function Verdict(): Outcome<()>
    {
      match this
      case Ok(_) => Ok(())
      case Fatal(f) => Fatal(f)
    }
  }
}
