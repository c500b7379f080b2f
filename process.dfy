/** The process-description builder both wrappers fill in before spawning:
    a program name and an argument list that grows one call at a time.
    Spawning it, stream inheritance and exit-code handling are not modelled. */
module Process {

  class Command {
    const program: string
    var args: seq<string>

    /** `Command::new(program)`: no arguments yet. */
    constructor (program: string)
      ensures this.program == program && args == []
    {
      this.program := program;
      args := [];
    }

    /** `cmd.arg(a)`: appends one argument. */
    method Arg(a: string)
      modifies this
      ensures args == old(args) + [a]
    {
      args := args + [a];
    }

    /** `cmd.args(more)`: appends several arguments in order. */
    method Args(more: seq<string>)
      modifies this
      ensures args == old(args) + more
    {
      args := args + more;
    }
  }
}
