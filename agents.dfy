/**
 * The agent capability contract shared by MASTERMIND.py and controller.py:
 * every agent offers initialize, execute, get_data and shutdown. The model
 * does not run agent code; an agent is described by how each of those
 * operations turns out, and the controllers record which ones they call.
 */
module Agents {
  import opened Wrappers

  /** What `get_data` hands back: a text value or a flat string-keyed mapping. */
  datatype Payload = Text(text: string) | Mapping(fields: map<string, string>)

  /**
   * How one agent behaves: `false` (or `None` for the output) means that the
   * constructor or operation raises an exception.
   */
  datatype Agent = Agent(
    constructs: bool,
    initializes: bool,
    executes: bool,
    output: Option<Payload>,
    shutsDown: bool)

  /** The four operations of the capability contract. */
  datatype Op = Initialize | Execute | GetData | Shutdown

  /** One call of an agent operation, named by the agent's registry key. */
  datatype Call = Call(agent: string, op: Op)
}
