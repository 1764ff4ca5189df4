/**
 * The tool-provider side of the agent, reduced to what the agent observes of an
 * MCP client once it is connected: the client's name and the tool descriptors
 * its server listed during the handshake.
 */
module Mcp {

  /** A tool descriptor; its JSON input schema is kept as serialized text. */
  datatype Tool = Tool(name: string, description: string, inputSchema: string)

  /** A connected MCP client: its configured name and the tools its server lists. */
  datatype McpClient = McpClient(name: string, tools: seq<Tool>)

  /** The names of `tools`, in order (the comprehension the agent scans). */
  function ToolNames(tools: seq<Tool>): (names: seq<string>)
    ensures |names| == |tools|
    ensures forall i :: 0 <= i < |tools| ==> names[i] == tools[i].name
  {
    if tools == [] then [] else [tools[0].name] + ToolNames(tools[1..])
  }
}
