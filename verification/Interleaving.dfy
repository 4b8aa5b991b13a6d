/** What everybody else does while one participant waits. */
module Interleaving {
  /** One list of steps for each time it waits; afterwards nobody acts. */
  class Others<L> {
    var script: seq<seq<L>>

    constructor (script: seq<seq<L>>)
      ensures this.script == script
    {
      this.script := script;
    }

    method Next() returns (batch: seq<L>)
      modifies this
      ensures old(script) == [] ==> batch == [] && script == []
      ensures old(script) != [] ==> [batch] + script == old(script)
    {
      batch := [];
      if script != [] {
        batch := script[0];
        script := script[1..];
      }
    }
  }
}
