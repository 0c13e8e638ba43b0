/** The nodes of src/Node.c, in place. */
module NodeObjects {
  import opened Common
  import opened Streams
  import opened Nodes
  import opened Devices

  ghost function ValueOf(s: DeviceStream?): Option<Stream>
    reads s, if s == null then null else s.buffers
  {
    if s == null then None else Some(s.Val())
  }

  class NodeObject {
    const output: DeviceStream?
    const input: DeviceStream?

    ghost function Val(): (n: Node)
      reads output, if output == null then null else output.buffers
      reads input, if input == null then null else input.buffers
      ensures (n.output.Some? <==> output != null) && (n.input.Some? <==> input != null)
    {
      Node(ValueOf(output), ValueOf(input))
    }

    ghost predicate Valid() {
      output == null || output != input
    }

    constructor (output: DeviceStream?, input: DeviceStream?)
      requires output == null || output != input
      ensures this.output == output && this.input == input && Valid()
    {
      this.output, this.input := output, input;
    }

    /** nodeStart. */
    method StartNode() returns (code: int)
      requires Valid() && NodeOk(Val())
      modifies output, input
      ensures (Val(), code) == NodeStart(old(Val()))
      ensures output != null ==> output.buffers == old(output.buffers)
      ensures input != null ==> input.buffers == old(input.buffers)
    {
      hide StreamOk, Start, Stop;
      if output != null {
        Exact(output.Val());
        code := output.Start();
        if code != 0 {
          return;
        }
      }
      if input != null {
        code := input.Start();
        if code != 0 {
          if output != null {
            var ignored := output.Stop();
          }
          return;
        }
      }
      code := 0;
    }

    lemma Exact(s: Stream)
      requires CountExact(s)
      ensures CountCovered(s)
    {}

    /** nodeStop: both streams are stopped, and the first error is reported. */
    method StopNode() returns (code: int)
      requires Valid()
      modifies output, input
      ensures (Val(), code) == NodeStop(old(Val()))
      ensures output != null ==> output.buffers == old(output.buffers)
      ensures input != null ==> input.buffers == old(input.buffers)
    {
      hide Stop;
      var status := 0;
      if output != null {
        status := output.Stop();
      }
      var outputStatus := status;
      if input != null {
        status := input.Stop();
      }
      code := if outputStatus != 0 then outputStatus else status;
    }
  }
}
