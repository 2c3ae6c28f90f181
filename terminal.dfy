/** The terminal drawer's handling of one command run: the `connect`,
    `command-output` and `command-complete` socket events, the output buffer
    they fill, and the write-back of a successful run into a node's notes. */
module Terminal {
  import opened Wrappers
  import opened Text
  import opened Graph
  import opened Lists
  import opened Store
  import Json

  // ---------------------------------------------------------------------
  // What the handlers write to the terminal
  // ---------------------------------------------------------------------

  /** `term.writeln(s)`: the text followed by CR LF. */
  function Writeln(s: string): string
  {
    s + "\r\n"
  }

  const ConnectedLine := "\U{001B}[34m> Connected to backend.\U{001B}[0m"

  function ExecutingLine(command: string): string
  {
    "\U{001B}[33m> Executing: " + command + "\U{001B}[0m"
  }

  /** The exit code is printed as a JavaScript number prints an integer. */
  function FinishedLine(code: int): string
  {
    "\U{001B}[34m> Command finished with exit code " + Json.PrintInt(code) + "\U{001B}[0m"
  }

  const SavedLine := "\U{001B}[32m> Output saved to node Results.\U{001B}[0m"

  function ConnectionErrorLine(message: string): string
  {
    "\U{001B}[31m> Connection Error: " + message + "\U{001B}[0m"
  }

  /** The `run-command` message sent to the backend. */
  datatype RunCommand = RunCommand(command: string, targetName: string)

  /** `target ? target.name : 'unknown'`. */
  function TargetName(t: Option<Target>): string
  {
    match t
    case Some(target) => target.name
    case None => "unknown"
  }

  /** The output chunks joined in arrival order. */
  function Concat(chunks: seq<string>): string
  {
    if chunks == [] then "" else Concat(chunks[..|chunks| - 1]) + chunks[|chunks| - 1]
  }

  // ---------------------------------------------------------------------
  // Writing a run into a node's notes
  // ---------------------------------------------------------------------

  /** The HTML block appended for one run; the output goes in unescaped. */
  function RunHtml(timestamp: string, output: string): string
  {
    "<h3>Run at " + timestamp + "</h3><pre><code>" + output + "</code></pre><p></p>"
  }

  /** Where the output starts inside `RunHtml(timestamp, output)`. */
  function OutputOffset(timestamp: string): nat
  {
    |"<h3>Run at " + timestamp + "</h3><pre><code>"|
  }

  /** `node.data.content || ""`: a missing and an empty content both read as "". */
  function ExistingContent(n: Node): string
  {
    match Lookup(n.data, "content")
    case Some(c) => c
    case None => ""
  }

  /** `{ ...node, data: { ...node.data, content: newContent } }`. */
  function WithRun(n: Node, timestamp: string, output: string): Node
  {
    n.(data := Merge(n.data, [Entry("content", ExistingContent(n) + RunHtml(timestamp, output))]))
  }

  /** The `map` inside `saveToNode`: every node with the id gets the run appended. */
  function AppendRun(nodes: seq<Node>, nodeId: string, timestamp: string, output: string): (r: seq<Node>)
    ensures |r| == |nodes|
    ensures forall i :: 0 <= i < |nodes| && nodes[i].id != nodeId ==> r[i] == nodes[i]
    ensures forall i :: 0 <= i < |nodes| && nodes[i].id == nodeId ==> r[i] == WithRun(nodes[i], timestamp, output)
  {
    seq(|nodes|, i requires 0 <= i < |nodes| =>
      if nodes[i].id == nodeId then WithRun(nodes[i], timestamp, output) else nodes[i])
  }

  /**
   * The target list after `saveToNode`: unchanged when no target is active,
   * otherwise the active target's nodes with the run appended, written back
   * under the active target's id.
   */
  function SaveResult(targets: seq<Target>, active: Option<string>, nodeId: string, timestamp: string, output: string): seq<Target>
  {
    match Find(targets, TargetId, active)
    case None => targets
    case Some(t) => WithNodes(targets, t.id, AppendRun(t.nodes, nodeId, timestamp, output))
  }

  /**
   * What a run does to a node: identity, type and position stay, every data
   * field other than `content` reads as before, and the content reads as the
   * old content followed by the run's block.
   */
  lemma WithRunFields(n: Node, timestamp: string, output: string)
    ensures var m := WithRun(n, timestamp, output);
      && m.id == n.id && m.kind == n.kind && m.position == n.position
      && (forall key :: key != "content" ==> Lookup(m.data, key) == Lookup(n.data, key))
      && Lookup(m.data, "content") == Some(ExistingContent(n) + RunHtml(timestamp, output))
  {
    var patch := [Entry("content", ExistingContent(n) + RunHtml(timestamp, output))];
    forall key | key != "content"
      ensures Lookup(Merge(n.data, patch), key) == Lookup(n.data, key)
    {
      MergeLookup(n.data, patch, key);
    }
    MergeLookup(n.data, patch, "content");
  }

  /** Notes with a run appended start with the old notes and hold the output
      verbatim right after the run's header. */
  lemma AppendedRunText(existing: string, timestamp: string, output: string)
    ensures var c := existing + RunHtml(timestamp, output);
      && c[..|existing|] == existing
      && OccursAt(c, output, |existing| + OutputOffset(timestamp))
  {
    var head := "<h3>Run at " + timestamp + "</h3><pre><code>";
    var c := existing + RunHtml(timestamp, output);
    assert c == existing + head + output + "</code></pre><p></p>";
    assert c[|existing| + |head|..|existing| + |head| + |output|] == output;
  }

  /**
   * `saveToNode` with an active target changes only that target's node list,
   * and the active target read back afterwards carries the updated nodes;
   * with no active target nothing changes.
   */
  lemma SaveResultEffect(targets: seq<Target>, active: Option<string>, nodeId: string, timestamp: string, output: string)
    ensures var r := SaveResult(targets, active, nodeId, timestamp, output);
      match Find(targets, TargetId, active)
      case None => r == targets
      case Some(t) =>
        && |r| == |targets|
        && (forall i :: 0 <= i < |targets| && targets[i].id != t.id ==> r[i] == targets[i])
        && Find(r, TargetId, active) == Some(t.(nodes := AppendRun(t.nodes, nodeId, timestamp, output)))
  {
    match Find(targets, TargetId, active)
    case None =>
    case Some(t) =>
      FindWithNodes(targets, t.id, AppendRun(t.nodes, nodeId, timestamp, output));
  }

  // ---------------------------------------------------------------------
  // One terminal session
  // ---------------------------------------------------------------------

  /**
   * The drawer while it is open on one command. `command` and `targetNodeId`
   * are the component's props, fixed for the session; `buffer` is
   * `outputBuffer.current`; `screen` is everything written to the terminal by
   * the handlers; `sent` the messages emitted on the socket.
   */
  class Session {
    const store: AppStore
    const command: Option<string>
    const targetNodeId: Option<string>
    var buffer: string
    var screen: string
    var sent: seq<RunCommand>
    /** The output chunks received since the buffer was last reset. */
    ghost var chunks: seq<string>
    /** The terminal text those chunks were shown as. */
    ghost var echoed: string

    /** The buffer holds exactly the raw chunks in arrival order, and what the
        terminal showed for them is the newline fix-up of the buffer. */
    ghost predicate Valid()
      reads this
    {
      buffer == Concat(chunks) && echoed == Crlf(buffer)
    }

    constructor (store: AppStore, command: Option<string>, targetNodeId: Option<string>)
      ensures this.store == store && this.command == command && this.targetNodeId == targetNodeId
      ensures buffer == "" && screen == "" && sent == []
      ensures Valid()
    {
      this.store := store;
      this.command := command;
      this.targetNodeId := targetNodeId;
      buffer := "";
      screen := "";
      sent := [];
      chunks := [];
      echoed := "";
    }

    /** The `connect` handler: a present, non-empty command resets the buffer and
        is sent with the active target's name; otherwise only the banner shows. */
    method OnConnect()
      requires Valid()
      modifies this
      ensures Valid()
      ensures Truthy(command) ==>
        && screen == old(screen) + Writeln(ConnectedLine) + Writeln(ExecutingLine(command.value)) + Writeln("")
        && buffer == ""
        && sent == old(sent) + [RunCommand(command.value, TargetName(store.GetActiveTarget()))]
      ensures !Truthy(command) ==>
        screen == old(screen) + Writeln(ConnectedLine) && buffer == old(buffer) && sent == old(sent)
    {
      screen := screen + Writeln(ConnectedLine);
      if Truthy(command) {
        screen := screen + Writeln(ExecutingLine(command.value));
        screen := screen + Writeln("");
        buffer := "";
        chunks := [];
        echoed := "";
        var target := store.GetActiveTarget();
        var targetName := if target.Some? then target.value.name else "unknown";
        sent := sent + [RunCommand(command.value, targetName)];
      }
    }

    /** The `command-output` handler: the chunk is shown with CR LF line ends
        and kept raw in the buffer. */
    method OnOutput(data: string)
      requires Valid()
      modifies this
      ensures Valid()
      ensures chunks == old(chunks) + [data]
      ensures screen == old(screen) + Crlf(data)
      ensures buffer == old(buffer) + data && sent == old(sent)
    {
      var formatted := ReplaceAll(data, "\n", "\r\n");
      screen := screen + formatted;
      CrlfAppend(buffer, data);
      buffer := buffer + data;
      chunks := chunks + [data];
      assert chunks[..|chunks| - 1] == old(chunks);
      echoed := echoed + formatted;
    }

    /** The `connect_error` handler: only the error line is written. */
    method OnConnectError(message: string)
      requires Valid()
      modifies this
      ensures Valid()
      ensures screen == old(screen) + Writeln(ConnectionErrorLine(message))
      ensures buffer == old(buffer) && sent == old(sent)
    {
      screen := screen + Writeln(ConnectionErrorLine(message));
    }

    /** `saveToNode(nodeId, output)`, with the time of day passed in. */
    method SaveToNode(nodeId: string, output: string, timestamp: string)
      modifies store
      ensures store.targets == SaveResult(old(store.targets), old(store.activeTargetId), nodeId, timestamp, output)
      ensures store.templates == old(store.templates) && store.activeTargetId == old(store.activeTargetId)
      ensures store.defaultTemplateId == old(store.defaultTemplateId)
    {
      var target := store.GetActiveTarget();
      if target.None? {
        return;
      }
      var updated := AppendRun(target.value.nodes, nodeId, timestamp, output);
      store.UpdateTargetNodes(target.value.id, updated);
    }

    /**
     * The `command-complete` handler: the exit line is always written; the run
     * is saved to the target node, and the saved line written, exactly when a
     * node id is set, the code is 0 and some output arrived.
     */
    method OnComplete(code: int, timestamp: string)
      requires Valid()
      modifies this, store
      ensures Valid() && buffer == old(buffer) && sent == old(sent)
      ensures var save := Truthy(targetNodeId) && code == 0 && old(buffer) != "";
        && screen == old(screen) + Writeln("") + Writeln(FinishedLine(code)) + (if save then Writeln(SavedLine) else "")
        && store.targets == (if save then SaveResult(old(store.targets), old(store.activeTargetId), targetNodeId.value, timestamp, old(buffer))
                             else old(store.targets))
      ensures store.templates == old(store.templates) && store.activeTargetId == old(store.activeTargetId)
      ensures store.defaultTemplateId == old(store.defaultTemplateId)
    {
      screen := screen + Writeln("");
      screen := screen + Writeln(FinishedLine(code));
      if Truthy(targetNodeId) && code == 0 && buffer != "" {
        SaveToNode(targetNodeId.value, buffer, timestamp);
        screen := screen + Writeln(SavedLine);
      }
    }
  }

  /** Two chunks in a row leave the buffer holding both, in order, however the
      output was split. */
  lemma {:induction false} ConcatAppend(a: seq<string>, b: seq<string>)
    ensures Concat(a + b) == Concat(a) + Concat(b)
    decreases |b|
  {
    if b == [] {
      assert a + b == a;
    } else {
      var n := |b| - 1;
      assert (a + b)[..|a + b| - 1] == a + b[..n];
      ConcatAppend(a, b[..n]);
    }
  }
}
