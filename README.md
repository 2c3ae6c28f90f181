# NetRunner workflow core in Dafny

NetRunner is a browser client for bug-bounty reconnaissance. Each target
(a domain) has a graph of tool nodes. The model covers six parts of it:

- the target/template store;
- the built-in recon tree generator;
- the terminal drawer that runs a node's command and writes its output back
  into the node's notes;
- the canvas edit handlers;
- the sidebar's new-target dialog and default-template star;
- the route guard that checks the stored login token.

Modules, one per file:

- `Wrappers`: `Option` and JavaScript string truthiness.
- `Text`: `replaceAll` with a string pattern, including the `$$`, `$&`,
  `` $` `` and `$'` patterns it expands in the replacement, the terminal's
  newline fix-up and `trim`.
- `Json`: `JSON.stringify` and `JSON.parse` for the values the store
  serialises. The two are proved inverse.
- `Graph`: nodes, edges, the `data` record as an ordered list of entries with
  spread semantics, and the JSON form of node and edge lists.
- `Lists`: `find` and `filter` by id.
- `Recon`: `generateReconTree`, as the method that pushes one node (and one
  edge) per `addNode` call. The shape of the result is proved for every
  domain.
- `Store`: the Zustand store as the class `AppStore`. It has one method per
  action, and the `{{TARGET}}` substitution round trip.
- `Terminal`: one run of the terminal drawer as the class `Session`. Socket
  events are method calls. `saveToNode` is proved to only append to the notes.
- `Canvas`: the node update, delete and add handlers as functions on the
  canvas state.
- `Sidebar`: `handleCreate` and the star toggle, with the proof that
  "Default System" never uses the custom default template.
- `Auth`: the token check of the protected route, and its effects on storage
  and on the status.

Values the program draws from outside become parameters:

- `crypto.randomUUID()`;
- `Math.random()`;
- `toLocaleTimeString()`;
- `Date.now()`;
- `jwtDecode`;
- the socket's events.

## Model

| member | source | states |
|---|---|---|
| Text.ReplaceAbsent | src/store/useStore.ts:67-68 | replacing a pattern that does not occur leaves the text unchanged |
| Text.ReplaceAll | src/store/useStore.ts:137 | `replaceAll` with a replacement that stands for itself; `Text.ReplaceAbsent`, `Text.ReplaceRoundTrip` and `Text.SubstituteLiteral` state its behaviour |
| Text.ExpandLiteral | src/store/useStore.ts:67 | a replacement without `$$`, `$&`, `` $` `` or `$'` expands to itself at every match |
| Text.SubstituteLiteral | src/store/useStore.ts:67-68 | with such a replacement, `replaceAll` with its `$`-pattern expansion is plain replacement of every non-overlapping match |
| Text.ReplaceRoundTrip | src/store/useStore.ts:137-138 | replacing a non-empty domain by `{{TARGET}}` and then, with `replaceAll`'s `$`-pattern expansion, `{{TARGET}}` by the domain gives the text back, when the placeholder is unbordered and absent from the text and the domain holds no `$` pattern |
| Text.CrlfReversible | src/components/TerminalDrawer.tsx:86-88 | the displayed text turns back into the raw output when CR LF is turned back into LF |
| Text.CrlfAppend | src/components/TerminalDrawer.tsx:85-89 | fixing newlines chunk by chunk equals fixing the concatenated output |
| Text.Crlf | src/components/TerminalDrawer.tsx:87 | the newline fix-up; `Text.CrlfReversible` and `Text.CrlfAppend` state that it loses nothing and works chunk by chunk |
| Text.TrimStartShape | src/components/ProjectSidebar.tsx:83-85 | `trimStart` keeps a suffix, drops only white space, and what it keeps does not start with white space |
| Text.TrimEndShape | src/components/ProjectSidebar.tsx:83-85 | `trimEnd` keeps a prefix, drops only white space, and what it keeps does not end with white space |
| Text.TrimEmpty | src/components/ProjectSidebar.tsx:83 | `trim()` is empty exactly when the input is all white space |
| Text.TrimIdempotent | src/components/ProjectSidebar.tsx:85 | trimming a trimmed domain changes nothing |
| Text.Trim | src/components/ProjectSidebar.tsx:83 | `trim()`; `Text.TrimStartShape`, `Text.TrimEndShape`, `Text.TrimEmpty` and `Text.TrimIdempotent` state what it keeps and drops |
| Json.Parse | src/store/useStore.ts:70-71 | whatever text parses is exactly the printing of the parsed value |
| Json.ParsePrint | src/store/useStore.ts:61-71 | parsing the printed value gives the value back |
| Json.Print | src/store/useStore.ts:61-62 | `JSON.stringify` writes non-empty text that does not start with a closing bracket; `Json.ParsePrint` states that `Json.Parse` inverts it |
| Graph.Lookup | src/components/TerminalDrawer.tsx:134 | a property is missing exactly when no entry has its key; a found value belongs to an entry with that key |
| Graph.MergeLookup | src/components/TerminalDrawer.tsx:140 | after `{ ...base, ...patch }` a key reads the patch value where the patch has that key, otherwise the base value |
| Graph.MergeEmpty | src/components/WorkflowCanvas.tsx:51 | spreading an empty object changes nothing |
| Graph.Merge | src/components/TerminalDrawer.tsx:140 | the spread keeps the base's keys first and in order; `Graph.MergeLookup` and `Graph.MergeEmpty` state what each key reads |
| Graph.NodeRoundTrip | src/store/useStore.ts:61-71 | a node decodes back from its JSON form |
| Graph.EdgeRoundTrip | src/store/useStore.ts:61-71 | an edge decodes back from its JSON form |
| Graph.ParseNodes | src/store/useStore.ts:70 | any node list parsed from text prints back to that exact text |
| Graph.ParseEdges | src/store/useStore.ts:71 | any edge list parsed from text prints back to that exact text |
| Graph.ParseStringifyNodes | src/store/useStore.ts:61-70 | parsing a stringified node list gives the list back |
| Graph.ParseStringifyEdges | src/store/useStore.ts:62-71 | parsing a stringified edge list gives the list back |
| Lists.Find | src/store/useStore.ts:165 | `find` gives the FIRST element whose key is the id, and finds none exactly when the id is null or no element has it |
| Lists.Without | src/store/useStore.ts:94 | the filter keeps only elements whose key differs, and keeps all of them |
| Lists.WithoutAppend | src/store/useStore.ts:94 | the filter keeps the survivors in their original order |
| Lists.WithoutAbsent | src/store/useStore.ts:94 | filtering out an id no element has leaves the list unchanged |
| Recon.CategoryColor | src/lib/initialData.ts:28-41 | the colour is the grey default exactly for categories outside the nine known ones, `Root` included |
| Recon.CategoryColorsDistinct | src/lib/initialData.ts:29-38 | different known categories get different colours |
| Recon.NodeOfData | src/lib/initialData.ts:11-16 | a pushed node holds the label, category, rendered command and description it was given |
| Recon.EdgeOf | src/lib/initialData.ts:17-25 | the edge runs from the parent to the child, has id `e-<parent>-<child>`, is animated and has the colour of the child's category, width 2 |
| Recon.PlanEdgesAt | src/lib/initialData.ts:17-25 | every step after the first has a truthy parent and pushes edge k-1, so there is one edge fewer than nodes |
| Recon.PlanEdgeInto | src/lib/initialData.ts:17-25 | edge k-1 leads into node k from a node added before it |
| Recon.PlanTree | src/lib/initialData.ts:45-134 | well-planned calls build a tree: distinct ids and edge k leading into node k+1 from an earlier node |
| Recon.OneParentEach | src/lib/initialData.ts:45-134 | in a tree-shaped graph node i has an incoming edge exactly when i > 0, and exactly one |
| Recon.DomainOnlyInCommands | src/lib/initialData.ts:58-118 | ids, node types, positions and every data property except `command` are the same for every domain |
| Recon.AddNode | src/lib/initialData.ts:10-26 | pushes one node, and an edge exactly when the parent id is truthy |
| Recon.AddRoot | src/lib/initialData.ts:43-49 | the calls for the root and the subdomain-enumeration node, in order |
| Recon.AddPassiveBranch | src/lib/initialData.ts:51-62 | the calls for the passive group and its five tools, in order |
| Recon.AddActiveBranch | src/lib/initialData.ts:64-76 | the calls for the active group, its three tools and the merge node, in order |
| Recon.AddProbingBranch | src/lib/initialData.ts:79-85 | the calls for branch B, in order |
| Recon.AddPortBranch | src/lib/initialData.ts:88-95 | the calls for branch C, in order |
| Recon.AddFingerprintBranch | src/lib/initialData.ts:98-103 | the calls for branch D, in order |
| Recon.AddVisualBranch | src/lib/initialData.ts:105-110 | the calls for branch E, in order |
| Recon.AddContentBranch | src/lib/initialData.ts:112-118 | the calls for branch F, in order |
| Recon.AddUrlBranch | src/lib/initialData.ts:120-126 | the calls for branch G, in order |
| Recon.AddVulnBranch | src/lib/initialData.ts:128-134 | the calls for branch H, in order |
| Recon.ReconPlanShape | src/lib/initialData.ts:45 | there are 38 calls and the first adds `recon` with no parent |
| Recon.DescriptionsBlank | src/lib/initialData.ts:45-134 | every call passes an empty description |
| Recon.ReconPlanWellPlanned | src/lib/initialData.ts:45-134 | ids are distinct, each parent was added earlier, and only the root has no parent; the proof goes through ranges of calls, one helper lemma per range |
| Recon.ReconTree | src/lib/initialData.ts:45-136 | for every domain: 38 nodes, 37 edges, root `recon`, tree-shaped, every node's `content` empty |
| Recon.GenerateReconTree | src/lib/initialData.ts:6-136 | returns the graph of the 38 calls: 38 nodes, 37 edges, root `recon`, tree-shaped |
| Store.WithNodes | src/store/useStore.ts:107-111 | only targets with the id get the new nodes; length, order, ids and other fields are unchanged |
| Store.WithEdges | src/store/useStore.ts:113-117 | only targets with the id get the new edges; length, order, ids and other fields are unchanged |
| Store.ActiveAfterRemove | src/store/useStore.ts:95-98 | the active id after a removal; `Store.RemoveKeepsActive` states that it names a remaining target or is null, and when it is null |
| Store.FindWithNodes | src/store/useStore.ts:109 | after replacing nodes, looking the id up finds the same target with the new nodes |
| Store.RemoveKeepsActive | src/store/useStore.ts:92-101 | after a removal the active id still names a target or is null, and it is null only if it was, or if the active target was removed and none remain |
| Store.UpdateKeepsActive | src/store/useStore.ts:107-117 | replacing nodes or edges never leaves the active id dangling |
| Store.PlaceholderUnbordered | src/store/useStore.ts:67 | two occurrences of `{{TARGET}}` can never overlap |
| Store.Instantiate | src/store/useStore.ts:67-68 | `replaceAll('{{TARGET}}', domain)` with the domain's `$` patterns expanded at each match; `Store.SaveThenInstantiate` and `Store.DollarDefeatsRoundTrip` state when it undoes `Store.Abstract` |
| Store.Abstract | src/store/useStore.ts:137-138 | `replaceAll(name, '{{TARGET}}')`; `Store.AbstractReplacesPlainly` states that it is `replaceAll` exactly |
| Store.AbstractReplacesPlainly | src/store/useStore.ts:137-138 | for a non-empty name, replacing it by `{{TARGET}}` is `replaceAll` with its substitution, since the placeholder holds no `$` |
| Store.DollarDefeatsRoundTrip | src/store/useStore.ts:67-68 | a target named `a$&b` whose text is its name is saved as `{{TARGET}}`, and instantiating that for `a$&b` gives `a{{TARGET}}b`, not the original |
| Store.ChosenTemplateId | src/store/useStore.ts:56 | the template id used; `Store.OmittedUsesDefault` and `Store.NullBypassesDefault` state that only an omitted id falls back to the default |
| Store.FromTemplate | src/store/useStore.ts:59-71 | the new graph stringifies to the template text with every `{{TARGET}}` replaced as `replaceAll` does, `$` patterns in the domain included |
| Store.NullBypassesDefault | src/store/useStore.ts:56-57 | a null template id gives the built-in 38-node tree whatever the default template is |
| Store.OmittedUsesDefault | src/store/useStore.ts:56 | leaving the template id out is the same as passing the default template id |
| Store.NewTargetGraphCases | src/store/useStore.ts:56-76 | with a matching template the graph is the substituted template text; without one it is the built-in tree |
| Store.NewTargetGraph | src/store/useStore.ts:56-76 | the graph `addTarget` builds; `Store.NewTargetGraphCases` states its two cases |
| Store.SavedGraph | src/store/useStore.ts:124-145 | the saved graph stringifies to the source text with the target name replaced by `{{TARGET}}` |
| Store.SaveThenInstantiate | src/store/useStore.ts:124-138 | saving a target as a template and creating a target with the same name from it gives back the original graph, when the name is non-empty and holds no `$` pattern and the text has no `{{TARGET}}` |
| Store.AppStore.constructor | src/store/useStore.ts:45-48 | the store starts with no targets, no templates, and null active and default ids |
| Store.AppStore.GetActiveTarget | src/store/useStore.ts:163-166 | returns the FIRST target whose id is the active id, and none exactly when the id is null or names no target |
| Store.AppStore.AddTarget | src/store/useStore.ts:50-90 | appends exactly one target named with the domain, with the graph the chosen template (substituted as `replaceAll` does) or the generator gives, and makes it active; a throwing parse changes nothing |
| Store.AppStore.RemoveTarget | src/store/useStore.ts:92-101 | drops the targets with the id in order and moves a removed active id to the first survivor or null |
| Store.AppStore.SetActiveTarget | src/store/useStore.ts:103-105 | sets the active id and nothing else |
| Store.AppStore.UpdateTargetNodes | src/store/useStore.ts:107-111 | replaces the nodes of matching targets only and keeps the active id valid |
| Store.AppStore.UpdateTargetEdges | src/store/useStore.ts:113-117 | replaces the edges of matching targets only and keeps the active id valid |
| Store.AppStore.SaveTemplate | src/store/useStore.ts:119-150 | an unknown source changes nothing; a source whose abstracted text does not parse into the model's node and edge shape is reported as thrown and changes nothing; otherwise one template with the abstracted graph is appended |
| Store.AppStore.DeleteTemplate | src/store/useStore.ts:152-157 | drops the templates with the id and clears the default exactly when it was that id |
| Store.AppStore.SetDefaultTemplate | src/store/useStore.ts:159-161 | sets the default id and nothing else |
| Terminal.AppendRun | src/components/TerminalDrawer.tsx:130-143 | only nodes with the id get the run appended; length and order are unchanged |
| Terminal.WithRun | src/components/TerminalDrawer.tsx:134-140 | one node with a run appended; `Terminal.WithRunFields` and `Terminal.AppendedRunText` state what changes |
| Terminal.SaveResult | src/components/TerminalDrawer.tsx:127-146 | the targets after `saveToNode`; `Terminal.SaveResultEffect` states its effect |
| Terminal.WithRunFields | src/components/TerminalDrawer.tsx:134-140 | id, type, position and every other data field are kept; the content reads as the old content (or "") followed by the run block |
| Terminal.AppendedRunText | src/components/TerminalDrawer.tsx:138 | the old notes are a prefix of the new ones, and the raw output appears right after the run header |
| Terminal.SaveResultEffect | src/components/TerminalDrawer.tsx:127-146 | with no active target nothing changes; otherwise only the active target's node list changes and reading it back gives the updated nodes |
| Terminal.ConcatAppend | src/components/TerminalDrawer.tsx:89 | the buffer of two batches of chunks is the buffers of each, joined |
| Terminal.Session.constructor | src/components/TerminalDrawer.tsx:24 | the buffer starts empty |
| Terminal.Session.OnConnect | src/components/TerminalDrawer.tsx:69-83 | with a non-empty command, clears the buffer and sends the command with the active target's name or `unknown`; otherwise only the banner line |
| Terminal.Session.OnOutput | src/components/TerminalDrawer.tsx:85-90 | shows the chunk with CR LF line ends and appends it raw to the buffer, keeping the buffer equal to the chunks in order |
| Terminal.Session.OnConnectError | src/components/TerminalDrawer.tsx:103-105 | writes only the error line |
| Terminal.Session.SaveToNode | src/components/TerminalDrawer.tsx:127-146 | writes the active target's nodes with the run appended back under its id; nothing else in the store changes |
| Terminal.Session.OnComplete | src/components/TerminalDrawer.tsx:92-101 | always writes the exit line; saves and writes the saved line exactly when a node id is set, the code is 0 and the buffer is non-empty |
| Canvas.UpdateNodes | src/components/WorkflowCanvas.tsx:48-55 | only nodes with the id get the patch; length and order are unchanged |
| Canvas.UpdateSelected | src/components/WorkflowCanvas.tsx:57 | the selection after a patch; `Canvas.NodeUpdateConsistent` states that it stays the list's node |
| Canvas.HandleNodeUpdate | src/components/WorkflowCanvas.tsx:47-58 | `handleNodeUpdate`; `Canvas.NodeUpdateConsistent` and `Canvas.EmptyPatchIdentity` state its effect |
| Canvas.PatchedFields | src/components/WorkflowCanvas.tsx:51 | a patched node keeps id, type and position, and each field reads the patch value where the patch has one |
| Canvas.NodeUpdateConsistent | src/components/WorkflowCanvas.tsx:47-58 | a selection that was a list node is still that same list node after an update |
| Canvas.EmptyPatchIdentity | src/components/WorkflowCanvas.tsx:47-58 | an empty patch leaves the canvas unchanged |
| Canvas.Detach | src/components/WorkflowCanvas.tsx:62 | no kept edge touches the id, and every edge that does not touch it is kept |
| Canvas.DetachAppend | src/components/WorkflowCanvas.tsx:62 | the kept edges stay in their original order |
| Canvas.DetachUntouched | src/components/WorkflowCanvas.tsx:62 | deleting a node no edge touches leaves the edges unchanged |
| Canvas.HandleDeleteNode | src/components/WorkflowCanvas.tsx:60-65 | `handleDeleteNode`; `Canvas.DeleteNodeEffect` states its effect |
| Canvas.HandleAddNode | src/components/WorkflowCanvas.tsx:67-76 | `handleAddNode`; `Canvas.AddNodeEffect` states its effect |
| Canvas.DeleteNodeEffect | src/components/WorkflowCanvas.tsx:60-65 | no node has the id and no edge mentions it; every other node and edge remains; the panel is closed and nothing is selected |
| Canvas.AddNodeEffect | src/components/WorkflowCanvas.tsx:67-76 | exactly one node, labelled `New Node` in `Passive Enum`, is appended after the unchanged nodes |
| Sidebar.TemplateChoice | src/components/ProjectSidebar.tsx:84 | null exactly for `"default"`; any other selection passes through unchanged |
| Sidebar.StarToggle | src/components/ProjectSidebar.tsx:133 | the clicked template becomes the default exactly when it was not; otherwise the default becomes null |
| Sidebar.DefaultEntryIgnoresCustomDefault | src/components/ProjectSidebar.tsx:84 | choosing "Default System" gives the built-in tree even when a custom default is set, although line 256 labels that entry "(Custom Default Active)" |
| Sidebar.NewTargetDialog.constructor | src/components/ProjectSidebar.tsx:77-79 | the dialog starts closed, with an empty domain and "default" selected |
| Sidebar.NewTargetDialog.HandleCreate | src/components/ProjectSidebar.tsx:82-89 | a domain that trims to nothing changes nothing; otherwise `addTarget` runs on the trimmed domain with the mapped choice (a template substituted as `replaceAll` does), then the input is cleared and the dialog closed |
| Auth.Classify | src/components/ProtectedRoute.tsx:9-30 | no token exactly when it is missing or empty; undecodable exactly when decoding fails; expired exactly when `exp` is strictly before now; otherwise accepted |
| Auth.ExpiredAt | src/components/ProtectedRoute.tsx:19 | the expiry test; `Auth.ExpiryBoundary` states that only an `exp` strictly before now counts as expired |
| Auth.ExpiryBoundary | src/components/ProtectedRoute.tsx:19-24 | accepts every token before its expiry and every token without `exp` (a claim RFC 7519 makes optional); it also accepts one expiring exactly now, which section 4.1.4 of RFC 7519 rejects |
| Auth.View | src/components/ProtectedRoute.tsx:33-38 | the loading view exactly while the status is null; the protected outlet exactly when it is true |
| Auth.Guard.constructor | src/components/ProtectedRoute.tsx:6 | the status starts null, so the loading view shows |
| Auth.Guard.CheckToken | src/components/ProtectedRoute.tsx:8-31 | sets the status once, to whether the token was accepted; removes an undecodable or expired token and keeps storage otherwise |

## Left out

- ReplaceRoundTrip: promised only for a domain with none of the `$$`, `$&`, `` $` `` or `$'` patterns. `replaceAll` expands them, so for such a domain the round trip can fail; `Store.DollarDefeatsRoundTrip` exhibits a failing case.
- SaveThenInstantiate: promised only for a target name with none of those `$` patterns, for the same reason.
- SaveTemplate: the abstracted text must parse into the model's node and edge shape. A name such as `id`, `x` or `data` renames keys of that shape, so the model reports a throw where `JSON.parse` succeeds and a template with renamed keys is saved.
- ParseNodes: a node's `data` object is kept as written. `JSON.parse` keeps one property per key, with the last value at the first occurrence's position, and puts integer-like keys such as `"5"` first in ascending order. The model keeps duplicate keys, where `Lookup` reads the first value, and keeps the written order.
- FromTemplate: inherits the ParseNodes gap. A template saved from a target named like a data key (`label`, `category`) and instantiated for a domain equal to another data key, or a domain such as `5`, gives a graph whose `data` differs from the one JavaScript builds.
- `Json.Parse` only accepts the text `JSON.stringify` writes: no white space and no optional escapes. `JSON.parse` accepts any valid JSON. A substituted domain holding `"` or `\` therefore yields None here, while JavaScript may parse it or throw differently.
- `Graph.ParseNodes` and `Graph.ParseEdges` accept only the node and edge shape the model defines. `JSON.parse` keeps objects of any shape.
- Node `data` values are strings. Positions and the stroke width are integers. The random float positions of `handleAddNode` are integer parameters.
- Strings are sequences of characters. JavaScript's UTF-16 code units, and the Unicode cases of `trim` beyond single code units, are not modelled.
- `FinishedLine` prints the exit code as an integer. Non-integer or null codes are not modelled.
- `Recon.AddNode` and the `Recon.Add...Branch` methods carry a ghost list of the calls made so far. Their precondition only ties the arrays to that list. `generateReconTree`'s single body is split into one method per commented branch.
- The store's `JSON.parse` exceptions are modelled as a `thrown` result that leaves the state unchanged. `handleCreate` then neither clears the input nor closes the dialog.
- Persistence through Zustand `persist` and `localStorage`, and React state and setter mechanics, are not modelled.
- The server (`server/index.js`), the login page and the password form are network plumbing, not modelled.
- Rich text, node rendering, the sidebar editor and `App.tsx` are pure UI, not modelled.
- Terminal rendering is not modelled:
  - the xterm and fit-addon setup, including the "initialized" banner;
  - socket creation and teardown;
  - resize handling.
- `term?.` writes are modelled as always reaching a mounted terminal.
- `Terminal.Session` takes `targetNodeId` as fixed for the session. The effect's dependency list omits it, so React may run a handler with a stale value; that closure timing is not modelled.
- The canvas's `onConnect` (delegated to reactflow's `addEdge`), `onNodeClick` and its initial data are not modelled.
- `Auth.Classify` takes `exp` as whole seconds, or absent. A fractional NumericDate, and an `exp` of another JSON type compared by coercion, are not modelled. `Date.now() / 1000` is compared exactly as `exp * 1000 < nowMs`.
