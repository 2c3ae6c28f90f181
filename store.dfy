/**
 * The client's workflow store: the targets (one workflow graph per domain),
 * the saved templates, the active target and the default template, and the
 * actions that change them. A template is a target's graph with its domain
 * replaced by a placeholder; adding a target from a template puts the domain
 * back in.
 */
module Store {
  import opened Wrappers
  import opened Text
  import opened Graph
  import opened Lists
  import Recon

  /** A domain under test and its workflow graph. */
  datatype Target = Target(id: string, name: string, nodes: seq<Node>, edges: seq<Edge>)

  /** A saved workflow graph. */
  datatype Template = Template(id: string, name: string, nodes: seq<Node>, edges: seq<Edge>)

  function TargetId(t: Target): string { t.id }

  function TemplateId(t: Template): string { t.id }

  // ---------------------------------------------------------------------
  // Updating one target
  // ---------------------------------------------------------------------

  /** `targets.map(t => t.id === id ? { ...t, nodes } : t)`. */
  function WithNodes(ts: seq<Target>, id: string, nodes: seq<Node>): (r: seq<Target>)
    ensures |r| == |ts|
    ensures forall i :: 0 <= i < |ts| ==>
      r[i].id == ts[i].id && r[i].name == ts[i].name && r[i].edges == ts[i].edges
    ensures forall i :: 0 <= i < |ts| ==> r[i].nodes == if ts[i].id == id then nodes else ts[i].nodes
  {
    seq(|ts|, i requires 0 <= i < |ts| => if ts[i].id == id then ts[i].(nodes := nodes) else ts[i])
  }

  /** `targets.map(t => t.id === id ? { ...t, edges } : t)`. */
  function WithEdges(ts: seq<Target>, id: string, edges: seq<Edge>): (r: seq<Target>)
    ensures |r| == |ts|
    ensures forall i :: 0 <= i < |ts| ==>
      r[i].id == ts[i].id && r[i].name == ts[i].name && r[i].nodes == ts[i].nodes
    ensures forall i :: 0 <= i < |ts| ==> r[i].edges == if ts[i].id == id then edges else ts[i].edges
  {
    seq(|ts|, i requires 0 <= i < |ts| => if ts[i].id == id then ts[i].(edges := edges) else ts[i])
  }

  /** After replacing a target's nodes, looking that id up finds the same target with the new nodes. */
  lemma FindWithNodes(ts: seq<Target>, id: string, nodes: seq<Node>)
    ensures Find(WithNodes(ts, id, nodes), TargetId, Some(id)) ==
      match Find(ts, TargetId, Some(id))
      case None => None
      case Some(t) => Some(t.(nodes := nodes))
  {
    var r := WithNodes(ts, id, nodes);
    var i, j := FindIndex(ts, TargetId, Some(id)), FindIndex(r, TargetId, Some(id));
    if i.Some? {
      assert r[i.value] == ts[i.value].(nodes := nodes);
      assert j.Some? && j.value <= i.value;
    } else {
      assert j.None?;
    }
  }

  // ---------------------------------------------------------------------
  // The active target
  // ---------------------------------------------------------------------

  /** The active id names a target, or there is none. */
  predicate ActiveIn(active: Option<string>, ts: seq<Target>)
  {
    active.None? || Find(ts, TargetId, active).Some?
  }

  /**
   * The active id after `removeTarget(id)`: unchanged unless it was `id`, and
   * then the first remaining target's id, or null when none remain.
   */
  function ActiveAfterRemove(active: Option<string>, id: string, remaining: seq<Target>): Option<string>
  {
    if active == Some(id) then (if |remaining| > 0 then Some(remaining[0].id) else None)
    else active
  }

  /** Removing a target never leaves the active id dangling. */
  lemma RemoveKeepsActive(ts: seq<Target>, active: Option<string>, id: string)
    requires ActiveIn(active, ts)
    ensures var rest := Without(ts, TargetId, id);
      ActiveIn(ActiveAfterRemove(active, id, rest), rest)
      && (ActiveAfterRemove(active, id, rest).None? <==> active.None? || (active == Some(id) && rest == []))
  {
    var rest := Without(ts, TargetId, id);
    var next := ActiveAfterRemove(active, id, rest);
    if active == Some(id) && rest != [] {
      assert rest[0] in rest;
      assert FindIndex(rest, TargetId, next) == Some(0);
    } else if active.Some? && active != Some(id) {
      var t := Find(ts, TargetId, active).value;
      assert t in rest;
    }
  }

  /** Replacing nodes or edges keeps every id, so the active id stays valid. */
  lemma UpdateKeepsActive(ts: seq<Target>, active: Option<string>, id: string, nodes: seq<Node>, edges: seq<Edge>)
    requires ActiveIn(active, ts)
    ensures ActiveIn(active, WithNodes(ts, id, nodes)) && ActiveIn(active, WithEdges(ts, id, edges))
  {
    if active.Some? {
      var i := FindIndex(ts, TargetId, active).value;
      var r1, r2 := WithNodes(ts, id, nodes), WithEdges(ts, id, edges);
      assert r1[i].id == active.value && r2[i].id == active.value;
      assert Find(r1, TargetId, active).Some?;
      assert Find(r2, TargetId, active).Some?;
    }
  }

  // ---------------------------------------------------------------------
  // Templates and the placeholder
  // ---------------------------------------------------------------------

  const Placeholder := "{{TARGET}}"

  /** No proper prefix of the placeholder is also a suffix of it. */
  lemma PlaceholderUnbordered()
    ensures Unbordered(Placeholder)
  {
    forall k | 0 < k < |Placeholder|
      ensures Placeholder[..k] != Placeholder[|Placeholder| - k..]
    {
      if k == |Placeholder| - 1 {
        assert Placeholder[..k][1] != Placeholder[|Placeholder| - k..][1];
      } else {
        assert Placeholder[..k][0] != Placeholder[|Placeholder| - k..][0];
      }
    }
  }

  /** `text.replaceAll('{{TARGET}}', domain)`: the domain is the replacement
      template, so a `$` pattern in it is expanded at each match. */
  function Instantiate(text: string, domain: string): string
  {
    Substitute(text, Placeholder, domain)
  }

  /** `text.replaceAll(domain, '{{TARGET}}')`: the placeholder holds no `$`,
      so it goes in as it is (`AbstractReplacesPlainly`). */
  function Abstract(text: string, domain: string): string
  {
    ReplaceAll(text, domain, Placeholder)
  }

  /** For a non-empty name, `Abstract` is exactly what `replaceAll` with the
      placeholder as replacement does. */
  lemma AbstractReplacesPlainly(text: string, domain: string)
    requires |domain| > 0
    ensures Abstract(text, domain) == Substitute(text, domain, Placeholder)
  {
    assert forall i :: 0 <= i < |Placeholder| ==> Placeholder[i] != '$';
    SubstituteLiteral(text, domain, Placeholder);
  }

  /**
   * A `$` pattern in the domain defeats the round trip: a target named
   * `a$&b` whose text is its own name is saved as the bare placeholder, and
   * instantiating that for `a$&b` puts the matched placeholder back inside.
   */
  lemma DollarDefeatsRoundTrip()
    ensures Abstract("a$&b", "a$&b") == Placeholder
    ensures Instantiate(Placeholder, "a$&b") == "a{{TARGET}}b" != "a$&b"
  {
    var d := "a$&b";
    assert d[..|d|] == d && d[|d|..] == [];
    assert Abstract(d, d) == Placeholder + ReplaceAll([], d, Placeholder);
    var p := Placeholder;
    assert p[..|p|] == p && p[|p|..] == [];
    assert SubstituteRest(p, [], p, d) == [];
    assert Expand("b", [], p, []) == "b" + Expand([], [], p, []);
    assert Expand("$&b", [], p, []) == p + Expand("b", [], p, []);
    assert Expand(d, [], p, []) == "a" + Expand("$&b", [], p, []);
    assert Instantiate(p, d) == Expand(d, [], p, []) + SubstituteRest([] + p, [], p, d);
  }

  /** The optional `templateId` argument: left out, or given as a string or null. */
  datatype TemplateArg = Omitted | Given(id: Option<string>)

  /** `templateId !== undefined ? templateId : defaultTemplateId`. */
  function ChosenTemplateId(arg: TemplateArg, defaultId: Option<string>): Option<string>
  {
    match arg
    case Omitted => defaultId
    case Given(id) => id
  }

  /** What the built-in generator returns for a domain. */
  function ReconGraph(domain: string): (seq<Node>, seq<Edge>)
  {
    (Recon.Realize(Recon.ReconPlan, domain), Recon.PlanEdges(Recon.ReconPlan))
  }

  /**
   * The graph of a target created from a template: its serialised nodes and
   * edges with the placeholder replaced by the domain, parsed back; None
   * where `JSON.parse` throws.
   */
  function FromTemplate(tpl: Template, domain: string): (r: Option<(seq<Node>, seq<Edge>)>)
    ensures r.Some? ==> StringifyNodes(r.value.0) == Instantiate(StringifyNodes(tpl.nodes), domain)
    ensures r.Some? ==> StringifyEdges(r.value.1) == Instantiate(StringifyEdges(tpl.edges), domain)
  {
    match ParseNodes(Instantiate(StringifyNodes(tpl.nodes), domain))
    case None => None
    case Some(nodes) =>
      match ParseEdges(Instantiate(StringifyEdges(tpl.edges), domain))
      case None => None
      case Some(edges) => Some((nodes, edges))
  }

  /**
   * The graph `addTarget(domain, templateId)` gives the new target: from the
   * chosen template when one has that id, else the built-in recon tree; None
   * where parsing the substituted text throws.
   */
  function NewTargetGraph(templates: seq<Template>, defaultId: Option<string>, arg: TemplateArg, domain: string)
    : Option<(seq<Node>, seq<Edge>)>
  {
    match Find(templates, TemplateId, ChosenTemplateId(arg, defaultId))
    case Some(tpl) => FromTemplate(tpl, domain)
    case None => Some(ReconGraph(domain))
  }

  /** Passing null (what "Default System" sends) always gives the built-in tree, whatever the default. */
  lemma NullBypassesDefault(templates: seq<Template>, defaultId: Option<string>, domain: string)
    ensures NewTargetGraph(templates, defaultId, Given(None), domain) == Some(ReconGraph(domain))
    ensures |ReconGraph(domain).0| == 38 && |ReconGraph(domain).1| == 37
  {
    Recon.ReconTree(domain);
  }

  /** Leaving the argument out is the same as passing the default template's id. */
  lemma OmittedUsesDefault(templates: seq<Template>, defaultId: Option<string>, domain: string)
    ensures NewTargetGraph(templates, defaultId, Omitted, domain) == NewTargetGraph(templates, defaultId, Given(defaultId), domain)
  {
  }

  /**
   * With a matching template, the new graph is the template's serialised text
   * with the placeholder replaced; without one, it is the built-in tree.
   */
  lemma NewTargetGraphCases(templates: seq<Template>, defaultId: Option<string>, arg: TemplateArg, domain: string)
    ensures var tid := ChosenTemplateId(arg, defaultId);
      var g := NewTargetGraph(templates, defaultId, arg, domain);
      && (Find(templates, TemplateId, tid).None? ==> g == Some(ReconGraph(domain)))
      && (forall tpl :: Find(templates, TemplateId, tid) == Some(tpl) && g.Some? ==>
            StringifyNodes(g.value.0) == Instantiate(StringifyNodes(tpl.nodes), domain)
            && StringifyEdges(g.value.1) == Instantiate(StringifyEdges(tpl.edges), domain))
  {
  }

  /**
   * The graph `saveTemplate` stores for a target: its serialised nodes and
   * edges with every occurrence of its name replaced by the placeholder,
   * parsed back; None where `JSON.parse` throws.
   */
  function SavedGraph(t: Target): (r: Option<(seq<Node>, seq<Edge>)>)
    ensures r.Some? ==> StringifyNodes(r.value.0) == Abstract(StringifyNodes(t.nodes), t.name)
    ensures r.Some? ==> StringifyEdges(r.value.1) == Abstract(StringifyEdges(t.edges), t.name)
  {
    match ParseNodes(Abstract(StringifyNodes(t.nodes), t.name))
    case None => None
    case Some(nodes) =>
      match ParseEdges(Abstract(StringifyEdges(t.edges), t.name))
      case None => None
      case Some(edges) => Some((nodes, edges))
  }

  /**
   * Saving a target as a template and creating a target for the same
   * (non-empty) domain from it gives back the original graph, provided the
   * serialised graph did not already contain the placeholder and the domain
   * holds no `$` pattern (`DollarDefeatsRoundTrip` shows why).
   */
  lemma SaveThenInstantiate(t: Target, tpl: Template)
    requires |t.name| > 0 && Literal(t.name)
    requires Free(StringifyNodes(t.nodes), Placeholder) && Free(StringifyEdges(t.edges), Placeholder)
    requires SavedGraph(t) == Some((tpl.nodes, tpl.edges))
    ensures FromTemplate(tpl, t.name) == Some((t.nodes, t.edges))
  {
    PlaceholderUnbordered();
    ReplaceRoundTrip(StringifyNodes(t.nodes), t.name, Placeholder);
    ReplaceRoundTrip(StringifyEdges(t.edges), t.name, Placeholder);
    ParseStringifyNodes(t.nodes);
    ParseStringifyEdges(t.edges);
  }

  // ---------------------------------------------------------------------
  // The store
  // ---------------------------------------------------------------------

  class AppStore {
    var targets: seq<Target>
    var templates: seq<Template>
    var activeTargetId: Option<string>
    var defaultTemplateId: Option<string>

    /** The initial state: no targets, no templates, nothing active, no default. */
    constructor ()
      ensures targets == [] && templates == [] && activeTargetId == None && defaultTemplateId == None
    {
      targets, templates := [], [];
      activeTargetId, defaultTemplateId := None, None;
    }

    /** `getActiveTarget()`: the first target whose id is the active id. */
    function GetActiveTarget(): (r: Option<Target>)
      reads this
      ensures r.Some? ==> r.value in targets && activeTargetId == Some(r.value.id)
      ensures r.None? <==> activeTargetId.None? || forall i :: 0 <= i < |targets| ==> targets[i].id != activeTargetId.value
      ensures r.Some? ==> (exists i :: 0 <= i < |targets| && targets[i] == r.value
                             && forall j :: 0 <= j < i ==> targets[j].id != r.value.id)
    {
      Find(targets, TargetId, activeTargetId)
    }

    /** The active id names a target, or there is none. */
    predicate ActiveValid()
      reads this
    {
      ActiveIn(activeTargetId, targets)
    }

    /**
     * `addTarget(domain, templateId)` with `newId` for `crypto.randomUUID()`:
     * appends one target named `domain` and makes it active. `thrown` is
     * whether `JSON.parse` of the substituted template text throws, in which
     * case nothing changes.
     */
    method AddTarget(domain: string, templateId: TemplateArg, newId: string) returns (thrown: bool)
      modifies this
      ensures var g := NewTargetGraph(old(templates), old(defaultTemplateId), templateId, domain);
        && (thrown <==> g.None?)
        && (g.None? ==> targets == old(targets) && activeTargetId == old(activeTargetId))
        && (g.Some? ==> targets == old(targets) + [Target(newId, domain, g.value.0, g.value.1)]
                        && activeTargetId == Some(newId))
      ensures templates == old(templates) && defaultTemplateId == old(defaultTemplateId)
      ensures !thrown ==> ActiveValid()
    {
      var tid := ChosenTemplateId(templateId, defaultTemplateId);
      var template := Find(templates, TemplateId, tid);
      var nodes: seq<Node>, edges: seq<Edge>;
      if template.Some? {
        var parsedNodes := ParseNodes(Instantiate(StringifyNodes(template.value.nodes), domain));
        if parsedNodes.None? {
          return true;
        }
        var parsedEdges := ParseEdges(Instantiate(StringifyEdges(template.value.edges), domain));
        if parsedEdges.None? {
          return true;
        }
        nodes, edges := parsedNodes.value, parsedEdges.value;
      } else {
        nodes, edges := Recon.GenerateReconTree(domain);
      }
      targets := targets + [Target(newId, domain, nodes, edges)];
      activeTargetId := Some(newId);
      thrown := false;
      assert targets[|targets| - 1].id == newId;
      assert Find(targets, TargetId, activeTargetId).Some?;
    }

    /**
     * `removeTarget(id)`: drops every target with that id; an active id that
     * was removed moves to the first remaining target, or to null.
     */
    method RemoveTarget(id: string)
      modifies this
      ensures targets == Without(old(targets), TargetId, id)
      ensures activeTargetId == ActiveAfterRemove(old(activeTargetId), id, targets)
      ensures templates == old(templates) && defaultTemplateId == old(defaultTemplateId)
      ensures old(ActiveValid()) ==> ActiveValid()
    {
      if ActiveValid() {
        RemoveKeepsActive(targets, activeTargetId, id);
      }
      var newTargets := Without(targets, TargetId, id);
      var newActiveId := activeTargetId;
      if activeTargetId == Some(id) {
        newActiveId := if |newTargets| > 0 then Some(newTargets[0].id) else None;
      }
      targets, activeTargetId := newTargets, newActiveId;
    }

    /** `setActiveTarget(id)`: no check that a target has that id. */
    method SetActiveTarget(id: string)
      modifies this
      ensures activeTargetId == Some(id)
      ensures targets == old(targets) && templates == old(templates) && defaultTemplateId == old(defaultTemplateId)
    {
      activeTargetId := Some(id);
    }

    /** `updateTargetNodes(id, nodes)`. */
    method UpdateTargetNodes(id: string, nodes: seq<Node>)
      modifies this
      ensures targets == WithNodes(old(targets), id, nodes)
      ensures templates == old(templates) && activeTargetId == old(activeTargetId)
      ensures defaultTemplateId == old(defaultTemplateId)
      ensures old(ActiveValid()) ==> ActiveValid()
    {
      if ActiveValid() {
        UpdateKeepsActive(targets, activeTargetId, id, nodes, []);
      }
      targets := WithNodes(targets, id, nodes);
    }

    /** `updateTargetEdges(id, edges)`. */
    method UpdateTargetEdges(id: string, edges: seq<Edge>)
      modifies this
      ensures targets == WithEdges(old(targets), id, edges)
      ensures templates == old(templates) && activeTargetId == old(activeTargetId)
      ensures defaultTemplateId == old(defaultTemplateId)
      ensures old(ActiveValid()) ==> ActiveValid()
    {
      if ActiveValid() {
        UpdateKeepsActive(targets, activeTargetId, id, [], edges);
      }
      targets := WithEdges(targets, id, edges);
    }

    /**
     * `saveTemplate(name, sourceTargetId)` with `newId` for
     * `crypto.randomUUID()`: an unknown source changes nothing; otherwise one
     * template holding the source's graph with its name abstracted is
     * appended. `thrown` is whether `JSON.parse` throws, which changes nothing.
     */
    method SaveTemplate(name: string, sourceTargetId: string, newId: string) returns (thrown: bool)
      modifies this
      ensures var src := Find(old(targets), TargetId, Some(sourceTargetId));
        var g := if src.Some? then SavedGraph(src.value) else None;
        && (thrown <==> src.Some? && g.None?)
        && templates == (if g.Some? then old(templates) + [Template(newId, name, g.value.0, g.value.1)]
                         else old(templates))
      ensures targets == old(targets) && activeTargetId == old(activeTargetId)
      ensures defaultTemplateId == old(defaultTemplateId)
    {
      var target := Find(targets, TargetId, Some(sourceTargetId));
      if target.None? {
        return false;
      }
      var t := target.value;
      var parsedNodes := ParseNodes(Abstract(StringifyNodes(t.nodes), t.name));
      if parsedNodes.None? {
        return true;
      }
      var parsedEdges := ParseEdges(Abstract(StringifyEdges(t.edges), t.name));
      if parsedEdges.None? {
        return true;
      }
      templates := templates + [Template(newId, name, parsedNodes.value, parsedEdges.value)];
      thrown := false;
    }

    /** `deleteTemplate(id)`: drops the templates with that id and clears a default equal to it. */
    method DeleteTemplate(id: string)
      modifies this
      ensures templates == Without(old(templates), TemplateId, id)
      ensures defaultTemplateId == if old(defaultTemplateId) == Some(id) then None else old(defaultTemplateId)
      ensures targets == old(targets) && activeTargetId == old(activeTargetId)
    {
      templates := Without(templates, TemplateId, id);
      if defaultTemplateId == Some(id) {
        defaultTemplateId := None;
      }
    }

    /** `setDefaultTemplate(id)`. */
    method SetDefaultTemplate(id: Option<string>)
      modifies this
      ensures defaultTemplateId == id
      ensures targets == old(targets) && templates == old(templates) && activeTargetId == old(activeTargetId)
    {
      defaultTemplateId := id;
    }
  }
}
