/**
 * The built-in reconnaissance workflow that a new target gets when no
 * template applies: a fixed tree of 38 tool nodes under a root node, whose
 * commands mention the target's domain, built by appending one node (and the
 * edge from its parent) at a time.
 */
module Recon {
  import opened Wrappers
  import opened Graph

  // ---------------------------------------------------------------------
  // Edge colours
  // ---------------------------------------------------------------------

  const DefaultColor := "#64748b"

  const KnownCategories: set<string> :=
    {"Passive Enum", "Active Enum", "Probing", "Port Scanning", "Fingerprinting",
     "Visual Recon", "Content Discovery", "URL Extraction", "Vulnerability Filtering"}

  /** The stroke colour of the edge into a node of the given category. */
  function CategoryColor(category: string): (colour: string)
    ensures colour == DefaultColor <==> category !in KnownCategories
  {
    match category
    case "Passive Enum" => "#3b82f6"
    case "Active Enum" => "#ef4444"
    case "Probing" => "#f97316"
    case "Port Scanning" => "#10b981"
    case "Fingerprinting" => "#a855f7"
    case "Visual Recon" => "#ec4899"
    case "Content Discovery" => "#eab308"
    case "URL Extraction" => "#06b6d4"
    case "Vulnerability Filtering" => "#f43f5e"
    case _ => DefaultColor
  }

  /** Different known categories get different colours. */
  lemma CategoryColorsDistinct(c1: string, c2: string)
    requires c1 in KnownCategories && c2 in KnownCategories && c1 != c2
    ensures CategoryColor(c1) != CategoryColor(c2)
  {
  }

  // ---------------------------------------------------------------------
  // One `addNode` call and what it appends
  // ---------------------------------------------------------------------

  /**
   * A node's command: a fixed string, or a template literal with the domain
   * spliced in once between two fixed parts.
   */
  datatype Command = Fixed(text: string) | Around(before: string, after: string)

  function Render(c: Command, domain: string): (text: string)
    ensures c.Around? ==> |text| == |c.before| + |domain| + |c.after|
  {
    match c
    case Fixed(t) => t
    case Around(b, a) => b + domain + a
  }

  /** The arguments of one `addNode` call. */
  datatype Step = Step(id: string, title: string, category: string, command: Command,
                       description: string, x: int, y: int, parent: Option<string>)

  /** The node a step pushes: type 'custom', data label, category, command and content. */
  function NodeOf(s: Step, domain: string): (n: Node)
    ensures n.id == s.id && n.kind == "custom" && n.position == Position(s.x, s.y)
  {
    Node(s.id, "custom", Position(s.x, s.y),
         [Entry("label", s.title), Entry("category", s.category),
          Entry("command", Render(s.command, domain)), Entry("content", s.description)])
  }

  /** What the pushed node's data holds. */
  lemma NodeOfData(s: Step, domain: string)
    ensures Lookup(NodeOf(s, domain).data, "label") == Some(s.title)
    ensures Lookup(NodeOf(s, domain).data, "category") == Some(s.category)
    ensures Lookup(NodeOf(s, domain).data, "command") == Some(Render(s.command, domain))
    ensures Lookup(NodeOf(s, domain).data, "content") == Some(s.description)
  {
    var data := NodeOf(s, domain).data;
    assert Lookup(data, "content") == Lookup(data[1..], "content");
    assert Lookup(data[1..], "content") == Lookup(data[2..], "content");
    assert Lookup(data[2..], "content") == Lookup(data[3..], "content");
  }

  /** The edge a step with a parent pushes. */
  function EdgeOf(s: Step): (e: Edge)
    requires Truthy(s.parent)
    ensures e.source == s.parent.value && e.target == s.id
    ensures e.id == "e-" + e.source + "-" + e.target
    ensures e.animated && e.style == EdgeStyle(CategoryColor(s.category), 2)
  {
    Edge("e-" + s.parent.value + "-" + s.id, s.parent.value, s.id, true,
         EdgeStyle(CategoryColor(s.category), 2))
  }

  // ---------------------------------------------------------------------
  // A sequence of steps and the graph it builds
  // ---------------------------------------------------------------------

  /** The nodes pushed by the steps, in step order. */
  function Realize(plan: seq<Step>, domain: string): (nodes: seq<Node>)
    ensures |nodes| == |plan|
  {
    if plan == [] then []
    else Realize(plan[..|plan| - 1], domain) + [NodeOf(plan[|plan| - 1], domain)]
  }

  /** The edges pushed by the steps, in step order; a step without parent pushes none. */
  function PlanEdges(plan: seq<Step>): seq<Edge>
  {
    if plan == [] then []
    else
      var s := plan[|plan| - 1];
      PlanEdges(plan[..|plan| - 1]) + if Truthy(s.parent) then [EdgeOf(s)] else []
  }

  function PlanIds(plan: seq<Step>): set<string>
  {
    if plan == [] then {} else PlanIds(plan[..|plan| - 1]) + {plan[|plan| - 1].id}
  }

  function IdSet(nodes: seq<Node>): set<string>
  {
    if nodes == [] then {} else IdSet(nodes[..|nodes| - 1]) + {nodes[|nodes| - 1].id}
  }

  /** A non-first step: fresh id, a parent among the ids added so far, empty description. */
  predicate StepFits(s: Step, ids: set<string>)
  {
    s.id !in ids && Truthy(s.parent) && s.parent.value in ids && s.description == ""
  }

  /**
   * How `generateReconTree` calls `addNode`: the first step is the only one
   * without a parent, every other step names an already added node as parent,
   * ids are never reused and every description is empty.
   */
  predicate WellPlanned(plan: seq<Step>)
  {
    if plan == [] then false
    else if |plan| == 1 then !Truthy(plan[0].parent) && plan[0].description == ""
    else WellPlanned(plan[..|plan| - 1]) && StepFits(plan[|plan| - 1], PlanIds(plan[..|plan| - 1]))
  }

  lemma {:induction false} RealizeAt(plan: seq<Step>, domain: string)
    ensures forall i :: 0 <= i < |plan| ==> Realize(plan, domain)[i] == NodeOf(plan[i], domain)
  {
    if plan != [] {
      var q := plan[..|plan| - 1];
      RealizeAt(q, domain);
      assert forall i :: 0 <= i < |q| ==> q[i] == plan[i];
    }
  }

  lemma {:induction false} PlanIdsMembers(plan: seq<Step>, id: string)
    ensures id in PlanIds(plan) <==> exists i :: 0 <= i < |plan| && plan[i].id == id
  {
    if plan != [] {
      var q := plan[..|plan| - 1];
      PlanIdsMembers(q, id);
      assert forall i :: 0 <= i < |q| ==> q[i] == plan[i];
    }
  }

  lemma {:induction false} IdSetOfRealize(plan: seq<Step>, domain: string)
    ensures IdSet(Realize(plan, domain)) == PlanIds(plan)
  {
    if plan != [] {
      var q := plan[..|plan| - 1];
      IdSetOfRealize(q, domain);
      assert Realize(plan, domain)[..|plan| - 1] == Realize(q, domain);
    }
  }

  /** A prefix of a well-planned sequence is well planned. */
  lemma {:induction false} WellPlannedPrefix(plan: seq<Step>, n: nat)
    requires WellPlanned(plan) && 1 <= n <= |plan|
    ensures WellPlanned(plan[..n])
  {
    if n < |plan| {
      var q := plan[..|plan| - 1];
      WellPlannedPrefix(q, n);
      assert q[..n] == plan[..n];
    } else {
      assert plan[..n] == plan;
    }
  }

  /** In a well-planned sequence every step after the first fits the steps before it. */
  lemma {:induction false} WellPlannedSteps(plan: seq<Step>)
    requires WellPlanned(plan)
    ensures !Truthy(plan[0].parent) && plan[0].description == ""
    ensures forall k :: 1 <= k < |plan| ==> StepFits(plan[k], PlanIds(plan[..k]))
  {
    if |plan| > 1 {
      var q := plan[..|plan| - 1];
      WellPlannedSteps(q);
      assert q[0] == plan[0];
      forall k | 1 <= k < |plan|
        ensures StepFits(plan[k], PlanIds(plan[..k]))
      {
        if k < |q| {
          assert q[..k] == plan[..k] && q[k] == plan[k];
        } else {
          assert plan[..k] == q;
        }
      }
    }
  }

  /** A well-planned sequence never reuses an id and leaves every description empty. */
  lemma WellPlannedFacts(plan: seq<Step>)
    requires WellPlanned(plan)
    ensures forall i, j :: 0 <= i < j < |plan| ==> plan[i].id != plan[j].id
    ensures forall i :: 0 <= i < |plan| ==> plan[i].description == ""
  {
    WellPlannedSteps(plan);
    forall i, j | 0 <= i < j < |plan|
      ensures plan[i].id != plan[j].id
    {
      assert StepFits(plan[j], PlanIds(plan[..j]));
      PlanIdsMembers(plan[..j], plan[i].id);
      assert plan[..j][i] == plan[i];
    }
    forall i | 0 <= i < |plan|
      ensures plan[i].description == ""
    {
      if i > 0 {
        assert StepFits(plan[i], PlanIds(plan[..i]));
      }
    }
  }

  /**
   * The converse, by position: a parentless first step, distinct ids, empty
   * descriptions and, for every later step k, a non-empty parent that is the
   * id of step parentAt(k) < k make a well-planned sequence.
   */
  predicate ParentBefore(plan: seq<Step>, parentAt: nat -> nat, k: nat)
    requires k < |plan|
  {
    parentAt(k) < k && Truthy(plan[k].parent) && plan[k].parent == Some(plan[parentAt(k)].id)
  }

  lemma {:induction false} WellPlannedByIndex(plan: seq<Step>, parentAt: nat -> nat)
    requires |plan| > 0 && !Truthy(plan[0].parent)
    requires forall i, j :: 0 <= i < j < |plan| ==> plan[i].id != plan[j].id
    requires forall k :: 0 <= k < |plan| ==> plan[k].description == ""
    requires forall k :: 1 <= k < |plan| ==> ParentBefore(plan, parentAt, k)
    ensures WellPlanned(plan)
  {
    if |plan| > 1 {
      var n := |plan| - 1;
      var q := plan[..n];
      assert forall i :: 0 <= i < n ==> q[i] == plan[i];
      assert forall i, j :: 0 <= i < j < n ==> q[i].id != q[j].id;
      assert forall k :: 0 <= k < n ==> q[k].description == "";
      forall k | 1 <= k < n
        ensures ParentBefore(q, parentAt, k)
      {
        assert ParentBefore(plan, parentAt, k);
        assert q[parentAt(k)] == plan[parentAt(k)];
      }
      WellPlannedByIndex(q, parentAt);
      PlanIdsMembers(q, plan[n].id);
      assert forall i :: 0 <= i < n ==> q[i].id != plan[n].id;
      var p := parentAt(n);
      assert ParentBefore(plan, parentAt, n);
      PlanIdsMembers(q, plan[p].id);
      assert q[p].id == plan[n].parent.value;
      assert StepFits(plan[n], PlanIds(q));
    }
  }

  /** The category recorded in a node's data ('' when absent). */
  function CategoryOf(n: Node): string
  {
    match Lookup(n.data, "category") case Some(c) => c case None => ""
  }

  predicate DistinctIds(nodes: seq<Node>)
  {
    forall i, j :: 0 <= i < j < |nodes| ==> nodes[i].id != nodes[j].id
  }

  /** Edge k leads into node k + 1, from a node added before it, with the generated id, flag and colour. */
  predicate EdgeInto(nodes: seq<Node>, edges: seq<Edge>, k: nat)
    requires k < |edges| && k + 1 < |nodes|
  {
    && edges[k].target == nodes[k + 1].id
    && edges[k].source in IdSet(nodes[..k + 1])
    && edges[k].id == "e-" + edges[k].source + "-" + edges[k].target
    && edges[k].animated
    && edges[k].style == EdgeStyle(CategoryColor(CategoryOf(nodes[k + 1])), 2)
  }

  /**
   * The shape of the generated graph: ids are distinct and edge k leads into
   * node k + 1 (so node 0 is the root and every other node has one parent,
   * added before it).
   */
  predicate TreeShaped(nodes: seq<Node>, edges: seq<Edge>)
  {
    && |nodes| == |edges| + 1
    && DistinctIds(nodes)
    && forall k :: 0 <= k < |edges| ==> EdgeInto(nodes, edges, k)
  }

  /** Edge k of a well-planned sequence is the edge of step k + 1. */
  lemma {:induction false} PlanEdgesAt(plan: seq<Step>)
    requires WellPlanned(plan)
    ensures |PlanEdges(plan)| == |plan| - 1
    ensures forall k :: 1 <= k < |plan| ==> Truthy(plan[k].parent) && PlanEdges(plan)[k - 1] == EdgeOf(plan[k])
  {
    var q := plan[..|plan| - 1];
    if |plan| > 1 {
      assert WellPlanned(q) && StepFits(plan[|q|], PlanIds(q));
      PlanEdgesAt(q);
      assert PlanEdges(plan) == PlanEdges(q) + [EdgeOf(plan[|q|])];
      forall k | 1 <= k < |plan|
        ensures Truthy(plan[k].parent) && PlanEdges(plan)[k - 1] == EdgeOf(plan[k])
      {
        if k < |q| {
          assert q[k] == plan[k];
        }
      }
    }
  }

  lemma PlanEdgeInto(plan: seq<Step>, domain: string, k: nat)
    requires WellPlanned(plan) && 1 <= k < |plan|
    ensures |PlanEdges(plan)| == |plan| - 1
    ensures EdgeInto(Realize(plan, domain), PlanEdges(plan), k - 1)
  {
    var nodes, edges, s := Realize(plan, domain), PlanEdges(plan), plan[k];
    assert |edges| == |plan| - 1 && edges[k - 1] == EdgeOf(s) by {
      PlanEdgesAt(plan);
    }
    assert nodes[k] == NodeOf(s, domain) by {
      RealizeAt(plan, domain);
    }
    assert CategoryOf(nodes[k]) == s.category by {
      NodeOfData(s, domain);
    }
    assert s.parent.value in PlanIds(plan[..k]) by {
      WellPlannedSteps(plan);
      assert StepFits(s, PlanIds(plan[..k]));
    }
    assert IdSet(nodes[..k]) == PlanIds(plan[..k]) by {
      RealizeAt(plan, domain);
      RealizeAt(plan[..k], domain);
      assert nodes[..k] == Realize(plan[..k], domain);
      IdSetOfRealize(plan[..k], domain);
    }
  }

  /** A well-planned sequence of steps builds a tree-shaped graph. */
  lemma PlanTree(plan: seq<Step>, domain: string)
    requires WellPlanned(plan)
    ensures TreeShaped(Realize(plan, domain), PlanEdges(plan))
  {
    var nodes, edges := Realize(plan, domain), PlanEdges(plan);
    PlanEdgesAt(plan);
    RealizeAt(plan, domain);
    WellPlannedFacts(plan);
    assert DistinctIds(nodes);
    forall k | 0 <= k < |edges|
      ensures EdgeInto(nodes, edges, k)
    {
      PlanEdgeInto(plan, domain, k + 1);
    }
  }

  /** Node i has an incoming edge exactly when i > 0, and then exactly one: edge i - 1. */
  lemma OneParentEach(nodes: seq<Node>, edges: seq<Edge>)
    requires TreeShaped(nodes, edges)
    ensures forall i, k :: 0 <= i < |nodes| && 0 <= k < |edges| ==>
      (edges[k].target == nodes[i].id <==> k == i - 1)
  {
    forall i, k | 0 <= i < |nodes| && 0 <= k < |edges|
      ensures edges[k].target == nodes[i].id <==> k == i - 1
    {
      EdgeTarget(nodes, edges, k);
      if i < k + 1 {
        assert nodes[i].id != nodes[k + 1].id;
      } else if k + 1 < i {
        assert nodes[k + 1].id != nodes[i].id;
      }
    }
  }

  lemma EdgeTarget(nodes: seq<Node>, edges: seq<Edge>, k: nat)
    requires k < |edges| && k + 1 < |nodes| && EdgeInto(nodes, edges, k)
    ensures edges[k].target == nodes[k + 1].id
  {
  }

  /** Ids, kinds, positions and every data property except the command agree for all domains. */
  lemma DomainOnlyInCommands(plan: seq<Step>, d1: string, d2: string, i: nat, key: string)
    requires i < |plan|
    ensures Realize(plan, d1)[i].id == Realize(plan, d2)[i].id
    ensures Realize(plan, d1)[i].kind == Realize(plan, d2)[i].kind
    ensures Realize(plan, d1)[i].position == Realize(plan, d2)[i].position
    ensures key != "command" ==> Lookup(Realize(plan, d1)[i].data, key) == Lookup(Realize(plan, d2)[i].data, key)
  {
    RealizeAt(plan, d1);
    RealizeAt(plan, d2);
  }

  // ---------------------------------------------------------------------
  // generateReconTree
  // ---------------------------------------------------------------------

  /**
   * The `addNode` closure: pushes the node, and the edge from its parent when
   * the parent id is truthy. The ghost `plan` lists the calls made so far; the
   * precondition only records that the arrays hold what those calls pushed.
   */
  method AddNode(ghost plan: seq<Step>, nodes: seq<Node>, edges: seq<Edge>, domain: string,
                 id: string, title: string, category: string, command: Command,
                 description: string, x: int, y: int, parent: Option<string>)
    returns (ghost plan': seq<Step>, nodes': seq<Node>, edges': seq<Edge>)
    requires nodes == Realize(plan, domain) && edges == PlanEdges(plan)
    ensures plan' == plan + [Step(id, title, category, command, description, x, y, parent)]
    ensures nodes' == nodes + [NodeOf(plan'[|plan|], domain)]
    ensures edges' == edges + if Truthy(parent) then [EdgeOf(plan'[|plan|])] else []
    ensures nodes' == Realize(plan', domain) && edges' == PlanEdges(plan')
  {
    var step := Step(id, title, category, command, description, x, y, parent);
    plan' := plan + [step];
    assert plan'[..|plan|] == plan;
    nodes' := nodes + [NodeOf(step, domain)];
    if Truthy(parent) {
      edges' := edges + [EdgeOf(step)];
    } else {
      edges' := edges;
    }
  }

  // Layout constants of generateReconTree.
  const RootX := 1500
  const EnumY := 200
  const PassiveGroupX := 600
  const PassiveY := 450
  const ActiveGroupX := 2400
  const ActiveY := 450
  const MergeY := 900
  const ProbeY := 1200
  const PortY := 1700
  const PortX := 2600
  const FingerY := 1700
  const FingerX := 600
  const VisualY := 1700
  const VisualX := 1400
  const ContentY := 2400
  const ContentX := 800
  const UrlY := 2400
  const UrlX := 2200
  const VulnY := 3000
  const VulnX := UrlX

  // The commands, with the domain spliced in where the source interpolates it.
  const SubfinderCommand := Around("subfinder -d ", " -all -silent -o subfinder-subs.txt")
  const AssetfinderCommand := Around("assetfinder -subs-only ", " | tee assetfinder_subs.txt")
  const FindomainCommand := Around("findomain --quiet -t ", " | tee findomain-subs.txt")
  const Sublist3rCommand := Around("sublist3r -d ", " -t 50 -o sublist3r.txt")
  const AmassCommand := Around("amass enum -passive -d ", " -o amass_passive.txt")
  const SubbruteCommand := Around("python3 /usr/share/subbrute/subbrute.py ", " -w /usr/share/wordlists/nmap.lst -o brute_subs.txt")
  const MassdnsCommand := Around("massdns -r /usr/share/wordlists/resolvers.txt -t A -o S -w ", ".txt")
  const FfufSubCommand := Around("ffuf -u http://FUZZ.", " -c -w /usr/share/wordlists/seclists/Discovery/DNS/subdomains-top1million-110000.txt -t 100 -fc 403")
  const MergeCommand := Fixed("cat *.txt | sort -u > all_subdomains.txt")
  const HttpxCommand := Fixed("cat all_subdomains.txt | httpx -silent -o live_subdomains.txt")
  const HttprobeCommand := Fixed("cat all_subdomains.txt | httprobe | tee -a alive_subdomains.txt")
  const DnsxCommand := Fixed("dnsx -l live_subdomains.txt -a -resp-only -o live_ips.txt")
  const ShodanxCommand := Around("shodanx domain --domain \"", "\"")
  const NaabuCommand := Fixed("naabu -list live_subdomains.txt -o naabu_scans.txt")
  const HttpxTechCommand := Fixed("httpx -l live_subdomains.txt -silent -status-code -tech-detect -title -sc -location -td -cl -probe -o httpx_output.txt")
  const WafCommand := Fixed("cat httpx_output.txt | grep 403")
  const AquatoneCommand := Fixed("cat live_subdomains.txt | aquatone -out screenshots")
  const GowitnessCommand := Fixed("gowitness scan file -f live_subdomains.txt --threads 10 --screenshot-path screenshots")
  const FfufDirCommand := Around("ffuf -u https://", "/FUZZ -w /usr/share/wordlists/dirb/common.txt")
  const GobusterCommand := Around("gobuster dir --url https://", " --wordlist /usr/share/wordlists/dirb/common.txt")
  const DirsearchCommand := Around("dirsearch -u https://", "/ -w /usr/share/wordlists/dirnext/general.txt --full-url --random-agent -x 404,400 -e php,html,js")
  const WaybackCommand := Fixed("cat live_subs.txt | waybackurls | anew wayback_urls.txt")
  const GauCommand := Fixed("cat live_subs.txt | gau | anew gau_urls.txt")
  const KatanaCommand := Fixed("katana -list live_subdomain.txt -f qurl | anew katana_urls.txt")
  const GfXssCommand := Fixed("cat all_urls.txt | gf xss | anew xss_candidates.txt")
  const GfSqliCommand := Fixed("cat all_urls.txt | gf sqli | anew sqli_candidates.txt")
  const GfSstiCommand := Fixed("cat all_urls.txt | gf ssti| anew ssti_candidates.txt")

  /** The calls of the root and the subdomain-enumeration branch node. */
  const RootSteps: seq<Step> := [
    Step("recon", "Reconnaissance", "Root", Fixed(""), "", RootX, 0, None),
    Step("sub-enum", "Subdomain Enumeration", "Passive Enum", Fixed(""), "", RootX, EnumY, Some("recon"))
  ]

  /** The calls of the passive-enumeration group and its five tools. */
  const PassiveSteps: seq<Step> := [
    Step("passive", "Passive Enum", "Passive Enum", Fixed(""), "", PassiveGroupX, PassiveY, Some("sub-enum")),
    Step("subfinder", "Subfinder", "Passive Enum", SubfinderCommand, "", 0, PassiveY + 250, Some("passive")),
    Step("assetfinder", "Assetfinder", "Passive Enum", AssetfinderCommand, "", 300, PassiveY + 250, Some("passive")),
    Step("findomain", "Findomain", "Passive Enum", FindomainCommand, "", 600, PassiveY + 250, Some("passive")),
    Step("sublist3r", "Sublist3r", "Passive Enum", Sublist3rCommand, "", 900, PassiveY + 250, Some("passive")),
    Step("amass", "Amass", "Passive Enum", AmassCommand, "", 1200, PassiveY + 250, Some("passive"))
  ]

  /** The calls of the active-enumeration group, its three tools and the merge step. */
  const ActiveSteps: seq<Step> := [
    Step("active", "Active Enum", "Active Enum", Fixed(""), "", ActiveGroupX, ActiveY, Some("sub-enum")),
    Step("subbrute", "Subbrute", "Active Enum", SubbruteCommand, "", 1800, ActiveY + 250, Some("active")),
    Step("massdns", "MassDNS", "Active Enum", MassdnsCommand, "", 2100, ActiveY + 250, Some("active")),
    Step("ffuf-sub", "FFUF Subdomains", "Active Enum", FfufSubCommand, "", 2400, ActiveY + 250, Some("active")),
    Step("merge", "Merge Results", "Active Enum", MergeCommand, "", RootX, MergeY, Some("active"))
  ]

  /** The calls of branch B: HTTP probing and its two probes. */
  const ProbingSteps: seq<Step> := [
    Step("probing", "HTTP Probing", "Probing", Fixed(""), "", RootX, ProbeY, Some("merge")),
    Step("httpx", "httpx", "Probing", HttpxCommand, "", RootX - 400, ProbeY + 250, Some("probing")),
    Step("httprobe", "httprobe", "Probing", HttprobeCommand, "", RootX + 400, ProbeY + 250, Some("probing"))
  ]

  /** The calls of branch C: port and IP scanning. */
  const PortSteps: seq<Step> := [
    Step("port-ip", "Port & IP Scanning", "Port Scanning", Fixed(""), "", PortX, PortY, Some("probing")),
    Step("dnsx", "dnsx", "Port Scanning", DnsxCommand, "", PortX - 400, PortY + 250, Some("port-ip")),
    Step("shodanx", "Shodanx", "Port Scanning", ShodanxCommand, "", PortX, PortY + 250, Some("port-ip")),
    Step("naabu", "Naabu", "Port Scanning", NaabuCommand, "", PortX + 400, PortY + 250, Some("port-ip"))
  ]

  /** The calls of branch D: fingerprinting. */
  const FingerprintSteps: seq<Step> := [
    Step("fingerprint", "Fingerprinting", "Fingerprinting", Fixed(""), "", FingerX, FingerY, Some("httpx")),
    Step("httpx-tech", "httpx Tech Detect", "Fingerprinting", HttpxTechCommand, "", FingerX - 300, FingerY + 250, Some("fingerprint")),
    Step("waf", "WAF ID", "Fingerprinting", WafCommand, "", FingerX + 300, FingerY + 250, Some("fingerprint"))
  ]

  /** The calls of branch E: visual recon. */
  const VisualSteps: seq<Step> := [
    Step("visual", "Visual Recon", "Visual Recon", Fixed(""), "", VisualX, VisualY, Some("httpx")),
    Step("aquatone", "Aquatone", "Visual Recon", AquatoneCommand, "", VisualX - 300, VisualY + 250, Some("visual")),
    Step("gowitness", "Gowitness", "Visual Recon", GowitnessCommand, "", VisualX + 300, VisualY + 250, Some("visual"))
  ]

  /** The calls of branch F: content discovery. */
  const ContentSteps: seq<Step> := [
    Step("content-disc", "Content Discovery", "Content Discovery", Fixed(""), "", ContentX, ContentY, Some("httpx")),
    Step("ffuf-dir", "FFUF Dir", "Content Discovery", FfufDirCommand, "", ContentX - 450, ContentY + 250, Some("content-disc")),
    Step("gobuster", "Gobuster", "Content Discovery", GobusterCommand, "", ContentX, ContentY + 250, Some("content-disc")),
    Step("dirsearch", "Dirsearch", "Content Discovery", DirsearchCommand, "", ContentX + 450, ContentY + 250, Some("content-disc"))
  ]

  /** The calls of branch G: URL extraction. */
  const UrlSteps: seq<Step> := [
    Step("urls", "URL Extraction", "URL Extraction", Fixed(""), "", UrlX, UrlY, Some("httpx")),
    Step("wayback", "Waybackurls", "URL Extraction", WaybackCommand, "", UrlX - 450, UrlY + 250, Some("urls")),
    Step("gau", "Gau", "URL Extraction", GauCommand, "", UrlX, UrlY + 250, Some("urls")),
    Step("katana", "Katana", "URL Extraction", KatanaCommand, "", UrlX + 450, UrlY + 250, Some("urls"))
  ]

  /** The calls of branch H: vulnerability filtering. */
  const VulnSteps: seq<Step> := [
    Step("vuln", "Vuln Filtering", "Vulnerability Filtering", Fixed(""), "", VulnX, VulnY, Some("katana")),
    Step("gf-xss", "GF XSS", "Vulnerability Filtering", GfXssCommand, "", VulnX - 400, VulnY + 250, Some("vuln")),
    Step("gf-sqli", "GF SQLi", "Vulnerability Filtering", GfSqliCommand, "", VulnX, VulnY + 250, Some("vuln")),
    Step("gf-ssti", "GF SSTI", "Vulnerability Filtering", GfSstiCommand, "", VulnX + 400, VulnY + 250, Some("vuln"))
  ]

  /** The 38 `addNode` calls of generateReconTree, in call order. */
  const ReconPlan: seq<Step> :=
    RootSteps + PassiveSteps + ActiveSteps + ProbingSteps + PortSteps
    + FingerprintSteps + VisualSteps + ContentSteps + UrlSteps + VulnSteps

  /** Makes the calls of the root and the subdomain-enumeration branch node, in source order. */
  method AddRoot(ghost plan0: seq<Step>, nodes0: seq<Node>, edges0: seq<Edge>, domain: string)
    returns (ghost plan: seq<Step>, nodes: seq<Node>, edges: seq<Edge>)
    requires nodes0 == Realize(plan0, domain) && edges0 == PlanEdges(plan0)
    ensures plan == plan0 + RootSteps
    ensures nodes == Realize(plan, domain) && edges == PlanEdges(plan)
  {
    plan, nodes, edges := plan0, nodes0, edges0;
    plan, nodes, edges := AddNode(plan, nodes, edges, domain, "recon", "Reconnaissance", "Root", Fixed(""), "", RootX, 0, None);
    plan, nodes, edges := AddNode(plan, nodes, edges, domain, "sub-enum", "Subdomain Enumeration", "Passive Enum", Fixed(""), "", RootX, EnumY, Some("recon"));
  }

  /** Makes the calls of the passive-enumeration group and its five tools, in source order. */
  method AddPassiveBranch(ghost plan0: seq<Step>, nodes0: seq<Node>, edges0: seq<Edge>, domain: string)
    returns (ghost plan: seq<Step>, nodes: seq<Node>, edges: seq<Edge>)
    requires nodes0 == Realize(plan0, domain) && edges0 == PlanEdges(plan0)
    ensures plan == plan0 + PassiveSteps
    ensures nodes == Realize(plan, domain) && edges == PlanEdges(plan)
  {
    plan, nodes, edges := plan0, nodes0, edges0;
    plan, nodes, edges := AddNode(plan, nodes, edges, domain, "passive", "Passive Enum", "Passive Enum", Fixed(""), "", PassiveGroupX, PassiveY, Some("sub-enum"));
    plan, nodes, edges := AddNode(plan, nodes, edges, domain, "subfinder", "Subfinder", "Passive Enum", SubfinderCommand, "", 0, PassiveY + 250, Some("passive"));
    plan, nodes, edges := AddNode(plan, nodes, edges, domain, "assetfinder", "Assetfinder", "Passive Enum", AssetfinderCommand, "", 300, PassiveY + 250, Some("passive"));
    plan, nodes, edges := AddNode(plan, nodes, edges, domain, "findomain", "Findomain", "Passive Enum", FindomainCommand, "", 600, PassiveY + 250, Some("passive"));
    plan, nodes, edges := AddNode(plan, nodes, edges, domain, "sublist3r", "Sublist3r", "Passive Enum", Sublist3rCommand, "", 900, PassiveY + 250, Some("passive"));
    plan, nodes, edges := AddNode(plan, nodes, edges, domain, "amass", "Amass", "Passive Enum", AmassCommand, "", 1200, PassiveY + 250, Some("passive"));
  }

  /** Makes the calls of the active-enumeration group, its three tools and the merge step, in source order. */
  method AddActiveBranch(ghost plan0: seq<Step>, nodes0: seq<Node>, edges0: seq<Edge>, domain: string)
    returns (ghost plan: seq<Step>, nodes: seq<Node>, edges: seq<Edge>)
    requires nodes0 == Realize(plan0, domain) && edges0 == PlanEdges(plan0)
    ensures plan == plan0 + ActiveSteps
    ensures nodes == Realize(plan, domain) && edges == PlanEdges(plan)
  {
    plan, nodes, edges := plan0, nodes0, edges0;
    plan, nodes, edges := AddNode(plan, nodes, edges, domain, "active", "Active Enum", "Active Enum", Fixed(""), "", ActiveGroupX, ActiveY, Some("sub-enum"));
    plan, nodes, edges := AddNode(plan, nodes, edges, domain, "subbrute", "Subbrute", "Active Enum", SubbruteCommand, "", 1800, ActiveY + 250, Some("active"));
    plan, nodes, edges := AddNode(plan, nodes, edges, domain, "massdns", "MassDNS", "Active Enum", MassdnsCommand, "", 2100, ActiveY + 250, Some("active"));
    plan, nodes, edges := AddNode(plan, nodes, edges, domain, "ffuf-sub", "FFUF Subdomains", "Active Enum", FfufSubCommand, "", 2400, ActiveY + 250, Some("active"));
    plan, nodes, edges := AddNode(plan, nodes, edges, domain, "merge", "Merge Results", "Active Enum", MergeCommand, "", RootX, MergeY, Some("active"));
  }

  /** Makes the calls of branch B: HTTP probing and its two probes, in source order. */
  method AddProbingBranch(ghost plan0: seq<Step>, nodes0: seq<Node>, edges0: seq<Edge>, domain: string)
    returns (ghost plan: seq<Step>, nodes: seq<Node>, edges: seq<Edge>)
    requires nodes0 == Realize(plan0, domain) && edges0 == PlanEdges(plan0)
    ensures plan == plan0 + ProbingSteps
    ensures nodes == Realize(plan, domain) && edges == PlanEdges(plan)
  {
    plan, nodes, edges := plan0, nodes0, edges0;
    plan, nodes, edges := AddNode(plan, nodes, edges, domain, "probing", "HTTP Probing", "Probing", Fixed(""), "", RootX, ProbeY, Some("merge"));
    plan, nodes, edges := AddNode(plan, nodes, edges, domain, "httpx", "httpx", "Probing", HttpxCommand, "", RootX - 400, ProbeY + 250, Some("probing"));
    plan, nodes, edges := AddNode(plan, nodes, edges, domain, "httprobe", "httprobe", "Probing", HttprobeCommand, "", RootX + 400, ProbeY + 250, Some("probing"));
  }

  /** Makes the calls of branch C: port and IP scanning, in source order. */
  method AddPortBranch(ghost plan0: seq<Step>, nodes0: seq<Node>, edges0: seq<Edge>, domain: string)
    returns (ghost plan: seq<Step>, nodes: seq<Node>, edges: seq<Edge>)
    requires nodes0 == Realize(plan0, domain) && edges0 == PlanEdges(plan0)
    ensures plan == plan0 + PortSteps
    ensures nodes == Realize(plan, domain) && edges == PlanEdges(plan)
  {
    plan, nodes, edges := plan0, nodes0, edges0;
    plan, nodes, edges := AddNode(plan, nodes, edges, domain, "port-ip", "Port & IP Scanning", "Port Scanning", Fixed(""), "", PortX, PortY, Some("probing"));
    plan, nodes, edges := AddNode(plan, nodes, edges, domain, "dnsx", "dnsx", "Port Scanning", DnsxCommand, "", PortX - 400, PortY + 250, Some("port-ip"));
    plan, nodes, edges := AddNode(plan, nodes, edges, domain, "shodanx", "Shodanx", "Port Scanning", ShodanxCommand, "", PortX, PortY + 250, Some("port-ip"));
    plan, nodes, edges := AddNode(plan, nodes, edges, domain, "naabu", "Naabu", "Port Scanning", NaabuCommand, "", PortX + 400, PortY + 250, Some("port-ip"));
  }

  /** Makes the calls of branch D: fingerprinting, in source order. */
  method AddFingerprintBranch(ghost plan0: seq<Step>, nodes0: seq<Node>, edges0: seq<Edge>, domain: string)
    returns (ghost plan: seq<Step>, nodes: seq<Node>, edges: seq<Edge>)
    requires nodes0 == Realize(plan0, domain) && edges0 == PlanEdges(plan0)
    ensures plan == plan0 + FingerprintSteps
    ensures nodes == Realize(plan, domain) && edges == PlanEdges(plan)
  {
    plan, nodes, edges := plan0, nodes0, edges0;
    plan, nodes, edges := AddNode(plan, nodes, edges, domain, "fingerprint", "Fingerprinting", "Fingerprinting", Fixed(""), "", FingerX, FingerY, Some("httpx"));
    plan, nodes, edges := AddNode(plan, nodes, edges, domain, "httpx-tech", "httpx Tech Detect", "Fingerprinting", HttpxTechCommand, "", FingerX - 300, FingerY + 250, Some("fingerprint"));
    plan, nodes, edges := AddNode(plan, nodes, edges, domain, "waf", "WAF ID", "Fingerprinting", WafCommand, "", FingerX + 300, FingerY + 250, Some("fingerprint"));
  }

  /** Makes the calls of branch E: visual recon, in source order. */
  method AddVisualBranch(ghost plan0: seq<Step>, nodes0: seq<Node>, edges0: seq<Edge>, domain: string)
    returns (ghost plan: seq<Step>, nodes: seq<Node>, edges: seq<Edge>)
    requires nodes0 == Realize(plan0, domain) && edges0 == PlanEdges(plan0)
    ensures plan == plan0 + VisualSteps
    ensures nodes == Realize(plan, domain) && edges == PlanEdges(plan)
  {
    plan, nodes, edges := plan0, nodes0, edges0;
    plan, nodes, edges := AddNode(plan, nodes, edges, domain, "visual", "Visual Recon", "Visual Recon", Fixed(""), "", VisualX, VisualY, Some("httpx"));
    plan, nodes, edges := AddNode(plan, nodes, edges, domain, "aquatone", "Aquatone", "Visual Recon", AquatoneCommand, "", VisualX - 300, VisualY + 250, Some("visual"));
    plan, nodes, edges := AddNode(plan, nodes, edges, domain, "gowitness", "Gowitness", "Visual Recon", GowitnessCommand, "", VisualX + 300, VisualY + 250, Some("visual"));
  }

  /** Makes the calls of branch F: content discovery, in source order. */
  method AddContentBranch(ghost plan0: seq<Step>, nodes0: seq<Node>, edges0: seq<Edge>, domain: string)
    returns (ghost plan: seq<Step>, nodes: seq<Node>, edges: seq<Edge>)
    requires nodes0 == Realize(plan0, domain) && edges0 == PlanEdges(plan0)
    ensures plan == plan0 + ContentSteps
    ensures nodes == Realize(plan, domain) && edges == PlanEdges(plan)
  {
    plan, nodes, edges := plan0, nodes0, edges0;
    plan, nodes, edges := AddNode(plan, nodes, edges, domain, "content-disc", "Content Discovery", "Content Discovery", Fixed(""), "", ContentX, ContentY, Some("httpx"));
    plan, nodes, edges := AddNode(plan, nodes, edges, domain, "ffuf-dir", "FFUF Dir", "Content Discovery", FfufDirCommand, "", ContentX - 450, ContentY + 250, Some("content-disc"));
    plan, nodes, edges := AddNode(plan, nodes, edges, domain, "gobuster", "Gobuster", "Content Discovery", GobusterCommand, "", ContentX, ContentY + 250, Some("content-disc"));
    plan, nodes, edges := AddNode(plan, nodes, edges, domain, "dirsearch", "Dirsearch", "Content Discovery", DirsearchCommand, "", ContentX + 450, ContentY + 250, Some("content-disc"));
  }

  /** Makes the calls of branch G: URL extraction, in source order. */
  method AddUrlBranch(ghost plan0: seq<Step>, nodes0: seq<Node>, edges0: seq<Edge>, domain: string)
    returns (ghost plan: seq<Step>, nodes: seq<Node>, edges: seq<Edge>)
    requires nodes0 == Realize(plan0, domain) && edges0 == PlanEdges(plan0)
    ensures plan == plan0 + UrlSteps
    ensures nodes == Realize(plan, domain) && edges == PlanEdges(plan)
  {
    plan, nodes, edges := plan0, nodes0, edges0;
    plan, nodes, edges := AddNode(plan, nodes, edges, domain, "urls", "URL Extraction", "URL Extraction", Fixed(""), "", UrlX, UrlY, Some("httpx"));
    plan, nodes, edges := AddNode(plan, nodes, edges, domain, "wayback", "Waybackurls", "URL Extraction", WaybackCommand, "", UrlX - 450, UrlY + 250, Some("urls"));
    plan, nodes, edges := AddNode(plan, nodes, edges, domain, "gau", "Gau", "URL Extraction", GauCommand, "", UrlX, UrlY + 250, Some("urls"));
    plan, nodes, edges := AddNode(plan, nodes, edges, domain, "katana", "Katana", "URL Extraction", KatanaCommand, "", UrlX + 450, UrlY + 250, Some("urls"));
  }

  /** Makes the calls of branch H: vulnerability filtering, in source order. */
  method AddVulnBranch(ghost plan0: seq<Step>, nodes0: seq<Node>, edges0: seq<Edge>, domain: string)
    returns (ghost plan: seq<Step>, nodes: seq<Node>, edges: seq<Edge>)
    requires nodes0 == Realize(plan0, domain) && edges0 == PlanEdges(plan0)
    ensures plan == plan0 + VulnSteps
    ensures nodes == Realize(plan, domain) && edges == PlanEdges(plan)
  {
    plan, nodes, edges := plan0, nodes0, edges0;
    plan, nodes, edges := AddNode(plan, nodes, edges, domain, "vuln", "Vuln Filtering", "Vulnerability Filtering", Fixed(""), "", VulnX, VulnY, Some("katana"));
    plan, nodes, edges := AddNode(plan, nodes, edges, domain, "gf-xss", "GF XSS", "Vulnerability Filtering", GfXssCommand, "", VulnX - 400, VulnY + 250, Some("vuln"));
    plan, nodes, edges := AddNode(plan, nodes, edges, domain, "gf-sqli", "GF SQLi", "Vulnerability Filtering", GfSqliCommand, "", VulnX, VulnY + 250, Some("vuln"));
    plan, nodes, edges := AddNode(plan, nodes, edges, domain, "gf-ssti", "GF SSTI", "Vulnerability Filtering", GfSstiCommand, "", VulnX + 400, VulnY + 250, Some("vuln"));
  }

  /** Where in ReconPlan the parent of step k was added (unused for the root). */
  function ParentAt(k: nat): nat
  {
    if k <= 1 then 0
    else if k == 2 || k == 8 then 1
    else if k < 8 then 2
    else if k < 13 then 8
    else if k == 13 then 12
    else if k < 17 then 13
    else if k < 20 then 16
    else if k == 20 || k == 23 || k == 26 || k == 30 then 14
    else if k < 23 then 20
    else if k < 26 then 23
    else if k < 30 then 26
    else if k < 34 then 30
    else if k == 34 then 33
    else 34
  }

  lemma ReconPlanShape()
    ensures |ReconPlan| == 38
    ensures ReconPlan[0].id == "recon" && ReconPlan[0].parent == None
  {
  }

  // The DistinctIdsBelow… and ParentsEarlierBelow… lemmas below only split the proof of
  // ReconPlanWellPlanned into ranges of calls, so that each proof obligation stays small.

  lemma DistinctIdsBelow10()
    ensures forall i, j :: 0 <= i < j && 1 <= j < 10 && j < |ReconPlan| ==> ReconPlan[i].id != ReconPlan[j].id
  {
  }

  lemma DistinctIdsBelow13()
    ensures forall i, j :: 0 <= i < j && 10 <= j < 13 && j < |ReconPlan| ==> ReconPlan[i].id != ReconPlan[j].id
  {
  }

  lemma DistinctIdsBelow16()
    ensures forall i, j :: 0 <= i < j && 13 <= j < 16 && j < |ReconPlan| ==> ReconPlan[i].id != ReconPlan[j].id
  {
  }

  lemma DistinctIdsBelow18()
    ensures forall i, j :: 0 <= i < j && 16 <= j < 18 && j < |ReconPlan| ==> ReconPlan[i].id != ReconPlan[j].id
  {
  }

  lemma DistinctIdsBelow20()
    ensures forall i, j :: 0 <= i < j && 18 <= j < 20 && j < |ReconPlan| ==> ReconPlan[i].id != ReconPlan[j].id
  {
  }

  lemma DistinctIdsBelow22()
    ensures forall i, j :: 0 <= i < j && 20 <= j < 22 && j < |ReconPlan| ==> ReconPlan[i].id != ReconPlan[j].id
  {
  }

  lemma DistinctIdsBelow24()
    ensures forall i, j :: 0 <= i < j && 22 <= j < 24 && j < |ReconPlan| ==> ReconPlan[i].id != ReconPlan[j].id
  {
  }

  lemma DistinctIdsBelow25()
    ensures forall i, j :: 0 <= i < j && 24 <= j < 25 && j < |ReconPlan| ==> ReconPlan[i].id != ReconPlan[j].id
  {
  }

  lemma DistinctIdsBelow26()
    ensures forall i, j :: 0 <= i < j && 25 <= j < 26 && j < |ReconPlan| ==> ReconPlan[i].id != ReconPlan[j].id
  {
  }

  lemma DistinctIdsBelow27()
    ensures forall i, j :: 0 <= i < j && 26 <= j < 27 && j < |ReconPlan| ==> ReconPlan[i].id != ReconPlan[j].id
  {
  }

  lemma DistinctIdsBelow28()
    ensures forall i, j :: 0 <= i < j && 27 <= j < 28 && j < |ReconPlan| ==> ReconPlan[i].id != ReconPlan[j].id
  {
  }

  lemma DistinctIdsBelow29()
    ensures forall i, j :: 0 <= i < j && 28 <= j < 29 && j < |ReconPlan| ==> ReconPlan[i].id != ReconPlan[j].id
  {
  }

  lemma DistinctIdsBelow30()
    ensures forall i, j :: 0 <= i < j && 29 <= j < 30 && j < |ReconPlan| ==> ReconPlan[i].id != ReconPlan[j].id
  {
  }

  lemma DistinctIdsBelow31()
    ensures forall i, j :: 0 <= i < j && 30 <= j < 31 && j < |ReconPlan| ==> ReconPlan[i].id != ReconPlan[j].id
  {
  }

  lemma DistinctIdsBelow32()
    ensures forall i, j :: 0 <= i < j && 31 <= j < 32 && j < |ReconPlan| ==> ReconPlan[i].id != ReconPlan[j].id
  {
  }

  lemma DistinctIdsBelow33()
    ensures forall i, j :: 0 <= i < j && 32 <= j < 33 && j < |ReconPlan| ==> ReconPlan[i].id != ReconPlan[j].id
  {
  }

  lemma DistinctIdsBelow34()
    ensures forall i, j :: 0 <= i < j && 33 <= j < 34 && j < |ReconPlan| ==> ReconPlan[i].id != ReconPlan[j].id
  {
  }

  lemma DistinctIdsBelow35()
    ensures forall i, j :: 0 <= i < j && 34 <= j < 35 && j < |ReconPlan| ==> ReconPlan[i].id != ReconPlan[j].id
  {
  }

  lemma DistinctIdsBelow36()
    ensures forall i, j :: 0 <= i < j && 35 <= j < 36 && j < |ReconPlan| ==> ReconPlan[i].id != ReconPlan[j].id
  {
  }

  lemma DistinctIdsBelow37()
    ensures forall i, j :: 0 <= i < j && 36 <= j < 37 && j < |ReconPlan| ==> ReconPlan[i].id != ReconPlan[j].id
  {
  }

  lemma DistinctIdsBelow38()
    ensures forall i, j :: 0 <= i < j && 37 <= j < 38 && j < |ReconPlan| ==> ReconPlan[i].id != ReconPlan[j].id
  {
  }

  lemma ParentsEarlierBelow10()
    ensures forall k :: 1 <= k < 10 && k < |ReconPlan| ==> ParentBefore(ReconPlan, ParentAt, k)
  {
  }

  lemma ParentsEarlierBelow15()
    ensures forall k :: 10 <= k < 15 && k < |ReconPlan| ==> ParentBefore(ReconPlan, ParentAt, k)
  {
  }

  lemma ParentsEarlierBelow20()
    ensures forall k :: 15 <= k < 20 && k < |ReconPlan| ==> ParentBefore(ReconPlan, ParentAt, k)
  {
  }

  lemma ParentsEarlierBelow29()
    ensures forall k :: 20 <= k < 29 && k < |ReconPlan| ==> ParentBefore(ReconPlan, ParentAt, k)
  {
  }

  lemma ParentsEarlierBelow38()
    ensures forall k :: 29 <= k < 38 && k < |ReconPlan| ==> ParentBefore(ReconPlan, ParentAt, k)
  {
  }

  lemma DescriptionsBlank()
    ensures forall k :: 0 <= k < |ReconPlan| ==> ReconPlan[k].description == ""
  {
  }

  /** The calls of generateReconTree satisfy WellPlanned. */
  lemma ReconPlanWellPlanned()
    ensures WellPlanned(ReconPlan)
  {
    ReconPlanShape();
    DistinctIdsBelow10();
    DistinctIdsBelow13();
    DistinctIdsBelow16();
    DistinctIdsBelow18();
    DistinctIdsBelow20();
    DistinctIdsBelow22();
    DistinctIdsBelow24();
    DistinctIdsBelow25();
    DistinctIdsBelow26();
    DistinctIdsBelow27();
    DistinctIdsBelow28();
    DistinctIdsBelow29();
    DistinctIdsBelow30();
    DistinctIdsBelow31();
    DistinctIdsBelow32();
    DistinctIdsBelow33();
    DistinctIdsBelow34();
    DistinctIdsBelow35();
    DistinctIdsBelow36();
    DistinctIdsBelow37();
    DistinctIdsBelow38();
    ParentsEarlierBelow10();
    ParentsEarlierBelow15();
    ParentsEarlierBelow20();
    ParentsEarlierBelow29();
    ParentsEarlierBelow38();
    DescriptionsBlank();
    WellPlannedByIndex(ReconPlan, ParentAt);
  }

  /**
   * The graph generateReconTree builds, whatever the domain: 38 nodes and 37
   * edges, rooted at 'recon', tree-shaped, every node's content empty.
   */
  lemma ReconTree(domain: string)
    ensures |Realize(ReconPlan, domain)| == 38 && |PlanEdges(ReconPlan)| == 37
    ensures Realize(ReconPlan, domain)[0].id == "recon"
    ensures TreeShaped(Realize(ReconPlan, domain), PlanEdges(ReconPlan))
    ensures forall i :: 0 <= i < 38 ==> Lookup(Realize(ReconPlan, domain)[i].data, "content") == Some("")
  {
    ReconPlanShape();
    ReconPlanWellPlanned();
    PlanEdgesAt(ReconPlan);
    PlanTree(ReconPlan, domain);
    RealizeAt(ReconPlan, domain);
    WellPlannedFacts(ReconPlan);
    forall i | 0 <= i < 38
      ensures Lookup(Realize(ReconPlan, domain)[i].data, "content") == Some("")
    {
      NodeOfData(ReconPlan[i], domain);
    }
  }

  /**
   * generateReconTree(domain): the graph the 38 calls build, which is the
   * realization of ReconPlan for the domain.
   */
  method GenerateReconTree(domain: string) returns (nodes: seq<Node>, edges: seq<Edge>)
    ensures nodes == Realize(ReconPlan, domain) && edges == PlanEdges(ReconPlan)
    ensures |nodes| == 38 && |edges| == 37 && nodes[0].id == "recon"
    ensures TreeShaped(nodes, edges)
  {
    ghost var plan: seq<Step> := [];
    nodes, edges := [], [];
    plan, nodes, edges := AddRoot(plan, nodes, edges, domain);
    assert plan == RootSteps;
    plan, nodes, edges := AddPassiveBranch(plan, nodes, edges, domain);
    plan, nodes, edges := AddActiveBranch(plan, nodes, edges, domain);
    plan, nodes, edges := AddProbingBranch(plan, nodes, edges, domain);
    plan, nodes, edges := AddPortBranch(plan, nodes, edges, domain);
    plan, nodes, edges := AddFingerprintBranch(plan, nodes, edges, domain);
    plan, nodes, edges := AddVisualBranch(plan, nodes, edges, domain);
    plan, nodes, edges := AddContentBranch(plan, nodes, edges, domain);
    plan, nodes, edges := AddUrlBranch(plan, nodes, edges, domain);
    plan, nodes, edges := AddVulnBranch(plan, nodes, edges, domain);
    assert plan == ReconPlan;
    ReconTree(domain);
  }
}
