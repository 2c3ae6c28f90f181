/**
 * The React Flow graph records the workflow keeps per target: nodes with a
 * position and a string-valued `data` record, and styled edges between node
 * ids. Also the JSON form of node and edge lists, as `JSON.stringify` writes
 * them and `JSON.parse` reads them back.
 */
module Graph {
  import opened Wrappers
  import opened Json

  datatype Position = Position(x: int, y: int)

  /** One property of a node's `data` object. The list keeps the object's key order. */
  datatype Entry = Entry(key: string, value: string)

  /** `kind` is the React Flow node `type` ('custom' for every generated node). */
  datatype Node = Node(id: string, kind: string, position: Position, data: seq<Entry>)

  datatype EdgeStyle = EdgeStyle(stroke: string, strokeWidth: int)

  datatype Edge = Edge(id: string, source: string, target: string, animated: bool, style: EdgeStyle)

  // ---------------------------------------------------------------------
  // The `data` object: property lookup and spread
  // ---------------------------------------------------------------------

  function Keys(data: seq<Entry>): (ks: seq<string>)
    ensures |ks| == |data|
    ensures forall i :: 0 <= i < |data| ==> ks[i] == data[i].key
  {
    if data == [] then [] else [data[0].key] + Keys(data[1..])
  }

  /** `data[key]`: the value of the first entry with that key, if any. */
  function Lookup(data: seq<Entry>, key: string): (r: Option<string>)
    ensures r.None? <==> key !in Keys(data)
    ensures r.Some? ==> Entry(key, r.value) in data
  {
    if data == [] then None
    else if data[0].key == key then Some(data[0].value)
    else Lookup(data[1..], key)
  }

  /** The base entries, each taking the patch's value when the patch has that key. */
  function Overlay(base: seq<Entry>, patch: seq<Entry>): (r: seq<Entry>)
    ensures |r| == |base|
    ensures Keys(r) == Keys(base)
  {
    if base == [] then []
    else
      var e := base[0];
      var v := match Lookup(patch, e.key) case Some(p) => p case None => e.value;
      [Entry(e.key, v)] + Overlay(base[1..], patch)
  }

  /** The patch entries whose key the base does not have, in patch order. */
  function Additions(patch: seq<Entry>, base: seq<Entry>): (r: seq<Entry>)
    ensures forall i :: 0 <= i < |r| ==> r[i] in patch && r[i].key !in Keys(base)
  {
    if patch == [] then []
    else if patch[0].key in Keys(base) then Additions(patch[1..], base)
    else [patch[0]] + Additions(patch[1..], base)
  }

  /**
   * `{ ...base, ...patch }`: the base keys keep their places (with the patch's
   * value where it has one), then the keys only the patch has are appended.
   */
  function Merge(base: seq<Entry>, patch: seq<Entry>): (r: seq<Entry>)
    ensures |r| >= |base| && Keys(r)[..|base|] == Keys(base)
  {
    var r := Overlay(base, patch) + Additions(patch, base);
    assert r[..|base|] == Overlay(base, patch);
    assert forall i :: 0 <= i < |base| ==> Keys(r)[i] == Keys(base)[i];
    r
  }

  lemma LookupAppend(a: seq<Entry>, b: seq<Entry>, key: string)
    ensures Lookup(a + b, key) == if key in Keys(a) then Lookup(a, key) else Lookup(b, key)
  {
    if a != [] {
      assert (a + b)[1..] == a[1..] + b;
      LookupAppend(a[1..], b, key);
    } else {
      assert a + b == b;
    }
  }

  lemma {:induction false} LookupOverlay(base: seq<Entry>, patch: seq<Entry>, key: string)
    requires key in Keys(base)
    ensures Lookup(Overlay(base, patch), key) ==
      if Lookup(patch, key).Some? then Lookup(patch, key) else Lookup(base, key)
  {
    if base[0].key != key {
      LookupOverlay(base[1..], patch, key);
    }
  }

  lemma {:induction false} LookupAdditions(patch: seq<Entry>, base: seq<Entry>, key: string)
    requires key !in Keys(base)
    ensures Lookup(Additions(patch, base), key) == Lookup(patch, key)
  {
    if patch != [] {
      LookupAdditions(patch[1..], base, key);
    }
  }

  /** Spread semantics: a key reads the patch's value if the patch has it, else the base's. */
  lemma MergeLookup(base: seq<Entry>, patch: seq<Entry>, key: string)
    ensures Lookup(Merge(base, patch), key) ==
      if Lookup(patch, key).Some? then Lookup(patch, key) else Lookup(base, key)
  {
    LookupAppend(Overlay(base, patch), Additions(patch, base), key);
    if key in Keys(base) {
      LookupOverlay(base, patch, key);
    } else {
      LookupAdditions(patch, base, key);
    }
  }

  /** Spreading an empty object changes nothing. */
  lemma {:induction false} MergeEmpty(base: seq<Entry>)
    ensures Merge(base, []) == base
  {
    if base != [] {
      MergeEmpty(base[1..]);
    }
  }

  // ---------------------------------------------------------------------
  // JSON form
  // ---------------------------------------------------------------------

  function DataToJson(data: seq<Entry>): (fs: seq<Field>)
    ensures |fs| == |data|
  {
    if data == [] then [] else [Field(data[0].key, JStr(data[0].value))] + DataToJson(data[1..])
  }

  function DataFromJson(fs: seq<Field>): (r: Option<seq<Entry>>)
    ensures r.Some? ==> DataToJson(r.value) == fs
  {
    if fs == [] then Some([])
    else if !fs[0].value.JStr? then None
    else match DataFromJson(fs[1..])
      case None => None
      case Some(rest) => Some([Entry(fs[0].key, fs[0].value.s)] + rest)
  }

  lemma {:induction false} DataRoundTrip(data: seq<Entry>)
    ensures DataFromJson(DataToJson(data)) == Some(data)
  {
    if data != [] {
      DataRoundTrip(data[1..]);
      assert DataToJson(data)[1..] == DataToJson(data[1..]);
      assert [data[0]] + data[1..] == data;
    }
  }

  /** `{"id":…,"type":…,"position":{"x":…,"y":…},"data":{…}}`, in that key order. */
  function NodeToJson(n: Node): Json
  {
    JObj([Field("id", JStr(n.id)), Field("type", JStr(n.kind)),
          Field("position", JObj([Field("x", JNum(n.position.x)), Field("y", JNum(n.position.y))])),
          Field("data", JObj(DataToJson(n.data)))])
  }

  function PositionFromJson(j: Json): (r: Option<Position>)
    ensures r.Some? ==> j == JObj([Field("x", JNum(r.value.x)), Field("y", JNum(r.value.y))])
  {
    if j.JObj? && |j.fields| == 2 && j.fields[0].key == "x" && j.fields[0].value.JNum?
       && j.fields[1].key == "y" && j.fields[1].value.JNum?
    then Some(Position(j.fields[0].value.n, j.fields[1].value.n))
    else None
  }

  function NodeFromJson(j: Json): (r: Option<Node>)
    ensures r.Some? ==> NodeToJson(r.value) == j
  {
    if j.JObj? && |j.fields| == 4
       && j.fields[0].key == "id" && j.fields[0].value.JStr?
       && j.fields[1].key == "type" && j.fields[1].value.JStr?
       && j.fields[2].key == "position" && PositionFromJson(j.fields[2].value).Some?
       && j.fields[3].key == "data" && j.fields[3].value.JObj?
       && DataFromJson(j.fields[3].value.fields).Some?
    then
      var n := Node(j.fields[0].value.s, j.fields[1].value.s, PositionFromJson(j.fields[2].value).value,
                    DataFromJson(j.fields[3].value.fields).value);
      assert NodeToJson(n).fields == j.fields;
      Some(n)
    else None
  }

  lemma NodeRoundTrip(n: Node)
    ensures NodeFromJson(NodeToJson(n)) == Some(n)
  {
    DataRoundTrip(n.data);
  }

  /** `{"id":…,"source":…,"target":…,"animated":…,"style":{"stroke":…,"strokeWidth":…}}`. */
  function EdgeToJson(e: Edge): Json
  {
    JObj([Field("id", JStr(e.id)), Field("source", JStr(e.source)), Field("target", JStr(e.target)),
          Field("animated", JBool(e.animated)),
          Field("style", JObj([Field("stroke", JStr(e.style.stroke)), Field("strokeWidth", JNum(e.style.strokeWidth))]))])
  }

  function StyleFromJson(j: Json): (r: Option<EdgeStyle>)
    ensures r.Some? ==> j == JObj([Field("stroke", JStr(r.value.stroke)), Field("strokeWidth", JNum(r.value.strokeWidth))])
  {
    if j.JObj? && |j.fields| == 2 && j.fields[0].key == "stroke" && j.fields[0].value.JStr?
       && j.fields[1].key == "strokeWidth" && j.fields[1].value.JNum?
    then Some(EdgeStyle(j.fields[0].value.s, j.fields[1].value.n))
    else None
  }

  function EdgeFromJson(j: Json): (r: Option<Edge>)
    ensures r.Some? ==> EdgeToJson(r.value) == j
  {
    if j.JObj? && |j.fields| == 5
       && j.fields[0].key == "id" && j.fields[0].value.JStr?
       && j.fields[1].key == "source" && j.fields[1].value.JStr?
       && j.fields[2].key == "target" && j.fields[2].value.JStr?
       && j.fields[3].key == "animated" && j.fields[3].value.JBool?
       && j.fields[4].key == "style" && StyleFromJson(j.fields[4].value).Some?
    then
      var e := Edge(j.fields[0].value.s, j.fields[1].value.s, j.fields[2].value.s, j.fields[3].value.b,
                    StyleFromJson(j.fields[4].value).value);
      assert EdgeToJson(e).fields == j.fields;
      Some(e)
    else None
  }

  lemma EdgeRoundTrip(e: Edge)
    ensures EdgeFromJson(EdgeToJson(e)) == Some(e)
  {
  }

  // ---------------------------------------------------------------------
  // Lists, and the text `JSON.stringify` / `JSON.parse` exchange
  // ---------------------------------------------------------------------

  function EncodeList<T>(xs: seq<T>, enc: T -> Json): (items: seq<Json>)
    ensures |items| == |xs|
    ensures forall i :: 0 <= i < |xs| ==> items[i] == enc(xs[i])
  {
    if xs == [] then [] else [enc(xs[0])] + EncodeList(xs[1..], enc)
  }

  /** Decodes every item, failing as a whole if any item fails. */
  function DecodeList<T>(items: seq<Json>, dec: Json -> Option<T>): (r: Option<seq<T>>)
    ensures r.Some? ==> |r.value| == |items| && forall i :: 0 <= i < |items| ==> dec(items[i]) == Some(r.value[i])
  {
    if items == [] then Some([])
    else match (dec(items[0]), DecodeList(items[1..], dec))
      case (Some(x), Some(xs)) => Some([x] + xs)
      case _ => None
  }

  lemma {:induction false} ListRoundTrip<T>(xs: seq<T>, enc: T -> Json, dec: Json -> Option<T>)
    requires forall x :: dec(enc(x)) == Some(x)
    ensures DecodeList(EncodeList(xs, enc), dec) == Some(xs)
  {
    if xs != [] {
      ListRoundTrip(xs[1..], enc, dec);
      assert EncodeList(xs, enc)[1..] == EncodeList(xs[1..], enc);
      assert [xs[0]] + xs[1..] == xs;
    }
  }

  function StringifyNodes(ns: seq<Node>): string
  {
    Print(JArr(EncodeList(ns, NodeToJson)))
  }

  function StringifyEdges(es: seq<Edge>): string
  {
    Print(JArr(EncodeList(es, EdgeToJson)))
  }

  /** `JSON.parse` of a node list; only the text `StringifyNodes` writes is accepted. */
  function ParseNodes(text: string): (r: Option<seq<Node>>)
    ensures r.Some? ==> StringifyNodes(r.value) == text
  {
    match Parse(text)
    case Some(JArr(items)) =>
      var r := DecodeList(items, NodeFromJson);
      if r.Some? then
        assert EncodeList(r.value, NodeToJson) == items;
        r
      else None
    case _ => None
  }

  function ParseEdges(text: string): (r: Option<seq<Edge>>)
    ensures r.Some? ==> StringifyEdges(r.value) == text
  {
    match Parse(text)
    case Some(JArr(items)) =>
      var r := DecodeList(items, EdgeFromJson);
      if r.Some? then
        assert EncodeList(r.value, EdgeToJson) == items;
        r
      else None
    case _ => None
  }

  lemma ParseStringifyNodes(ns: seq<Node>)
    ensures ParseNodes(StringifyNodes(ns)) == Some(ns)
  {
    ParsePrint(JArr(EncodeList(ns, NodeToJson)));
    forall n: Node ensures NodeFromJson(NodeToJson(n)) == Some(n) {
      NodeRoundTrip(n);
    }
    ListRoundTrip(ns, NodeToJson, NodeFromJson);
  }

  lemma ParseStringifyEdges(es: seq<Edge>)
    ensures ParseEdges(StringifyEdges(es)) == Some(es)
  {
    ParsePrint(JArr(EncodeList(es, EdgeToJson)));
    ListRoundTrip(es, EdgeToJson, EdgeFromJson);
  }
}
