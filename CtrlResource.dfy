/** The resource controller of the coap web application: stream parsers
    synthesised from a sample JSON document, the single regex parser for
    HTML, the content-type routing that picks between them, the defaults of
    a simply added resource, and the tail / last / since selector of a data
    read. JSON arrives already parsed; the storage reads are parameters. */
module CtrlResource {
  import opened Wrappers
  import opened JavaText

  /** A Jackson tree. Scalars of every kind (strings, numbers, booleans,
      null) are value nodes; an array is not, and has no field names. */
  datatype Json = Obj(fields: seq<(string, Json)>) | Arr(items: seq<Json>) | Leaf

  /** A stream parser as the skeleton records it. */
  datatype ParserSpec = ParserSpec(streamPath: string, inputParser: string, inputType: string, timeFormat: string)

  const JsonType := "application/json"
  const UnixTime := "unix"

  /** The parser made for the scalar at `path`. */
  function LeafParser(name: string, path: string): ParserSpec
  {
    ParserSpec("/" + name + path, path, JsonType, UnixTime)
  }

  /** The number of fields `parseJsonNode` visits: none outside an object. */
  function FieldCount(node: Json): nat
  {
    if node.Obj? then |node.fields| else 0
  }

  /** The parsers made for the first `k` fields of `node`, depth first:
      one per scalar field, the parsers of a nested object, and nothing for
      an array. */
  function JsonParsers(name: string, node: Json, parents: string, k: nat): (r: seq<ParserSpec>)
    requires k <= FieldCount(node)
    ensures forall i | 0 <= i < |r| ::
              r[i].inputType == JsonType && r[i].timeFormat == UnixTime
              && r[i].streamPath == "/" + name + r[i].inputParser
              && parents + "/" <= r[i].inputParser
    decreases node, k
  {
    if k == 0 then []
    else
      var (field, child) := node.fields[k - 1];
      var earlier := JsonParsers(name, node, parents, k - 1);
      var path := parents + "/" + field;
      match child
      case Leaf => earlier + [LeafParser(name, path)]
      case Obj(inner) =>
        var nested := JsonParsers(name, child, path, |inner|);
        assert forall i | 0 <= i < |nested| :: parents + "/" <= nested[i].inputParser by {
          forall i | 0 <= i < |nested|
            ensures parents + "/" <= nested[i].inputParser
          {
            assert (parents + "/" + field + "/")[..|parents| + 1] == parents + "/";
          }
        }
        earlier + nested
      case Arr(_) => earlier
  }

  /** All the parsers of a node. */
  function NodeParsers(name: string, node: Json, parents: string): seq<ParserSpec>
  {
    JsonParsers(name, node, parents, FieldCount(node))
  }

  /** The paths of the scalar fields under the first `k` fields of `node`,
      depth first: the reference for what `parseJsonNode` should find. */
  function LeafPaths(node: Json, parents: string, k: nat): seq<string>
    requires k <= FieldCount(node)
    decreases node, k
  {
    if k == 0 then []
    else
      var (field, child) := node.fields[k - 1];
      var earlier := LeafPaths(node, parents, k - 1);
      match child
      case Leaf => earlier + [parents + "/" + field]
      case Obj(inner) => earlier + LeafPaths(child, parents + "/" + field, |inner|)
      case Arr(_) => earlier
  }

  /** Exactly one parser per scalar leaf, in depth-first order, each reading
      that leaf's path into the stream of the same path under the name. */
  lemma {:induction false} ParsersFollowLeaves(name: string, node: Json, parents: string, k: nat)
    requires k <= FieldCount(node)
    ensures JsonParsers(name, node, parents, k) ==
              seq(|LeafPaths(node, parents, k)|, i requires 0 <= i < |LeafPaths(node, parents, k)| =>
                    LeafParser(name, LeafPaths(node, parents, k)[i]))
    decreases node, k
  {
    if k > 0 {
      var (field, child) := node.fields[k - 1];
      ParsersFollowLeaves(name, node, parents, k - 1);
      match child
      case Leaf =>
      case Obj(inner) =>
        ParsersFollowLeaves(name, child, parents + "/" + field, |inner|);
      case Arr(_) =>
    }
  }

  /** Scalars and arrays have no fields, so they give no parsers. */
  lemma NonObjectsGiveNothing(name: string, node: Json, parents: string)
    requires !node.Obj?
    ensures NodeParsers(name, node, parents) == []
  {
  }

  /** A form being filled with stream parsers. */
  class Skeleton {
    const name: string
    var parsers: seq<ParserSpec>

    /** `new SkeletonResource(resource)`: the resource's name and the
        parsers it already has. */
    constructor (name: string, existing: seq<ParserSpec>)
      ensures this.name == name && parsers == existing
    {
      this.name := name;
      parsers := existing;
    }

    method AddStreamParser(streamPath: string, inputParser: string, inputType: string, timeFormat: string)
      modifies this
      ensures parsers == old(parsers) + [ParserSpec(streamPath, inputParser, inputType, timeFormat)]
    {
      parsers := parsers + [ParserSpec(streamPath, inputParser, inputType, timeFormat)];
    }
  }

  /** `parseJsonNode`: walk the fields of `node` in order, add a parser for
      each scalar and descend into everything else. */
  method ParseJsonNode(node: Json, skeleton: Skeleton, parents: string)
    modifies skeleton
    ensures skeleton.parsers == old(skeleton.parsers) + NodeParsers(skeleton.name, node, parents)
    decreases node
  {
    var i := 0;
    while i < FieldCount(node)
      invariant i <= FieldCount(node)
      invariant skeleton.parsers == old(skeleton.parsers) + JsonParsers(skeleton.name, node, parents, i)
    {
      var (field, n) := node.fields[i];
      if n.Leaf? {
        assert "/" + skeleton.name + parents + "/" + field == "/" + skeleton.name + (parents + "/" + field);
        skeleton.AddStreamParser("/" + skeleton.name + parents + "/" + field, parents + "/" + field,
                                 JsonType, UnixTime);
      } else {
        var fullNodeName := parents + "/" + field;
        ParseJsonNode(n, skeleton, fullNodeName);
      }
      i := i + 1;
    }
  }

  /** `parseJson`: a document that does not parse adds nothing and raises
      nothing. `parsed` is Jackson's tree (None: the parse threw). */
  method ParseJson(parsed: Option<Json>, name: string, existing: seq<ParserSpec>) returns (skeleton: Skeleton)
    ensures fresh(skeleton) && skeleton.name == name
    ensures skeleton.parsers == existing + if parsed.None? then [] else NodeParsers(name, parsed.value, "")
  {
    skeleton := new Skeleton(name, existing);
    if parsed.Some? {
      ParseJsonNode(parsed.value, skeleton, "");
    }
  }

  const RegexParser := "(.*)"
  const HtmlType := "text/html"
  const HtmlTime := "yy-mm-dd kk:mm:ss"

  /** `parseHTML`: one regex parser reading the whole text. */
  method ParseHtml(name: string, existing: seq<ParserSpec>) returns (skeleton: Skeleton)
    ensures fresh(skeleton) && skeleton.name == name
    ensures skeleton.parsers == existing + [ParserSpec("/" + name + "/regex1", RegexParser, HtmlType, HtmlTime)]
  {
    skeleton := new Skeleton(name, existing);
    assert "/" + skeleton.name + "/" + "regex1" == "/" + name + "/regex1";
    skeleton.AddStreamParser("/" + skeleton.name + "/" + "regex1", RegexParser, HtmlType, HtmlTime);
  }

  /** How `autoParser` reads a content type. */
  datatype ContentKind = JsonContent | TextContent | UnknownContent

  function ContentKindOf(contentType: string): (k: ContentKind)
    ensures k == JsonContent <==> MatchesPrefix(contentType, "application/json") || MatchesPrefix(contentType, "text/json")
    ensures k == TextContent <==>
              !(MatchesPrefix(contentType, "application/json") || MatchesPrefix(contentType, "text/json"))
              && (MatchesPrefix(contentType, "text/html") || MatchesPrefix(contentType, "text/plain"))
  {
    if MatchesPrefix(contentType, "application/json") || MatchesPrefix(contentType, "text/json") then JsonContent
    else if MatchesPrefix(contentType, "text/html") || MatchesPrefix(contentType, "text/plain") then TextContent
    else UnknownContent
  }

  /** The resource `autoParser` works on, and what probing it answered. */
  datatype Probed = Probed(name: string, existing: seq<ParserSpec>, hasUrl: bool,
                           contentType: Option<string>, body: string)

  datatype AutoAnswer =
    | NoResource
    /** the response had no content type: `matches` on null throws */
    | AutoThrew
    /** the form, filled with these parsers */
    | Filled(parsers: seq<ParserSpec>)

  /** The parsers of a probed body when `parse` reads it, or none. */
  function BodyParsers(p: Probed, parse: string -> Option<Json>): seq<ParserSpec>
  {
    if parse(p.body).Some? then NodeParsers(p.name, parse(p.body).value, "") else []
  }

  /** The parsers `autoParser` as written adds for a content type: JSON and
      HTML / plain text alike go to `parseJson`, so every parser it adds is
      a JSON one. */
  function Routed(kind: ContentKind, p: Probed, parse: string -> Option<Json>): (r: seq<ParserSpec>)
    ensures p.existing <= r
    ensures forall i | |p.existing| <= i < |r| :: r[i].inputType == JsonType
    ensures kind == UnknownContent ==> r == p.existing
  {
    match kind
    case JsonContent => p.existing + BodyParsers(p, parse)
    case TextContent => p.existing + BodyParsers(p, parse)
    case UnknownContent => p.existing
  }

  /** The same routing as its HTML branch evidently means it: HTML and plain
      text get the regex parser, as the retired `initialise` did. */
  function RoutedIntended(kind: ContentKind, p: Probed, parse: string -> Option<Json>): (r: seq<ParserSpec>)
    ensures p.existing <= r
    ensures kind == TextContent ==> |r| == |p.existing| + 1 && r[|p.existing|].inputType == HtmlType
    ensures kind != TextContent ==> r == Routed(kind, p, parse)
  {
    match kind
    case JsonContent => p.existing + BodyParsers(p, parse)
    case TextContent => p.existing + [ParserSpec("/" + p.name + "/regex1", RegexParser, HtmlType, HtmlTime)]
    case UnknownContent => p.existing
  }

  /** `autoParser` as written. A resource without a URL keeps its parsers;
      one with a URL whose response has a content type is routed by it. */
  method AutoParser(resource: Option<Probed>, parse: string -> Option<Json>) returns (r: AutoAnswer)
    ensures resource.None? <==> r.NoResource?
    ensures r.AutoThrew? <==> resource.Some? && resource.value.hasUrl && resource.value.contentType.None?
    ensures r.Filled? ==>
              var p := resource.value;
              r.parsers == if p.hasUrl then Routed(ContentKindOf(p.contentType.value), p, parse) else p.existing
  {
    if resource.None? {
      return NoResource;
    }
    var p := resource.value;
    if p.hasUrl {
      if p.contentType.None? {
        return AutoThrew;
      }
      var kind := ContentKindOf(p.contentType.value);
      if kind == JsonContent {
        var skeleton := ParseJson(parse(p.body), p.name, p.existing);
        return Filled(skeleton.parsers);
      } else if kind == TextContent {
        var skeleton := ParseJson(parse(p.body), p.name, p.existing);
        return Filled(skeleton.parsers);
      }
    }
    r := Filled(p.existing);
  }

  /** `autoParser` with the HTML branch calling `parseHTML`. */
  method AutoParserIntended(resource: Option<Probed>, parse: string -> Option<Json>) returns (r: AutoAnswer)
    ensures resource.None? <==> r.NoResource?
    ensures r.AutoThrew? <==> resource.Some? && resource.value.hasUrl && resource.value.contentType.None?
    ensures r.Filled? ==>
              var p := resource.value;
              r.parsers == if p.hasUrl then RoutedIntended(ContentKindOf(p.contentType.value), p, parse) else p.existing
  {
    if resource.None? {
      return NoResource;
    }
    var p := resource.value;
    if p.hasUrl {
      if p.contentType.None? {
        return AutoThrew;
      }
      var kind := ContentKindOf(p.contentType.value);
      if kind == JsonContent {
        var skeleton := ParseJson(parse(p.body), p.name, p.existing);
        return Filled(skeleton.parsers);
      } else if kind == TextContent {
        var skeleton := ParseHtml(p.name, p.existing);
        return Filled(skeleton.parsers);
      }
    }
    r := Filled(p.existing);
  }

  /** An HTML page is not JSON, so as written it gets no parser at all,
      where the intended routing gives it the regex parser. */
  lemma HtmlGetsNoParser(name: string, parse: string -> Option<Json>)
    requires parse("<html></html>").None?
    ensures var p := Probed(name, [], true, Some("text/html"), "<html></html>");
            Routed(ContentKindOf("text/html"), p, parse) == []
            && RoutedIntended(ContentKindOf("text/html"), p, parse)
               == [ParserSpec("/" + name + "/regex1", RegexParser, HtmlType, HtmlTime)]
  {
    var t := "text/html";
    assert "application/json"[0] != t[0] && "text/json"[5] != t[5];
    assert !MatchesPrefix(t, "application/json") && !MatchesPrefix(t, "text/json");
    assert MatchesPrefix(t, "text/html");
  }

  // ------------------------------------------------------------ addSimple

  /** The fields of a submitted resource form that addSimple touches. */
  datatype ResourceForm = ResourceForm(id: Option<int>, owner: Option<int>, pollingPeriod: int,
                                       name: string, pollingUrl: string)

  datatype FormBinding = BindThrew | HasErrors | Bound(submitted: Option<ResourceForm>)

  datatype AddAnswer =
    | BadRequest(message: string)
    /** redirect to the resource list, after `Resource.create` of this
        resource, if the form held one */
    | Redirected(created: Option<ResourceForm>)
    /** `Resource.create` gave null, which the log line after it
        dereferences: a null pointer exception */
    | AddThrew

  /** `addSimple`: a new resource, owned by the current user, never polled.
      `create` stands for `Resource.create`, which gives null on failure. */
  function AddSimple(form: FormBinding, currentUser: Option<int>,
                     create: ResourceForm -> Option<ResourceForm>): (r: AddAnswer)
    ensures form.BindThrew? ==> r == BadRequest("Bad parsing of form")
    ensures form.HasErrors? ==> r == BadRequest("Bad request")
    ensures form.Bound? && form.submitted.None? ==> r == Redirected(None)
    ensures form.Bound? && form.submitted.Some? ==>
              var prepared := form.submitted.value.(id := None, owner := currentUser, pollingPeriod := 0);
              r == if create(prepared).None? then AddThrew else Redirected(Some(prepared))
    ensures r.Redirected? && r.created.Some? ==>
              var c := r.created.value;
              c.id.None? && c.owner == currentUser && c.pollingPeriod == 0
              && c.name == form.submitted.value.name && c.pollingUrl == form.submitted.value.pollingUrl
              && create(c).Some?
  {
    match form
    case BindThrew => BadRequest("Bad parsing of form")
    case HasErrors => BadRequest("Bad request")
    case Bound(submitted) =>
      if submitted.None? then Redirected(None)
      else
        var prepared := submitted.value.(id := None, owner := currentUser, pollingPeriod := 0);
        if create(prepared).None? then AddThrew else Redirected(Some(prepared))
  }

  // ------------------------------------------------------------- getData

  /** The three storage reads of a data request. */
  datatype DataQuery = Tail(count: int) | Last(span: int) | Since(from: int)

  /** The read chosen by `getData`: all three negative means the last point;
      tail wins over last, and last over since. */
  function SelectQuery(tail: int, last: int, since: int): (q: DataQuery)
    ensures q.Tail? <==> tail >= 0 || (last < 0 && since < 0)
    ensures q.Last? <==> tail < 0 && last >= 0
    ensures q.Since? <==> tail < 0 && last < 0 && since >= 0
    ensures q == Tail(1) <==> tail == 1 || (tail < 0 && last < 0 && since < 0)
    ensures q.Tail? && tail >= 0 ==> q.count == tail
    ensures q.Last? ==> q.span == last
    ensures q.Since? ==> q.from == since
  {
    var t := if tail < 0 && last < 0 && since < 0 then 1 else tail;
    if t >= 0 then Tail(t)
    else if last >= 0 then Last(last)
    else Since(since)
  }

  /** A stored point; `value` is its data when the stream holds doubles. */
  datatype Point = Point(timestamp: int, value: real)

  /** The stream the request names, as the controller sees it. */
  datatype StreamView = StreamView(readable: bool, isDouble: bool)

  datatype DataAnswer =
    | NotFound
    | Unauthorized(message: string)
    /** 200 with the JSON object {time: [...], data: [...]} */
    | Series(time: seq<int>, data: seq<real>)

  function Timestamps(points: seq<Point>): (r: seq<int>)
    ensures |r| == |points| && forall i | 0 <= i < |points| :: r[i] == points[i].timestamp
  {
    if points == [] then [] else Timestamps(points[..|points| - 1]) + [points[|points| - 1].timestamp]
  }

  function Values(points: seq<Point>): (r: seq<real>)
    ensures |r| == |points| && forall i | 0 <= i < |points| :: r[i] == points[i].value
  {
    if points == [] then [] else Values(points[..|points| - 1]) + [points[|points| - 1].value]
  }

  /** `getData(user, stream, tail, last, since)`: one time entry per point
      read, and the values beside them only for a stream of doubles.
      `fetch` answers the storage read. */
  method GetData(stream: Option<StreamView>, tail: int, last: int, since: int, fetch: DataQuery -> seq<Point>)
    returns (r: DataAnswer)
    ensures stream.None? <==> r == NotFound
    ensures stream.Some? && !stream.value.readable <==> r == Unauthorized("Private stream!")
    ensures r.Series? ==>
              var points := fetch(SelectQuery(tail, last, since));
              r.time == Timestamps(points) && r.data == if stream.value.isDouble then Values(points) else []
  {
    if stream.None? {
      return NotFound;
    }
    if !stream.value.readable {
      return Unauthorized("Private stream!");
    }
    var t := tail;
    if t < 0 && last < 0 && since < 0 {
      t := 1;
    }
    var dataSet: seq<Point>;
    if t >= 0 {
      dataSet := fetch(Tail(t));
    } else if last >= 0 {
      dataSet := fetch(Last(last));
    } else if since >= 0 {
      dataSet := fetch(Since(since));
    } else {
      assert false;
    }
    assert dataSet == fetch(SelectQuery(tail, last, since));
    var time: seq<int> := [];
    var data: seq<real> := [];
    for i := 0 to |dataSet|
      invariant time == Timestamps(dataSet[..i])
      invariant data == if stream.value.isDouble then Values(dataSet[..i]) else []
    {
      assert dataSet[..i + 1][..i] == dataSet[..i];
      time := time + [dataSet[i].timestamp];
      if stream.value.isDouble {
        data := data + [dataSet[i].value];
      }
    }
    assert dataSet[..|dataSet|] == dataSet;
    r := Series(time, data);
  }
}
