/** The engine's per-resource poll unit: it reloads its configuration from
    storage, keeps a secure CoAP client exactly while it polls a `coaps`
    URI, fetches the resource on request and runs every parser of the
    resource over the payload, writing one poll entry to the audit log.
    Storage, the URI parser, the network and the parsers themselves are
    parameters; what the unit does to the outside world is recorded as a
    trace of effects, so that the order of those effects can be stated. */
module Poller {
  import opened Wrappers
  import opened JavaText

  /** A `java.net.URI`: scheme and host are null for a relative URI. */
  datatype Uri = Uri(scheme: Option<string>, host: Option<string>, text: string)

  const CoapScheme := "coap"
  const CoapsScheme := "coaps"

  predicate IsCoaps(u: Uri) { u.scheme == Some(CoapsScheme) }

  /** A parser row of the resource; `text` is how it prints. */
  datatype Parser = Parser(id: int, text: string)

  /** The part of the resource row the poller reads. */
  datatype ResourceRow = ResourceRow(pollingUrl: Option<string>)

  /** What the poller does outside its own fields, in order. */
  datatype Effect =
    /** the endpoint of the old secure client is stopped */
    | StopSession
    /** a new secure client is made for this URI and its DTLS endpoint set up */
    | OpenSession(uri: Uri)
    /** `polledResource(resourceId, now)` */
    | PolledResource(resourceId: int, time: int)
    /** `ParseData.apply(parser, data, timestamp)` */
    | ApplyParser(parser: Parser, data: string, timestamp: int)
    /** the poll entry of the resource's audit log is updated and saved */
    | PollLog(resourceId: int, parsedSuccessfully: bool, isPoll: bool, message: string, time: int)
    /** a message that is not a String goes to the actor's `unhandled` */
    | Unhandled

  // ------------------------------------------------ the secure-client step

  /** The secure client after lines 116-130 of `rebuild`, the effects on
      the old and new DTLS sessions, and whether one of the null-unsafe
      scheme or host comparisons threw (what was done before the throw
      stays done). Java's `equals` is false against null, so a host that
      becomes null counts as a changed host. */
  datatype ClientStep = ClientStep(client: Option<Uri>, effects: seq<Effect>, threw: bool)

  function SecureStep(previous: Option<Uri>, current: Uri, client: Option<Uri>): (r: ClientStep)
    ensures forall e | e in r.effects :: e.StopSession? || e.OpenSession?
  {
    if previous.Some? && previous.value.scheme.None? then ClientStep(client, [], true)
    else if previous.Some? && IsCoaps(previous.value) && previous.value.host.None? then ClientStep(client, [], true)
    else if previous.Some? && IsCoaps(previous.value) && previous.value.host == current.host
            && current.scheme.None? then ClientStep(client, [], true)
    else
      var drop := previous.Some? && IsCoaps(previous.value)
                  && (previous.value.host != current.host || !IsCoaps(current))
                  && client.Some?;
      var kept := if drop then None else client;
      var stops := if drop then [StopSession] else [];
      if kept.None? && current.scheme.None? then ClientStep(None, stops, true)
      else if kept.None? && IsCoaps(current) then ClientStep(Some(current), stops + [OpenSession(current)], false)
      else ClientStep(kept, stops, false)
  }

  /** The invariant of the poll unit: a secure client exists exactly when the
      current URI is a `coaps` URI. */
  predicate ClientMatches(uri: Option<Uri>, client: Option<Uri>)
  {
    client.Some? <==> uri.Some? && IsCoaps(uri.value)
  }

  /** The step keeps the invariant whenever it does not throw. */
  lemma SecureStepKeepsInvariant(previous: Option<Uri>, current: Uri, client: Option<Uri>)
    requires ClientMatches(previous, client)
    ensures !SecureStep(previous, current, client).threw ==>
              ClientMatches(Some(current), SecureStep(previous, current, client).client)
  {
  }

  /** A throw can leave the old client in place for a URI that is no longer
      `coaps`: a relative URI with the same host as the old `coaps` one. */
  lemma SecureStepThrowLeavesStaleClient(h: string, client: Uri)
    ensures var previous := Uri(Some(CoapsScheme), Some(h), "coaps://" + h);
            var current := Uri(None, Some(h), "//" + h);
            var step := SecureStep(Some(previous), current, Some(client));
            ClientMatches(Some(previous), Some(client)) && step.threw && !ClientMatches(Some(current), step.client)
  {
  }

  /** The same `coaps` host again keeps the client and opens no new session. */
  lemma SecureStepKeepsClient(previous: Uri, current: Uri, client: Uri)
    requires IsCoaps(previous) && IsCoaps(current)
    requires previous.host.Some? && previous.host == current.host
    ensures SecureStep(Some(previous), current, Some(client)) == ClientStep(Some(client), [], false)
  {
  }

  /** Leaving a `coaps` host, or `coaps` itself, stops and drops the client;
      a new one is made when the new URI is `coaps` again. */
  lemma SecureStepDropsClient(previous: Uri, current: Uri, client: Uri)
    requires IsCoaps(previous) && previous.host.Some? && current.scheme.Some?
    requires previous.host != current.host || !IsCoaps(current)
    ensures SecureStep(Some(previous), current, Some(client)) ==
              if IsCoaps(current) then ClientStep(Some(current), [StopSession, OpenSession(current)], false)
              else ClientStep(None, [StopSession], false)
  {
  }

  /** Without a client, one is made exactly for a `coaps` URI. */
  lemma SecureStepOpensClient(previous: Option<Uri>, current: Uri)
    requires previous.None? || (previous.value.scheme.Some? && !IsCoaps(previous.value))
    requires current.scheme.Some?
    ensures SecureStep(previous, current, None) ==
              if IsCoaps(current) then ClientStep(Some(current), [OpenSession(current)], false)
              else ClientStep(None, [], false)
  {
  }

  /** The step throws only on a URI that lacks a scheme or a host. */
  lemma SecureStepThrowsOnlyOnPartialUris(previous: Option<Uri>, current: Uri, client: Option<Uri>)
    ensures SecureStep(previous, current, client).threw ==>
              current.scheme.None? || (previous.Some? && (previous.value.scheme.None? || previous.value.host.None?))
  {
  }

  // ------------------------------------------------------- parser results

  /** The message one parser contributes; `failure` is the text of the
      exception it threw, if any. */
  function ParserMessage(p: Parser, failure: Option<string>): string
  {
    match failure
    case None => "Parser succeeded: " + p.text + "\n"
    case Some(e) => "Parser failed: " + p.text + " Error:" + e
  }

  /** One `ParseData.apply` per parser, in order, all with one timestamp. */
  function Attempts(ps: seq<Parser>, data: string, timestamp: int): (r: seq<Effect>)
    ensures |r| == |ps|
  {
    if ps == [] then [] else Attempts(ps[..|ps| - 1], data, timestamp) + [ApplyParser(ps[|ps| - 1], data, timestamp)]
  }

  /** Every parser is attempted, in order, with the same payload and timestamp. */
  lemma {:induction false} AttemptsEveryParser(ps: seq<Parser>, data: string, timestamp: int)
    ensures forall i | 0 <= i < |ps| :: Attempts(ps, data, timestamp)[i] == ApplyParser(ps[i], data, timestamp)
  {
    if ps != [] {
      var init := ps[..|ps| - 1];
      AttemptsEveryParser(init, data, timestamp);
      assert forall i | 0 <= i < |init| :: init[i] == ps[i];
    }
  }

  /** The strings appended one after the other. */
  function Concat(parts: seq<string>): string
  {
    if parts == [] then "" else Concat(parts[..|parts| - 1]) + parts[|parts| - 1]
  }

  lemma ConcatSnoc(parts: seq<string>, last: string)
    ensures Concat(parts + [last]) == Concat(parts) + last
  {
    assert (parts + [last])[..|parts|] == parts;
  }

  lemma {:induction false} ConcatAppend(x: seq<string>, y: seq<string>)
    ensures Concat(x + y) == Concat(x) + Concat(y)
  {
    if y == [] {
      assert x + y == x;
    } else {
      var init := y[..|y| - 1];
      assert x + y == (x + init) + [y[|y| - 1]];
      ConcatSnoc(x + init, y[|y| - 1]);
      ConcatAppend(x, init);
    }
  }

  /** The message of each parser, in parser order. */
  function MessageParts(ps: seq<Parser>, data: string, timestamp: int,
                        apply: (Parser, string, int) -> Option<string>): (r: seq<string>)
    ensures |r| == |ps|
    ensures forall i | 0 <= i < |ps| :: r[i] == ParserMessage(ps[i], apply(ps[i], data, timestamp))
  {
    if ps == [] then []
    else MessageParts(ps[..|ps| - 1], data, timestamp, apply) + [ParserMessage(ps[|ps| - 1], apply(ps[|ps| - 1], data, timestamp))]
  }

  /** All the parser messages, one after the other. */
  function Messages(ps: seq<Parser>, data: string, timestamp: int,
                    apply: (Parser, string, int) -> Option<string>): string
  {
    Concat(MessageParts(ps, data, timestamp, apply))
  }

  /** The success flag folded over the parsers: true iff none threw. */
  function AllParsed(ps: seq<Parser>, data: string, timestamp: int,
                     apply: (Parser, string, int) -> Option<string>): (ok: bool)
    ensures ok <==> forall i | 0 <= i < |ps| :: apply(ps[i], data, timestamp).None?
  {
    if ps == [] then true
    else
      var init := ps[..|ps| - 1];
      assert forall i | 0 <= i < |init| :: init[i] == ps[i];
      AllParsed(init, data, timestamp, apply) && apply(ps[|ps| - 1], data, timestamp).None?
  }

  /** The messages of a list of parsers are those of its parts, in order. */
  lemma MessagesInOrder(a: seq<Parser>, b: seq<Parser>, data: string, timestamp: int,
                        apply: (Parser, string, int) -> Option<string>)
    ensures Messages(a + b, data, timestamp, apply) ==
              Messages(a, data, timestamp, apply) + Messages(b, data, timestamp, apply)
  {
    var pa, pb := MessageParts(a, data, timestamp, apply), MessageParts(b, data, timestamp, apply);
    assert forall i | 0 <= i < |a + b| :: MessageParts(a + b, data, timestamp, apply)[i] == (pa + pb)[i];
    assert MessageParts(a + b, data, timestamp, apply) == pa + pb;
    ConcatAppend(pa, pb);
  }

  /** The message of the poll entry: the parser messages, then the first
      hundred characters of the payload. */
  function PollMessage(messages: string, data: string): (r: string)
    ensures |messages| <= |r| <= |messages| + 118 && r[..|messages|] == messages
  {
    messages + "\nReceived data:" + Prefix(data, 100) + "..."
  }

  /** The effects of `applyParsers`: nothing at all without parsers. */
  function ParserEffects(resourceId: int, data: string, found: seq<Parser>,
                         apply: (Parser, string, int) -> Option<string>, now: int): (r: seq<Effect>)
    ensures found == [] ==> r == []
    ensures found != [] ==>
              |r| == |found| + 1
              && r[..|found|] == Attempts(found, data, now)
              && r[|found|..] == [PollLog(resourceId, AllParsed(found, data, now, apply), true,
                                          PollMessage(Messages(found, data, now, apply), data), now)]
  {
    if found == [] then []
    else Attempts(found, data, now)
         + [PollLog(resourceId, AllParsed(found, data, now, apply), true,
                    PollMessage(Messages(found, data, now, apply), data), now)]
  }

  /** One more parser extends the three folds by its own part. */
  lemma ParsersStep(ps: seq<Parser>, i: nat, data: string, timestamp: int,
                    apply: (Parser, string, int) -> Option<string>)
    requires i < |ps|
    ensures Attempts(ps[..i + 1], data, timestamp) == Attempts(ps[..i], data, timestamp) + [ApplyParser(ps[i], data, timestamp)]
    ensures Messages(ps[..i + 1], data, timestamp, apply)
            == Messages(ps[..i], data, timestamp, apply) + ParserMessage(ps[i], apply(ps[i], data, timestamp))
    ensures AllParsed(ps[..i + 1], data, timestamp, apply)
            == (AllParsed(ps[..i], data, timestamp, apply) && apply(ps[i], data, timestamp).None?)
  {
    assert ps[..i + 1][..i] == ps[..i];
    var failure := apply(ps[i], data, timestamp);
    assert MessageParts(ps[..i + 1], data, timestamp, apply)
        == MessageParts(ps[..i], data, timestamp, apply) + [ParserMessage(ps[i], failure)];
    ConcatSnoc(MessageParts(ps[..i], data, timestamp, apply), ParserMessage(ps[i], failure));
  }

  /** The loop of `applyParsers`: every parser is applied, even after one
      throws; `attempted` are the applications in order. */
  method RunParsers(ps: seq<Parser>, data: string, timestamp: int, apply: (Parser, string, int) -> Option<string>)
    returns (parsedSuccessfully: bool, allMsgs: string, attempted: seq<Effect>)
    ensures parsedSuccessfully == AllParsed(ps, data, timestamp, apply)
    ensures allMsgs == Messages(ps, data, timestamp, apply)
    ensures attempted == Attempts(ps, data, timestamp)
  {
    parsedSuccessfully := true;
    allMsgs := "";
    attempted := [];
    for i := 0 to |ps|
      invariant allMsgs == Messages(ps[..i], data, timestamp, apply)
      invariant parsedSuccessfully == AllParsed(ps[..i], data, timestamp, apply)
      invariant attempted == Attempts(ps[..i], data, timestamp)
    {
      var parser := ps[i];
      ParsersStep(ps, i, data, timestamp, apply);
      attempted := attempted + [ApplyParser(parser, data, timestamp)];
      var failure := apply(parser, data, timestamp);
      if failure.None? {
        var msg := "Parser succeeded: " + parser.text + "\n";
        allMsgs := allMsgs + msg;
      } else {
        var msg := "Parser failed: " + parser.text + " Error:" + failure.value;
        allMsgs := allMsgs + msg;
        parsedSuccessfully := false;
      }
    }
    assert ps[..|ps|] == ps;
  }

  // ------------------------------------------------------------ the unit

  datatype RebuildOutcome =
    | NoResource
    | NoUrl
    | BadUrl
    | Rebuilt
    /** a scheme or host comparison threw, after `uriobj` was replaced */
    | RebuildThrew

  datatype HttpFetch = HttpLines(lines: seq<string>) | HttpError(error: string)
  datatype CoapFetch = CoapText(text: string) | NoResponse

  /** A message to the actor. */
  datatype Message = Text(text: string) | NotText

  /** What storage, the URI parser, the network, the parsers and the clock
      answer during one message. */
  datatype Environment = Environment(
    resource: Option<ResourceRow>,
    parse: string -> Option<Uri>,
    found: seq<Parser>,
    http: HttpFetch,
    coap: CoapFetch,
    apply: (Parser, string, int) -> Option<string>,
    now: int)

  class PollUnit {
    var resourceId: int
    var url: Option<string>
    var uriobj: Option<Uri>
    var secureclient: Option<Uri>
    var parsers: seq<Parser>
    var effects: seq<Effect>

    predicate Valid()
      reads this
    {
      ClientMatches(uriobj, secureclient)
    }

    /** The field set-up of `new Poller(...)`, before its `rebuild`; see
        `NewPoller` for the whole constructor. */
    constructor (resourceId: int, url: string)
      ensures this.resourceId == resourceId && this.url == Some(url)
      ensures uriobj.None? && secureclient.None? && parsers == [] && effects == []
      ensures Valid()
    {
      this.resourceId := resourceId;
      this.url := Some(url);
      uriobj := None;
      secureclient := None;
      parsers := [];
      effects := [];
    }

    /** What `rebuild` does to the poll unit, given what storage and the URI
        parser answer, and whether it threw. The three early returns change
        nothing but, after the first, the `url` field; past the parse,
        `uriobj` holds the new URI even when the client step throws. */
    twostate predicate Rebuilds(resource: Option<ResourceRow>, parse: string -> Option<Uri>, found: seq<Parser>,
                                threw: bool)
      reads this
    {
      && resourceId == old(resourceId)
      && url == (if resource.None? then old(url) else resource.value.pollingUrl)
      && if resource.None? || url.None? || url.value == "" || parse(url.value).None? then
           !threw && uriobj == old(uriobj) && secureclient == old(secureclient)
           && parsers == old(parsers) && effects == old(effects)
         else
           uriobj == parse(url.value)
           && var step := SecureStep(old(uriobj), uriobj.value, old(secureclient));
              threw == step.threw && secureclient == step.client && effects == old(effects) + step.effects
              && parsers == if step.threw then old(parsers) else found
    }

    /** `rebuild`: reload the polling URL and the parsers, and start or
        stop the secure client to fit the new URI. */
    method Rebuild(resource: Option<ResourceRow>, parse: string -> Option<Uri>, found: seq<Parser>)
      returns (r: RebuildOutcome)
      modifies this
      ensures Rebuilds(resource, parse, found, r.RebuildThrew?)
      ensures r.NoResource? <==> resource.None?
      ensures r.NoUrl? <==> resource.Some? && (resource.value.pollingUrl in {None, Some("")})
      ensures r.BadUrl? <==>
                resource.Some? && resource.value.pollingUrl.Some? && resource.value.pollingUrl != Some("")
                && parse(resource.value.pollingUrl.value).None?
      ensures old(Valid()) && !r.RebuildThrew? ==> Valid()
    {
      if resource.None? {
        return NoResource;
      }
      url := resource.value.pollingUrl;
      if url.None? || url.value == "" {
        return NoUrl;
      }
      var olduri := uriobj;
      var parsed := parse(url.value);
      if parsed.None? {
        return BadUrl;
      }
      uriobj := parsed;
      var current := parsed.value;
      // Stop the old DTLS connection when it no longer fits the URI.
      if olduri.Some? {
        if olduri.value.scheme.None? {
          return RebuildThrew;
        }
        if IsCoaps(olduri.value) {
          if olduri.value.host.None? {
            return RebuildThrew;
          }
          var moved := olduri.value.host != current.host;
          if !moved && current.scheme.None? {
            return RebuildThrew;
          }
          if (moved || !IsCoaps(current)) && secureclient.Some? {
            effects := effects + [StopSession];
            secureclient := None;
          }
        }
      }
      // Start a new DTLS connection for a coaps URI.
      if secureclient.None? {
        if current.scheme.None? {
          return RebuildThrew;
        }
        if IsCoaps(current) {
          secureclient := Some(current);
          effects := effects + [OpenSession(current)];
        }
      }
      parsers := found;
      r := Rebuilt;
      if ClientMatches(olduri, old(secureclient)) {
        SecureStepKeepsInvariant(olduri, current, old(secureclient));
      }
    }

    /** `applyParsers`: reload the parsers and, if there are any, run every
        one of them over the payload with one timestamp, even after a
        failure, then write the poll entry. */
    method ApplyParsers(data: string, found: seq<Parser>, apply: (Parser, string, int) -> Option<string>, now: int)
      modifies this
      ensures parsers == found
      ensures effects == old(effects) + ParserEffects(resourceId, data, found, apply, now)
      ensures resourceId == old(resourceId) && url == old(url) && uriobj == old(uriobj)
      ensures secureclient == old(secureclient)
    {
      var synopsis := if |data| < 100 then data else data[..100];
      var timestamp := now;
      parsers := found;
      if |parsers| == 0 {
        return;
      }
      var parsedSuccessfully, allMsgs, attempted := RunParsers(parsers, data, timestamp, apply);
      var message := allMsgs + "\nReceived data:" + synopsis + "...";
      assert message == PollMessage(Messages(found, data, now, apply), data);
      effects := effects + attempted + [PollLog(resourceId, parsedSuccessfully, true, message, now)];
    }

    /** The loop that appends the lines of an HTTP response. */
    method ReadLines(lines: seq<string>) returns (response: string)
      ensures response == Concat(lines)
    {
      response := "";
      for i := 0 to |lines|
        invariant response == Concat(lines[..i])
      {
        assert lines[..i + 1] == lines[..i] + [lines[i]];
        ConcatSnoc(lines[..i], lines[i]);
        response := response + lines[i];
      }
      assert lines[..|lines|] == lines;
    }

    /** The parsers and effects after the shared tail of the `coap` and
        `coaps` branches: an answer is recorded as a poll and parsed, no
        answer is logged as the failure text and the URL. */
    twostate predicate CoapPolled(env: Environment, failure: string)
      reads this
    {
      match env.coap
      case CoapText(text) =>
        parsers == env.found
        && effects == old(effects) + [PolledResource(resourceId, env.now)]
                      + ParserEffects(resourceId, text, env.found, env.apply, env.now)
      case NoResponse =>
        parsers == old(parsers)
        && effects == old(effects) + [PollLog(resourceId, false, true, failure + Show(url), env.now)]
    }

    /** A probe that found a CoAP answer or none: the shared tail of the
        `coap` and `coaps` branches. */
    method CoapPoll(env: Environment, failure: string)
      modifies this
      ensures resourceId == old(resourceId) && url == old(url) && uriobj == old(uriobj)
      ensures secureclient == old(secureclient)
      ensures CoapPolled(env, failure)
    {
      match env.coap
      case CoapText(text) =>
        effects := effects + [PolledResource(resourceId, env.now)];
        ApplyParsers(text, env.found, env.apply, env.now);
      case NoResponse =>
        var msg := failure + Show(url);
        effects := effects + [PollLog(resourceId, false, true, msg, env.now)];
    }

    /** What a probe does to the poll unit: fetch the resource by the
        scheme of its URI and parse what came back, or log the network
        problem; any other scheme, or no URI, changes nothing. `threw` is
        the exception a null scheme, or a `coaps` URI without a client,
        raises. */
    twostate predicate Probes(env: Environment, threw: bool)
      reads this
    {
      && resourceId == old(resourceId) && url == old(url) && uriobj == old(uriobj)
      && (threw <==> uriobj.Some? && (uriobj.value.scheme.None? || (IsCoaps(uriobj.value) && old(secureclient).None?)))
      && (threw || uriobj.None?
          || uriobj.value.scheme !in {Some("http"), Some("https"), Some(CoapScheme), Some(CoapsScheme)} ==>
            secureclient == old(secureclient) && parsers == old(parsers) && effects == old(effects))
      && (uriobj.Some? && uriobj.value.scheme in {Some("http"), Some("https")} ==>
            secureclient == old(secureclient)
            && match env.http
               case HttpLines(lines) =>
                 parsers == env.found
                 && effects == old(effects) + [PolledResource(resourceId, env.now)]
                               + ParserEffects(resourceId, Concat(lines), env.found, env.apply, env.now)
               case HttpError(e) =>
                 parsers == old(parsers)
                 && effects == old(effects) + [PollLog(resourceId, false, true,
                                                       "Network problem: " + e + " URL: " + Show(url), env.now)])
      && (uriobj.Some? && uriobj.value.scheme == Some(CoapScheme) ==>
            secureclient == old(secureclient) && CoapPolled(env, "Network problem CoAP URL: "))
      && (uriobj.Some? && IsCoaps(uriobj.value) && old(secureclient).Some? ==>
            secureclient == uriobj && CoapPolled(env, "Network problem CoAPs URL: "))
    }

    /** A probe, as `Probes` describes it. */
    method Probe(env: Environment) returns (threw: bool)
      modifies this
      ensures Probes(env, threw)
    {
      threw := false;
      if uriobj.None? {
        return;
      }
      var uri := uriobj.value;
      if uri.scheme.None? {
        return true;
      }
      var scheme := uri.scheme.value;
      if scheme == "http" || scheme == "https" {
        match env.http
        case HttpLines(lines) =>
          var response := ReadLines(lines);
          effects := effects + [PolledResource(resourceId, env.now)];
          ApplyParsers(response, env.found, env.apply, env.now);
        case HttpError(e) =>
          var msg := "Network problem: " + e + " URL: " + Show(url);
          effects := effects + [PollLog(resourceId, false, true, msg, env.now)];
      } else if scheme == CoapScheme {
        CoapPoll(env, "Network problem CoAP URL: ");
      } else if scheme == CoapsScheme {
        if secureclient.None? {
          return true;
        }
        secureclient := Some(uri);
        CoapPoll(env, "Network problem CoAPs URL: ");
      }
    }

    /** `onReceive`: "rebuild" rebuilds, any other String probes, anything
        else is unhandled. `threw` is whether the handler throws. */
    method OnReceive(message: Message, env: Environment) returns (threw: bool)
      modifies this
      ensures message == Text("rebuild") ==> Rebuilds(env.resource, env.parse, env.found, threw)
      ensures message.Text? && message.text != "rebuild" ==> Probes(env, threw)
      ensures message.NotText? ==>
                !threw && effects == old(effects) + [Unhandled]
                && resourceId == old(resourceId) && url == old(url) && uriobj == old(uriobj)
                && secureclient == old(secureclient) && parsers == old(parsers)
      ensures old(Valid()) && !threw ==> Valid()
    {
      threw := false;
      match message
      case Text(text) =>
        if text == "rebuild" {
          var r := Rebuild(env.resource, env.parse, env.found);
          threw := r.RebuildThrew?;
        } else {
          threw := Probe(env);
        }
      case NotText =>
        effects := effects + [Unhandled];
    }
  }

  /** `new Poller(storage, mapper, resourceId, url)`: the fields are set
      and the unit rebuilt from storage at once. From the empty state the
      rebuild throws only when the stored URL parses to a URI without a
      scheme; then the constructor throws and there is no poller (null). */
  method NewPoller(resourceId: int, url: string, env: Environment) returns (p: PollUnit?)
    ensures p == null <==>
              env.resource.Some? && var u := env.resource.value.pollingUrl;
              u.Some? && u.value != "" && env.parse(u.value).Some? && env.parse(u.value).value.scheme.None?
    ensures p != null ==>
              fresh(p) && p.resourceId == resourceId && p.Valid()
              && p.url == (if env.resource.None? then Some(url) else env.resource.value.pollingUrl)
              && if env.resource.None? || p.url.None? || p.url.value == "" || env.parse(p.url.value).None? then
                   p.uriobj.None? && p.secureclient.None? && p.parsers == [] && p.effects == []
                 else
                   var uri := env.parse(p.url.value).value;
                   p.uriobj == Some(uri) && p.parsers == env.found
                   && (p.secureclient == if IsCoaps(uri) then Some(uri) else None)
                   && p.effects == if IsCoaps(uri) then [OpenSession(uri)] else []
  {
    p := new PollUnit(resourceId, url);
    var r := p.Rebuild(env.resource, env.parse, env.found);
    if r.RebuildThrew? {
      return null;
    }
  }

  /** With the invariant, a `coaps` probe always finds its client. */
  lemma ValidProbeThrowsOnlyWithoutScheme(uri: Option<Uri>, client: Option<Uri>)
    requires ClientMatches(uri, client)
    ensures uri.Some? && (uri.value.scheme.None? || (IsCoaps(uri.value) && client.None?)) <==>
              uri.Some? && uri.value.scheme.None?
  {
  }
}
