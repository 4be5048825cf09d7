/** The CoAP `streams` endpoint of the engine: the two getters, the arity
    dispatch of GET, the antecedent filtering of a single-stream GET, and
    the dependency and trigger creation of POST. */
module StreamCoap {
  import opened Wrappers
  import opened JavaText
  import opened CoapCodes
  import opened QueryParams
  import ResourceCoap

  const FourKeys: seq<string> := ["user", "resource", "stream", "key"]

  lemma FourKeysDistinct()
    ensures forall i, j | 0 <= i < j < |FourKeys| :: FourKeys[i] != FourKeys[j]
    ensures (set k | k in FourKeys) == {"user", "resource", "stream", "key"}
    ensures |FourKeys| == 4
  {
  }

  /** user, resource, stream and key; the three ids numeric; exactly four
      keys only when `sizeCheck` is set. */
  function FourStreamRule(sizeCheck: bool): (r: Rule)
    ensures r.required == FourKeys && r.missing == ParameterMissing
    ensures r.numeric == [("user", UserNotNumber), ("resource", ResourceNotNumber), ("stream", StreamNotNumber)]
    ensures r.size.Some? <==> sizeCheck
  {
    Rule(FourKeys, ParameterMissing,
         [("user", UserNotNumber), ("resource", ResourceNotNumber), ("stream", StreamNotNumber)],
         if sizeCheck then Some(4) else None)
  }

  /** The three-key stream getter is the resource endpoint's, letter for letter. */
  const ThreeStreamRule := ResourceCoap.ThreeResourceRule

  /** The four-key rule on a parsed map, check by check. */
  lemma FourRuleVerdict(m: ParamMap, sizeCheck: bool)
    requires DistinctKeys(m)
    ensures var v := Validate(Some(m), FourStreamRule(sizeCheck));
            (!HasAll(m, FourKeys) ==> v == Refused(BadOption, ParameterMissing))
            && (HasAll(m, FourKeys) && !HasLong(m, "user") ==> v == Refused(BadOption, UserNotNumber))
            && (HasAll(m, FourKeys) && HasLong(m, "user") && !HasLong(m, "resource")
                ==> v == Refused(BadOption, ResourceNotNumber))
            && (HasAll(m, FourKeys) && HasLong(m, "user") && HasLong(m, "resource") && !HasLong(m, "stream")
                ==> v == Refused(BadOption, StreamNotNumber))
            && (HasAll(m, FourKeys) && HasLong(m, "user") && HasLong(m, "resource") && HasLong(m, "stream")
                ==> if !sizeCheck || KeySet(m) == {"user", "resource", "stream", "key"} then v == Accepted(m)
                    else v == Refused(BadOption, WrongCount))
  {
    var rule := FourStreamRule(sizeCheck);
    if HasAll(m, FourKeys) {
      if !HasLong(m, "user") {
        RefusedAt(m, rule, 0);
      } else if !HasLong(m, "resource") {
        RefusedAt(m, rule, 1);
      } else if !HasLong(m, "stream") {
        RefusedAt(m, rule, 2);
      } else {
        FourRulePassed(m, sizeCheck);
      }
    }
  }

  lemma FourRulePassed(m: ParamMap, sizeCheck: bool)
    requires DistinctKeys(m) && HasAll(m, FourKeys)
    requires HasLong(m, "user") && HasLong(m, "resource") && HasLong(m, "stream")
    ensures var v := Validate(Some(m), FourStreamRule(sizeCheck));
            if !sizeCheck || KeySet(m) == {"user", "resource", "stream", "key"} then v == Accepted(m)
            else v == Refused(BadOption, WrongCount)
  {
    PassedChecks(m, FourStreamRule(sizeCheck));
    if sizeCheck {
      FourKeysDistinct();
      ExactKeySet(m, FourKeys, {"user", "resource", "stream", "key"});
    }
  }

  method GetFourStreamParameters(queries: seq<string>, sizeCheck: bool) returns (r: Checked)
    ensures r == Validate(ParamsOf(queries), FourStreamRule(sizeCheck))
    ensures r.Crashed? <==> exists i | 0 <= i < |queries| :: '=' !in queries[i]
    ensures r.Accepted? <==>
              ParamsOf(queries).Some?
              && (var m := ParamsOf(queries).value;
                  (if sizeCheck then KeySet(m) == {"user", "resource", "stream", "key"} else HasAll(m, FourKeys))
                  && HasLong(m, "user") && HasLong(m, "resource") && HasLong(m, "stream"))
  {
    var parsed := BuildParameters(queries);
    r := Validate(parsed, FourStreamRule(sizeCheck));
    if parsed.Some? {
      FourRuleVerdict(parsed.value, sizeCheck);
    }
  }

  method GetThreeStreamParameters(queries: seq<string>) returns (r: Checked)
    ensures r == Validate(ParamsOf(queries), ThreeStreamRule)
    ensures r.Accepted? <==>
              ParamsOf(queries).Some?
              && KeySet(ParamsOf(queries).value) == {"user", "resource", "key"}
              && HasLong(ParamsOf(queries).value, "user") && HasLong(ParamsOf(queries).value, "resource")
  {
    var parsed := BuildParameters(queries);
    r := Validate(parsed, ThreeStreamRule);
    if parsed.Some? {
      ResourceCoap.ThreeRuleVerdict(parsed.value);
    }
  }

  /** Where a GET goes after its checks. */
  datatype GetRoute =
    | OneStream(userId: int, resourceName: string, streamName: string, key: string)
    | ResourceStreams(userId: int, resourceName: string, key: string)
    | Answered(code: ResponseCode, message: string)
    | Threw

  function Refusal(c: Checked): GetRoute
    requires !c.Accepted?
  {
    if c.Crashed? then Threw else Answered(c.code, c.message)
  }

  /** The four-parameter branch of GET: one stream. */
  method RouteOneStream(queries: seq<string>) returns (route: GetRoute)
    requires |queries| == 4
    ensures !route.ResourceStreams?
    ensures route.OneStream? <==> Validate(ParamsOf(queries), FourStreamRule(false)).Accepted?
    ensures route.OneStream? ==>
              var m := ParamsOf(queries).value;
              ParseLong(Get(m, "user").value) == Some(route.userId)
              && Get(m, "resource") == Some(route.resourceName)
              && Get(m, "stream") == Some(route.streamName) && Get(m, "key") == Some(route.key)
    ensures !route.OneStream? ==> route == Refusal(Validate(ParamsOf(queries), FourStreamRule(false)))
  {
    var p := GetFourStreamParameters(queries, false);
    if !p.Accepted? {
      return Refusal(p);
    }
    var m := p.params;
    route := OneStream(ParseLong(Get(m, "user").value).value, Get(m, "resource").value,
                       Get(m, "stream").value, Get(m, "key").value);
  }

  /** The three-parameter branch of GET: the streams of a resource. */
  method RouteResourceStreams(queries: seq<string>) returns (route: GetRoute)
    requires |queries| == 3
    ensures !route.OneStream?
    ensures route.ResourceStreams? <==> Validate(ParamsOf(queries), ThreeStreamRule).Accepted?
    ensures route.ResourceStreams? ==>
              var m := ParamsOf(queries).value;
              ParseLong(Get(m, "user").value) == Some(route.userId)
              && Get(m, "resource") == Some(route.resourceName) && Get(m, "key") == Some(route.key)
    ensures !route.ResourceStreams? ==> route == Refusal(Validate(ParamsOf(queries), ThreeStreamRule))
  {
    var p := GetThreeStreamParameters(queries);
    if !p.Accepted? {
      return Refusal(p);
    }
    var m := p.params;
    route := ResourceStreams(ParseLong(Get(m, "user").value).value, Get(m, "resource").value, Get(m, "key").value);
  }

  /** GET dispatches on the raw number of Uri-Query items; the four-item
      form is validated without the size check. */
  method HandleGet(queries: seq<string>) returns (route: GetRoute)
    ensures |queries| != 3 && |queries| != 4 ==> route == Answered(BadOption, WrongCount)
    ensures route.OneStream? <==> |queries| == 4 && Validate(ParamsOf(queries), FourStreamRule(false)).Accepted?
    ensures route.ResourceStreams? <==> |queries| == 3 && Validate(ParamsOf(queries), ThreeStreamRule).Accepted?
    ensures route.OneStream? ==>
              var m := ParamsOf(queries).value;
              ParseLong(Get(m, "user").value) == Some(route.userId)
              && Get(m, "resource") == Some(route.resourceName)
              && Get(m, "stream") == Some(route.streamName) && Get(m, "key") == Some(route.key)
    ensures route.ResourceStreams? ==>
              var m := ParamsOf(queries).value;
              ParseLong(Get(m, "user").value) == Some(route.userId)
              && Get(m, "resource") == Some(route.resourceName) && Get(m, "key") == Some(route.key)
    ensures |queries| == 4 && !route.OneStream? ==> route == Refusal(Validate(ParamsOf(queries), FourStreamRule(false)))
    ensures |queries| == 3 && !route.ResourceStreams? ==> route == Refusal(Validate(ParamsOf(queries), ThreeStreamRule))
  {
    if |queries| == 4 {
      route := RouteOneStream(queries);
    } else if |queries| == 3 {
      route := RouteResourceStreams(queries);
    } else {
      route := Answered(BadOption, WrongCount);
    }
  }

  // ---------------------------------------------------------------- antecedents of a GET

  /** The antecedent ids storage lists for a stream, keeping, in order, those
      whose stream still exists and is readable with the request key. */
  function ReadableAntecedents(found: seq<int>, existing: set<int>, readable: set<int>): (r: seq<int>)
    ensures |r| <= |found|
    ensures forall x | x in r :: x in found && x in existing && x in readable
    ensures forall i | 0 <= i < |found| :: found[i] in existing && found[i] in readable ==> found[i] in r
  {
    if found == [] then []
    else
      var rest := ReadableAntecedents(found[1..], existing, readable);
      assert forall i | 1 <= i < |found| :: found[i] == found[1..][i - 1];
      if found[0] in existing && found[0] in readable then [found[0]] + rest else rest
  }

  /** Nothing is dropped when every listed antecedent exists and is readable. */
  lemma {:induction false} AllReadableKept(found: seq<int>, existing: set<int>, readable: set<int>)
    requires forall i | 0 <= i < |found| :: found[i] in existing && found[i] in readable
    ensures ReadableAntecedents(found, existing, readable) == found
  {
    if found != [] {
      var tail := found[1..];
      assert forall i | 0 <= i < |tail| :: tail[i] == found[i + 1];
      AllReadableKept(tail, existing, readable);
      assert ReadableAntecedents(found, existing, readable) == [found[0]] + tail;
      assert [found[0]] + tail == found;
    }
  }

  /** Filtering an already filtered list changes nothing. */
  lemma FilterTwice(found: seq<int>, existing: set<int>, readable: set<int>)
    ensures var once := ReadableAntecedents(found, existing, readable);
            ReadableAntecedents(once, existing, readable) == once
  {
    var once := ReadableAntecedents(found, existing, readable);
    assert forall i | 0 <= i < |once| :: once[i] in once;
    AllReadableKept(once, existing, readable);
  }

  /** The filter works element by element, in order: filtering a
      concatenation concatenates the filtered parts. */
  lemma {:induction false} ReadableSplits(a: seq<int>, b: seq<int>, existing: set<int>, readable: set<int>)
    ensures ReadableAntecedents(a + b, existing, readable)
            == ReadableAntecedents(a, existing, readable) + ReadableAntecedents(b, existing, readable)
  {
    if a == [] {
      assert a + b == b;
    } else {
      assert (a + b)[0] == a[0];
      assert (a + b)[1..] == a[1..] + b;
      ReadableSplits(a[1..], b, existing, readable);
    }
  }

  /** Each id is kept exactly as often as it is listed when it exists and
      is readable, and not at all otherwise. */
  lemma {:induction false} ReadableCounts(found: seq<int>, existing: set<int>, readable: set<int>, x: int)
    ensures multiset(ReadableAntecedents(found, existing, readable))[x]
            == if x in existing && x in readable then multiset(found)[x] else 0
  {
    if found != [] {
      ReadableCounts(found[1..], existing, readable, x);
      assert found == [found[0]] + found[1..];
      assert multiset(found) == multiset([found[0]]) + multiset(found[1..]);
    }
  }

  /** The stream object a single-stream GET answers with. */
  class StreamObject {
    var id: int
    var antecedents: seq<int>

    constructor (id: int, antecedents: seq<int>)
      ensures this.id == id && this.antecedents == antecedents
    {
      this.id := id;
      this.antecedents := antecedents;
    }

    /** The loop over storage's antecedent list, appending each readable
        one to this stream's own list. */
    method AddReadableAntecedents(found: seq<int>, existing: set<int>, readable: set<int>)
      modifies this
      ensures antecedents == old(antecedents) + ReadableAntecedents(found, existing, readable)
      ensures id == old(id)
    {
      var kept: seq<int> := [];
      ghost var start := antecedents;
      for j := 0 to |found|
        invariant antecedents == start + kept
        invariant id == old(id)
        invariant ReadableAntecedents(found, existing, readable)
                  == kept + ReadableAntecedents(found[j..], existing, readable)
      {
        var antId := found[j];
        assert found[j..][1..] == found[j + 1..];
        if antId !in existing {
          continue;
        }
        if antId in readable {
          antecedents := antecedents + [antId];
          kept := kept + [antId];
        }
      }
      assert found[|found|..] == [];
    }
  }

  // ---------------------------------------------------------------- POST

  datatype Trigger = Trigger(url: string, operator: string, operand: real, payload: string)

  /** The part of a posted stream the handler looks at; Java's null list,
      and null element of the antecedent list, are None. */
  datatype StreamBody = StreamBody(resourceId: int, ownerId: int,
                                   antecedents: Option<seq<Option<int>>>, triggers: Option<seq<Option<Trigger>>>)

  datatype TriggerRow = TriggerRow(streamId: int, url: string, operator: string, operand: real, payload: string)

  /** The dependency edges inserted for an antecedent list: one (antecedent,
      new stream) edge per id, up to the first null one, where the handler
      throws. */
  function DependentEdges(ants: seq<Option<int>>, streamId: int): (r: seq<(int, int)>)
    ensures |r| <= |ants|
    ensures forall i | 0 <= i < |r| :: ants[i].Some? && r[i] == (ants[i].value, streamId)
    ensures (forall i | 0 <= i < |ants| :: ants[i].Some?) ==> |r| == |ants|
  {
    if ants == [] || ants[0].None? then []
    else
      var rest := DependentEdges(ants[1..], streamId);
      assert forall i | 1 <= i < |ants| :: ants[i] == ants[1..][i - 1];
      [(ants[0].value, streamId)] + rest
  }

  /** A null antecedent stops the edge list where it stands. */
  lemma {:induction false} EdgesStopAtNull(ants: seq<Option<int>>, streamId: int, k: nat)
    requires k < |ants| && ants[k].None?
    ensures |DependentEdges(ants, streamId)| <= k
  {
    if ants[0].Some? {
      EdgesStopAtNull(ants[1..], streamId, k - 1);
    }
  }

  /** One trigger row per listed trigger, all on the new stream, up to the
      first null trigger, whose `getUrl()` throws. */
  function TriggerRows(ts: seq<Option<Trigger>>, streamId: int): (r: seq<TriggerRow>)
    ensures |r| <= |ts|
    ensures forall i | 0 <= i < |r| :: ts[i].Some? && r[i].streamId == streamId && r[i].url == ts[i].value.url
              && r[i].operator == ts[i].value.operator && r[i].operand == ts[i].value.operand
              && r[i].payload == ts[i].value.payload
    ensures (forall i | 0 <= i < |ts| :: ts[i].Some?) ==> |r| == |ts|
  {
    if ts == [] || ts[0].None? then []
    else
      var rest := TriggerRows(ts[1..], streamId);
      assert forall i | 1 <= i < |ts| :: ts[i] == ts[1..][i - 1];
      var t := ts[0].value;
      [TriggerRow(streamId, t.url, t.operator, t.operand, t.payload)] + rest
  }

  /** A null trigger stops the trigger rows where it stands. */
  lemma {:induction false} TriggersStopAtNull(ts: seq<Option<Trigger>>, streamId: int, k: nat)
    requires k < |ts| && ts[k].None?
    ensures |TriggerRows(ts, streamId)| <= k
  {
    if ts[0].Some? {
      TriggersStopAtNull(ts[1..], streamId, k - 1);
    }
  }

  /** The rows the handler writes. */
  class StreamStore {
    var streams: seq<StreamBody>
    var dependents: seq<(int, int)>
    var triggers: seq<TriggerRow>

    constructor ()
      ensures streams == [] && dependents == [] && triggers == []
    {
      streams := [];
      dependents := [];
      triggers := [];
    }

    /** The new stream's id is its position among stored streams. */
    method InsertStream(s: StreamBody) returns (id: int)
      modifies this
      ensures streams == old(streams) + [s] && id == |old(streams)|
      ensures dependents == old(dependents) && triggers == old(triggers)
    {
      id := |streams|;
      streams := streams + [s];
    }

    /** One dependency edge per antecedent, in order; `threw` when a null
        antecedent is reached (the edges before it stay inserted). */
    method InsertDependents(ants: seq<Option<int>>, streamId: int) returns (threw: bool)
      modifies this
      ensures dependents == old(dependents) + DependentEdges(ants, streamId)
      ensures threw <==> exists i | 0 <= i < |ants| :: ants[i].None?
      ensures streams == old(streams) && triggers == old(triggers)
    {
      for i := 0 to |ants|
        invariant forall j | 0 <= j < i :: ants[j].Some?
        invariant dependents == old(dependents) + DependentEdges(ants[..i], streamId)
        invariant streams == old(streams) && triggers == old(triggers)
      {
        if ants[i].None? {
          EdgesCutAtNull(ants, i, streamId);
          return true;
        }
        EdgesSnoc(ants, i + 1, streamId);
        dependents := dependents + [(ants[i].value, streamId)];
      }
      assert ants[..|ants|] == ants;
      return false;
    }

    /** One trigger row per trigger, in order; `threw` when a null trigger
        is reached (the rows before it stay inserted). */
    method InsertTriggers(ts: seq<Option<Trigger>>, streamId: int) returns (threw: bool)
      modifies this
      ensures triggers == old(triggers) + TriggerRows(ts, streamId)
      ensures threw <==> exists i | 0 <= i < |ts| :: ts[i].None?
      ensures streams == old(streams) && dependents == old(dependents)
    {
      for i := 0 to |ts|
        invariant forall j | 0 <= j < i :: ts[j].Some?
        invariant triggers == old(triggers) + TriggerRows(ts[..i], streamId)
        invariant streams == old(streams) && dependents == old(dependents)
      {
        if ts[i].None? {
          TriggersCutAtNull(ts, i, streamId);
          return true;
        }
        TriggersSnoc(ts, i + 1, streamId);
        var t := ts[i].value;
        triggers := triggers + [TriggerRow(streamId, t.url, t.operator, t.operand, t.payload)];
      }
      assert ts[..|ts|] == ts;
      return false;
    }
  }

  datatype PostOutcome =
    | NotAccepted(route: GetRoute)
    | Unreadable
    /** the resource was not found, or an antecedent id or a trigger was null */
    | PostThrew
    | StreamCreated(streamId: int, forbidden: bool)

  /** Whether POST reaches the null antecedent and throws. */
  predicate HasNullAntecedent(b: StreamBody) {
    b.antecedents.Some? && exists i | 0 <= i < |b.antecedents.value| :: b.antecedents.value[i].None?
  }

  /** Whether the trigger list holds a null, on which POST throws. */
  predicate HasNullTrigger(b: StreamBody) {
    b.triggers.Some? && exists i | 0 <= i < |b.triggers.value| :: b.triggers.value[i].None?
  }

  /** POST: the new stream gets the resource's id and the query user as
      owner; then one edge per antecedent and one row per trigger are
      inserted, in list order. `resourceId` is the id of the resource the
      query names (None: not found, and the handler throws). */
  method HandlePost(store: StreamStore, queries: seq<string>, body: Option<StreamBody>,
                    resourceId: Option<int>, authorised: bool)
    returns (r: PostOutcome)
    modifies store
    ensures Validate(ParamsOf(queries), ThreeStreamRule).Accepted? <==> !r.NotAccepted?
    ensures r.Unreadable? <==> !r.NotAccepted? && body.None?
    ensures (r.NotAccepted? || r.Unreadable? || (r.PostThrew? && resourceId.None?))
            ==> store.streams == old(store.streams) && store.dependents == old(store.dependents)
                && store.triggers == old(store.triggers)
    ensures !r.NotAccepted? && body.Some? && resourceId.Some? ==>
              var m := ParamsOf(queries).value;
              var b := body.value;
              var id := |old(store.streams)|;
              |store.streams| == id + 1 && store.streams[..id] == old(store.streams)
              && store.streams[id].resourceId == resourceId.value
              && Some(store.streams[id].ownerId) == ParseLong(Get(m, "user").value)
              && store.streams[id].antecedents == b.antecedents && store.streams[id].triggers == b.triggers
              && store.dependents == old(store.dependents)
                   + (if b.antecedents.Some? then DependentEdges(b.antecedents.value, id) else [])
              && (r.PostThrew? <==> HasNullAntecedent(b) || HasNullTrigger(b))
              && (r.StreamCreated? ==> r.streamId == id && r.forbidden == !authorised)
              && store.triggers == old(store.triggers)
                   + (if !HasNullAntecedent(b) && b.triggers.Some? then TriggerRows(b.triggers.value, id) else [])
  {
    var p := GetThreeStreamParameters(queries);
    if !p.Accepted? {
      return NotAccepted(Refusal(p));
    }
    var userId := ParseLong(Get(p.params, "user").value).value;
    if body.None? {
      return Unreadable;
    }
    if resourceId.None? {
      return PostThrew;
    }
    var stream := body.value.(resourceId := resourceId.value, ownerId := userId);
    var streamId := store.InsertStream(stream);
    if stream.antecedents.Some? {
      var threw := store.InsertDependents(stream.antecedents.value, streamId);
      if threw {
        return PostThrew;
      }
    }
    if stream.triggers.Some? {
      var threw := store.InsertTriggers(stream.triggers.value, streamId);
      if threw {
        return PostThrew;
      }
    }
    r := StreamCreated(streamId, !authorised);
  }

  /** The edge list of a null-free prefix grows by one edge per element. */
  lemma {:induction false} EdgesSnoc(ants: seq<Option<int>>, i: nat, streamId: int)
    requires 0 < i <= |ants|
    requires forall j | 0 <= j < i :: ants[j].Some?
    ensures DependentEdges(ants[..i], streamId) == DependentEdges(ants[..i - 1], streamId) + [(ants[i - 1].value, streamId)]
  {
    if i == 1 {
      assert ants[..1][1..] == [];
      assert ants[..0] == [];
    } else {
      assert ants[..i][1..] == ants[1..][..i - 1];
      assert ants[..i - 1][1..] == ants[1..][..i - 2];
      EdgesSnoc(ants[1..], i - 1, streamId);
    }
  }

  /** The edge list stops at the first null antecedent. */
  lemma {:induction false} EdgesCutAtNull(ants: seq<Option<int>>, i: nat, streamId: int)
    requires i < |ants| && ants[i].None?
    requires forall j | 0 <= j < i :: ants[j].Some?
    ensures DependentEdges(ants, streamId) == DependentEdges(ants[..i], streamId)
  {
    if i == 0 {
      assert ants[..0] == [];
    } else {
      assert ants[..i][1..] == ants[1..][..i - 1];
      EdgesCutAtNull(ants[1..], i - 1, streamId);
    }
  }

  /** The trigger rows of a null-free prefix grow by one row per element. */
  lemma {:induction false} TriggersSnoc(ts: seq<Option<Trigger>>, i: nat, streamId: int)
    requires 0 < i <= |ts|
    requires forall j | 0 <= j < i :: ts[j].Some?
    ensures var t := ts[i - 1].value;
            TriggerRows(ts[..i], streamId)
            == TriggerRows(ts[..i - 1], streamId) + [TriggerRow(streamId, t.url, t.operator, t.operand, t.payload)]
  {
    if i == 1 {
      assert ts[..1][1..] == [];
      assert ts[..0] == [];
    } else {
      assert ts[..i][1..] == ts[1..][..i - 1];
      assert ts[..i - 1][1..] == ts[1..][..i - 2];
      TriggersSnoc(ts[1..], i - 1, streamId);
    }
  }

  /** The trigger rows stop at the first null trigger. */
  lemma {:induction false} TriggersCutAtNull(ts: seq<Option<Trigger>>, i: nat, streamId: int)
    requires i < |ts| && ts[i].None?
    requires forall j | 0 <= j < i :: ts[j].Some?
    ensures TriggerRows(ts, streamId) == TriggerRows(ts[..i], streamId)
  {
    if i == 0 {
      assert ts[..0] == [];
    } else {
      assert ts[..i][1..] == ts[1..][..i - 1];
      TriggersCutAtNull(ts[1..], i - 1, streamId);
    }
  }

  /** PUT and DELETE on streams are refused outright. */
  function HandlePutOrDelete(): (r: ResponseCode)
    ensures r == Forbidden && !r.IsSuccess()
  {
    Forbidden
  }
}
