/** The CoAP `resources` endpoint of the engine: its two query-parameter
    getters, the arity dispatch of GET and the owner / poller decisions of
    POST. Storage lookups after the checks are outside this model. */
module ResourceCoap {
  import opened Wrappers
  import opened JavaText
  import opened CoapCodes
  import opened QueryParams

  const ThreeKeys: seq<string> := ["user", "resource", "key"]
  const TwoKeys: seq<string> := ["user", "key"]

  lemma ThreeKeysDistinct()
    ensures forall i, j | 0 <= i < j < |ThreeKeys| :: ThreeKeys[i] != ThreeKeys[j]
    ensures (set k | k in ThreeKeys) == {"user", "resource", "key"}
  {
  }

  lemma TwoKeysDistinct()
    ensures forall i, j | 0 <= i < j < |TwoKeys| :: TwoKeys[i] != TwoKeys[j]
    ensures (set k | k in TwoKeys) == {"user", "key"}
  {
  }

  /** user, resource and key; user and resource numeric; exactly three keys. */
  const ThreeResourceRule := Rule(ThreeKeys, ParameterWrong,
                                  [("user", UserNotNumber), ("resource", ResourceNotNumber)], Some(3))
  /** user and key; user numeric; exactly two keys. */
  const TwoResourceRule := Rule(TwoKeys, ParameterWrong, [("user", UserNotNumber)], Some(2))

  /** The three-key rule on a parsed map, check by check. */
  lemma ThreeRuleVerdict(m: ParamMap)
    requires DistinctKeys(m)
    ensures var v := Validate(Some(m), ThreeResourceRule);
            (!HasAll(m, ThreeKeys) ==> v == Refused(BadOption, ParameterWrong))
            && (HasAll(m, ThreeKeys) && !HasLong(m, "user") ==> v == Refused(BadOption, UserNotNumber))
            && (HasAll(m, ThreeKeys) && HasLong(m, "user") && !HasLong(m, "resource")
                ==> v == Refused(BadOption, ResourceNotNumber))
            && (HasAll(m, ThreeKeys) && HasLong(m, "user") && HasLong(m, "resource")
                ==> if KeySet(m) == {"user", "resource", "key"} then v == Accepted(m)
                    else v == Refused(BadOption, WrongCount))
  {
    var rule := ThreeResourceRule;
    if HasAll(m, ThreeKeys) {
      if !HasLong(m, "user") {
        RefusedAt(m, rule, 0);
      } else if !HasLong(m, "resource") {
        RefusedAt(m, rule, 1);
      } else {
        PassedChecks(m, rule);
        ThreeKeysDistinct();
        ExactKeySet(m, ThreeKeys, {"user", "resource", "key"});
      }
    }
  }

  /** The two-key rule on a parsed map, check by check. */
  lemma TwoRuleVerdict(m: ParamMap)
    requires DistinctKeys(m)
    ensures var v := Validate(Some(m), TwoResourceRule);
            (!HasAll(m, TwoKeys) ==> v == Refused(BadOption, ParameterWrong))
            && (HasAll(m, TwoKeys) && !HasLong(m, "user") ==> v == Refused(BadOption, UserNotNumber))
            && (HasAll(m, TwoKeys) && HasLong(m, "user")
                ==> if KeySet(m) == {"user", "key"} then v == Accepted(m)
                    else v == Refused(BadOption, WrongCount))
  {
    var rule := TwoResourceRule;
    if HasAll(m, TwoKeys) {
      if !HasLong(m, "user") {
        RefusedAt(m, rule, 0);
      } else {
        PassedChecks(m, rule);
        TwoKeysDistinct();
        ExactKeySet(m, TwoKeys, {"user", "key"});
      }
    }
  }

  method GetThreeResourceParameters(queries: seq<string>) returns (r: Checked)
    ensures r == Validate(ParamsOf(queries), ThreeResourceRule)
    ensures r.Crashed? <==> exists i | 0 <= i < |queries| :: '=' !in queries[i]
    ensures r.Accepted? <==>
              ParamsOf(queries).Some?
              && KeySet(ParamsOf(queries).value) == {"user", "resource", "key"}
              && HasLong(ParamsOf(queries).value, "user") && HasLong(ParamsOf(queries).value, "resource")
  {
    var parsed := BuildParameters(queries);
    r := Validate(parsed, ThreeResourceRule);
    if parsed.Some? {
      ThreeRuleVerdict(parsed.value);
    }
  }

  method GetTwoResourceParameters(queries: seq<string>) returns (r: Checked)
    ensures r == Validate(ParamsOf(queries), TwoResourceRule)
    ensures r.Crashed? <==> exists i | 0 <= i < |queries| :: '=' !in queries[i]
    ensures r.Accepted? <==>
              ParamsOf(queries).Some?
              && KeySet(ParamsOf(queries).value) == {"user", "key"}
              && HasLong(ParamsOf(queries).value, "user")
  {
    var parsed := BuildParameters(queries);
    r := Validate(parsed, TwoResourceRule);
    if parsed.Some? {
      TwoRuleVerdict(parsed.value);
    }
  }

  /** Where a GET goes after its checks. */
  datatype GetRoute =
    | OneResource(userId: int, resourceName: string, key: string)
    | OwnedResources(userId: int, key: string)
    | Answered(code: ResponseCode, message: string)
    | Threw

  /** The answer (or exception) of a getter that refused. */
  function Refusal(c: Checked): GetRoute
    requires !c.Accepted?
  {
    if c.Crashed? then Threw else Answered(c.code, c.message)
  }

  /** GET dispatches on the raw number of Uri-Query items, before any map
      is built: duplicates count twice here. */
  method HandleGet(queries: seq<string>) returns (route: GetRoute)
    ensures |queries| != 2 && |queries| != 3 ==> route == Answered(BadOption, WrongCount)
    ensures route.OneResource? <==> |queries| == 3 && Validate(ParamsOf(queries), ThreeResourceRule).Accepted?
    ensures route.OwnedResources? <==> |queries| == 2 && Validate(ParamsOf(queries), TwoResourceRule).Accepted?
    ensures route.OneResource? ==>
              var m := ParamsOf(queries).value;
              ParseLong(Get(m, "user").value) == Some(route.userId)
              && Get(m, "resource") == Some(route.resourceName) && Get(m, "key") == Some(route.key)
    ensures route.OwnedResources? ==>
              var m := ParamsOf(queries).value;
              ParseLong(Get(m, "user").value) == Some(route.userId) && Get(m, "key") == Some(route.key)
    ensures |queries| == 3 && !route.OneResource? ==> route == Refusal(Validate(ParamsOf(queries), ThreeResourceRule))
    ensures |queries| == 2 && !route.OwnedResources? ==> route == Refusal(Validate(ParamsOf(queries), TwoResourceRule))
  {
    if |queries| == 3 {
      var p := GetThreeResourceParameters(queries);
      if !p.Accepted? {
        return Refusal(p);
      }
      var m := p.params;
      route := OneResource(ParseLong(Get(m, "user").value).value, Get(m, "resource").value, Get(m, "key").value);
    } else if |queries| == 2 {
      var p := GetTwoResourceParameters(queries);
      if !p.Accepted? {
        return Refusal(p);
      }
      var m := p.params;
      route := OwnedResources(ParseLong(Get(m, "user").value).value, Get(m, "key").value);
    } else {
      route := Answered(BadOption, WrongCount);
    }
  }

  /** The part of a posted resource the handler looks at. */
  datatype ResourceBody = ResourceBody(name: string, ownerId: int, pollingPeriod: int)

  datatype PostOutcome =
    | NotAccepted(route: GetRoute)
    /** the body did not deserialise: 5.00 Internal Server Error */
    | Unreadable
    /** no user with that id: the handler throws */
    | NoSuchUser
    /** the stored resource, the id the insert produced (-1 when it
        failed), whether 4.03 was answered first, and the poller rebuild
        that was requested, if any */
    | Posted(stored: ResourceBody, resourceId: int, forbidden: bool, rebuild: Option<int>)

  /** POST: the owner is forced to the query user, the resource is stored
      even when the key does not authorise (4.03 is answered and the handler
      goes on), and a poller rebuild is requested exactly when the polling
      period is positive. `insertedId` is the storage's answer (None: the
      insert threw). */
  method HandlePost(queries: seq<string>, body: Option<ResourceBody>, userExists: bool,
                    authorised: bool, insertedId: Option<int>)
    returns (r: PostOutcome)
    ensures Validate(ParamsOf(queries), TwoResourceRule).Accepted? <==> !r.NotAccepted?
    ensures r.Posted? ==>
              var m := ParamsOf(queries).value;
              body.Some? && userExists
              && Some(r.stored.ownerId) == ParseLong(Get(m, "user").value)
              && r.stored.name == body.value.name && r.stored.pollingPeriod == body.value.pollingPeriod
              && r.resourceId == insertedId.GetOr(-1)
              && r.forbidden == !authorised
              && (r.rebuild.Some? <==> body.value.pollingPeriod > 0)
              && (r.rebuild.Some? ==> r.rebuild.value == r.resourceId)
    ensures r.Unreadable? <==> !r.NotAccepted? && body.None?
    ensures r.NoSuchUser? <==> !r.NotAccepted? && body.Some? && !userExists
  {
    var p := GetTwoResourceParameters(queries);
    if !p.Accepted? {
      return NotAccepted(Refusal(p));
    }
    var userId := ParseLong(Get(p.params, "user").value).value;
    if body.None? {
      return Unreadable;
    }
    var resource := body.value;
    var resourceId := -1;
    if !userExists {
      return NoSuchUser;
    }
    resource := resource.(ownerId := userId);
    if insertedId.Some? {
      resourceId := insertedId.value;
    }
    var rebuild: Option<int> := None;
    if resource.pollingPeriod > 0 {
      rebuild := Some(resourceId);
    }
    r := Posted(resource, resourceId, !authorised, rebuild);
  }
}
