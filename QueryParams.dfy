/** The query-parameter handling the CoAP resources share: every Uri-Query
    option (section 5.10.1 of RFC 7252) is split at its first '=' and put into a
    java.util.LinkedHashMap, then a rule checks the key set and the numeric ids.
    ResourceCoapResource, StreamCoapResource and UserCoapResource each repeat
    the same loop; it is written once here. */
module QueryParams {
  import opened Wrappers
  import opened JavaText
  import opened CoapCodes

  /** A LinkedHashMap<String, String>: entries in insertion order. */
  type ParamMap = seq<(string, string)>

  function KeySet(m: ParamMap): set<string> {
    if m == [] then {} else {m[0].0} + KeySet(m[1..])
  }

  predicate DistinctKeys(m: ParamMap) {
    m == [] || (m[0].0 !in KeySet(m[1..]) && DistinctKeys(m[1..]))
  }

  /** `map.get(k)`, None standing for Java's null. */
  function Get(m: ParamMap, k: string): (r: Option<string>)
    ensures r.None? <==> k !in KeySet(m)
  {
    if m == [] then None
    else if m[0].0 == k then Some(m[0].1)
    else Get(m[1..], k)
  }

  /** `map.put(k, v)`: a present key keeps its place and takes the new
      value; a new key goes at the end. */
  function Put(m: ParamMap, k: string, v: string): (r: ParamMap)
    ensures Get(r, k) == Some(v)
    ensures forall k' | k' != k :: Get(r, k') == Get(m, k')
    ensures KeySet(r) == KeySet(m) + {k}
    ensures DistinctKeys(m) ==> DistinctKeys(r) && |r| == if k in KeySet(m) then |m| else |m| + 1
  {
    if m == [] then [(k, v)]
    else if m[0].0 == k then
      var r := [(k, v)] + m[1..];
      assert r[1..] == m[1..];
      r
    else
      var r := [m[0]] + Put(m[1..], k, v);
      assert r[1..] == Put(m[1..], k, v);
      r
  }

  /** One Uri-Query item split at its first '='. None models the
      StringIndexOutOfBoundsException that `substring(0, -1)` throws when
      the item has no '='. */
  function SplitQuery(q: string): (r: Option<(string, string)>)
    ensures r.None? <==> '=' !in q
    ensures r.Some? ==> q == r.value.0 + "=" + r.value.1 && '=' !in r.value.0
  {
    var idx := IndexOf(q, '=');
    if idx < 0 then None
    else
      assert q == q[..idx] + "=" + q[idx + 1..];
      Some((q[..idx], q[idx + 1..]))
  }

  /** The map the getters' loop builds from the Uri-Query items, in order;
      None when an item without '=' makes the loop throw. */
  function ParamsOf(queries: seq<string>): (r: Option<ParamMap>)
    ensures r.None? <==> exists i | 0 <= i < |queries| :: '=' !in queries[i]
    ensures r.Some? ==> DistinctKeys(r.value) && |r.value| <= |queries|
  {
    if queries == [] then Some([])
    else
      var init := queries[..|queries| - 1];
      assert forall i | 0 <= i < |init| :: init[i] == queries[i];
      match ParamsOf(init)
      case None => None
      case Some(m) =>
        match SplitQuery(queries[|queries| - 1])
        case None => None
        case Some(kv) => Some(Put(m, kv.0, kv.1))
  }

  /** Reference definition: the value of the last item whose key is k. */
  function LastValue(queries: seq<string>, k: string): Option<string> {
    if queries == [] then None
    else
      var kv := SplitQuery(queries[|queries| - 1]);
      if kv.Some? && kv.value.0 == k then Some(kv.value.1)
      else LastValue(queries[..|queries| - 1], k)
  }

  /** Reference definition: the keys of the items that have a '='. */
  function KeysOf(queries: seq<string>): set<string> {
    if queries == [] then {}
    else
      var kv := SplitQuery(queries[|queries| - 1]);
      KeysOf(queries[..|queries| - 1]) + if kv.Some? then {kv.value.0} else {}
  }

  /** The getters' map holds, for every key, the value of the LAST item with
      that key, and nothing else: a later duplicate overwrites an earlier one. */
  lemma {:induction false} ParamsOfLastWins(queries: seq<string>, k: string)
    requires ParamsOf(queries).Some?
    ensures Get(ParamsOf(queries).value, k) == LastValue(queries, k)
  {
    if queries != [] {
      var init := queries[..|queries| - 1];
      assert forall i | 0 <= i < |init| :: init[i] == queries[i];
      ParamsOfLastWins(init, k);
    }
  }

  lemma {:induction false} ParamsOfKeys(queries: seq<string>)
    requires ParamsOf(queries).Some?
    ensures KeySet(ParamsOf(queries).value) == KeysOf(queries)
  {
    if queries != [] {
      ParamsOfKeys(queries[..|queries| - 1]);
    }
  }

  /** A LinkedHashMap's size() is its number of distinct keys. */
  lemma {:induction false} SizeIsKeyCount(m: ParamMap)
    requires DistinctKeys(m)
    ensures |KeySet(m)| == |m|
  {
    if m != [] {
      SizeIsKeyCount(m[1..]);
    }
  }

  /** The loop every getter runs over the Uri-Query items, building the
      map; it returns None where Java's `substring(0, -1)` throws. */
  method BuildParameters(queries: seq<string>) returns (r: Option<ParamMap>)
    ensures r == ParamsOf(queries)
  {
    var parameters: ParamMap := [];
    for i := 0 to |queries|
      invariant ParamsOf(queries[..i]) == Some(parameters)
    {
      var query := queries[i];
      var idx := IndexOf(query, '=');
      if idx < 0 {
        assert '=' !in queries[i];
        return None;
      }
      assert queries[..i + 1][..i] == queries[..i];
      parameters := Put(parameters, query[..idx], query[idx + 1..]);
    }
    assert queries[..|queries|] == queries;
    return Some(parameters);
  }

  // ---------------------------------------------------------------- validation rules

  const UserNotNumber := "Error: User parameter is not a number!"
  const ResourceNotNumber := "Error: Resouce parameter is not a number!"
  const StreamNotNumber := "Error: Stream parameter is not a number!"
  const ParameterWrong := "Error: One or more parameter wrong!"
  const ParameterMissing := "Error: Missing one or more parameter!"
  const WrongCount := "Error: Not correct number of parameters!"

  /** What a getter demands: keys that must be present (with the message when
      one is missing), keys that must parse as a Java long, checked in order
      (each with its message), and optionally the exact map size. */
  datatype Rule = Rule(required: seq<string>, missing: string,
                       numeric: seq<(string, string)>, size: Option<nat>)

  /** A getter's verdict: the map, a 4.02 Bad Option answer, or the
      exception the split throws (no answer is sent). */
  datatype Checked = Accepted(params: ParamMap) | Refused(code: ResponseCode, message: string) | Crashed

  /** `Long.parseLong(map.get(k))` succeeds (a missing key gives null,
      which does not parse). */
  predicate HasLong(m: ParamMap, k: string) {
    Get(m, k).Some? && IsLong(Get(m, k).value)
  }

  predicate HasAll(m: ParamMap, keys: seq<string>) {
    forall k | k in keys :: k in KeySet(m)
  }

  /** The message of the first numeric check that fails. */
  function FirstNonNumeric(m: ParamMap, checks: seq<(string, string)>): (r: Option<string>)
    ensures r.None? <==> forall i | 0 <= i < |checks| :: HasLong(m, checks[i].0)
  {
    if checks == [] then None
    else if !HasLong(m, checks[0].0) then Some(checks[0].1)
    else
      var r := FirstNonNumeric(m, checks[1..]);
      assert forall i | 1 <= i < |checks| :: checks[1..][i - 1] == checks[i];
      r
  }

  /** The reported message is that of the first failing check. */
  lemma {:induction false} FirstNonNumericIsFirst(m: ParamMap, checks: seq<(string, string)>)
    requires FirstNonNumeric(m, checks).Some?
    ensures exists i | 0 <= i < |checks| ::
              FirstNonNumeric(m, checks).value == checks[i].1 && !HasLong(m, checks[i].0)
              && forall j | 0 <= j < i :: HasLong(m, checks[j].0)
  {
    if HasLong(m, checks[0].0) {
      var tail := checks[1..];
      FirstNonNumericIsFirst(m, tail);
      var i :| 0 <= i < |tail| && FirstNonNumeric(m, tail).value == tail[i].1 && !HasLong(m, tail[i].0)
               && forall j | 0 <= j < i :: HasLong(m, tail[j].0);
      assert forall j | 1 <= j < i + 1 :: checks[j] == tail[j - 1];
      assert FirstNonNumeric(m, checks).value == checks[i + 1].1 && !HasLong(m, checks[i + 1].0);
    } else {
      assert FirstNonNumeric(m, checks).value == checks[0].1;
    }
  }

  /** The checks after the loop: presence first, then the numeric checks in
      order, then the size; the first failure alone is answered. */
  function Validate(parsed: Option<ParamMap>, rule: Rule): (r: Checked)
    ensures r.Crashed? <==> parsed.None?
    ensures r.Refused? ==> r.code == BadOption
    ensures r.Accepted? ==> r.params == parsed.value
    ensures parsed.Some? && !HasAll(parsed.value, rule.required) ==> r == Refused(BadOption, rule.missing)
  {
    match parsed
    case None => Crashed
    case Some(m) =>
      if !HasAll(m, rule.required) then Refused(BadOption, rule.missing)
      else
        match FirstNonNumeric(m, rule.numeric)
        case Some(msg) => Refused(BadOption, msg)
        case None =>
          if rule.size.Some? && |m| != rule.size.value then Refused(BadOption, WrongCount)
          else Accepted(m)
  }

  /** A rule accepts exactly when every check passes. */
  lemma ValidateAccepts(parsed: Option<ParamMap>, rule: Rule)
    ensures Validate(parsed, rule).Accepted? <==>
              (parsed.Some? && HasAll(parsed.value, rule.required)
               && (forall i | 0 <= i < |rule.numeric| :: HasLong(parsed.value, rule.numeric[i].0))
               && (rule.size.Some? ==> |parsed.value| == rule.size.value))
  {
  }

  /** The check at index i is the first to fail, so its message is reported. */
  lemma {:induction false} FirstNonNumericAt(m: ParamMap, checks: seq<(string, string)>, i: nat)
    requires i < |checks| && !HasLong(m, checks[i].0)
    requires forall j | 0 <= j < i :: HasLong(m, checks[j].0)
    ensures FirstNonNumeric(m, checks) == Some(checks[i].1)
  {
    if i > 0 {
      assert HasLong(m, checks[0].0);
      var tail := checks[1..];
      assert forall j | 0 <= j < i - 1 :: tail[j] == checks[j + 1];
      FirstNonNumericAt(m, tail, i - 1);
    }
  }

  /** All keys present and numeric check i the first to fail: its message. */
  lemma RefusedAt(m: ParamMap, rule: Rule, i: nat)
    requires HasAll(m, rule.required) && i < |rule.numeric| && !HasLong(m, rule.numeric[i].0)
    requires forall j | 0 <= j < i :: HasLong(m, rule.numeric[j].0)
    ensures Validate(Some(m), rule) == Refused(BadOption, rule.numeric[i].1)
  {
    FirstNonNumericAt(m, rule.numeric, i);
  }

  /** All keys present and numeric: only the size is left to decide. */
  lemma PassedChecks(m: ParamMap, rule: Rule)
    requires HasAll(m, rule.required)
    requires forall i | 0 <= i < |rule.numeric| :: HasLong(m, rule.numeric[i].0)
    ensures Validate(Some(m), rule)
            == if rule.size.Some? && |m| != rule.size.value then Refused(BadOption, WrongCount) else Accepted(m)
  {
  }

  /** When the size a rule demands is its number of distinct required keys,
      "all required keys present and the size matches" is "the key set is
      exactly the required keys". */
  lemma ExactKeys(m: ParamMap, required: seq<string>)
    requires DistinctKeys(m)
    requires forall i, j | 0 <= i < j < |required| :: required[i] != required[j]
    ensures (HasAll(m, required) && |m| == |required|) <==> KeySet(m) == set k | k in required
  {
    var want := set k | k in required;
    SizeIsKeyCount(m);
    DistinctSeqCard(required);
    if HasAll(m, required) && |m| == |required| {
      assert want <= KeySet(m);
      SubsetSameSize(want, KeySet(m));
    }
  }

  /** ExactKeys with the wanted key set given as a set. */
  lemma ExactKeySet(m: ParamMap, required: seq<string>, want: set<string>)
    requires DistinctKeys(m) && HasAll(m, required)
    requires forall i, j | 0 <= i < j < |required| :: required[i] != required[j]
    requires (set k | k in required) == want
    ensures |m| == |required| <==> KeySet(m) == want
  {
    ExactKeys(m, required);
  }

  lemma {:induction false} DistinctSeqCard(s: seq<string>)
    requires forall i, j | 0 <= i < j < |s| :: s[i] != s[j]
    ensures |set k | k in s| == |s|
  {
    if s != [] {
      var rest := s[1..];
      DistinctSeqCard(rest);
      assert (set k | k in s) == {s[0]} + (set k | k in rest);
      assert s[0] !in rest;
    }
  }

  lemma SubsetSameSize(a: set<string>, b: set<string>)
    requires a <= b && |a| == |b|
    ensures a == b
  {
    assert b == a + (b - a);
    assert |b - a| == 0;
  }
}
