/** The CoAP `data` endpoint of a stream: optional numeric parameters, the
    choice among four storage queries for a read, the in-place reversal of
    the most recent points, and the stream-id overwrite of a posted point. */
module StreamDataCoap {
  import opened Wrappers
  import opened JavaText
  import opened CoapCodes
  import opened QueryParams
  import StreamCoap

  /** A long parameter, -1 when absent or not a long. A parameter given as
      "-1" reads the same as an absent one. */
  function GetLongParameter(m: ParamMap, k: string): (r: int)
    ensures MinLong <= r <= MaxLong
    ensures (k !in KeySet(m) || ParseLong(Get(m, k).value).None?) ==> r == -1
    ensures k in KeySet(m) && ParseLong(Get(m, k).value).Some? ==> r == ParseLong(Get(m, k).value).value
  {
    match Get(m, k)
    case None => -1
    case Some(v) => ParseLong(v).GetOr(-1)
  }

  /** An int parameter, -1 when absent or not a 32-bit int (a value that
      is a long but not an int also gives -1). */
  function GetIntParameter(m: ParamMap, k: string): (r: int)
    ensures MinInt <= r <= MaxInt
    ensures (k !in KeySet(m) || ParseInt(Get(m, k).value).None?) ==> r == -1
    ensures k in KeySet(m) && ParseInt(Get(m, k).value).Some? ==> r == ParseInt(Get(m, k).value).value
  {
    match Get(m, k)
    case None => -1
    case Some(v) => ParseInt(v).GetOr(-1)
  }

  /** A long written into the query is read back. */
  lemma LongParameterRoundTrip(m: ParamMap, k: string, n: int)
    requires MinLong <= n <= MaxLong
    ensures GetLongParameter(Put(m, k, LongText(n)), k) == n
  {
    LongTextRoundTrip(n);
  }

  /** An int written into the query is read back. */
  lemma IntParameterRoundTrip(m: ParamMap, k: string, n: int)
    requires MinInt <= n <= MaxInt
    ensures GetIntParameter(Put(m, k, LongText(n)), k) == n
  {
    DecimalTextRoundTrip(n, MinInt, MaxInt);
  }

  /** The limit used when none is given. */
  const DefaultLimit := 50

  /** The four storage reads a GET can make. */
  datatype PointQuery =
    | Range(from: int, until: int)
    | SinceLimit(from: int, limit: int)
    | Since(from: int)
    | Latest(limit: int)

  /** The decision tree over limit, from and until; -1 means "not given". */
  function PlanQuery(limit: int, from: int, until: int): (q: PointQuery)
    ensures from != -1 && until != -1 ==> q == Range(from, until)
    ensures from != -1 && until == -1 ==> q == if limit != -1 then SinceLimit(from, limit) else Since(from)
    ensures from == -1 ==> q == Latest(if limit == -1 then DefaultLimit else limit)
  {
    var limitSet := limit != -1;
    var limitValue := if limitSet then limit else DefaultLimit;
    if from != -1 then
      if until != -1 then Range(from, until)
      else if limitSet then SinceLimit(from, limitValue)
      else Since(from)
    else Latest(limitValue)
  }

  /** With a range, the limit does not matter; without a start, the end does not. */
  lemma PlanIgnores(limit: int, limit': int, from: int, until: int, until': int)
    ensures from != -1 && until != -1 ==> PlanQuery(limit, from, until) == PlanQuery(limit', from, until)
    ensures from == -1 ==> PlanQuery(limit, from, until) == PlanQuery(limit, from, until')
  {
  }

  /** A data point as storage returns it. */
  datatype DataPoint = DataPoint(streamId: int, timestamp: int, value: real)

  /** The reference for `Collections.reverse`. */
  function Reversed<T>(s: seq<T>): (r: seq<T>)
    ensures |r| == |s|
    ensures forall i | 0 <= i < |s| :: r[i] == s[|s| - 1 - i]
  {
    if s == [] then [] else Reversed(s[1..]) + [s[0]]
  }

  lemma ReversedTwice<T>(s: seq<T>)
    ensures Reversed(Reversed(s)) == s
  {
    assert forall i | 0 <= i < |s| :: Reversed(Reversed(s))[i] == s[i];
  }

  lemma {:induction false} ReversedSameElements<T>(s: seq<T>)
    ensures multiset(Reversed(s)) == multiset(s)
  {
    if s != [] {
      ReversedSameElements(s[1..]);
      assert s == [s[0]] + s[1..];
    }
  }

  /** Reverses a list in place by swapping the ends inwards. */
  method Reverse<T>(a: array<T>)
    modifies a
    ensures a[..] == Reversed(old(a[..]))
  {
    var i := 0;
    var j := a.Length - 1;
    while i < j
      invariant 0 <= i <= a.Length && j == a.Length - 1 - i
      invariant forall k | 0 <= k < i || j < k < a.Length :: a[k] == old(a[a.Length - 1 - k])
      invariant forall k | i <= k <= j :: a[k] == old(a[k])
      decreases j - i
    {
      a[i], a[j] := a[j], a[i];
      i := i + 1;
      j := j - 1;
    }
  }

  /** The storage read, with the most recent points put oldest first. */
  method ReadPoints(q: PointQuery, fetch: PointQuery -> seq<DataPoint>) returns (rv: seq<DataPoint>)
    ensures rv == if q.Latest? then Reversed(fetch(q)) else fetch(q)
  {
    rv := fetch(q);
    if q.Latest? {
      var a := new DataPoint[|rv|](k requires 0 <= k < |rv| => rv[k]);
      assert a[..] == rv;
      Reverse(a);
      rv := a[..];
    }
  }

  const CantParse := "Error: Can't parse data!"

  datatype GetAnswer =
    | NotAccepted(route: StreamCoap.GetRoute)
    /** the stream named in the query does not exist: storage lookups throw */
    | NoStream
    | Answered(code: ResponseCode, message: string)
    /** 2.05 Content with these points, fetched with this query */
    | Points(query: PointQuery, points: seq<DataPoint>)

  /** GET: the four stream parameters without the size check (extra keys
      carry limit, from, until and format), one storage read chosen by
      PlanQuery, the most recent points reversed, and "csv" refused.
      `fetch` is storage's answer to each read; `streamExists` whether the
      stream lookup found the stream. */
  method HandleGet(queries: seq<string>, streamExists: bool, fetch: PointQuery -> seq<DataPoint>)
    returns (r: GetAnswer)
    ensures Validate(ParamsOf(queries), StreamCoap.FourStreamRule(false)).Accepted? <==> !r.NotAccepted?
    ensures r.NoStream? <==> !r.NotAccepted? && !streamExists
    ensures !r.NotAccepted? && streamExists ==>
              var m := ParamsOf(queries).value;
              var q := PlanQuery(GetIntParameter(m, "limit"), GetLongParameter(m, "from"), GetLongParameter(m, "until"));
              if Get(m, "format") == Some("csv") then r == Answered(BadRequest, CantParse)
              else r.Points? && r.query == q
                   && r.points == if q.Latest? then Reversed(fetch(q)) else fetch(q)
  {
    var p := StreamCoap.GetFourStreamParameters(queries, false);
    if !p.Accepted? {
      return NotAccepted(StreamCoap.Refusal(p));
    }
    var parameters := p.params;
    var limit := GetIntParameter(parameters, "limit");
    var from := GetLongParameter(parameters, "from");
    var until := GetLongParameter(parameters, "until");
    var format := "json";
    if "format" in KeySet(parameters) {
      format := Get(parameters, "format").value;
    }
    if !streamExists {
      return NoStream;
    }
    var q := PlanQuery(limit, from, until);
    var rv := ReadPoints(q, fetch);
    if format == "csv" {
      r := Answered(BadRequest, CantParse);
    } else {
      r := Points(q, rv);
    }
  }

  datatype PostAnswer =
    | PostNotAccepted(route: StreamCoap.GetRoute)
    /** the body did not deserialise: 5.00 */
    | Unreadable
    | PostNoStream
    /** the insert threw: 5.00 */
    | InsertFailed(point: DataPoint)
    /** 2.01 Created with the point as stored */
    | Stored(point: DataPoint)

  /** POST: exactly the four stream parameters, and the posted point's own
      stream id is replaced by the id of the stream the query names.
      `streamId` is that stream's id (None: not found); `insertOk` whether
      storage accepted the insert. */
  method HandlePost(queries: seq<string>, body: Option<DataPoint>, streamId: Option<int>, insertOk: bool)
    returns (r: PostAnswer)
    ensures Validate(ParamsOf(queries), StreamCoap.FourStreamRule(true)).Accepted? <==> !r.PostNotAccepted?
    ensures !r.PostNotAccepted? ==> KeySet(ParamsOf(queries).value) == {"user", "resource", "stream", "key"}
    ensures r.Unreadable? <==> !r.PostNotAccepted? && body.None?
    ensures r.PostNoStream? <==> !r.PostNotAccepted? && body.Some? && streamId.None?
    ensures r.Stored? || r.InsertFailed? ==>
              body.Some? && streamId.Some? && r.point == body.value.(streamId := streamId.value)
              && (r.Stored? <==> insertOk)
  {
    var p := StreamCoap.GetFourStreamParameters(queries, true);
    if !p.Accepted? {
      return PostNotAccepted(StreamCoap.Refusal(p));
    }
    if body.None? {
      return Unreadable;
    }
    if streamId.None? {
      return PostNoStream;
    }
    var datapoint := body.value.(streamId := streamId.value);
    if !insertOk {
      return InsertFailed(datapoint);
    }
    r := Stored(datapoint);
  }

  /** PUT on stream data is refused outright. */
  function HandlePut(): (r: ResponseCode)
    ensures r == Forbidden && !r.IsSuccess()
  {
    Forbidden
  }
}
