/** The audit log of a resource: at most one entry per resource and
    direction (received post or outgoing poll), every field trimmed and cut
    to its column width before it is written, and an upsert that overwrites
    the existing entry of that resource and direction in place. */
module ResourceLog {
  import opened Wrappers
  import opened JavaText

  const MaxLength := 4 * 1024
  const BodyMaxLength := 8 * 1024
  /** The width of the uri, host and method columns. */
  const ShortLength := 255

  /** The persistent columns of a log entry. `host` is the one field a
      request can leave null (a missing Host header). */
  datatype Entry = Entry(
    id: Option<int>,
    resource: Option<int>,
    creationTimestamp: Option<int>,
    responseTimestamp: Option<int>,
    parsedSuccessfully: bool,
    isPoll: bool,
    body: string,
    httpMethod: string,
    host: Option<string>,
    uri: string,
    headers: string,
    message: string)

  /** A fresh entry, as the no-argument constructor leaves it. */
  const Blank := Entry(None, None, None, None, false, false, "", "", Some(""), "", "", "")

  /** One field of `verify`: trimmed, then cut to `limit - 2` characters
      when it is longer than `limit`. */
  function Clip(s: string, limit: nat): (r: string)
    requires limit >= 2
    ensures |r| <= limit && |r| <= |s|
  {
    var t := Trim(s);
    if |t| > limit then t[..limit - 2] else t
  }

  /** A field already trimmed and within its width comes through unchanged. */
  lemma ClipLeavesCleanFields(s: string, limit: nat)
    requires limit >= 2 && Trimmed(s) && |s| <= limit
    ensures Clip(s, limit) == s
  {
  }

  /** A field longer than its width after trimming is cut to two less. */
  lemma ClipCutsLongFields(s: string, limit: nat)
    requires limit >= 2 && |Trim(s)| > limit
    ensures Clip(s, limit) == Trim(s)[..limit - 2]
  {
  }

  /** The entry after `verify`, and whether it threw: a null host throws,
      and so does a method over 255 characters when the body is shorter
      than 253, since it is the body that line 284 cuts. The fields
      verified before a throw keep their new values. */
  datatype Verification = Verification(entry: Entry, threw: bool)

  function Verified(e: Entry): Verification
  {
    var body := Clip(e.body, BodyMaxLength);
    var headers := Clip(e.headers, MaxLength);
    var message := Clip(e.message, MaxLength);
    var uri := Clip(e.uri, ShortLength);
    var partial := e.(body := body, headers := headers, message := message, uri := uri);
    if e.host.None? then Verification(partial, true)
    else
      var host := Clip(e.host.value, ShortLength);
      var httpMethod := Trim(e.httpMethod);
      var done := partial.(host := Some(host), httpMethod := httpMethod);
      if |httpMethod| > ShortLength then
        if |body| < ShortLength - 2 then Verification(done, true)
        else Verification(done.(body := body[..ShortLength - 2]), false)
      else Verification(done, false)
  }

  /** Every column within its width. */
  predicate Bounded(e: Entry)
  {
    |e.body| <= BodyMaxLength && |e.headers| <= MaxLength && |e.message| <= MaxLength
    && |e.uri| <= ShortLength && e.host.Some? && |e.host.value| <= ShortLength
  }

  /** After a `verify` that does not throw, every column fits. */
  lemma VerifiedIsBounded(e: Entry)
    ensures !Verified(e).threw ==> Bounded(Verified(e).entry)
  {
  }

  /** `verify` throws exactly on a null host, or on a long method with a
      short body. */
  lemma VerifiedThrows(e: Entry)
    ensures Verified(e).threw <==>
              e.host.None? || (|Trim(e.httpMethod)| > ShortLength && |Clip(e.body, BodyMaxLength)| < ShortLength - 2)
  {
  }

  /** `verify` changes no column but the six strings, and the method only
      by trimming it. */
  lemma VerifiedKeepsTheRest(e: Entry)
    ensures var v := Verified(e).entry;
            v.id == e.id && v.resource == e.resource && v.creationTimestamp == e.creationTimestamp
            && v.responseTimestamp == e.responseTimestamp && v.parsedSuccessfully == e.parsedSuccessfully
            && v.isPoll == e.isPoll
            && (e.host.Some? ==> v.httpMethod == Trim(e.httpMethod))
  {
    var body := Clip(e.body, BodyMaxLength);
    var partial := e.(body := body, headers := Clip(e.headers, MaxLength), message := Clip(e.message, MaxLength),
                      uri := Clip(e.uri, ShortLength));
    if e.host.Some? {
      var done := partial.(host := Some(Clip(e.host.value, ShortLength)), httpMethod := Trim(e.httpMethod));
      if |done.httpMethod| > ShortLength && |body| >= ShortLength - 2 {
        assert Verified(e).entry == done.(body := body[..ShortLength - 2]);
      } else {
        assert Verified(e).entry == done;
      }
    } else {
      assert Verified(e).entry == partial;
    }
  }

  /** Fields already trimmed and within their widths come through unchanged. */
  lemma VerifiedLeavesCleanEntries(e: Entry)
    requires Trimmed(e.body) && Trimmed(e.headers) && Trimmed(e.message) && Trimmed(e.uri) && Trimmed(e.httpMethod)
    requires e.host.Some? && Trimmed(e.host.value)
    requires |e.body| <= BodyMaxLength && |e.headers| <= MaxLength && |e.message| <= MaxLength
    requires |e.uri| <= ShortLength && |e.host.value| <= ShortLength && |e.httpMethod| <= ShortLength
    ensures Verified(e) == Verification(e, false)
  {
  }

  /** A long method leaves the method whole and cuts the body to 253. */
  lemma VerifiedLongMethodCutsBody(e: Entry)
    requires e.host.Some? && |Trim(e.httpMethod)| > ShortLength
    requires |Clip(e.body, BodyMaxLength)| >= ShortLength - 2
    ensures |Verified(e).entry.body| == ShortLength - 2
    ensures Verified(e).entry.httpMethod == Trim(e.httpMethod)
  {
  }

  /** The key the unique constraint is on. */
  type Key = (int, bool)

  /** A row sits under its own resource and direction, has an id, and fits. */
  predicate RowFits(k: Key, e: Entry)
  {
    e.resource == Some(k.0) && e.isPoll == k.1 && e.id.Some? && Bounded(e)
  }

  /** The `resource_log` table, keyed by its unique (resource, is_poll)
      pair; `nextId` is the next generated id. */
  class LogTable {
    var rows: map<Key, Entry>
    var nextId: int

    /** Each row sits under its own resource and direction, carries an id,
        and fits its columns. */
    predicate Valid()
      reads this
    {
      forall k | k in rows :: RowFits(k, rows[k])
    }

    constructor ()
      ensures rows == map[] && Valid()
    {
      rows := map[];
      nextId := 1;
    }

    /** `getByResource`: a loaded copy of the entry of that resource and
        direction, or null. */
    method GetByResource(resource: Option<int>, isPoll: bool) returns (r: LogEntry?)
      ensures resource.None? ==> r == null
      ensures resource.Some? ==> (r != null <==> (resource.value, isPoll) in rows)
      ensures r != null ==> fresh(r) && resource.Some? && r.fields == rows[(resource.value, isPoll)]
    {
      if resource.None? {
        return null;
      }
      var key := (resource.value, isPoll);
      if key !in rows {
        return null;
      }
      r := new LogEntry(rows[key]);
    }

    /** A row written under its key, taking the next generated id along. */
    method Insert(key: Key, e: Entry)
      modifies this
      requires Valid() && RowFits(key, e)
      ensures Valid() && rows == old(rows)[key := e] && nextId == old(nextId) + 1
    {
      rows := rows[key := e];
      nextId := nextId + 1;
    }

    /** A row rewritten under its key. */
    method Rewrite(key: Key, e: Entry)
      modifies this
      requires Valid() && RowFits(key, e)
      ensures Valid() && rows == old(rows)[key := e] && nextId == old(nextId)
    {
      rows := rows[key := e];
    }

    /** `deleteByResource`: both entries of the resource go. */
    method DeleteByResource(resource: int)
      modifies this
      requires Valid()
      ensures Valid()
      ensures rows == old(rows) - {(resource, false), (resource, true)}
      ensures nextId == old(nextId)
    {
      rows := rows - {(resource, false), (resource, true)};
    }

    /** `createOrUpdate`: a log without a resource gives null and changes
        nothing. Otherwise a missing or zero creation time becomes `now`,
        and the entry of the same resource and direction, if there is one,
        takes every field of the log but its id and is returned; if there
        is none the log itself is saved and returned. A `verify` that throws
        is caught: null, and the table unchanged. */
    method CreateOrUpdate(rl: LogEntry, now: int) returns (r: LogEntry?)
      modifies this, rl
      requires Valid()
      ensures Valid()
      ensures old(rl.fields.resource).None? ==> r == null && rl.fields == old(rl.fields) && rows == old(rows)
      ensures old(rl.fields.resource).Some? ==>
                var key := (old(rl.fields.resource).value, old(rl.fields.isPoll));
                var stamped := Stamped(old(rl.fields), now);
                var existing := key in old(rows);
                var written := if existing then stamped.(id := old(rows)[key].id) else stamped;
                var v := Verified(written);
                var stored := if existing then v.entry else WithNewId(v.entry, old(nextId));
                (r == null <==> v.threw)
                && (r != null ==> rows == old(rows)[key := stored] && r.fields == stored
                                  && (existing ==> fresh(r) && r.fields.id == old(rows)[key].id)
                                  && (!existing ==> r == rl))
                && (r == null ==> rows == old(rows))
                && (existing ==> rl.fields == stamped)
                && (!existing ==> rl.fields == if r == null then v.entry else stored)
                && nextId == if !existing && r != null then old(nextId) + 1 else old(nextId)
    {
      if rl.fields.resource.None? {
        return null;
      }
      if rl.fields.creationTimestamp in {None, Some(0)} {
        rl.fields := rl.fields.(creationTimestamp := Some(now));
      }
      var copy := GetByResource(rl.fields.resource, rl.fields.isPoll);
      if copy != null {
        var persisted, threw := copy.UpdateResourceLog(rl, this);
        if threw {
          return null;
        }
        return copy;
      } else {
        var threw := rl.Save(this);
        if threw {
          return null;
        }
        return rl;
      }
    }
  }

  /** A missing or zero creation time replaced by `now`. */
  function Stamped(e: Entry, now: int): (r: Entry)
    ensures r.creationTimestamp.Some? && (now != 0 ==> r.creationTimestamp != Some(0))
    ensures e.creationTimestamp.Some? && e.creationTimestamp.value != 0 ==> r == e
    ensures r == e.(creationTimestamp := r.creationTimestamp)
  {
    if e.creationTimestamp in {None, Some(0)} then e.(creationTimestamp := Some(now)) else e
  }

  /** One `ResourceLog` object. */
  class LogEntry {
    var fields: Entry

    constructor (fields: Entry)
      ensures this.fields == fields
    {
      this.fields := fields;
    }

    /** `verify`, field by field in the order of the source. */
    method Verify() returns (threw: bool)
      modifies this
      ensures fields == Verified(old(fields)).entry && threw == Verified(old(fields)).threw
    {
      var e := fields;
      fields := fields.(body := Clip(fields.body, BodyMaxLength));
      fields := fields.(headers := Clip(fields.headers, MaxLength));
      fields := fields.(message := Clip(fields.message, MaxLength));
      fields := fields.(uri := Clip(fields.uri, ShortLength));
      if fields.host.None? {
        return true;
      }
      fields := fields.(host := Some(Clip(fields.host.value, ShortLength)));
      fields := fields.(httpMethod := Trim(fields.httpMethod));
      if |fields.httpMethod| > ShortLength {
        if |fields.body| < ShortLength - 2 {
          return true;
        }
        fields := fields.(body := fields.body[..ShortLength - 2]);
      }
      threw := false;
    }

    /** `save`: verify, then insert, under a new id unless the entry has
        one. An entry without a resource, or one whose resource and
        direction already have an entry, breaks a constraint and is not
        written. */
    method Save(table: LogTable) returns (threw: bool)
      modifies this, table
      requires table.Valid()
      ensures table.Valid()
      ensures var v := Verified(old(fields));
              var key := (old(fields.resource).GetOr(0), old(fields.isPoll));
              (threw <==> v.threw || old(fields.resource).None? || key in old(table.rows))
              && (threw ==> fields == v.entry && table.rows == old(table.rows) && table.nextId == old(table.nextId))
              && (!threw ==> fields == WithNewId(v.entry, old(table.nextId))
                             && table.rows == old(table.rows)[key := fields]
                             && table.nextId == old(table.nextId) + 1)
    {
      VerifiedKeepsTheRest(fields);
      threw := Verify();
      if threw {
        return;
      }
      if fields.resource.None? || (fields.resource.value, fields.isPoll) in table.rows {
        return true;
      }
      VerifiedIsBounded(old(fields));
      fields := WithNewId(fields, table.nextId);
      table.Insert((fields.resource.value, fields.isPoll), fields);
    }

    /** `update`: verify, then write the row this entry was loaded from;
        without an id, or without that row, nothing is written. */
    method Update(table: LogTable) returns (threw: bool)
      modifies this, table
      requires table.Valid()
      ensures table.Valid() && table.nextId == old(table.nextId)
      ensures var v := Verified(old(fields));
              var key := (old(fields.resource).GetOr(0), old(fields.isPoll));
              fields == v.entry
              && (threw <==> v.threw || old(fields.id).None? || old(fields.resource).None?
                             || key !in old(table.rows) || old(table.rows)[key].id != old(fields.id))
              && (threw ==> table.rows == old(table.rows))
              && (!threw ==> table.rows == old(table.rows)[key := fields])
    {
      VerifiedKeepsTheRest(fields);
      threw := Verify();
      if threw {
        return;
      }
      if fields.id.None? || fields.resource.None? {
        return true;
      }
      var key := (fields.resource.value, fields.isPoll);
      if key !in table.rows || table.rows[key].id != fields.id {
        return true;
      }
      VerifiedIsBounded(old(fields));
      table.Rewrite(key, fields);
    }

    /** `updateResourceLog`: take every field of `rl` but the id; persist,
        and answer true, only when this entry has an id. */
    method UpdateResourceLog(rl: LogEntry, table: LogTable) returns (persisted: bool, threw: bool)
      modifies this, table
      requires table.Valid()
      ensures table.Valid() && table.nextId == old(table.nextId)
      ensures var copied := old(rl.fields).(id := old(fields.id));
              (old(fields.id).None? ==> !persisted && !threw && fields == copied && table.rows == old(table.rows))
              && (old(fields.id).Some? ==>
                    var v := Verified(copied);
                    var key := (copied.resource.GetOr(0), copied.isPoll);
                    fields == v.entry
                    && (threw <==> v.threw || copied.resource.None?
                                   || key !in old(table.rows) || old(table.rows)[key].id != copied.id)
                    && (persisted <==> !threw)
                    && (threw ==> table.rows == old(table.rows))
                    && (!threw ==> table.rows == old(table.rows)[key := fields]))
    {
      fields := rl.fields.(id := fields.id);
      persisted, threw := false, false;
      if fields.id.Some? {
        threw := Update(table);
        persisted := !threw;
      }
    }

    /** `updateParsedSuccessfully`: set the flag; persist it when there is an id. */
    method UpdateParsedSuccessfully(parsedSuccessfully: bool, table: LogTable) returns (threw: bool)
      modifies this, table
      requires table.Valid()
      ensures table.Valid() && table.nextId == old(table.nextId)
      ensures var set_ := old(fields).(parsedSuccessfully := parsedSuccessfully);
              var key := (set_.resource.GetOr(0), set_.isPoll);
              (old(fields.id).None? ==> fields == set_ && !threw && table.rows == old(table.rows))
              && (old(fields.id).Some? ==>
                    fields == Verified(set_).entry
                    && (threw <==> Verified(set_).threw || set_.resource.None?
                                   || key !in old(table.rows) || old(table.rows)[key].id != set_.id)
                    && (threw ==> table.rows == old(table.rows))
                    && (!threw ==> table.rows == old(table.rows)[key := fields]))
    {
      fields := fields.(parsedSuccessfully := parsedSuccessfully);
      threw := false;
      if fields.id.Some? {
        threw := Update(table);
      }
    }

    /** `updateMessages`: set the message; persist it when there is an id. */
    method UpdateMessages(msg: string, table: LogTable) returns (threw: bool)
      modifies this, table
      requires table.Valid()
      ensures table.Valid() && table.nextId == old(table.nextId)
      ensures var set_ := old(fields).(message := msg);
              var key := (set_.resource.GetOr(0), set_.isPoll);
              (old(fields.id).None? ==> fields == set_ && !threw && table.rows == old(table.rows))
              && (old(fields.id).Some? ==>
                    fields == Verified(set_).entry
                    && (threw <==> Verified(set_).threw || set_.resource.None?
                                   || key !in old(table.rows) || old(table.rows)[key].id != set_.id)
                    && (threw ==> table.rows == old(table.rows))
                    && (!threw ==> table.rows == old(table.rows)[key := fields]))
    {
      fields := fields.(message := msg);
      threw := false;
      if fields.id.Some? {
        threw := Update(table);
      }
    }

    /** `setCreationTimestamp`: a time that is not positive means now. */
    method SetCreationTimestamp(creationTimestamp: int, now: int)
      modifies this
      ensures fields == old(fields).(creationTimestamp := Some(Positive(creationTimestamp, now)))
    {
      fields := fields.(creationTimestamp := Some(if creationTimestamp <= 0 then now else creationTimestamp));
    }

    /** `setResponseTimestamp`: a time that is not positive means now. */
    method SetResponseTimestamp(responseTimestamp: int, now: int)
      modifies this
      ensures fields == old(fields).(responseTimestamp := Some(Positive(responseTimestamp, now)))
    {
      fields := fields.(responseTimestamp := Some(if responseTimestamp <= 0 then now else responseTimestamp));
    }
  }

  /** The id an insert gives an entry: its own, or the next generated one. */
  function WithNewId(e: Entry, nextId: int): (r: Entry)
    ensures r.id.Some? && (e.id.Some? ==> r == e)
    ensures r == e.(id := r.id)
  {
    if e.id.None? then e.(id := Some(nextId)) else e
  }

  /** The time a timestamp setter stores: the given one if positive, else now. */
  function Positive(t: int, now: int): (r: int)
    ensures t > 0 ==> r == t
    ensures t <= 0 ==> r == now
    ensures now > 0 ==> r > 0
  {
    if t <= 0 then now else t
  }

  /** What a request log takes from the request. */
  datatype Request = Request(body: string, httpMethod: string, hostHeader: Option<string>, uri: string,
                             contentType: Option<string>, contentEncoding: Option<string>,
                             contentLength: Option<string>)

  /** What a poll log takes from the response and its request. */
  datatype Response = Response(body: string, requestMethod: string, requestHost: Option<string>, uri: string,
                               statusText: string, contentType: Option<string>, contentEncoding: Option<string>,
                               contentLength: int)

  function RequestHeaders(r: Request): string
  {
    "Content-Type " + Show(r.contentType) + "\n" + "Content-Encoding " + Show(r.contentEncoding) + "\n"
    + "Content-Length " + Show(r.contentLength) + "\n"
  }

  function ResponseHeaders(r: Response): string
  {
    "Status " + r.statusText + "\n" + "Content-Type " + Show(r.contentType) + "\n"
    + "Content-Encoding " + Show(r.contentEncoding) + "\n" + "Content-Length " + LongText(r.contentLength) + "\n"
  }

  /** `fromRequest`: a received post, so not a poll. */
  method FromRequest(resource: Option<int>, request: Option<Request>, creationTimestamp: int, now: int)
    returns (log: LogEntry)
    ensures fresh(log)
    ensures !log.fields.isPoll && log.fields.resource == resource && log.fields.id.None?
    ensures log.fields.creationTimestamp == Some(Positive(creationTimestamp, now))
    ensures log.fields.responseTimestamp.None?
    ensures request.None? ==> log.fields == Blank.(resource := resource, creationTimestamp := log.fields.creationTimestamp)
    ensures request.Some? ==>
              var q := request.value;
              log.fields == Blank.(resource := resource, creationTimestamp := log.fields.creationTimestamp,
                                   body := q.body, httpMethod := q.httpMethod, host := q.hostHeader, uri := q.uri,
                                   headers := RequestHeaders(q))
  {
    log := new LogEntry(Blank);
    log.fields := log.fields.(resource := resource, isPoll := false);
    if request.Some? {
      var q := request.value;
      log.fields := log.fields.(body := q.body, httpMethod := q.httpMethod, host := q.hostHeader, uri := q.uri,
                                headers := RequestHeaders(q));
    }
    log.SetCreationTimestamp(creationTimestamp, now);
  }

  /** `fromResponse`: the answer to a poll. */
  method FromResponse(resource: Option<int>, response: Option<Response>, creationTimestamp: int,
                      responseTimestamp: int, now: int)
    returns (log: LogEntry)
    ensures fresh(log)
    ensures log.fields.isPoll && log.fields.resource == resource && log.fields.id.None?
    ensures log.fields.creationTimestamp == Some(Positive(creationTimestamp, now))
    ensures log.fields.responseTimestamp == Some(Positive(responseTimestamp, now))
    ensures response.None? ==>
              log.fields == Blank.(resource := resource, isPoll := true, creationTimestamp := log.fields.creationTimestamp,
                                   responseTimestamp := log.fields.responseTimestamp)
    ensures response.Some? ==>
              var q := response.value;
              log.fields == Blank.(resource := resource, isPoll := true, creationTimestamp := log.fields.creationTimestamp,
                                   responseTimestamp := log.fields.responseTimestamp,
                                   body := q.body, httpMethod := q.requestMethod, host := q.requestHost, uri := q.uri,
                                   headers := ResponseHeaders(q))
  {
    log := new LogEntry(Blank);
    log.fields := log.fields.(resource := resource, isPoll := true);
    if response.Some? {
      var q := response.value;
      log.fields := log.fields.(body := q.body, httpMethod := q.requestMethod, host := q.requestHost, uri := q.uri,
                                headers := ResponseHeaders(q));
    }
    log.SetCreationTimestamp(creationTimestamp, now);
    log.SetResponseTimestamp(responseTimestamp, now);
  }
}
