/** A data source of the proposed data model: its polling schedule, its
    copy-on-update, its secret token for outside posts, and the owner check
    on lookup. Users are their ids; the wall clock and the random token are
    parameters. */
module Source {
  import opened Wrappers

  /** What the `sources` table stores of a source. */
  datatype SourceRow = SourceRow(id: Option<int>, owner: Option<int>, name: string, pollingPeriod: int,
                                 lastPolled: int, pollingUrl: Option<string>,
                                 pollingAuthenticationKey: Option<string>, token: Option<string>)

  /** The `sources` table, and the next id it will hand out. */
  class SourceStore {
    var rows: map<int, SourceRow>
    var nextId: int

    predicate Valid()
      reads this
    {
      nextId >= 1 && forall k | k in rows :: rows[k].id == Some(k) && k < nextId
    }

    constructor ()
      ensures Valid() && rows == map[] && nextId == 1
    {
      rows := map[];
      nextId := 1;
    }
  }

  /** Java's `long / long`, which truncates toward zero. */
  function JavaDiv(a: int, b: int): (q: int)
    requires b > 0
    ensures a >= 0 ==> 0 <= a - q * b < b
    ensures a < 0 ==> -b < a - q * b <= 0
  {
    if a >= 0 then a / b else -((-a) / b)
  }

  /** `poll` as written: due when the period has NOT yet run out. */
  predicate PollsAsWritten(lastPolled: int, pollingPeriod: int, now: int)
  {
    !(lastPolled + pollingPeriod < now)
  }

  /** The schedule `poll` evidently means: due once the period has run out. */
  predicate Due(lastPolled: int, pollingPeriod: int, now: int)
  {
    lastPolled + pollingPeriod <= now
  }

  class Source {
    var id: Option<int>
    var owner: Option<int>
    var name: string
    var pollingPeriod: int
    var lastPolled: int
    var pollingUrl: Option<string>
    var pollingAuthenticationKey: Option<string>
    var token: Option<string>

    function Row(): SourceRow
      reads this
    {
      SourceRow(id, owner, name, pollingPeriod, lastPolled, pollingUrl, pollingAuthenticationKey, token)
    }

    /** `Source(owner, name, pollingPeriod, pollingUrl, key)`: never polled,
        no token yet. */
    constructor (owner: Option<int>, name: string, pollingPeriod: int, pollingUrl: Option<string>,
                 pollingAuthenticationKey: Option<string>)
      ensures Row() == SourceRow(None, owner, name, pollingPeriod, 0, pollingUrl, pollingAuthenticationKey, None)
    {
      id := None;
      this.owner := owner;
      this.name := name;
      this.pollingPeriod := pollingPeriod;
      lastPolled := 0;
      this.pollingUrl := pollingUrl;
      this.pollingAuthenticationKey := pollingAuthenticationKey;
      token := None;
    }

    /** `Source(user)`: the field defaults, owned by `user`. */
    constructor OwnedBy(user: Option<int>)
      ensures Row() == SourceRow(None, user, "NewSource", 0, 0, None, None, None)
    {
      id := None;
      owner := user;
      name := "NewSource";
      pollingPeriod := 0;
      lastPolled := 0;
      pollingUrl := None;
      pollingAuthenticationKey := None;
      token := None;
    }

    /** `save`: the row goes in under its own id or a fresh one, and ids
        are handed out past every id in use; an id that is taken is a
        duplicate key. */
    method Save(store: SourceStore) returns (threw: bool)
      requires store.Valid()
      modifies this, store
      ensures store.Valid()
      ensures var key := if old(id).Some? then old(id).value else old(store.nextId);
              (threw <==> key in old(store.rows))
              && (threw ==> Row() == old(Row()) && store.rows == old(store.rows) && store.nextId == old(store.nextId))
              && (!threw ==>
                    Row() == old(Row()).(id := Some(key))
                    && store.rows == old(store.rows)[key := Row()]
                    && store.nextId == if key >= old(store.nextId) then key + 1 else old(store.nextId))
    {
      var key := if id.Some? then id.value else store.nextId;
      if key in store.rows {
        return true;
      }
      if key >= store.nextId {
        store.nextId := key + 1;
      }
      id := Some(key);
      store.rows := store.rows[key := Row()];
      threw := false;
    }

    /** `update`: rewrite the stored row; no id, or no row under it, throws. */
    method Update(store: SourceStore) returns (threw: bool)
      requires store.Valid()
      modifies store
      ensures store.Valid() && store.nextId == old(store.nextId)
      ensures threw <==> id.None? || id.value !in old(store.rows)
      ensures store.rows == if threw then old(store.rows) else old(store.rows)[id.value := Row()]
    {
      if id.None? || id.value !in store.rows {
        return true;
      }
      store.rows := store.rows[id.value := Row()];
      threw := false;
    }

    /** `updateToken`: take the new token, and rewrite a stored source; a
        source with no id at all throws on the `id > 0` test. */
    method UpdateToken(freshToken: string, store: SourceStore) returns (threw: bool)
      requires store.Valid()
      modifies this, store
      ensures store.Valid() && store.nextId == old(store.nextId)
      ensures Row() == old(Row()).(token := Some(freshToken))
      ensures threw <==> id.None? || (id.value > 0 && id.value !in old(store.rows))
      ensures store.rows == if threw || id.value <= 0 then old(store.rows) else old(store.rows)[id.value := Row()]
    {
      token := Some(freshToken);
      if id.None? {
        return true;
      }
      threw := false;
      if id.value > 0 {
        threw := Update(store);
      }
    }

    /** `updateSource(source)`: take over the five configurable fields,
        give the source a token if it has none (null or empty), then
        rewrite it. `freshToken` is the random UUID. */
    method UpdateSource(source: SourceRow, freshToken: string, store: SourceStore) returns (threw: bool)
      requires store.Valid() && freshToken != ""
      modifies this, store
      ensures store.Valid()
      ensures Row() == old(Row()).(name := source.name, pollingPeriod := source.pollingPeriod,
                                   lastPolled := source.lastPolled, pollingUrl := source.pollingUrl,
                                   pollingAuthenticationKey := source.pollingAuthenticationKey,
                                   token := if old(token).None? || old(token) == Some("") then Some(freshToken)
                                            else old(token))
      ensures token.Some? && token.value != ""
      ensures threw <==> id.None? || id.value !in old(store.rows)
      ensures store.rows == if threw then old(store.rows) else old(store.rows)[id.value := Row()]
      ensures store.nextId == old(store.nextId)
    {
      name := source.name;
      pollingPeriod := source.pollingPeriod;
      lastPolled := source.lastPolled;
      pollingUrl := source.pollingUrl;
      pollingAuthenticationKey := source.pollingAuthenticationKey;
      if token.None? || token.value == "" {
        threw := UpdateToken(freshToken, store);
        if threw {
          return;
        }
      }
      threw := Update(store);
    }

    /** `poll` as written, with the clock in milliseconds. */
    method Poll(nowMillis: int) returns (polled: bool)
      modifies this
      ensures var now := JavaDiv(nowMillis, 1000);
              (polled <==> PollsAsWritten(old(lastPolled), pollingPeriod, now))
              && Row() == if polled then old(Row()).(lastPolled := now) else old(Row())
    {
      var time := JavaDiv(nowMillis, 1000);
      if lastPolled + pollingPeriod < time {
        return false;
      }
      lastPolled := time;
      polled := true;
    }

    /** `poll` as it evidently means to run: when the period has run out. */
    method PollIntended(nowMillis: int) returns (polled: bool)
      modifies this
      ensures var now := JavaDiv(nowMillis, 1000);
              (polled <==> Due(old(lastPolled), pollingPeriod, now))
              && Row() == if polled then old(Row()).(lastPolled := now) else old(Row())
    {
      var time := JavaDiv(nowMillis, 1000);
      if time < lastPolled + pollingPeriod {
        return false;
      }
      lastPolled := time;
      polled := true;
    }
  }

  /** Once a source is overdue, `poll` as written refuses it at every later
      time and never moves `lastPolled`: it is never polled again. */
  lemma OverdueNeverPolled(lastPolled: int, pollingPeriod: int, now: int, later: int)
    requires lastPolled + pollingPeriod < now <= later
    ensures !PollsAsWritten(lastPolled, pollingPeriod, later)
  {
  }

  /** As written, a source that polled at second 0 with a ten-second period
      is refused at second 100, although it is ninety seconds overdue. */
  lemma PollRefusesOverdue()
    ensures !PollsAsWritten(0, 10, JavaDiv(100000, 1000)) && Due(0, 10, JavaDiv(100000, 1000))
  {
  }

  /** The intended schedule: a poll at `now` makes the source not due for
      exactly the next period, and due again once it has passed. */
  lemma DueAfterPeriod(now: int, pollingPeriod: int, later: int)
    requires now <= later
    ensures Due(now, pollingPeriod, later) <==> later - now >= pollingPeriod
    ensures Due(now, pollingPeriod, now + pollingPeriod)
  {
  }

  /** `create(source)`: an ownerless source is not created (null); any other
      is saved, then given its token. */
  method Create(source: Source, freshToken: string, store: SourceStore) returns (r: Source?, threw: bool)
    requires store.Valid() && freshToken != ""
    modifies source, store
    ensures store.Valid()
    ensures old(source.owner).None? ==>
              r == null && !threw && source.Row() == old(source.Row()) && store.rows == old(store.rows)
    ensures old(source.owner).Some? && !threw ==>
              r == source && source.id.Some? && source.id.value in store.rows
              && source.Row() == old(source.Row()).(id := source.id, token := Some(freshToken))
              && store.rows == old(store.rows)[source.id.value :=
                                                 if source.id.value > 0 then source.Row()
                                                 else source.Row().(token := old(source.token))]
    ensures old(source.owner).Some? && old(source.id).None? ==> !threw && source.id == Some(old(store.nextId))
    ensures old(source.owner).Some? ==>
              (threw <==> old(source.id).Some? && old(source.id).value in old(store.rows))
    ensures threw ==> r == null && source.Row() == old(source.Row()) && store.rows == old(store.rows)
    ensures var key := if old(source.id).Some? then old(source.id).value else old(store.nextId);
            store.nextId == if old(source.owner).Some? && !threw && key >= old(store.nextId) then key + 1
                            else old(store.nextId)
  {
    if source.owner.None? {
      return null, false;
    }
    threw := source.Save(store);
    if threw {
      return null, true;
    }
    threw := source.UpdateToken(freshToken, store);
    if threw {
      return null, true;
    }
    r := source;
  }

  datatype Lookup = Found(row: SourceRow) | NotFound | LookupThrew

  /** `get(id, user)`: only the owner gets the source; a stored source with
      no owner throws on `owner.equals`. */
  function GetOwned(rows: map<int, SourceRow>, id: int, user: Option<int>): (r: Lookup)
    ensures r.Found? <==> id in rows && rows[id].owner.Some? && rows[id].owner == user
    ensures r.Found? ==> r.row == rows[id] && r.row.owner == user
    ensures r.LookupThrew? <==> id in rows && rows[id].owner.None?
  {
    if id !in rows then NotFound
    else if rows[id].owner.None? then LookupThrew
    else if rows[id].owner == user then Found(rows[id])
    else NotFound
  }
}
