/** The cache-aside resource pattern that every router of the back end
    repeats: GET by key through the Redis cache, PATCH guarded by an
    allow-list and built into one `UPDATE`, DELETE, and INSERT, each followed
    by the cache invalidation its handler performs. One `Resource` stands for
    one router; all of them share the one `Cache`. */
module Store {
  import opened Api
  import opened Text

  /** A table row: column name to value. */
  type Row = map<string, JsValue>

  /** `EX: 60 * 5`: cached rows live five minutes. */
  const TTL: int := 60 * 5

  /** A cached row and the moment (in seconds) at which Redis drops it. */
  datatype Entry = Entry(row: Row, expiresAt: int)

  /** The cache key of a resource: `<prefix>:<key>`. */
  function CacheKey(prefix: string, key: string): string
  {
    prefix + ":" + key
  }

  /** The one Redis connection every router shares. */
  class Cache {
    var entries: map<string, Entry>

    constructor ()
      ensures entries == map[]
    {
      entries := map[];
    }

    /** `redis.get(key)` at time `now`: an entry past its deadline reads as absent. */
    function Lookup(key: string, now: int): Option<Row>
      reads this
    {
      if key in entries && now < entries[key].expiresAt then Some(entries[key].row) else None
    }
  }

  /** What differs between the routers. */
  datatype Schema = Schema(
    table: string,         // SQL table
    keyColumn: string,     // primary-key column of the WHERE clauses
    prefix: string,        // cache-key prefix of GET and PATCH
    allowed: seq<string>,  // columns PATCH may set
    deletePrefix: string)  // cache-key prefix the DELETE handler invalidates

  /** A schema whose names carry no `?` and whose key column cannot be patched. */
  predicate WellFormed(s: Schema)
  {
    && '?' !in s.table && '?' !in s.keyColumn
    && (forall k :: k in s.allowed ==> '?' !in k)
    && s.keyColumn !in s.allowed
  }

  /** A statement sent to MySQL. */
  datatype Sql =
    | SelectRow(key: string)
    | UpdateRow(text: string, params: seq<JsValue>)
    | DeleteRow(key: string)
    | InsertRow(key: string, params: seq<JsValue>)

  // ------------------------------------------------------------ PATCH guard

  /** The key the PATCH guard reports: the first entry outside the allow-list. */
  function FirstOutside(body: Body, allowed: seq<string>): (r: Option<string>)
    ensures r == None <==> forall i :: 0 <= i < |body| ==> body[i].0 in allowed
    ensures r.Some? ==> r.value !in allowed
    ensures r.Some? ==> exists i :: 0 <= i < |body| && body[i].0 == r.value
                                    && forall j :: 0 <= j < i ==> body[j].0 in allowed
  {
    if body == [] then None
    else if body[0].0 !in allowed then Some(body[0].0)
    else
      var r := FirstOutside(body[1..], allowed);
      assert r.Some? ==> exists i :: 0 <= i < |body| && body[i].0 == r.value
                          && forall j :: 0 <= j < i ==> body[j].0 in allowed by {
        if r.Some? {
          var i :| 0 <= i < |body| - 1 && body[1..][i].0 == r.value
                   && forall j :: 0 <= j < i ==> body[1..][j].0 in allowed;
          assert forall j :: 0 <= j < i + 1 ==> body[j].0 in allowed by {
            forall j | 0 <= j < i + 1 ensures body[j].0 in allowed {
              if j > 0 { assert body[j] == body[1..][j - 1]; }
            }
          }
        }
      }
      r
  }

  /** The first loop of the PATCH handlers: stop at the first key outside
      the allow-list. */
  method CheckAllowed(body: Body, allowed: seq<string>) returns (bad: Option<string>)
    ensures bad == FirstOutside(body, allowed)
  {
    var i := 0;
    while i < |body|
      invariant 0 <= i <= |body|
      invariant FirstOutside(body, allowed) == FirstOutside(body[i..], allowed)
    {
      assert body[i..][1..] == body[i + 1..];
      if body[i].0 !in allowed {
        return Some(body[i].0);
      }
      i := i + 1;
    }
    return None;
  }

  // ------------------------------------------------------------ PATCH statement

  /** `${key} = ?` */
  function Clause(key: string): string
  {
    key + " = ?"
  }

  function Clauses(body: Body): (cs: seq<string>)
    ensures |cs| == |body|
  {
    if body == [] then [] else [Clause(body[0].0)] + Clauses(body[1..])
  }

  /** The submitted values, `undefined` sent as `null`. */
  function Values(body: Body): (vs: seq<JsValue>)
    ensures |vs| == |body|
  {
    if body == [] then [] else [Nullish(body[0].1)] + Values(body[1..])
  }

  /** `fields.join(sep)` */
  function Join(parts: seq<string>, sep: string): string
  {
    if parts == [] then ""
    else if |parts| == 1 then parts[0]
    else parts[0] + sep + Join(parts[1..], sep)
  }

  /** `UPDATE <table> SET ${fields.join(', ')} WHERE <key> = ?` */
  function UpdateSql(s: Schema, fields: seq<string>): string
  {
    "UPDATE " + s.table + " SET " + Join(fields, ", ") + " WHERE " + s.keyColumn + " = ?"
  }

  /** The second loop of the PATCH handlers: one clause and one value per
      entry, in entry order, then the key as the value of the WHERE clause. */
  method BuildAssignments(body: Body, key: string) returns (fields: seq<string>, values: seq<JsValue>)
    ensures |fields| == |body| && |values| == |body| + 1
    ensures forall i :: 0 <= i < |body| ==> fields[i] == Clause(body[i].0) && values[i] == Nullish(body[i].1)
    ensures values[|body|] == Str(key)
    ensures fields == Clauses(body) && values == Values(body) + [Str(key)]
  {
    fields, values := [], [];
    for i := 0 to |body|
      invariant |fields| == i && |values| == i
      invariant forall j :: 0 <= j < i ==> fields[j] == Clause(body[j].0) && values[j] == Nullish(body[j].1)
    {
      fields := fields + [Clause(body[i].0)];
      values := values + [Nullish(body[i].1)];
    }
    values := values + [Str(key)];
    ElementwiseClauses(body, fields);
    ElementwiseValues(body, values[..|body|]);
    assert values == values[..|body|] + [Str(key)];
  }

  lemma {:induction false} ElementwiseClauses(body: Body, fields: seq<string>)
    requires |fields| == |body|
    requires forall i :: 0 <= i < |body| ==> fields[i] == Clause(body[i].0)
    ensures fields == Clauses(body)
  {
    if body != [] {
      ElementwiseClauses(body[1..], fields[1..]);
      assert fields == [fields[0]] + fields[1..];
    }
  }

  lemma {:induction false} ElementwiseValues(body: Body, values: seq<JsValue>)
    requires |values| == |body|
    requires forall i :: 0 <= i < |body| ==> values[i] == Nullish(body[i].1)
    ensures values == Values(body)
  {
    if body != [] {
      ElementwiseValues(body[1..], values[1..]);
      assert values == [values[0]] + values[1..];
    }
  }

  // ------------------------------------------------------------ placeholders

  /** The number of `?` placeholders in a statement. */
  function Placeholders(s: string): nat
  {
    if s == [] then 0 else (if s[0] == '?' then 1 else 0) + Placeholders(s[1..])
  }

  lemma {:induction false} PlaceholdersConcat(a: string, b: string)
    ensures Placeholders(a + b) == Placeholders(a) + Placeholders(b)
  {
    if a == [] {
      assert a + b == b;
    } else {
      assert (a + b)[1..] == a[1..] + b;
      PlaceholdersConcat(a[1..], b);
    }
  }

  lemma {:induction false} NoPlaceholders(s: string)
    requires '?' !in s
    ensures Placeholders(s) == 0
  {
    if s != [] {
      assert s[0] in s;
      assert forall c :: c in s[1..] ==> c in s;
      NoPlaceholders(s[1..]);
    }
  }

  lemma ClausePlaceholders(key: string)
    requires '?' !in key
    ensures Placeholders(Clause(key)) == 1
  {
    PlaceholdersConcat(key, " = ?");
    NoPlaceholders(key);
    assert " = ?" == [' '] + "= ?";
    assert "= ?" == ['='] + " ?";
    assert " ?" == [' '] + "?";
    assert "?"[1..] == "";
  }

  lemma {:induction false} JoinPlaceholders(body: Body)
    requires forall i :: 0 <= i < |body| ==> '?' !in body[i].0
    ensures Placeholders(Join(Clauses(body), ", ")) == |body|
  {
    if body != [] {
      ClausePlaceholders(body[0].0);
      if |body| > 1 {
        JoinPlaceholders(body[1..]);
        var cs := Clauses(body);
        assert cs[1..] == Clauses(body[1..]);
        PlaceholdersConcat(cs[0] + ", ", Join(cs[1..], ", "));
        PlaceholdersConcat(cs[0], ", ");
        NoPlaceholders(", ");
      }
    }
  }

  /** The text around the SET list: no `?` before it, one after it. */
  lemma AroundPlaceholders(s: Schema)
    requires WellFormed(s)
    ensures Placeholders("UPDATE " + s.table + " SET ") == 0
    ensures Placeholders(" WHERE " + s.keyColumn + " = ?") == 1
  {
    assert '?' !in "UPDATE " && '?' !in " SET " && '?' !in " WHERE ";
    NoPlaceholders("UPDATE " + s.table + " SET ");
    NoPlaceholders(" WHERE " + s.keyColumn);
    PlaceholdersConcat(" WHERE " + s.keyColumn, " = ?");
    ClausePlaceholders("");
    assert Clause("") == " = ?";
  }

  /** An accepted PATCH sends a statement with exactly as many placeholders
      as values: one per submitted key, plus the key of the WHERE clause. */
  lemma UpdatePlaceholders(s: Schema, body: Body, key: string)
    requires WellFormed(s)
    requires FirstOutside(body, s.allowed) == None
    ensures Placeholders(UpdateSql(s, Clauses(body))) == |Values(body) + [Str(key)]| == |body| + 1
  {
    var pre := "UPDATE " + s.table + " SET ";
    var j := Join(Clauses(body), ", ");
    var post := " WHERE " + s.keyColumn + " = ?";
    assert UpdateSql(s, Clauses(body)) == pre + j + post;
    JoinPlaceholders(body);
    AroundPlaceholders(s);
    PlaceholdersConcat(pre + j, post);
    PlaceholdersConcat(pre, j);
  }

  // ------------------------------------------------------------ row effects

  /** The row after `UPDATE ... SET k1 = ?, k2 = ?, ...`: left to right. */
  function Assign(row: Row, body: Body): Row
    decreases |body|
  {
    if body == [] then row else Assign(row[body[0].0 := Nullish(body[0].1)], body[1..])
  }

  /** A column the body does not name keeps its value. */
  lemma {:induction false} AssignKeeps(row: Row, body: Body, c: string)
    requires c !in Keys(body)
    ensures c in Assign(row, body) <==> c in row
    ensures c in row ==> Assign(row, body)[c] == row[c]
    decreases |body|
  {
    if body != [] {
      assert Keys(body) == [body[0].0] + Keys(body[1..]);
      AssignKeeps(row[body[0].0 := Nullish(body[0].1)], body[1..], c);
    }
  }

  predicate DistinctKeys(body: Body)
  {
    forall i, j :: 0 <= i < j < |body| ==> body[i].0 != body[j].0
  }

  /** A column the body names gets the submitted value, `undefined` as null
      (the keys of a parsed JSON object are distinct). */
  lemma {:induction false} AssignSets(row: Row, body: Body, c: string)
    requires DistinctKeys(body)
    requires c in Keys(body)
    ensures c in Assign(row, body) && Assign(row, body)[c] == Nullish(Field(body, c))
    decreases |body|
  {
    assert Keys(body) == [body[0].0] + Keys(body[1..]);
    if body[0].0 == c {
      assert c !in Keys(body[1..]) by {
        forall i | 0 <= i < |body| - 1 ensures body[1..][i].0 != c {
          assert body[1..][i] == body[i + 1];
        }
      }
      AssignKeeps(row[c := Nullish(body[0].1)], body[1..], c);
    } else {
      AssignSets(row[body[0].0 := Nullish(body[0].1)], body[1..], c);
    }
  }

  /** The primary key can never be patched: no allow-list holds it. */
  lemma KeyNeverPatched(s: Schema, row: Row, body: Body)
    requires WellFormed(s)
    requires FirstOutside(body, s.allowed) == None
    requires s.keyColumn in row
    ensures s.keyColumn in Assign(row, body) && Assign(row, body)[s.keyColumn] == row[s.keyColumn]
  {
    AssignKeeps(row, body, s.keyColumn);
  }

  /** The row an INSERT stores: each column with its value. */
  function RowOf(columns: seq<string>, params: seq<JsValue>): (r: Row)
    requires |columns| == |params|
    ensures forall c :: c in r <==> c in columns
  {
    if columns == [] then map[] else RowOf(columns[1..], params[1..])[columns[0] := params[0]]
  }

  /** With distinct column names, each column holds its own parameter. */
  lemma {:induction false} RowOfAt(columns: seq<string>, params: seq<JsValue>, i: nat)
    requires |columns| == |params| && i < |columns|
    requires forall j, k :: 0 <= j < k < |columns| ==> columns[j] != columns[k]
    ensures RowOf(columns, params)[columns[i]] == params[i]
  {
    if i > 0 {
      RowOfAt(columns[1..], params[1..], i - 1);
    }
  }

  // ------------------------------------------------------------ one router

  class Resource {
    const schema: Schema
    const cache: Cache
    var table: map<string, Row>
    /** The statements this router has sent to MySQL. */
    ghost var log: seq<Sql>

    constructor (schema: Schema, cache: Cache, table: map<string, Row>)
      ensures this.schema == schema && this.cache == cache && this.table == table && log == []
    {
      this.schema := schema;
      this.cache := cache;
      this.table := table;
      log := [];
    }

    /** GET /:key: a live cache entry is served without touching MySQL; on
        a miss a found row is cached for five minutes, a missing one is 404
        and leaves the cache alone. */
    method Get(key: string, now: int) returns (r: Reply)
      modifies this`log, cache
      ensures table == old(table)
      ensures var k := CacheKey(schema.prefix, key);
        var hit := old(cache.Lookup(k, now));
        if hit.Some? then
          r == Ok(Some(hit.value)) && cache.entries == old(cache.entries) && log == old(log)
        else
          && log == old(log) + [SelectRow(key)]
          && (key in table ==> r == Ok(Some(table[key]))
                               && cache.entries == old(cache.entries)[k := Entry(table[key], now + TTL)])
          && (key !in table ==> r == NotFound && cache.entries == old(cache.entries))
    {
      var k := CacheKey(schema.prefix, key);
      var hit := cache.Lookup(k, now);
      if hit.Some? {
        return Ok(Some(hit.value));
      }
      log := log + [SelectRow(key)];
      if key !in table {
        return NotFound;
      }
      var row := table[key];
      cache.entries := cache.entries[k := Entry(row, now + TTL)];
      return Ok(Some(row));
    }

    /** PATCH /:key: an empty body or a key outside the allow-list is 400
        and changes nothing; otherwise one UPDATE is sent, zero matched rows
        is 404 with the cache untouched, and success drops `<prefix>:<key>`. */
    method Patch(key: string, body: Body) returns (r: Reply)
      modifies this`table, this`log, cache
      ensures body == [] ==> r == BadRequest(EmptyBody)
      ensures body != [] && FirstOutside(body, schema.allowed).Some? ==>
                r == BadRequest(FieldNotAllowed(FirstOutside(body, schema.allowed).value))
      ensures r.BadRequest? ==> table == old(table) && cache.entries == old(cache.entries) && log == old(log)
      ensures body != [] && FirstOutside(body, schema.allowed) == None ==>
                log == old(log) + [UpdateRow(UpdateSql(schema, Clauses(body)), Values(body) + [Str(key)])]
      ensures body != [] && FirstOutside(body, schema.allowed) == None && key !in old(table) ==>
                r == NotFound && table == old(table) && cache.entries == old(cache.entries)
      ensures body != [] && FirstOutside(body, schema.allowed) == None && key in old(table) ==>
                && r == Ok(None)
                && table == old(table)[key := Assign(old(table)[key], body)]
                && cache.entries == old(cache.entries) - {CacheKey(schema.prefix, key)}
    {
      if body == [] {
        return BadRequest(EmptyBody);
      }
      var bad := CheckAllowed(body, schema.allowed);
      if bad.Some? {
        return BadRequest(FieldNotAllowed(bad.value));
      }
      var fields, values := BuildAssignments(body, key);
      log := log + [UpdateRow(UpdateSql(schema, fields), values)];
      if key !in table {
        return NotFound;
      }
      table := table[key := Assign(table[key], body)];
      cache.entries := cache.entries - {CacheKey(schema.prefix, key)};
      return Ok(None);
    }

    /** DELETE /:key: zero deleted rows is 404 with the cache untouched;
        success drops `<deletePrefix>:<key>`. */
    method Delete(key: string) returns (r: Reply)
      modifies this`table, this`log, cache
      ensures log == old(log) + [DeleteRow(key)]
      ensures key !in old(table) ==> r == NotFound && table == old(table) && cache.entries == old(cache.entries)
      ensures key in old(table) ==>
                && r == Ok(None)
                && table == old(table) - {key}
                && cache.entries == old(cache.entries) - {CacheKey(schema.deletePrefix, key)}
    {
      log := log + [DeleteRow(key)];
      if key !in table {
        return NotFound;
      }
      table := table - {key};
      cache.entries := cache.entries - {CacheKey(schema.deletePrefix, key)};
      return Ok(None);
    }

    /** POST: `INSERT ... VALUES (?, ...)`. The driver refuses an undefined
        parameter and MySQL a duplicate key (both 500); otherwise the row is
        stored and the reply is 201. The cache is never touched. */
    method Insert(key: string, columns: seq<string>, params: seq<JsValue>) returns (r: Reply)
      requires |columns| == |params|
      modifies this`table, this`log
      ensures Undefined in params ==> r == ServerError && table == old(table) && log == old(log)
      ensures Undefined !in params ==> log == old(log) + [InsertRow(key, params)]
      ensures Undefined !in params && key in old(table) ==> r == ServerError && table == old(table)
      ensures Undefined !in params && key !in old(table) ==>
                r == Created(None) && table == old(table)[key := RowOf(columns, params)]
    {
      if Undefined in params {
        return ServerError;
      }
      log := log + [InsertRow(key, params)];
      if key in table {
        return ServerError;
      }
      table := table[key := RowOf(columns, params)];
      return Created(None);
    }
  }

  // ------------------------------------------------------------ consequences

  /** A read that misses the cache and finds the row populates it, so a
      second read within the five minutes returns the same data without
      reaching MySQL; a read that finds nothing caches nothing. */
  method RepeatedGet(res: Resource, key: string, now: int, later: int) returns (first: Reply, second: Reply)
    requires now <= later < now + TTL
    requires res.cache.Lookup(CacheKey(res.schema.prefix, key), now) == None
    modifies res`log, res.cache
    ensures second == first
    ensures first.Ok? ==> res.log == old(res.log) + [SelectRow(key)]
    ensures first == NotFound ==> res.log == old(res.log) + [SelectRow(key), SelectRow(key)]
  {
    first := res.Get(key, now);
    second := res.Get(key, later);
  }

  /** Creating a row whose key has no live cache entry makes the next GET
      return exactly the submitted columns. */
  method CreateThenGet(res: Resource, key: string, columns: seq<string>, params: seq<JsValue>, now: int)
      returns (created: Reply, got: Reply)
    requires |columns| == |params|
    requires Undefined !in params && key !in res.table
    requires res.cache.Lookup(CacheKey(res.schema.prefix, key), now) == None
    modifies res`table, res`log, res.cache
    ensures created == Created(None)
    ensures got == Ok(Some(RowOf(columns, params)))
  {
    created := res.Insert(key, columns, params);
    got := res.Get(key, now);
  }

  /** For a router whose DELETE drops its own cache key, a successful delete
      makes the next GET report 404, however recently the row was cached. */
  method DeleteThenGet(res: Resource, key: string, now: int) returns (deleted: Reply, got: Reply)
    requires res.schema.deletePrefix == res.schema.prefix
    modifies res`table, res`log, res.cache
    ensures deleted == Ok(None) <==> key in old(res.table)
    ensures deleted == Ok(None) ==> got == NotFound
    ensures key !in res.table
  {
    deleted := res.Delete(key);
    got := res.Get(key, now);
  }
}
