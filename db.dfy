/**
 * The SQL-building part of the database layer: the row shape `get_servers` lists, the
 * record `add_server` hands back, and the statement `update_server` issues. The sqlite
 * I/O itself is not modelled: the number of rows an UPDATE changed is a parameter.
 */
module DB {
  import opened Wrappers
  import opened Remote

  /** A JSON value as a request body carries it and the handlers pass it on to sqlite. */
  datatype Value =
    | Null | Bool(b: bool) | Int(i: int) | Real(x: real) | Str(s: string)
    | List(items: seq<Value>) | Dict(entries: seq<(string, Value)>)

  /** Python truthiness of such a value: false, zero and the empty text or container are false. */
  predicate IsTruthy(v: Value)
  {
    match v
    case Null => false
    case Bool(b) => b
    case Int(i) => i != 0
    case Real(x) => x != 0.0
    case Str(s) => s != ""
    case List(items) => items != []
    case Dict(entries) => entries != []
  }

  /** A dictionary, as the (key, value) pairs in insertion order. */
  type Object = seq<(string, Value)>

  /** `key in d`. */
  predicate Has(d: Object, key: string)
  {
    exists i :: 0 <= i < |d| && d[i].0 == key
  }

  /** `d.get(key, default)`. */
  function GetOr(d: Object, key: string, default: Value): (v: Value)
    ensures !Has(d, key) ==> v == default
    ensures Has(d, key) ==> exists i :: 0 <= i < |d| && d[i] == (key, v)
  {
    if d == [] then default
    else if d[0].0 == key then d[0].1
    else
      var v := GetOr(d[1..], key, default);
      assert Has(d, key) ==> Has(d[1..], key) by {
        if Has(d, key) {
          var i :| 0 <= i < |d| && d[i].0 == key;
          assert i != 0 && d[1..][i - 1].0 == key;
        }
      }
      assert forall i :: 0 <= i < |d| - 1 ==> d[1..][i] == d[i + 1];
      v
  }

  /** A row of `SELECT id, name, hostname, username, port FROM servers`: no credentials. */
  datatype ServerRow = ServerRow(id: ServerId, name: string, hostname: string, username: string, port: Value)

  // ---------------------------------------------------------------- add_server

  /** The columns of the record add_server returns. */
  const RecordColumns: set<string> := {"id", "name", "hostname", "username", "port"}

  /**
   * add_server's return value for the fresh id it drew: the stored identity and port, and
   * neither the password nor the key path it was given.
   */
  function AddServerRecord(freshId: ServerId, name: Value, hostname: Value, username: Value,
                           password: Value, keyPath: Value, port: Value): (rec: map<string, Value>)
    ensures rec.Keys == RecordColumns
    ensures "password" !in rec && "key_path" !in rec
    ensures rec["id"] == Str(freshId) && rec["name"] == name && rec["hostname"] == hostname
    ensures rec["username"] == username && rec["port"] == port
  {
    map["id" := Str(freshId), "name" := name, "hostname" := hostname, "username" := username, "port" := port]
  }

  /** The record does not depend on the credentials at all. */
  lemma AddServerRecordHidesCredentials(freshId: ServerId, name: Value, hostname: Value, username: Value,
                                        p1: Value, k1: Value, p2: Value, k2: Value, port: Value)
    ensures AddServerRecord(freshId, name, hostname, username, p1, k1, port)
         == AddServerRecord(freshId, name, hostname, username, p2, k2, port)
  {
  }

  // ---------------------------------------------------------------- update_server

  /** The columns update_server lets a caller set. */
  const ValidFields: set<string> := {"name", "hostname", "username", "password", "key_path", "port"}

  /** The keyword arguments whose name is a settable column, in their order. */
  function Kept(kwargs: Object): (kept: Object)
    ensures forall i :: 0 <= i < |kept| ==> kept[i].0 in ValidFields
    ensures forall kv :: kv in kept <==> kv in kwargs && kv.0 in ValidFields
    ensures |kept| <= |kwargs|
  {
    if kwargs == [] then []
    else
      assert forall kv :: kv in kwargs <==> kv == kwargs[0] || kv in kwargs[1..];
      (if kwargs[0].0 in ValidFields then [kwargs[0]] else []) + Kept(kwargs[1..])
  }

  /** Filtering keeps the order: it distributes over concatenation. */
  lemma {:induction false} KeptAppend(a: Object, b: Object)
    ensures Kept(a + b) == Kept(a) + Kept(b)
  {
    if a != [] {
      assert (a + b)[0] == a[0] && (a + b)[1..] == a[1..] + b;
      KeptAppend(a[1..], b);
    } else {
      assert a + b == b;
    }
  }

  /** With no settable column among the arguments nothing is kept, and otherwise something is. */
  lemma KeptEmptyIff(kwargs: Object)
    ensures Kept(kwargs) == [] <==> forall i :: 0 <= i < |kwargs| ==> kwargs[i].0 !in ValidFields
  {
    if Kept(kwargs) == [] {
      forall i | 0 <= i < |kwargs| ensures kwargs[i].0 !in ValidFields {
        assert kwargs[i] in kwargs;
      }
    } else {
      assert Kept(kwargs)[0] in Kept(kwargs);
    }
  }

  function Names(d: Object): (names: seq<string>)
    ensures |names| == |d| && forall i :: 0 <= i < |d| ==> names[i] == d[i].0
  {
    seq(|d|, i requires 0 <= i < |d| => d[i].0)
  }

  function Values(d: Object): (values: seq<Value>)
    ensures |values| == |d| && forall i :: 0 <= i < |d| ==> values[i] == d[i].1
  {
    seq(|d|, i requires 0 <= i < |d| => d[i].1)
  }

  /** One assignment of the SET clause. */
  function Assignment(field: string): string
  {
    field + " = ?"
  }

  /** The SET clause: the fields' assignments joined by ", ". */
  function SetClause(fields: seq<string>): string
  {
    if fields == [] then ""
    else if |fields| == 1 then Assignment(fields[0])
    else Assignment(fields[0]) + ", " + SetClause(fields[1..])
  }

  /** An UPDATE statement and the parameters bound to its placeholders. */
  datatype Statement = Statement(sql: string, params: seq<Value>)

  const UpdateHead: string := "UPDATE servers SET "
  const WhereId: string := " WHERE id = "

  /** The UPDATE statement for a SET clause; the trailing `?` takes the server id. */
  function UpdateSql(setClause: string): string
  {
    UpdateHead + setClause + (WhereId + "?")
  }

  /**
   * update_server: with no settable column among the arguments nothing is issued and the
   * answer is false; otherwise the kept columns are set, in the arguments' order, from their
   * values followed by the server id, and the answer is whether a row changed. `failure` is
   * the text of the exception sqlite raises when it rejects the statement (a null for a
   * NOT NULL column, a value it cannot bind); it then propagates as `raised`.
   */
  method UpdateServer(serverId: ServerId, kwargs: Object, rowcount: nat, failure: Option<string>)
    returns (updated: bool, issued: Option<Statement>, raised: Option<string>)
    ensures Kept(kwargs) == [] ==> !updated && issued.None? && raised.None?
    ensures Kept(kwargs) != [] ==>
      && issued == Some(Statement(UpdateSql(SetClause(Names(Kept(kwargs)))), Values(Kept(kwargs)) + [Str(serverId)]))
      && raised == failure
      && (updated <==> failure.None? && rowcount > 0)
  {
    var updateFields := Kept(kwargs);
    if updateFields == [] {
      return false, None, None;
    }
    var setClause := SetClause(Names(updateFields));
    var values := Values(updateFields);
    values := values + [Str(serverId)];
    issued := Some(Statement(UpdateSql(setClause), values));
    if failure.Some? {
      return false, issued, failure;
    }
    updated := rowcount > 0;
    raised := None;
  }

  // ---------------------------------------------------------------- placeholders

  /** How many times `c` occurs in `s`. */
  function Occurrences(s: string, c: char): nat
  {
    multiset(s)[c]
  }

  lemma OccurrencesAbsent(s: string, c: char)
    requires c !in s
    ensures Occurrences(s, c) == 0
  {
  }

  lemma OccurrencesAppend(a: string, b: string, c: char)
    ensures Occurrences(a + b, c) == Occurrences(a, c) + Occurrences(b, c)
  {
  }

  /** No column name holds a placeholder character. */
  lemma NoPlaceholderInColumn(f: string)
    requires f in ValidFields
    ensures Occurrences(f, '?') == 0
  {
    assert '?' !in f;
    OccurrencesAbsent(f, '?');
  }

  /** An assignment to a column holds exactly one placeholder. */
  lemma AssignmentPlaceholder(f: string)
    requires '?' !in f
    ensures Occurrences(Assignment(f), '?') == 1
  {
    OccurrencesAbsent(f, '?');
    assert " = ?" == " = " + ['?'];
    assert Assignment(f) == f + " = " + ['?'];
    OccurrencesAbsent(" = ", '?');
    OccurrencesAppend(f, " = ", '?');
    OccurrencesAppend(f + " = ", ['?'], '?');
  }

  /** Each column contributes exactly one placeholder to the SET clause. */
  lemma {:induction false} SetClausePlaceholders(fields: seq<string>)
    requires forall i :: 0 <= i < |fields| ==> '?' !in fields[i]
    ensures Occurrences(SetClause(fields), '?') == |fields|
  {
    if fields != [] {
      AssignmentPlaceholder(fields[0]);
      if |fields| > 1 {
        var rest := SetClause(fields[1..]);
        SetClausePlaceholders(fields[1..]);
        OccurrencesAbsent(", ", '?');
        OccurrencesAppend(Assignment(fields[0]), ", ", '?');
        OccurrencesAppend(Assignment(fields[0]) + ", ", rest, '?');
      }
    }
  }

  /** Text free of `c` around a part, and one `c` at the end. */
  lemma Framed(head: string, part: string, tail: string, c: char)
    requires c !in head && c !in tail
    ensures Occurrences(head + part + (tail + [c]), c) == Occurrences(part, c) + 1
  {
    OccurrencesAbsent(head, c);
    OccurrencesAbsent(tail, c);
    OccurrencesAppend(head, part, c);
    OccurrencesAppend(tail, [c], c);
    OccurrencesAppend(head + part, tail + [c], c);
  }

  /** The UPDATE statement has one placeholder more than its SET clause: the id's. */
  lemma UpdateSqlPlaceholders(setClause: string)
    ensures Occurrences(UpdateSql(setClause), '?') == Occurrences(setClause, '?') + 1
  {
    FixedTextFree();
    Framed(UpdateHead, setClause, WhereId, '?');
  }

  /** The fixed parts of the statement hold no placeholder. */
  lemma FixedTextFree()
    ensures '?' !in UpdateHead && '?' !in WhereId
  {
  }

  /**
   * The statement update_server issues is well formed: it names only settable columns, and it
   * has as many placeholders as parameters, the last of which is the server id.
   */
  lemma UpdatePlaceholdersMatch(serverId: ServerId, kwargs: Object)
    requires Kept(kwargs) != []
    ensures var s := Statement(UpdateSql(SetClause(Names(Kept(kwargs)))), Values(Kept(kwargs)) + [Str(serverId)]);
      && Occurrences(s.sql, '?') == |s.params|
      && s.params[|s.params| - 1] == Str(serverId)
      && forall f :: f in Names(Kept(kwargs)) ==> f in ValidFields
  {
    var kept := Kept(kwargs);
    var names := Names(kept);
    NamesValid(kept);
    forall i | 0 <= i < |names| ensures '?' !in names[i] {
      NoPlaceholderInColumn(names[i]);
    }
    SetClausePlaceholders(names);
    UpdateSqlPlaceholders(SetClause(names));
  }

  /** The names of the kept arguments are settable columns. */
  lemma NamesValid(kept: Object)
    requires forall i :: 0 <= i < |kept| ==> kept[i].0 in ValidFields
    ensures forall i :: 0 <= i < |Names(kept)| ==> Names(kept)[i] in ValidFields
    ensures forall f :: f in Names(kept) ==> f in ValidFields
  {
  }
}
