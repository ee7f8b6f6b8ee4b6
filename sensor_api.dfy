/**
  The SQL that the sensor API's handlers (app/main.py) build before handing it
  to SQLite: the sensor-type whitelist check, then a query string grown clause by
  clause together with its list of bind parameters. Execution is not modelled;
  a handler's result is the statement it would execute, or the early answer it
  gives instead.
 */
module SensorApi {
  import opened Wrappers
  import opened Clock

  /** `SENSOR_TYPES`: the only names ever interpolated into a query as a table. */
  const SensorTypes: set<string> := {"temperature", "humidity", "light"}

  /** A bind parameter, in the type the handler passes it. */
  datatype Param = Text(s: string) | Real(r: real) | Int(i: int)

  datatype Response =
    | NotFound                                   // 404 {"error": "Invalid sensor type"}
    | NoUpdates                                  // {"message": "No updates provided"}
    | Query(sql: string, params: seq<Param>)     // the statement handed to `cursor.execute`

  /** Python truthiness of an optional string query parameter: present and non-empty. */
  predicate Given(o: Option<string>)
  {
    o.Some? && o.value != ""
  }

  /** Number of `?` placeholders in a statement. */
  function Placeholders(s: string): nat
    decreases |s|
  {
    if |s| == 0 then 0 else Placeholders(s[..|s| - 1]) + (if s[|s| - 1] == '?' then 1 else 0)
  }

  /** Text with no placeholder in it. */
  predicate MarkFree(s: string)
  {
    forall i :: 0 <= i < |s| ==> s[i] != '?'
  }

  lemma {:induction false} PlaceholdersConcat(a: string, b: string)
    ensures Placeholders(a + b) == Placeholders(a) + Placeholders(b)
    decreases |b|
  {
    if |b| == 0 {
      assert a + b == a;
    } else {
      assert (a + b)[..|a + b| - 1] == a + b[..|b| - 1];
      PlaceholdersConcat(a, b[..|b| - 1]);
    }
  }

  lemma {:induction false} MarkFreeHasNone(s: string)
    requires MarkFree(s)
    ensures Placeholders(s) == 0
    decreases |s|
  {
    if |s| > 0 {
      MarkFreeHasNone(s[..|s| - 1]);
    }
  }

  /** SQLite's qmark-style bind placeholder; every clause below spells its `?` with it. */
  const Mark: string := "?"

  lemma MarkIsOne()
    ensures Placeholders(Mark) == 1
  {
    assert Mark[..0] == "";
  }

  /** Placeholder-free text followed by one placeholder holds exactly one. */
  lemma OneMark(text: string)
    requires MarkFree(text)
    ensures Placeholders(text + Mark) == 1
  {
    MarkFreeHasNone(text);
    MarkIsOne();
    PlaceholdersConcat(text, Mark);
  }

  /** The whitelisted table names contain no placeholder. */
  lemma TableHasNone(sensorType: string)
    requires sensorType in SensorTypes
    ensures Placeholders(sensorType) == 0
  {
    assert MarkFree("temperature") && MarkFree("humidity") && MarkFree("light");
    MarkFreeHasNone(sensorType);
  }

  /** The clause texts of app/main.py that carry placeholders. */
  const StartCondition: string := "timestamp >= " + Mark
  const EndCondition: string := "timestamp <= " + Mark
  const IdFilter: string := " WHERE id = " + Mark
  const InsertColumns: string := " (value, unit, timestamp) VALUES (" + Mark + ", " + Mark + ", " + Mark + ")"
  const SetValue: string := "value = " + Mark
  const SetUnit: string := "unit = " + Mark
  const SetTimestamp: string := "timestamp = " + Mark

  /** Each date condition binds one parameter. */
  lemma ConditionPlaceholders()
    ensures Placeholders(StartCondition) == 1 && Placeholders(EndCondition) == 1
  {
    assert MarkFree("timestamp >= ");
    OneMark("timestamp >= ");
    assert MarkFree("timestamp <= ");
    OneMark("timestamp <= ");
  }

  /** The id filter binds one parameter. */
  lemma IdFilterPlaceholders()
    ensures Placeholders(IdFilter) == 1
  {
    assert MarkFree(" WHERE id = ");
    OneMark(" WHERE id = ");
  }

  /** The INSERT's value tuple binds three parameters. */
  lemma InsertColumnsPlaceholders()
    ensures Placeholders(InsertColumns) == 3
  {
    var head, comma := " (value, unit, timestamp) VALUES (", ", ";
    assert MarkFree(head) && MarkFree(comma) && MarkFree(")");
    OneMark(head);
    MarkIsOne();
    MarkFreeHasNone(comma);
    MarkFreeHasNone(")");
    PlaceholdersConcat(head + Mark, comma);
    PlaceholdersConcat(head + Mark + comma, Mark);
    PlaceholdersConcat(head + Mark + comma + Mark, comma);
    PlaceholdersConcat(head + Mark + comma + Mark + comma, Mark);
    PlaceholdersConcat(head + Mark + comma + Mark + comma + Mark, ")");
  }

  /** Each SET assignment binds one parameter. */
  lemma SetItemPlaceholders()
    ensures Placeholders(SetValue) == 1 && Placeholders(SetUnit) == 1 && Placeholders(SetTimestamp) == 1
  {
    assert MarkFree("value = ") && MarkFree("unit = ") && MarkFree("timestamp = ");
    OneMark("value = ");
    OneMark("unit = ");
    OneMark("timestamp = ");
  }

  /** `sep.join(parts)`. */
  function Join(sep: string, parts: seq<string>): string
  {
    if |parts| == 0 then "" else if |parts| == 1 then parts[0] else parts[0] + sep + Join(sep, parts[1..])
  }

  /** Joining single-placeholder clauses with a placeholder-free separator yields one `?` per clause. */
  lemma {:induction false} PlaceholdersJoin(sep: string, parts: seq<string>)
    requires Placeholders(sep) == 0
    requires forall i :: 0 <= i < |parts| ==> Placeholders(parts[i]) == 1
    ensures Placeholders(Join(sep, parts)) == |parts|
  {
    if |parts| == 0 {
      MarkFreeHasNone("");
    } else if |parts| > 1 {
      PlaceholdersJoin(sep, parts[1..]);
      PlaceholdersConcat(parts[0], sep);
      PlaceholdersConcat(parts[0] + sep, Join(sep, parts[1..]));
    }
  }

  /** The WHERE conditions of the listing query, in the order start, then end. */
  function DateConditions(startDate: Option<string>, endDate: Option<string>): seq<string>
  {
    (if Given(startDate) then [StartCondition] else []) + (if Given(endDate) then [EndCondition] else [])
  }

  /** The bind parameters of those conditions, in the same order. */
  function DateParams(startDate: Option<string>, endDate: Option<string>): seq<Param>
  {
    (if Given(startDate) then [Text(startDate.value)] else []) + (if Given(endDate) then [Text(endDate.value)] else [])
  }

  /**
    Conditions and parameters line up: one of each per non-empty bound, the
    start bound first, each condition next to the text it compares against.
   */
  lemma DatesPaired(startDate: Option<string>, endDate: Option<string>)
    ensures |DateConditions(startDate, endDate)| == |DateParams(startDate, endDate)|
              == (if Given(startDate) then 1 else 0) + (if Given(endDate) then 1 else 0)
    ensures Given(startDate) ==>
      DateConditions(startDate, endDate)[0] == StartCondition && DateParams(startDate, endDate)[0] == Text(startDate.value)
    ensures Given(endDate) ==>
      var n := |DateConditions(startDate, endDate)|;
      DateConditions(startDate, endDate)[n - 1] == EndCondition && DateParams(startDate, endDate)[n - 1] == Text(endDate.value)
  {
  }

  /** `" WHERE " + " AND ".join(conditions)`, only when there is a condition. */
  function WhereClause(conditions: seq<string>): string
  {
    if conditions == [] then "" else " WHERE " + Join(" AND ", conditions)
  }

  /** The accepted `order-by` values. */
  predicate Sortable(orderBy: Option<string>)
  {
    orderBy == Some("value") || orderBy == Some("timestamp")
  }

  function OrderClause(orderBy: Option<string>): string
  {
    if Sortable(orderBy) then " ORDER BY " + orderBy.value else ""
  }

  /** A placeholder-free keyword and a whitelisted table in front of `rest` add no placeholder. */
  lemma Prefixed(keyword: string, sensorType: string, rest: string)
    requires MarkFree(keyword) && sensorType in SensorTypes
    ensures Placeholders(keyword + sensorType + rest) == Placeholders(rest)
  {
    MarkFreeHasNone(keyword);
    TableHasNone(sensorType);
    PlaceholdersConcat(keyword, sensorType);
    PlaceholdersConcat(keyword + sensorType, rest);
  }

  /** The WHERE clause of the listing query binds one parameter per date bound. */
  lemma WherePlaceholders(startDate: Option<string>, endDate: Option<string>)
    ensures Placeholders(WhereClause(DateConditions(startDate, endDate))) == |DateParams(startDate, endDate)|
    ensures DateParams(startDate, endDate) == [] <==> WhereClause(DateConditions(startDate, endDate)) == ""
  {
    var conditions := DateConditions(startDate, endDate);
    if conditions == [] {
      MarkFreeHasNone("");
    } else {
      assert MarkFree(" AND ") && MarkFree(" WHERE ");
      MarkFreeHasNone(" AND ");
      MarkFreeHasNone(" WHERE ");
      ConditionPlaceholders();
      PlaceholdersJoin(" AND ", conditions);
      PlaceholdersConcat(" WHERE ", Join(" AND ", conditions));
    }
  }

  /** The ORDER BY clause binds nothing: its column comes from a fixed pair. */
  lemma OrderPlaceholders(orderBy: Option<string>)
    ensures Placeholders(OrderClause(orderBy)) == 0
  {
    assert MarkFree(" ORDER BY value") && MarkFree(" ORDER BY timestamp") && MarkFree("");
    MarkFreeHasNone(OrderClause(orderBy));
  }

  /** The listing query for a whitelisted table and the three optional query parameters. */
  function ListingQuery(sensorType: string, orderBy: Option<string>, startDate: Option<string>, endDate: Option<string>): string
  {
    ("SELECT * FROM " + sensorType + WhereClause(DateConditions(startDate, endDate))) + OrderClause(orderBy)
  }

  /** The listing query has one placeholder per date parameter it binds. */
  lemma ListingPlaceholders(sensorType: string, orderBy: Option<string>, startDate: Option<string>, endDate: Option<string>)
    requires sensorType in SensorTypes
    ensures Placeholders(ListingQuery(sensorType, orderBy, startDate, endDate)) == |DateParams(startDate, endDate)|
  {
    var where := WhereClause(DateConditions(startDate, endDate));
    WherePlaceholders(startDate, endDate);
    OrderPlaceholders(orderBy);
    assert MarkFree("SELECT * FROM ");
    Prefixed("SELECT * FROM ", sensorType, where);
    PlaceholdersConcat("SELECT * FROM " + sensorType + where, OrderClause(orderBy));
  }

  /**
    `GET /api/{sensor_type}`: `SELECT * FROM <table>`, then a WHERE clause with one
    condition per non-empty date bound (start before end), then an ORDER BY when
    `order-by` is `value` or `timestamp`; the parameters follow the conditions'
    order (ListingPlaceholders counts one `?` per parameter).
   */
  method GetSensorData(sensorType: string, orderBy: Option<string>, startDate: Option<string>, endDate: Option<string>)
    returns (r: Response)
    ensures r.NotFound? <==> sensorType !in SensorTypes
    ensures !r.NoUpdates?
    ensures r.Query? ==> r.sql == ListingQuery(sensorType, orderBy, startDate, endDate)
    ensures r.Query? ==> r.params == DateParams(startDate, endDate)
  {
    if sensorType !in SensorTypes {
      return NotFound;
    }
    var query := "SELECT * FROM " + sensorType;
    var conditions: seq<string> := [];
    var params: seq<Param> := [];
    if Given(startDate) {
      conditions := conditions + [StartCondition];
      params := params + [Text(startDate.value)];
    }
    if Given(endDate) {
      conditions := conditions + [EndCondition];
      params := params + [Text(endDate.value)];
    }
    assert conditions == DateConditions(startDate, endDate) && params == DateParams(startDate, endDate);
    ghost var base := query;
    if conditions != [] {
      query := query + (" WHERE " + Join(" AND ", conditions));
      assert query == base + WhereClause(conditions);
    } else {
      assert query == base + WhereClause(conditions);
    }
    ghost var filtered := query;
    if Sortable(orderBy) {
      query := query + (" ORDER BY " + orderBy.value);
      assert query == filtered + OrderClause(orderBy);
    } else {
      assert query == filtered + OrderClause(orderBy);
    }
    r := Query(query, params);
  }

  /** The timestamp an insert stores: the one supplied when it is non-empty, else the local time printed. */
  function StoredTimestamp(timestamp: Option<string>, now: DateTime): (ts: string)
    requires Fits(now)
    ensures Given(timestamp) ==> ts == timestamp.value
    ensures !Given(timestamp) ==> Parse(ts) == Some(now)
  {
    ParseFormat(now);
    if Given(timestamp) then timestamp.value else Format(now)
  }

  /**
    `POST /api/{sensor_type}`: one INSERT into the whitelisted table with the
    three parameters value, unit, timestamp in that order.
   */
  method InsertSensorData(sensorType: string, value: real, unit: string, timestamp: Option<string>, now: DateTime)
    returns (r: Response)
    requires Fits(now)
    ensures r.NotFound? <==> sensorType !in SensorTypes
    ensures !r.NoUpdates?
    ensures r.Query? ==> r.sql == "INSERT INTO " + sensorType + InsertColumns
    ensures r.Query? ==> r.params == [Real(value), Text(unit), Text(StoredTimestamp(timestamp, now))]
    ensures r.Query? ==> Placeholders(r.sql) == |r.params|
  {
    if sensorType !in SensorTypes {
      return NotFound;
    }
    var ts := if Given(timestamp) then timestamp.value else Format(now);
    var query := "INSERT INTO " + sensorType + InsertColumns;
    assert MarkFree("INSERT INTO ");
    MarkFreeHasNone("INSERT INTO ");
    TableHasNone(sensorType);
    InsertColumnsPlaceholders();
    PlaceholdersConcat("INSERT INTO ", sensorType);
    PlaceholdersConcat("INSERT INTO " + sensorType, InsertColumns);
    r := Query(query, [Real(value), Text(unit), Text(ts)]);
  }

  /** The assignments of the SET clause, one per supplied field, in the order value, unit, timestamp. */
  function SetItems(value: Option<real>, unit: Option<string>, timestamp: Option<string>): seq<string>
  {
    (if value.Some? then [SetValue] else [])
      + (if unit.Some? then [SetUnit] else [])
      + (if timestamp.Some? then [SetTimestamp] else [])
  }

  /** The parameters of those assignments, in the same order. */
  function SetParams(value: Option<real>, unit: Option<string>, timestamp: Option<string>): seq<Param>
  {
    (if value.Some? then [Real(value.value)] else [])
      + (if unit.Some? then [Text(unit.value)] else [])
      + (if timestamp.Some? then [Text(timestamp.value)] else [])
  }

  /**
    Assignments and parameters line up: one of each per supplied field, each
    assignment next to the value it sets, in the order `value`, `unit`, `timestamp`.
   */
  lemma SetItemsPaired(value: Option<real>, unit: Option<string>, timestamp: Option<string>)
    ensures |SetItems(value, unit, timestamp)| == |SetParams(value, unit, timestamp)|
              == (if value.Some? then 1 else 0) + (if unit.Some? then 1 else 0) + (if timestamp.Some? then 1 else 0)
    ensures forall i :: 0 <= i < |SetItems(value, unit, timestamp)| ==>
      || (SetItems(value, unit, timestamp)[i] == SetValue && value.Some? && SetParams(value, unit, timestamp)[i] == Real(value.value))
      || (SetItems(value, unit, timestamp)[i] == SetUnit && unit.Some? && SetParams(value, unit, timestamp)[i] == Text(unit.value))
      || (SetItems(value, unit, timestamp)[i] == SetTimestamp && timestamp.Some? && SetParams(value, unit, timestamp)[i] == Text(timestamp.value))
    ensures value.Some? ==> SetItems(value, unit, timestamp)[0] == SetValue
    ensures unit.Some? ==>
      var k := if value.Some? then 1 else 0;
      SetItems(value, unit, timestamp)[k] == SetUnit && SetParams(value, unit, timestamp)[k] == Text(unit.value)
    ensures timestamp.Some? ==>
      var n := |SetItems(value, unit, timestamp)|;
      SetItems(value, unit, timestamp)[n - 1] == SetTimestamp
  {
  }

  /** `f"UPDATE {sensor_type} SET {', '.join(updates)} WHERE id = ?"`. */
  function UpdateQuery(sensorType: string, updates: seq<string>): string
  {
    "UPDATE " + sensorType + " SET " + Join(", ", updates) + IdFilter
  }

  /** The update statement has one placeholder per supplied field, plus the id's. */
  lemma UpdatePlaceholders(sensorType: string, value: Option<real>, unit: Option<string>, timestamp: Option<string>)
    requires sensorType in SensorTypes
    ensures Placeholders(UpdateQuery(sensorType, SetItems(value, unit, timestamp))) == |SetParams(value, unit, timestamp)| + 1
  {
    var updates := SetItems(value, unit, timestamp);
    assert MarkFree("UPDATE ") && MarkFree(" SET ") && MarkFree(", ");
    MarkFreeHasNone(" SET ");
    MarkFreeHasNone(", ");
    Prefixed("UPDATE ", sensorType, " SET ");
    SetItemPlaceholders();
    PlaceholdersJoin(", ", updates);
    IdFilterPlaceholders();
    PlaceholdersConcat("UPDATE " + sensorType + " SET ", Join(", ", updates));
    PlaceholdersConcat("UPDATE " + sensorType + " SET " + Join(", ", updates), IdFilter);
  }

  /**
    `PUT /api/{sensor_type}/{id}`: the SET clause lists exactly the fields that
    are not None (an empty-string timestamp still counts), joined by ", "; the id
    is bound last. With no field at all the handler answers "No updates provided"
    and builds no query.
   */
  method UpdateSensorData(sensorType: string, id: int, value: Option<real>, unit: Option<string>, timestamp: Option<string>)
    returns (r: Response)
    ensures r.NotFound? <==> sensorType !in SensorTypes
    ensures r.NoUpdates? <==> sensorType in SensorTypes && value.None? && unit.None? && timestamp.None?
    ensures r.Query? ==> r.sql == UpdateQuery(sensorType, SetItems(value, unit, timestamp))
    ensures r.Query? ==> r.params == SetParams(value, unit, timestamp) + [Int(id)]
  {
    if sensorType !in SensorTypes {
      return NotFound;
    }
    var updates: seq<string> := [];
    var params: seq<Param> := [];
    if value.Some? {
      updates := updates + [SetValue];
      params := params + [Real(value.value)];
    }
    if unit.Some? {
      updates := updates + [SetUnit];
      params := params + [Text(unit.value)];
    }
    if timestamp.Some? {
      updates := updates + [SetTimestamp];
      params := params + [Text(timestamp.value)];
    }
    if updates == [] {
      return NoUpdates;
    }
    assert updates == SetItems(value, unit, timestamp) && params == SetParams(value, unit, timestamp);
    var query := "UPDATE " + sensorType + " SET " + Join(", ", updates) + IdFilter;
    params := params + [Int(id)];
    r := Query(query, params);
  }

  /** `GET /api/{sensor_type}/{id}`: one row of the whitelisted table by id. */
  method GetSensorDataById(sensorType: string, id: int) returns (r: Response)
    ensures r.NotFound? <==> sensorType !in SensorTypes
    ensures !r.NoUpdates?
    ensures r.Query? ==> r.sql == "SELECT * FROM " + sensorType + IdFilter && r.params == [Int(id)]
    ensures r.Query? ==> Placeholders(r.sql) == |r.params|
  {
    if sensorType !in SensorTypes {
      return NotFound;
    }
    assert MarkFree("SELECT * FROM ");
    MarkFreeHasNone("SELECT * FROM ");
    TableHasNone(sensorType);
    IdFilterPlaceholders();
    PlaceholdersConcat("SELECT * FROM ", sensorType);
    PlaceholdersConcat("SELECT * FROM " + sensorType, IdFilter);
    r := Query("SELECT * FROM " + sensorType + IdFilter, [Int(id)]);
  }

  /** `DELETE /api/{sensor_type}/{id}`: delete by id from the whitelisted table. */
  method DeleteSensorData(sensorType: string, id: int) returns (r: Response)
    ensures r.NotFound? <==> sensorType !in SensorTypes
    ensures !r.NoUpdates?
    ensures r.Query? ==> r.sql == "DELETE FROM " + sensorType + IdFilter && r.params == [Int(id)]
    ensures r.Query? ==> Placeholders(r.sql) == |r.params|
  {
    if sensorType !in SensorTypes {
      return NotFound;
    }
    assert MarkFree("DELETE FROM ");
    MarkFreeHasNone("DELETE FROM ");
    TableHasNone(sensorType);
    IdFilterPlaceholders();
    PlaceholdersConcat("DELETE FROM ", sensorType);
    PlaceholdersConcat("DELETE FROM " + sensorType, IdFilter);
    r := Query("DELETE FROM " + sensorType + IdFilter, [Int(id)]);
  }

  /** `GET /api/{sensor_type}/count`: a row count of the whitelisted table, with no parameters. */
  method GetSensorCount(sensorType: string) returns (r: Response)
    ensures r.NotFound? <==> sensorType !in SensorTypes
    ensures !r.NoUpdates?
    ensures r.Query? ==> r.sql == "SELECT COUNT(*) FROM " + sensorType && r.params == []
    ensures r.Query? ==> Placeholders(r.sql) == 0
  {
    if sensorType !in SensorTypes {
      return NotFound;
    }
    assert MarkFree("SELECT COUNT(*) FROM ");
    MarkFreeHasNone("SELECT COUNT(*) FROM ");
    TableHasNone(sensorType);
    PlaceholdersConcat("SELECT COUNT(*) FROM ", sensorType);
    r := Query("SELECT COUNT(*) FROM " + sensorType, []);
  }
}
