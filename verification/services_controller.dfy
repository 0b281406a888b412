/** The service endpoints' own logic: the required-field gate and initial
    status of createService, the filter and parameter builder of getServices,
    and the removal of money fields for callers outside the financial roles.
    The database's answers are inputs. */
module ServicesController {
  import opened Common

  // ---------------------------------------------------------------------
  // createService

  datatype CreateServiceRequest = CreateServiceRequest(
    clientId: JsValue, origin: JsValue, destination: JsValue, tentativeDate: JsValue,
    cargoTypeId: JsValue, weight: JsValue, length: JsValue, width: JsValue, height: JsValue,
    observations: JsValue, price: JsValue, currencyId: JsValue)

  /** The eight fields the endpoint demands; 0 and "" count as missing. */
  predicate HasRequiredFields(body: CreateServiceRequest) {
    && Truthy(body.clientId) && Truthy(body.origin) && Truthy(body.destination)
    && Truthy(body.tentativeDate) && Truthy(body.cargoTypeId) && Truthy(body.weight)
    && Truthy(body.price) && Truthy(body.currencyId)
  }

  /** The fourteen values bound to the INSERT's placeholders. */
  datatype ServiceInsert = ServiceInsert(
    clientId: JsValue, origin: JsValue, destination: JsValue, tentativeDate: JsValue,
    cargoTypeId: JsValue, weight: JsValue, length: JsValue, width: JsValue, height: JsValue,
    observations: JsValue, price: JsValue, currencyId: JsValue, statusId: int, createdBy: Option<int>)

  datatype CreateServiceReply =
    | Rejected(status: int, message: string)
    | Created(status: int, inserted: ServiceInsert)

  /** The id of the pending_assignment status as rows[0]?.id reads it; None
      when no row came back or the id is falsy. */
  function PendingStatusId(statusRows: seq<int>): (id: Option<int>)
    ensures id.Some? <==> statusRows != [] && statusRows[0] != 0
    ensures id.Some? ==> id.value == statusRows[0]
  {
    if statusRows != [] && statusRows[0] != 0 then Some(statusRows[0]) else None
  }

  /** createService. statusRows is None when the status lookup throws;
      insertFails says whether the INSERT throws. The new row, which the
      INSERT returns, is the values it was given. */
  function CreateService(body: CreateServiceRequest, userId: Option<int>,
                         statusRows: Option<seq<int>>, insertFails: bool): (r: CreateServiceReply)
    ensures r == Rejected(400, "Missing required fields") <==> !HasRequiredFields(body)
    ensures r == Rejected(500, "Initial status configuration missing")
            <==> HasRequiredFields(body) && statusRows.Some? && PendingStatusId(statusRows.value).None?
    ensures r.Created? <==> HasRequiredFields(body) && statusRows.Some? && PendingStatusId(statusRows.value).Some? && !insertFails
    ensures r.Created? ==> r.status == 201 && r.inserted.statusId == statusRows.value[0] && r.inserted.createdBy == userId
    ensures r == Rejected(500, "Internal server error")
            <==> HasRequiredFields(body)
                 && (statusRows.None? || (PendingStatusId(statusRows.value).Some? && insertFails))
    ensures r.Rejected? ==> r.status in {400, 500}
  {
    if !HasRequiredFields(body) then Rejected(400, "Missing required fields")
    else if statusRows.None? then Rejected(500, "Internal server error")
    else
      match PendingStatusId(statusRows.value)
      case None => Rejected(500, "Initial status configuration missing")
      case Some(statusId) =>
        if insertFails then Rejected(500, "Internal server error")
        else Created(201, InsertValues(body, statusId, userId))
  }

  /** The INSERT's values: the body's fields, with falsy optional measures
      and observations stored as null. */
  function InsertValues(body: CreateServiceRequest, statusId: int, userId: Option<int>): ServiceInsert {
    ServiceInsert(body.clientId, body.origin, body.destination, body.tentativeDate,
                  body.cargoTypeId, body.weight, OrNull(body.length), OrNull(body.width),
                  OrNull(body.height), OrNull(body.observations), body.price, body.currencyId,
                  statusId, userId)
  }

  /** A created service keeps every required field as sent, and each
      optional measure as sent when truthy and null otherwise. */
  lemma CreatedServiceValues(body: CreateServiceRequest, userId: Option<int>, statusRows: Option<seq<int>>, insertFails: bool)
    requires CreateService(body, userId, statusRows, insertFails).Created?
    ensures var v := CreateService(body, userId, statusRows, insertFails).inserted;
            && v.clientId == body.clientId && v.origin == body.origin && v.destination == body.destination
            && v.tentativeDate == body.tentativeDate && v.cargoTypeId == body.cargoTypeId
            && v.weight == body.weight && v.price == body.price && v.currencyId == body.currencyId
            && (v.length == Null <==> !Truthy(body.length)) && (Truthy(body.length) ==> v.length == body.length)
            && (v.width == Null <==> !Truthy(body.width)) && (Truthy(body.width) ==> v.width == body.width)
            && (v.height == Null <==> !Truthy(body.height)) && (Truthy(body.height) ==> v.height == body.height)
            && (v.observations == Null <==> !Truthy(body.observations))
            && (Truthy(body.observations) ==> v.observations == body.observations)
            && Truthy(v.clientId) && Truthy(v.price) && Truthy(v.weight)
  {
  }

  // ---------------------------------------------------------------------
  // getServices: the filter and parameter builder

  /** The select list, joins and WHERE 1=1 the filters are appended to; it
      holds no placeholder. */
  const ServicesSelect: string := "SELECT s.* FROM services s WHERE 1=1"

  const ServicesOrder: string := " ORDER BY s.created_at DESC"

  datatype Filter = Filter(column: string, value: JsValue)

  /** A filter on column when its query value is present. */
  function FilterIf(column: string, value: JsValue): seq<Filter> {
    if Truthy(value) then [Filter(column, value)] else []
  }

  /** The present filters, in the order status, clientId, date. */
  function ActiveFilters(status: JsValue, clientId: JsValue, date: JsValue): seq<Filter> {
    FilterIf("ss.name", status) + FilterIf("s.client_id", clientId) + FilterIf("s.tentative_date", date)
  }

  function Condition(f: Filter, index: nat): string {
    " AND " + f.column + " = $" + NatToString(index)
  }

  /** The conditions of the filters, numbered from index on. */
  function Conditions(filters: seq<Filter>, index: nat): string {
    if filters == [] then "" else Conditions(filters[..|filters| - 1], index) + Condition(filters[|filters| - 1], index + |filters| - 1)
  }

  function Values(filters: seq<Filter>): (values: seq<JsValue>)
    ensures |values| == |filters|
    ensures forall i :: 0 <= i < |filters| ==> values[i] == filters[i].value
  {
    if filters == [] then [] else Values(filters[..|filters| - 1]) + [filters[|filters| - 1].value]
  }

  lemma ConditionsPush(filters: seq<Filter>, f: Filter)
    ensures Conditions(filters + [f], 1) == Conditions(filters, 1) + Condition(f, |filters| + 1)
    ensures Values(filters + [f]) == Values(filters) + [f.value]
  {
    assert (filters + [f])[..|filters|] == filters;
  }

  /** One `if (filter)` step: when the value is present, the condition
      numbered paramIndex and its value are appended. */
  method AddFilterIf(sql: string, params: seq<JsValue>, paramIndex: nat, ghost filters: seq<Filter>,
                     column: string, value: JsValue)
    returns (sql': string, params': seq<JsValue>, paramIndex': nat)
    requires sql == ServicesSelect + Conditions(filters, 1) && params == Values(filters) && paramIndex == |filters| + 1
    ensures sql' == ServicesSelect + Conditions(filters + FilterIf(column, value), 1)
    ensures params' == Values(filters + FilterIf(column, value))
    ensures paramIndex' == |filters + FilterIf(column, value)| + 1
  {
    sql', params', paramIndex' := sql, params, paramIndex;
    if Truthy(value) {
      ConditionsPush(filters, Filter(column, value));
      sql' := sql + Condition(Filter(column, value), paramIndex);
      params' := params + [value];
      paramIndex' := paramIndex + 1;
    } else {
      assert filters + FilterIf(column, value) == filters;
    }
  }

  /** The statement and parameters getServices sends, built as the handler
      builds them. */
  method BuildServicesQuery(status: JsValue, clientId: JsValue, date: JsValue) returns (sql: string, params: seq<JsValue>)
    ensures sql == ServicesSelect + Conditions(ActiveFilters(status, clientId, date), 1) + ServicesOrder
    ensures params == Values(ActiveFilters(status, clientId, date))
  {
    sql := ServicesSelect;
    params := [];
    var paramIndex: nat := 1;
    sql, params, paramIndex := AddFilterIf(sql, params, paramIndex, [], "ss.name", status);
    ghost var filters := [] + FilterIf("ss.name", status);
    sql, params, paramIndex := AddFilterIf(sql, params, paramIndex, filters, "s.client_id", clientId);
    filters := filters + FilterIf("s.client_id", clientId);
    sql, params, paramIndex := AddFilterIf(sql, params, paramIndex, filters, "s.tentative_date", date);
    filters := filters + FilterIf("s.tentative_date", date);
    assert filters == ActiveFilters(status, clientId, date);
    sql := sql + ServicesOrder;
  }

  function CountChar(s: string, c: char): nat {
    if s == [] then 0 else CountChar(s[..|s| - 1], c) + (if s[|s| - 1] == c then 1 else 0)
  }

  lemma {:induction false} CountCharAppend(a: string, b: string, c: char)
    ensures CountChar(a + b, c) == CountChar(a, c) + CountChar(b, c)
  {
    if b != [] {
      assert (a + b)[..|a + b| - 1] == a + b[..|b| - 1];
      CountCharAppend(a, b[..|b| - 1], c);
    } else {
      assert a + b == a;
    }
  }

  lemma {:induction false} CountCharAbsent(s: string, c: char)
    requires forall i :: 0 <= i < |s| ==> s[i] != c
    ensures CountChar(s, c) == 0
  {
    if s != [] {
      CountCharAbsent(s[..|s| - 1], c);
    }
  }

  /** One placeholder per condition, provided the column names hold none. */
  lemma {:induction false} ConditionsPlaceholders(filters: seq<Filter>, index: nat)
    requires forall i :: 0 <= i < |filters| ==> CountChar(filters[i].column, '$') == 0
    ensures CountChar(Conditions(filters, index), '$') == |filters|
  {
    if filters != [] {
      var f := filters[|filters| - 1];
      ConditionsPlaceholders(filters[..|filters| - 1], index);
      CountCharAppend(Conditions(filters[..|filters| - 1], index), Condition(f, index + |filters| - 1), '$');
      ConditionPlaceholder(f, index + |filters| - 1);
    }
  }

  /** A condition on a column without placeholders holds exactly one. */
  lemma ConditionPlaceholder(f: Filter, n: nat)
    requires CountChar(f.column, '$') == 0
    ensures CountChar(Condition(f, n), '$') == 1
  {
    var digits := NatToString(n);
    CountCharAbsent(digits, '$');
    CountCharAbsent(" AND ", '$');
    CountCharAbsent(" = ", '$');
    assert CountChar(" = $", '$') == CountChar(" = ", '$') + 1 by {
      assert " = $"[..3] == " = ";
    }
    CountCharAppend(" AND " + f.column + " = $", digits, '$');
    CountCharAppend(" AND " + f.column, " = $", '$');
    CountCharAppend(" AND ", f.column, '$');
  }

  /** The statement holds exactly as many placeholders as there are
      parameters, at most one per filter, and always ends with the ordering. */
  lemma QueryPlaceholdersMatchParams(status: JsValue, clientId: JsValue, date: JsValue)
    ensures var filters := ActiveFilters(status, clientId, date);
            var sql := ServicesSelect + Conditions(filters, 1) + ServicesOrder;
            && CountChar(sql, '$') == |Values(filters)|
            && |filters| == (if Truthy(status) then 1 else 0) + (if Truthy(clientId) then 1 else 0) + (if Truthy(date) then 1 else 0)
            && sql[|sql| - |ServicesOrder|..] == ServicesOrder
  {
    var filters := ActiveFilters(status, clientId, date);
    ColumnsHaveNoPlaceholder(status, clientId, date);
    ConditionsPlaceholders(filters, 1);
    FixedTextHasNoPlaceholder();
    CountCharAppend(ServicesSelect, Conditions(filters, 1), '$');
    CountCharAppend(ServicesSelect + Conditions(filters, 1), ServicesOrder, '$');
  }

  lemma FixedTextHasNoPlaceholder()
    ensures CountChar(ServicesSelect, '$') == 0 && CountChar(ServicesOrder, '$') == 0
  {
    CountCharAbsent(ServicesSelect, '$');
    CountCharAbsent(ServicesOrder, '$');
  }

  lemma ColumnsHaveNoPlaceholder(status: JsValue, clientId: JsValue, date: JsValue)
    ensures var filters := ActiveFilters(status, clientId, date);
            forall i :: 0 <= i < |filters| ==> CountChar(filters[i].column, '$') == 0
  {
    var filters := ActiveFilters(status, clientId, date);
    CountCharAbsent("ss.name", '$');
    CountCharAbsent("s.client_id", '$');
    CountCharAbsent("s.tentative_date", '$');
    forall i | 0 <= i < |filters|
      ensures CountChar(filters[i].column, '$') == 0
    {
      assert filters[i].column in ["ss.name", "s.client_id", "s.tentative_date"];
    }
  }

  /** The k-th condition (from 1) binds placeholder $k to the k-th parameter. */
  lemma {:induction false} ConditionNumbering(filters: seq<Filter>, k: nat)
    requires 1 <= k <= |filters|
    ensures Conditions(filters, 1) == Conditions(filters[..k - 1], 1) + Condition(filters[k - 1], k) + Conditions(filters[k..], k + 1)
    ensures Values(filters)[k - 1] == filters[k - 1].value
  {
    var n := |filters|;
    var prefix := filters[..n - 1];
    var last := Condition(filters[n - 1], n);
    if k < n {
      var front := Conditions(filters[..k - 1], 1) + Condition(filters[k - 1], k);
      var middle := Conditions(prefix[k..], k + 1);
      calc {
        Conditions(filters, 1);
        Conditions(prefix, 1) + last;
        { ConditionNumbering(prefix, k);
          assert prefix[..k - 1] == filters[..k - 1];
          assert prefix[k - 1] == filters[k - 1]; }
        front + middle + last;
        { AppendGrouping(front, middle, last); }
        front + (middle + last);
        { ConditionsOfSuffix(filters, k); }
        front + Conditions(filters[k..], k + 1);
      }
    } else {
      assert prefix == filters[..k - 1];
      assert filters[k..] == [];
    }
  }

  /** The conditions of a suffix end with the condition of the last filter,
      numbered by its place in the whole list. */
  lemma ConditionsOfSuffix(filters: seq<Filter>, k: nat)
    requires 1 <= k < |filters|
    ensures Conditions(filters[k..], k + 1)
            == Conditions(filters[..|filters| - 1][k..], k + 1) + Condition(filters[|filters| - 1], |filters|)
  {
    var suffix := filters[k..];
    assert suffix[..|suffix| - 1] == filters[..|filters| - 1][k..];
    assert suffix[|suffix| - 1] == filters[|filters| - 1];
  }

  // ---------------------------------------------------------------------
  // Money fields by role

  /** A row as the client receives it: a JSON object. */
  type JsonObject = map<string, JsValue>

  const FinancialRoles: seq<string> := ["admin", "general_manager", "sales", "operations_manager"]

  const MoneyFields: set<string> := {"price", "currency_id", "currency_code"}

  /** financialRoles.includes(userRole || ''). */
  predicate IsFinancial(role: Option<string>) {
    match role
    case None => false
    case Some(r) => r in FinancialRoles
  }

  function RedactRow(row: JsonObject, role: Option<string>): JsonObject {
    if IsFinancial(role) then row else row - MoneyFields
  }

  /** The rows as the caller receives them. */
  function Redact(rows: seq<JsonObject>, role: Option<string>): (out: seq<JsonObject>)
    ensures |out| == |rows|
  {
    seq(|rows|, i requires 0 <= i < |rows| => RedactRow(rows[i], role))
  }

  /** Outside the financial roles, every row loses exactly its price,
      currency_id and currency_code, and keeps every other field as it was;
      the rows keep their count and order. */
  lemma RedactionHidesOnlyMoney(rows: seq<JsonObject>, role: Option<string>)
    requires !IsFinancial(role)
    ensures forall i, k :: 0 <= i < |rows| && k in MoneyFields ==> k !in Redact(rows, role)[i]
    ensures forall i, k :: 0 <= i < |rows| && k !in MoneyFields ==>
              (k in Redact(rows, role)[i] <==> k in rows[i])
              && (k in rows[i] ==> Redact(rows, role)[i][k] == rows[i][k])
  {
  }

  /** The financial roles receive every row unchanged. */
  lemma FinancialRolesSeeEverything(rows: seq<JsonObject>, role: Option<string>)
    requires IsFinancial(role)
    ensures Redact(rows, role) == rows
  {
  }

  /** Redaction leaves nothing to redact: applying it again changes nothing. */
  lemma RedactIdempotent(rows: seq<JsonObject>, role: Option<string>)
    ensures Redact(Redact(rows, role), role) == Redact(rows, role)
  {
    var once := Redact(rows, role);
    var twice := Redact(once, role);
    forall i | 0 <= i < |rows|
      ensures twice[i] == once[i]
    {
      if !IsFinancial(role) {
        assert once[i] - MoneyFields == once[i];
      }
    }
  }
}
