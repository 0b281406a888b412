/** The driver endpoints' own logic: createDriver's validation chain, the
    statements it issues and the reply it builds, and getDrivers' optional
    status filter. The database's answers and the regular-expression test
    are inputs. */
module DriversController {
  import opened Common

  datatype CreateDriverRequest = CreateDriverRequest(
    firstName: Option<string>, lastName: Option<string>, documentTypeId: Option<int>,
    documentNumber: Option<string>, phone: Option<string>, licenseNumber: Option<string>,
    category: Option<string>)

  /** A text field counts as given when present and not empty. */
  predicate Given(v: Option<string>) {
    v.Some? && v.value != ""
  }

  predicate HasRequiredFields(body: CreateDriverRequest) {
    && Given(body.firstName) && Given(body.lastName)
    && body.documentTypeId.Some? && body.documentTypeId.value != 0
    && Given(body.documentNumber) && Given(body.licenseNumber)
  }

  /** A document_types row: the optional pattern and the maximum length. */
  datatype DocumentType = DocumentType(validationPattern: Option<string>, maxLength: int)

  /** What the database does with the statements createDriver sends. */
  datatype DbAnswers = DbAnswers(
    lookupFails: bool,                  // the document-type lookup throws
    documentTypes: seq<DocumentType>,   // its rows
    writeError: Option<string>,         // error code thrown inside the transaction, if any
    newDriverId: int)

  datatype Statement = LookupDocumentType | Begin | InsertWorker | LookupAvailableStatus | InsertDriver | Commit | Rollback

  datatype Driver = Driver(id: int, name: string, phone: Option<string>, licenseNumber: string, status: string)

  datatype DriverReply = Created(status: int, driver: Driver) | Failed(status: int, message: string)

  datatype Outcome = Outcome(reply: DriverReply, statements: seq<Statement>)

  /** The failures the catch block maps: 23505 (a unique key) is a conflict,
      anything else an internal error. */
  function CatchReply(code: Option<string>): (r: DriverReply)
    ensures r.Failed? && (r.status == 409 <==> code == Some("23505"))
    ensures r.status == 409 || r.status == 500
  {
    if code == Some("23505") then Failed(409, "Document number or License Number already exists")
    else Failed(500, "Internal server error")
  }

  /** Document number exceeds maximum length of <max>. */
  function TooLongMessage(maxLength: int): string {
    "Document number exceeds maximum length of " + IntToString(maxLength)
  }

  /** createDriver: the early-return validation chain, then the transaction.
      matches(pattern, text) stands for new RegExp(pattern).test(text). A
      throw before BEGIN still reaches the catch block's ROLLBACK. */
  function CreateDriver(body: CreateDriverRequest, db: DbAnswers, matches: (string, string) -> bool): (o: Outcome)
    ensures !HasRequiredFields(body) ==> o == Outcome(Failed(400, "Some fields are required"), [])
    ensures o.reply.Failed? && o.reply.status == 400 ==> Begin !in o.statements
    ensures o.reply.Created? <==> Begin in o.statements && db.writeError.None?
    ensures o.reply.Created? ==> o.statements == [LookupDocumentType, Begin, InsertWorker, LookupAvailableStatus, InsertDriver, Commit]
    ensures o.reply.Failed? && o.reply.status in {409, 500} ==> o.statements != [] && o.statements[|o.statements| - 1] == Rollback
  {
    if !HasRequiredFields(body) then Outcome(Failed(400, "Some fields are required"), [])
    else if db.lookupFails then Outcome(CatchReply(None), [LookupDocumentType, Rollback])
    else if |db.documentTypes| == 0 then Outcome(Failed(400, "Invalid document type"), [LookupDocumentType])
    else
      var docType := db.documentTypes[0];
      var documentNumber := body.documentNumber.value;
      if |documentNumber| > docType.maxLength then
        Outcome(Failed(400, TooLongMessage(docType.maxLength)), [LookupDocumentType])
      else if docType.validationPattern.Some? && docType.validationPattern.value != ""
              && !matches(docType.validationPattern.value, documentNumber) then
        Outcome(Failed(400, "Invalid document number format"), [LookupDocumentType])
      else
        match db.writeError
        case Some(code) => Outcome(CatchReply(Some(code)), [LookupDocumentType, Begin, Rollback])
        case None =>
          Outcome(Created(201, Driver(db.newDriverId,
                                     body.firstName.value + " " + body.lastName.value,
                                     if Given(body.phone) then body.phone else None,
                                     body.licenseNumber.value, "available")),
                  [LookupDocumentType, Begin, InsertWorker, LookupAvailableStatus, InsertDriver, Commit])
  }

  /** Every rejection by the validation chain is a 400 that came before BEGIN. */
  predicate ValidationRejects(body: CreateDriverRequest, db: DbAnswers, matches: (string, string) -> bool) {
    || !HasRequiredFields(body)
    || (!db.lookupFails && |db.documentTypes| == 0)
    || (!db.lookupFails && |db.documentTypes| > 0 && |body.documentNumber.value| > db.documentTypes[0].maxLength)
    || (!db.lookupFails && |db.documentTypes| > 0 && |body.documentNumber.value| <= db.documentTypes[0].maxLength
        && db.documentTypes[0].validationPattern.Some? && db.documentTypes[0].validationPattern.value != ""
        && !matches(db.documentTypes[0].validationPattern.value, body.documentNumber.value))
  }

  /** A 400 comes exactly from the validation chain, and then nothing is
      written: no statement after the document-type lookup. */
  lemma BadRequestIffValidationRejects(body: CreateDriverRequest, db: DbAnswers, matches: (string, string) -> bool)
    ensures var o := CreateDriver(body, db, matches);
            (o.reply.Failed? && o.reply.status == 400) <==> ValidationRejects(body, db, matches)
    ensures var o := CreateDriver(body, db, matches);
            o.reply.Failed? && o.reply.status == 400 ==> o.statements <= [LookupDocumentType]
  {
  }

  /** A document number as long as the maximum passes the length check; one
      character more fails it. */
  lemma LengthBoundIsInclusive(body: CreateDriverRequest, db: DbAnswers, matches: (string, string) -> bool)
    requires HasRequiredFields(body) && !db.lookupFails && |db.documentTypes| > 0
    requires db.documentTypes[0].validationPattern.None? && db.writeError.None?
    ensures |body.documentNumber.value| == db.documentTypes[0].maxLength ==> CreateDriver(body, db, matches).reply.Created?
    ensures |body.documentNumber.value| == db.documentTypes[0].maxLength + 1
            ==> CreateDriver(body, db, matches).reply == Failed(400, TooLongMessage(db.documentTypes[0].maxLength))
  {
  }

  /** The pattern is consulted only when the document type has one. */
  lemma NoPatternNoCheck(body: CreateDriverRequest, db: DbAnswers, m1: (string, string) -> bool, m2: (string, string) -> bool)
    requires !db.lookupFails && |db.documentTypes| > 0 && db.documentTypes[0].validationPattern.None?
    ensures CreateDriver(body, db, m1) == CreateDriver(body, db, m2)
  {
  }

  /** A created driver is available, named "first last", and has no phone
      when none was given. */
  lemma CreatedDriverShape(body: CreateDriverRequest, db: DbAnswers, matches: (string, string) -> bool)
    requires CreateDriver(body, db, matches).reply.Created?
    ensures var d := CreateDriver(body, db, matches).reply.driver;
            && d.status == "available" && d.id == db.newDriverId
            && d.name == body.firstName.value + " " + body.lastName.value
            && (d.phone.None? <==> !Given(body.phone))
            && d.licenseNumber == body.licenseNumber.value
  {
  }

  // ---------------------------------------------------------------------
  // getDrivers

  const DriversSelect: string := "SELECT drivers WHERE d.is_active = true"
  const DriversOrder: string := " ORDER BY w.last_name ASC"

  /** The statement and parameters getDrivers sends. */
  method BuildDriversQuery(status: JsValue) returns (sql: string, params: seq<JsValue>)
    ensures Truthy(status) ==> sql == DriversSelect + " AND rs.name = $1" + DriversOrder && params == [status]
    ensures !Truthy(status) ==> sql == DriversSelect + DriversOrder && params == []
  {
    sql := DriversSelect;
    params := [];
    if Truthy(status) {
      sql := sql + " AND rs.name = $1";
      params := params + [status];
    }
    sql := sql + DriversOrder;
  }

  /** The ordering always closes the statement, and the one placeholder is
      there exactly when a status parameter is. */
  lemma DriversQueryShape(status: JsValue)
    ensures var sql := if Truthy(status) then DriversSelect + " AND rs.name = $1" + DriversOrder else DriversSelect + DriversOrder;
            && sql[|sql| - |DriversOrder|..] == DriversOrder
            && sql[..|DriversSelect|] == DriversSelect
            && ('$' in sql <==> Truthy(status))
  {
    FixedDriversTextHasNoPlaceholder();
    var cond := " AND rs.name = $1";
    assert cond[15] == '$';
    var sql := if Truthy(status) then DriversSelect + cond + DriversOrder else DriversSelect + DriversOrder;
    var head := if Truthy(status) then DriversSelect + cond else DriversSelect;
    assert sql == head + DriversOrder;
    assert sql[|sql| - |DriversOrder|..] == DriversOrder;
    assert head[..|DriversSelect|] == DriversSelect;
    assert sql[..|DriversSelect|] == head[..|DriversSelect|];
    assert '$' in head <==> Truthy(status);
  }

  lemma FixedDriversTextHasNoPlaceholder()
    ensures '$' !in DriversSelect && '$' !in DriversOrder
  {
    forall i | 0 <= i < |DriversSelect|
      ensures DriversSelect[i] != '$'
    {
    }
    forall i | 0 <= i < |DriversOrder|
      ensures DriversOrder[i] != '$'
    {
    }
  }
}
