/** The `write` override of mandate.details: the values are first written to the
    database; then, when an authorization token is configured, the mandate's reference,
    IBAN, BIC and language are pushed to `POST /creditor/mandate/update`. Any answer but
    204 is an application error carrying the service's message. */
module MandateWrite {
  import opened Common
  import opened Records

  /** The form fields of the update push. `mndtId` is False when the recordset is empty. */
  datatype UpdatePayload = UpdatePayload(mndtId: Option<string>, iban: string, bic: string, l: string)

  /** The JSON body of a refused update: `{"message": ...}`. */
  datatype ErrorBody = ErrorBody(message: Option<string>)

  /** `self.<field>` after the database write: False for an empty recordset, the value
      for one record, and ValueError for several. */
  function StoredField(db: Db, ids: set<nat>, field: Mandate -> Option<string>): Result<Option<string>>
  {
    match IdOf(ids)
    case Raise(e) => Raise(e)
    case Ok(None) => Ok(None)
    case Ok(Some(id)) => Ok(if id in db.mandates then field(db.mandates[id]) else None)
  }

  /** `values.get(k) if values.get(k) else self.k if self.k else ''` */
  function PushedField(given: Option<string>, db: Db, ids: set<nat>, field: Mandate -> Option<string>): Result<string>
  {
    if Truthy(given) then Ok(given.value)
    else match StoredField(db, ids, field)
      case Raise(e) => Raise(e)
      case Ok(s) => Ok(OrEmpty(s))
  }

  /** The payload dict, its four entries evaluated in order; `db` is the database after
      the write. */
  function PayloadFor(db: Db, ids: set<nat>, v: MandateValues): (r: Result<UpdatePayload>)
    ensures r.Raise? ==> r.error == ExpectedSingleton && |ids| > 1
    ensures r.Ok? ==>
              && (Truthy(Get(v.reference)) ==> r.value.mndtId == Get(v.reference))
              && (Truthy(Get(v.iban)) ==> r.value.iban == Get(v.iban).value)
              && (Truthy(Get(v.bic)) ==> r.value.bic == Get(v.bic).value)
              && (Truthy(Get(v.lang)) ==> r.value.l == Get(v.lang).value)
    ensures ids == {} ==>
              r == Ok(UpdatePayload(if Truthy(Get(v.reference)) then Get(v.reference) else None,
                                    OrEmpty(Get(v.iban)), OrEmpty(Get(v.bic)), OrEmpty(Get(v.lang))))
  {
    var mndtId := if Truthy(Get(v.reference)) then Ok(Get(v.reference))
                  else StoredField(db, ids, (m: Mandate) => Some(m.reference));
    var iban := PushedField(Get(v.iban), db, ids, (m: Mandate) => m.iban);
    var bic := PushedField(Get(v.bic), db, ids, (m: Mandate) => m.bic);
    var l := PushedField(Get(v.lang), db, ids, (m: Mandate) => m.lang);
    if mndtId.Raise? then Raise(mndtId.error)
    else if iban.Raise? then Raise(iban.error)
    else if bic.Raise? then Raise(bic.error)
    else if l.Raise? then Raise(l.error)
    else Ok(UpdatePayload(mndtId.value, iban.value, bic.value, l.value))
  }

  /** `'%s' % resp_obj.get('message')`: a missing message prints as "None". */
  function MessageText(message: Option<string>): string
  {
    if message.Some? then message.value else "None"
  }

  /** How the push ends: 204 is success; any other status is a UserError with the body's
      message, unless the body is not JSON, which the handler turns into an AccessError,
      as it does a request that got no answer. */
  function PushOutcome(r: Reply<ErrorBody>): (o: Option<Error>)
    ensures o.None? <==> r.Replied? && r.status == 204
    ensures o.Some? ==> o.value == AccessError || o.value.UserError?
    ensures r.Replied? && r.status != 204 && r.body.Some? ==> o == Some(UserError(MessageText(r.body.value.message)))
  {
    match r
    case Unreachable => Some(AccessError)
    case Replied(status, body) =>
      if status == 204 then None
      else if body.None? then Some(AccessError)
      else Some(UserError(MessageText(body.value.message)))
  }

  function ErrorOf(o: Option<Error>): Result<()>
  {
    if o.Some? then Raise(o.value) else Ok(())
  }

  /** `write(values)` on the recordset `ids`. The remote service's answer to a push is a
      function of the pushed fields. */
  function Write(db: Db, ids: set<nat>, v: MandateValues, token: Option<string>,
                 push: UpdatePayload -> Reply<ErrorBody>): (r: Effect<()>)
    ensures r.db.partners == db.partners && r.db.nextMandate == db.nextMandate && r.db.nextPartner == db.nextPartner
    ensures r.db.mandates.Keys == db.mandates.Keys
    ensures v.reference == Put(None) <==> r.result == Raise(NotNullViolation("reference"))
    ensures v.reference == Put(None) ==> r.db == db
    ensures v.reference != Put(None) ==>
              && (forall id :: id in db.mandates && id in ids ==> r.db.mandates[id] == ApplyValues(db.mandates[id], v))
              && (forall id :: id in db.mandates && id !in ids ==> r.db.mandates[id] == db.mandates[id])
    ensures v.reference != Put(None) && !Truthy(token) ==> r.result == Ok(())
    ensures v.reference != Put(None) && Truthy(token) ==>
              (r.result.Ok? <==>
                 && PayloadFor(r.db, ids, v).Ok?
                 && push(PayloadFor(r.db, ids, v).value).Replied?
                 && push(PayloadFor(r.db, ids, v).value).status == 204)
  {
    if v.reference == Put(None) then Effect(db, Raise(NotNullViolation("reference")))
    else
      var written := WriteMandateRecords(db, ids, v);
      if !Truthy(token) then Effect(written, Ok(()))
      else match PayloadFor(written, ids, v)
        case Raise(e) => Effect(written, Raise(e))
        case Ok(payload) => Effect(written, ErrorOf(PushOutcome(push(payload))))
  }

  /** Because the database write comes first, the fallback to stored values reads what
      was just written: for a single record, the push carries the record's new reference,
      IBAN, BIC and language, with '' for each that is unset. */
  lemma PayloadIsNewRecord(db: Db, id: nat, v: MandateValues)
    requires id in db.mandates && v.reference != Put(None)
    ensures var m := WriteMandateRecords(db, {id}, v).mandates[id];
            PayloadFor(WriteMandateRecords(db, {id}, v), {id}, v)
              == Ok(UpdatePayload(Some(m.reference), OrEmpty(m.iban), OrEmpty(m.bic), OrEmpty(m.lang)))
  {
    var written := WriteMandateRecords(db, {id}, v);
    assert IdOf({id}) == Ok(Some(id));
    assert written.mandates[id] == ApplyValues(db.mandates[id], v);
  }

  /** A push from a recordset of several mandates fails with ValueError as soon as one of
      the four values has to be read back from the records; when all four are given
      and non-empty, nothing is read back and the payload is built. */
  lemma PayloadFromSeveralRecords(db: Db, ids: set<nat>, v: MandateValues)
    requires |ids| > 1
    ensures PayloadFor(db, ids, v).Ok? <==>
            Truthy(Get(v.reference)) && Truthy(Get(v.iban)) && Truthy(Get(v.bic)) && Truthy(Get(v.lang))
    ensures PayloadFor(db, ids, v).Raise? ==> PayloadFor(db, ids, v).error == ExpectedSingleton
  {
  }

  /** Any status but 204 on the update push ends `write` with the service's message as a
      UserError (or an AccessError when the body is not JSON), after the records were
      written; a token-less configuration writes without pushing. */
  lemma WriteOutcome(db: Db, ids: set<nat>, v: MandateValues, token: Option<string>,
                     push: UpdatePayload -> Reply<ErrorBody>, status: int, message: Option<string>)
    requires v.reference != Put(None)
    ensures Write(db, ids, v, token, push).db == WriteMandateRecords(db, ids, v)
    ensures !Truthy(token) ==> Write(db, ids, v, token, push).result == Ok(())
    ensures Truthy(token) && PayloadFor(WriteMandateRecords(db, ids, v), ids, v).Ok? &&
            push(PayloadFor(WriteMandateRecords(db, ids, v), ids, v).value) == Replied(status, Some(ErrorBody(message))) ==>
              Write(db, ids, v, token, push).result ==
                (if status == 204 then Ok(()) else Raise(UserError(MessageText(message))))
  {
  }
}
