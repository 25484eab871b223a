/** What `update_feed` does, as functions of the database: the pass over the feed's
    messages, the three kinds of message (amendment, cancellation, mandate snapshot), the
    customer matching, and the language and address look-ups. The variables `partner_id`
    and `lang_id` of the source's loop live on from one message to the next, and start
    out unassigned; `Carried` holds them. */
module Reconcile {
  import opened Common
  import opened Records
  import opened FeedEvents
  import opened MandateWrite

  /** The configuration and collaborators of a pass: the authorization token, the
      read-only tables, and the service's answer to each update push. */
  datatype Context = Context(
    token: Option<string>,
    tables: Tables,
    push: UpdatePayload -> Reply<ErrorBody>)

  /** A Python local: not yet assigned, or holding a value. */
  datatype Binding<+T> = Unbound | Bound(value: T)

  /** `partner_id` (a partner recordset) and `lang_id` (a language recordset). */
  datatype Carried = Carried(partner: Binding<set<nat>>, lang: Binding<set<nat>>)

  const Fresh: Carried := Carried(Unbound, Unbound)

  /** The database after one message, the loop variables for the next message, and the
      exception that ended the pass, if any. */
  datatype Outcome = Outcome(db: Db, vars: Carried, error: Option<Error>)

  function Fail(db: Db, v: Carried, e: Error): Outcome
  {
    Outcome(db, v, Some(e))
  }

  const NoneNotIterable: string := "'NoneType' object is not iterable"

  /** Lines 42-48 and 123-129: the customer is the partners whose `twikey_reference` is
      the debtor's external id; when there is no external id, `partner_id` keeps its value
      from an earlier message. When that leaves no partner, the partners named like the
      debtor; when there are none either, a new partner with only the name, which the
      database refuses when the debtor has no name. */
  function ResolveCustomer(db: Db, carried: Binding<set<nat>>, mndt: Option<MandateBlock>, t: Tables): (r: Effect<set<nat>>)
    ensures r.db.mandates == db.mandates && r.db.nextMandate == db.nextMandate
    ensures db.partners.Keys <= r.db.partners.Keys
    ensures r.result.Ok? ==> r.result.value != {}
    ensures Grows(db, r.db)
  {
    var current := if ExternalId(mndt).Some? then Bound(PartnersWithExternalId(db, ExternalId(mndt).value))
                   else carried;
    match current
    case Unbound => Effect(db, Raise(UnboundLocal("partner_id")))
    case Bound(found) =>
      if found != {} then Effect(db, Ok(found))
      else if mndt.None? || mndt.value.dbtr.None? then Effect(db, Raise(AttributeError("get")))
      else
        var name := mndt.value.dbtr.value.nm;
        var byName := if Truthy(name) then PartnersNamed(db, name.value) else {};
        if byName != {} then Effect(db, Ok(byName))
        else if name.None? then Effect(db, Raise(CheckViolation(CheckName)))
        else Effect(AddPartner(db, NewPartner(name, t.userLang)), Ok({db.nextPartner}))
  }

  /** Lines 67-84 and 131-147: the partner values taken from the debtor block. Street,
      zip and city are cleared when the postal address or the sub-field is missing; the
      country is looked up by its code, and reading its id fails when several countries
      carry that code. `name` and `lang` are the values the caller writes for them. */
  function DebtorValues(m: MandateBlock, t: Tables, name: Option<string>, lang: Assign<Option<string>>): (r: Result<Enrichment>)
    ensures r.Raise? ==> r.error == ExpectedSingleton
    ensures r.Ok? ==>
              && r.value.name == name && r.value.lang == lang && r.value.email == Email(m)
              && r.value.twikeyReference == ExternalIdOrEmpty(Some(m))
              && (r.value.street.Some? ==> r.value.street.value != "")
              && (r.value.zip.Some? ==> r.value.zip.value != "")
              && (r.value.city.Some? ==> r.value.city.value != "")
    ensures (m.dbtr.None? || m.dbtr.value.pstlAdr.None?) ==>
              r.Ok? && r.value.street.None? && r.value.zip.None? && r.value.city.None? && r.value.country.None?
  {
    var adr := if m.dbtr.Some? then m.dbtr.value.pstlAdr else None;
    var street := if adr.Some? then OrFalse(adr.value.adrLine) else None;
    var zip := if adr.Some? then OrFalse(adr.value.pstCd) else None;
    var city := if adr.Some? then OrFalse(adr.value.twnNm) else None;
    var countries := if adr.Some? then CountriesWithCode(t, adr.value.ctry) else {};
    match IdOf(countries)
    case Raise(e) => Raise(e)
    case Ok(country) =>
      Ok(Enrichment(street, name, zip, ExternalIdOrEmpty(Some(m)), city, country, lang, Email(m)))
  }

  /** The language recordset of a message: the installed languages whose ISO code is the
      last "Language" entry of `SplmtryData`. */
  function MessageLanguages(entries: seq<SupplementaryEntry>, t: Tables): set<nat>
  {
    LanguagesWithIso(t, LastLanguage(entries))
  }

  // ---------------- amendment (lines 40-109) ----------------

  /** The values dict of lines 54-61. */
  function AmendValues(m: MandateBlock, partner: Option<nat>, code: Option<string>): MandateValues
  {
    MandateValues(Put(OrFalse(m.mndtId)), Put(partner), Put(Signed), Put(OrFalse(m.dbtrAcct)),
                  Put(Bic(m)), Put(code), Keep)
  }

  /** Lines 52-84: the mandates with the original reference are re-pointed to `MndtId`,
      signed, and given the debtor's account, BIC, language and customer; then the customer
      is enriched from the debtor block. */
  function AmendKnown(db: Db, found: set<nat>, customer: set<nat>, mndt: Option<MandateBlock>,
                      v: Carried, ctx: Context): (r: Outcome)
    ensures Grows(db, r.db)
    ensures r.vars.partner == v.partner || r.vars.partner == Bound(customer)
  {
    if mndt.None? then Fail(db, v, AttributeError("get"))
    else
      var m := mndt.value;
      if m.splmtryData.None? then Fail(db, v, TypeError(NoneNotIterable))
      else
        var langs := MessageLanguages(m.splmtryData.value, ctx.tables);
        match IdOf(customer)
        case Raise(e) => Fail(db, v, e)
        case Ok(partner) =>
          match CodeOf(ctx.tables, langs)
          case Raise(e) => Fail(db, v, e)
          case Ok(code) =>
            var w := Write(db, found, AmendValues(m, partner, code), ctx.token, ctx.push);
            var vars := Carried(Bound(customer), Bound(langs));
            if w.result.Raise? then Fail(w.db, v, w.result.error)
            else if customer == {} then Outcome(w.db, vars, None)
            else if m.dbtr.None? then Fail(w.db, v, AttributeError("get"))
            else match DebtorValues(m, ctx.tables, m.dbtr.value.nm, Put(code))
              case Raise(e) => Fail(w.db, v, e)
              case Ok(en) =>
                if en.name.None? then Fail(w.db, v, CheckViolation(CheckName))
                else Outcome(WritePartnerRecords(w.db, customer, en), vars, None)
  }

  /** Lines 102-109: no mandate has the original reference, so one is created from the
      event. Its language comes from `lang_id` as an earlier message left it. */
  function AmendUnknown(db: Db, customer: set<nat>, mndt: Option<MandateBlock>, v: Carried, ctx: Context): (r: Outcome)
    ensures Grows(db, r.db)
    ensures r.vars.partner == v.partner || r.vars.partner == Bound(customer)
  {
    match IdOf(customer)
    case Raise(e) => Fail(db, v, e)
    case Ok(partner) =>
      if mndt.None? then Fail(db, v, AttributeError("get"))
      else
        var m := mndt.value;
        match v.lang
        case Unbound => Fail(db, v, UnboundLocal("lang_id"))
        case Bound(langs) =>
          match CodeOf(ctx.tables, langs)
          case Raise(e) => Fail(db, v, e)
          case Ok(code) =>
            if m.mndtId.None? then Fail(db, v, NotNullViolation("reference"))
            else
              var created := Mandate(m.mndtId.value, partner, Signed, OrFalse(m.dbtrAcct), Bic(m), code, None);
              Outcome(AddMandate(db, created), Carried(Bound(customer), v.lang), None)
  }

  function Amend(db: Db, v: Carried, e: FeedEvent, ctx: Context): (r: Outcome)
    ensures Grows(db, r.db)
  {
    var found := MandatesWithReference(db, e.orgnlMndtId);
    var who := ResolveCustomer(db, v.partner, e.mndt, ctx.tables);
    if who.result.Raise? then Fail(who.db, v, who.result.error)
    else if found != {} then AmendKnown(who.db, found, who.result.value, e.mndt, v, ctx)
    else AmendUnknown(who.db, who.result.value, e.mndt, v, ctx)
  }

  // ---------------- cancellation (lines 110-118) ----------------

  function CancelValues(reason: Option<string>): MandateValues
  {
    MandateValues(Keep, Keep, Put(Cancelled), Keep, Keep, Keep, Put(reason))
  }

  function CancelledMandate(reference: string): Mandate
  {
    Mandate(reference, None, Cancelled, None, None, None, None)
  }

  function Cancel(db: Db, v: Carried, e: FeedEvent, ctx: Context): (r: Outcome)
    ensures Grows(db, r.db)
    requires e.cxlRsn.Some?
  {
    var found := MandatesWithReference(db, e.orgnlMndtId);
    if found != {} then
      var w := Write(db, found, CancelValues(e.cxlRsn.value.rsn), ctx.token, ctx.push);
      if w.result.Raise? then Fail(w.db, v, w.result.error) else Outcome(w.db, v, None)
    else if e.orgnlMndtId.None? then Fail(db, v, NotNullViolation("reference"))
    else Outcome(AddMandate(db, CancelledMandate(e.orgnlMndtId.value)), v, None)
  }

  // ---------------- mandate snapshot (lines 119-166) ----------------

  /** Lines 120-122: the mandates with the snapshot's `MndtId`; when there are none, one
      is created, linked to the `partner_id` an earlier message left. */
  function PlaceSnapshotMandate(db: Db, found: set<nat>, carried: Binding<set<nat>>, m: MandateBlock): (r: Effect<set<nat>>)
    ensures r.db.partners == db.partners && r.db.nextPartner == db.nextPartner
    ensures found != {} || r.result.Raise? ==> r.db == db
    ensures found != {} ==> r.result == Ok(found)
    ensures found == {} && r.result.Ok? ==>
              && r.result == Ok({db.nextMandate}) && m.mndtId.Some? && db.nextMandate in r.db.mandates
              && r.db == AddMandate(db, r.db.mandates[db.nextMandate])
              && r.db.mandates[db.nextMandate].reference == m.mndtId.value
    ensures Grows(db, r.db)
  {
    if found != {} then Effect(db, Ok(found))
    else match carried
      case Unbound => Effect(db, Raise(UnboundLocal("partner_id")))
      case Bound(previous) =>
        match IdOf(previous)
        case Raise(e) => Effect(db, Raise(e))
        case Ok(partner) =>
          if m.mndtId.None? then Effect(db, Raise(NotNullViolation("reference")))
          else Effect(AddMandate(db, Mandate(m.mndtId.value, partner, Signed, None, None, None, None)),
                      Ok({db.nextMandate}))
  }

  /** Lines 130-147: the customer's address, name, external id and e-mail are overwritten
      from the debtor block; the language is not written here. An empty name is written
      as False, which the database refuses. */
  function EnrichSnapshotCustomer(db: Db, customer: set<nat>, m: MandateBlock, t: Tables): (r: Effect<()>)
    ensures r.db.mandates == db.mandates && r.db.nextMandate == db.nextMandate
    ensures r.db.nextPartner == db.nextPartner && r.db.partners.Keys == db.partners.Keys
    ensures forall id :: id in db.partners && id !in customer ==> r.db.partners[id] == db.partners[id]
    ensures Grows(db, r.db)
  {
    if customer == {} then Effect(db, Ok(()))
    else if m.dbtr.None? then Effect(db, Raise(AttributeError("get")))
    else match DebtorValues(m, t, OrFalse(m.dbtr.value.nm), Keep)
      case Raise(e) => Effect(db, Raise(e))
      case Ok(en) =>
        if en.name.None? then Effect(db, Raise(CheckViolation(CheckName)))
        else Effect(WritePartnerRecords(db, customer, en), Ok(()))
  }

  /** The values dict of line 156. */
  function SignValues(m: MandateBlock, partner: Option<nat>, code: Option<string>): MandateValues
  {
    MandateValues(Keep, Put(partner), Put(Signed), Put(OrFalse(m.dbtrAcct)), Put(Bic(m)), Put(code), Keep)
  }

  /** Lines 154-166: the mandates are signed and given the customer, account, BIC and
      language of the snapshot. */
  function SignSnapshotMandate(db: Db, mandates: set<nat>, customer: set<nat>, m: MandateBlock,
                               v: Carried, ctx: Context): (r: Outcome)
    ensures r.db.partners == db.partners && r.db.nextPartner == db.nextPartner
    ensures r.db.nextMandate == db.nextMandate && r.db.mandates.Keys == db.mandates.Keys
    ensures forall id :: id in db.mandates ==> r.db.mandates[id].reference == db.mandates[id].reference
    ensures Grows(db, r.db)
    ensures r.vars.partner == v.partner || r.vars.partner == Bound(customer)
  {
    if mandates == {} then Outcome(db, Carried(Bound(customer), v.lang), None)
    else if m.splmtryData.None? then Fail(db, v, TypeError(NoneNotIterable))
    else
      var langs := MessageLanguages(m.splmtryData.value, ctx.tables);
      match IdOf(customer)
      case Raise(e) => Fail(db, v, e)
      case Ok(partner) =>
        match CodeOf(ctx.tables, langs)
        case Raise(e) => Fail(db, v, e)
        case Ok(code) =>
          var w := Write(db, mandates, SignValues(m, partner, code), ctx.token, ctx.push);
          if w.result.Raise? then Fail(w.db, v, w.result.error)
          else Outcome(w.db, Carried(Bound(customer), Bound(langs)), None)
  }

  function Snapshot(db: Db, v: Carried, m: MandateBlock, ctx: Context): (r: Outcome)
    ensures Grows(db, r.db)
  {
    var placed := PlaceSnapshotMandate(db, MandatesWithReference(db, m.mndtId), v.partner, m);
    if placed.result.Raise? then Fail(placed.db, v, placed.result.error)
    else
      var who := ResolveCustomer(placed.db, v.partner, Some(m), ctx.tables);
      if who.result.Raise? then Fail(who.db, v, who.result.error)
      else
        var enriched := EnrichSnapshotCustomer(who.db, who.result.value, m, ctx.tables);
        if enriched.result.Raise? then Fail(enriched.db, v, enriched.result.error)
        else SignSnapshotMandate(enriched.db, placed.result.value, who.result.value, m, v, ctx)
  }

  // ---------------- the pass ----------------

  /** One message: amendment first, then cancellation, then snapshot; anything else is
      skipped. */
  function Step(db: Db, v: Carried, e: FeedEvent, ctx: Context): (r: Outcome)
    ensures Grows(db, r.db)
  {
    if e.amdmntRsn.Some? then Amend(db, v, e, ctx)
    else if e.cxlRsn.Some? then Cancel(db, v, e, ctx)
    else if e.mndt.Some? then Snapshot(db, v, e.mndt.value, ctx)
    else Outcome(db, v, None)
  }

  /** The handler around the pass turns a ValueError into the fixed access error; every
      other exception leaves the pass as it is. */
  function Caught(e: Error): (r: Error)
    ensures r != ExpectedSingleton
    ensures e != ExpectedSingleton ==> r == e
    ensures e == ExpectedSingleton ==> r == AccessError
  {
    if e == ExpectedSingleton then AccessError else e
  }

  /** The loop over the messages; the first exception ends it, and what was written
      before it stays written. */
  function Run(db: Db, msgs: seq<FeedEvent>, ctx: Context): (r: Outcome)
    ensures Grows(db, r.db)
    decreases |msgs|
  {
    if msgs == [] then Outcome(db, Fresh, None)
    else
      var before := Run(db, msgs[..|msgs| - 1], ctx);
      if before.error.Some? then before
      else
        var o := Step(before.db, before.vars, msgs[|msgs| - 1], ctx);
        if o.error.Some? then o.(error := Some(Caught(o.error.value))) else o
  }

  /** The body of `GET /creditor/mandate`: `{"Messages": [...]}`. */
  datatype FeedBody = FeedBody(messages: Option<seq<FeedEvent>>)

  /** Line 38: `Messages` is a non-empty list whose first message is not empty. */
  predicate HasMessages(b: FeedBody)
  {
    b.messages.Some? && |b.messages.value| > 0 && !IsEmptyMessage(b.messages.value[0])
  }

  datatype FeedResult = FeedResult(db: Db, error: Option<Error>)

  /** `update_feed`: nothing happens without a token; the body is parsed before the status
      is looked at, so a body that is not JSON is an access error whatever the status. */
  function UpdateFeed(db: Db, ctx: Context, reply: Reply<FeedBody>): (r: FeedResult)
    ensures Grows(db, r.db)
  {
    if !Truthy(ctx.token) then FeedResult(db, None)
    else match reply
      case Unreachable => FeedResult(db, Some(AccessError))
      case Replied(status, body) =>
        if body.None? then FeedResult(db, Some(AccessError))
        else if status != 200 || !HasMessages(body.value) then FeedResult(db, None)
        else
          var o := Run(db, body.value.messages.value, ctx);
          FeedResult(o.db, o.error)
  }
}
