/** Properties of the feed reconciliation. */
module ReconcileProps {
  import opened Common
  import opened Records
  import opened FeedEvents
  import opened MandateWrite
  import opened Reconcile

  // ---------------- facts about the record operations ----------------

  /** Writing the same values twice leaves what writing them once left. */
  lemma WriteMandateRecordsTwice(db: Db, ids: set<nat>, v: MandateValues)
    requires v.reference != Put(None)
    ensures WriteMandateRecords(WriteMandateRecords(db, ids, v), ids, v) == WriteMandateRecords(db, ids, v)
  {
    var once := WriteMandateRecords(db, ids, v);
    var twice := WriteMandateRecords(once, ids, v);
    assert twice.mandates == once.mandates;
  }

  /** Writing one record replaces that record alone. */
  lemma WriteOneMandate(db: Db, id: nat, v: MandateValues)
    requires v.reference != Put(None) && id in db.mandates
    ensures WriteMandateRecords(db, {id}, v) == db.(mandates := db.mandates[id := ApplyValues(db.mandates[id], v)])
  {
    assert WriteMandateRecords(db, {id}, v).mandates == db.mandates[id := ApplyValues(db.mandates[id], v)];
  }

  /** A write that does not touch `reference` keeps every search by reference. */
  lemma WriteKeepsReferences(db: Db, ids: set<nat>, v: MandateValues, ref: Option<string>)
    requires v.reference == Keep
    ensures WriteMandateRecords(db, ids, v).mandates.Keys == db.mandates.Keys
    ensures MandatesWithReference(WriteMandateRecords(db, ids, v), ref) == MandatesWithReference(db, ref)
  {
  }

  lemma WritePartnerRecordsTwice(db: Db, ids: set<nat>, en: Enrichment)
    ensures WritePartnerRecords(WritePartnerRecords(db, ids, en), ids, en) == WritePartnerRecords(db, ids, en)
  {
    var once := WritePartnerRecords(db, ids, en);
    var twice := WritePartnerRecords(once, ids, en);
    assert twice.partners == once.partners;
  }

  /** Once `write` has succeeded, repeating it leaves the database as it is, whatever the
      service answers (`again`): the second database write is a no-op, so the same fields
      are pushed. When the service answers those fields as before, the repeat succeeds. */
  lemma WriteRepeats(db: Db, ids: set<nat>, v: MandateValues, token: Option<string>,
                     push: UpdatePayload -> Reply<ErrorBody>, again: UpdatePayload -> Reply<ErrorBody>)
    requires Write(db, ids, v, token, push).result.Ok?
    ensures var w := Write(db, ids, v, token, push);
            && WriteMandateRecords(w.db, ids, v) == w.db
            && Write(w.db, ids, v, token, again).db == w.db
            && Write(w.db, ids, v, token, push) == w
  {
    WriteMandateRecordsTwice(db, ids, v);
  }

  /** A created mandate joins the search results for its reference and no other. */
  lemma AddMandateSearch(db: Db, m: Mandate, ref: Option<string>)
    requires db.nextMandate !in db.mandates
    ensures MandatesWithReference(AddMandate(db, m), ref) ==
            MandatesWithReference(db, ref) + (if Some(m.reference) == ref then {db.nextMandate} else {})
  {
  }

  // ---------------- the gate (lines 33-38) ----------------

  /** Messages are applied only with a token, a JSON body, status 200 and a non-empty
      `Messages` list whose first message is not empty; otherwise the store is unchanged,
      and an unanswered request or a body that is not JSON is an access error. */
  lemma FeedGate(db: Db, ctx: Context, reply: Reply<FeedBody>)
    ensures !Truthy(ctx.token) ==> UpdateFeed(db, ctx, reply) == FeedResult(db, None)
    ensures Truthy(ctx.token) && (reply.Unreachable? || reply.body.None?) ==>
              UpdateFeed(db, ctx, reply) == FeedResult(db, Some(AccessError))
    ensures reply.Replied? && reply.body.Some? && (reply.status != 200 || !HasMessages(reply.body.value)) ==>
              UpdateFeed(db, ctx, reply) == FeedResult(db, None)
  {
  }

  // ---------------- dispatch (lines 40, 110, 119) ----------------

  /** The three kinds of message are tried in a fixed order and exclude each other: an
      amendment ignores any cancellation reason, a cancellation ignores the `Mndt` block
      and the loop variables (and passes them on), and a message with none of the three
      keys changes nothing. */
  lemma DispatchOrder(db: Db, v: Carried, v': Carried, e: FeedEvent, ctx: Context,
                      otherReason: Option<Reason>, otherBlock: Option<MandateBlock>)
    ensures e.amdmntRsn.Some? ==>
              Step(db, v, e, ctx) == Step(db, v, e.(cxlRsn := otherReason), ctx)
    ensures e.amdmntRsn.None? && e.cxlRsn.Some? ==>
              && Step(db, v, e, ctx).db == Step(db, v', e.(mndt := otherBlock), ctx).db
              && Step(db, v, e, ctx).error == Step(db, v', e.(mndt := otherBlock), ctx).error
              && Step(db, v, e, ctx).vars == v
    ensures e.amdmntRsn.None? && e.cxlRsn.None? && e.mndt.None? ==>
              Step(db, v, e, ctx) == Outcome(db, v, None)
  {
  }

  // ---------------- cancellation (lines 110-118) ----------------

  /** A cancellation whose reference is known sets `state` to cancelled and `description`
      to the reason on every mandate with that reference, and changes nothing else,
      whatever the update push answers. */
  lemma CancelKnownReference(db: Db, v: Carried, e: FeedEvent, ctx: Context)
    requires e.amdmntRsn.None? && e.cxlRsn.Some?
    requires MandatesWithReference(db, e.orgnlMndtId) != {}
    ensures var o := Step(db, v, e, ctx);
            var found := MandatesWithReference(db, e.orgnlMndtId);
            && o.db.partners == db.partners
            && o.db.nextMandate == db.nextMandate && o.db.nextPartner == db.nextPartner
            && o.db.mandates.Keys == db.mandates.Keys
            && (forall id :: id in found ==>
                  o.db.mandates[id] == db.mandates[id].(state := Cancelled, description := e.cxlRsn.value.rsn))
            && (forall id :: id in db.mandates && id !in found ==> o.db.mandates[id] == db.mandates[id])
  {
  }

  /** A cancellation whose reference is unknown creates exactly one mandate: that
      reference, cancelled, with no partner, IBAN, BIC, language or description. */
  lemma CancelUnknownReference(db: Db, v: Carried, e: FeedEvent, ctx: Context)
    requires Valid(db)
    requires e.amdmntRsn.None? && e.cxlRsn.Some? && e.orgnlMndtId.Some?
    requires MandatesWithReference(db, e.orgnlMndtId) == {}
    ensures var o := Step(db, v, e, ctx);
            && o.error.None?
            && db.nextMandate !in db.mandates
            && o.db.mandates == db.mandates[db.nextMandate := Mandate(e.orgnlMndtId.value, None, Cancelled, None, None, None, None)]
            && o.db.partners == db.partners
            && MandatesWithReference(o.db, e.orgnlMndtId) == {db.nextMandate}
  {
    assert db.nextMandate !in db.mandates;
    AddMandateSearch(db, CancelledMandate(e.orgnlMndtId.value), e.orgnlMndtId);
  }

  /** The database part of a cancellation of a known reference is the write alone. */
  lemma CancelKnownWrites(db: Db, v: Carried, e: FeedEvent, ctx: Context)
    requires e.amdmntRsn.None? && e.cxlRsn.Some?
    requires MandatesWithReference(db, e.orgnlMndtId) != {}
    ensures Step(db, v, e, ctx).db ==
              WriteMandateRecords(db, MandatesWithReference(db, e.orgnlMndtId), CancelValues(e.cxlRsn.value.rsn))
  {
  }

  /** Repeating a cancellation of a known reference leaves the store as the first
      application left it. */
  lemma CancelKnownTwice(db: Db, v: Carried, e: FeedEvent, ctx: Context)
    requires e.amdmntRsn.None? && e.cxlRsn.Some?
    requires MandatesWithReference(db, e.orgnlMndtId) != {}
    ensures var once := Step(db, v, e, ctx).db;
            Step(once, v, e, ctx).db == once
  {
    var found := MandatesWithReference(db, e.orgnlMndtId);
    var values := CancelValues(e.cxlRsn.value.rsn);
    CancelKnownWrites(db, v, e, ctx);
    var once := WriteMandateRecords(db, found, values);
    WriteKeepsReferences(db, found, values, e.orgnlMndtId);
    CancelKnownWrites(once, v, e, ctx);
    WriteMandateRecordsTwice(db, found, values);
  }

  /** The second pass of a cancellation of an unknown reference writes the reason into
      the record the first pass created, and changes nothing else. */
  lemma CancelUnknownRepeated(db: Db, v: Carried, e: FeedEvent, ctx: Context)
    requires Valid(db)
    requires e.amdmntRsn.None? && e.cxlRsn.Some? && e.orgnlMndtId.Some?
    requires MandatesWithReference(db, e.orgnlMndtId) == {}
    ensures var once := Step(db, v, e, ctx).db;
            var created := CancelledMandate(e.orgnlMndtId.value);
            && once.mandates[db.nextMandate] == created
            && Step(once, v, e, ctx).db == once.(mandates := once.mandates[db.nextMandate := created.(description := e.cxlRsn.value.rsn)])
  {
    CancelUnknownReference(db, v, e, ctx);
    var once := Step(db, v, e, ctx).db;
    CancelKnownWrites(once, v, e, ctx);
    WriteOneMandate(once, db.nextMandate, CancelValues(e.cxlRsn.value.rsn));
  }

  /** A cancellation of an unknown reference is repeated without change exactly when it
      carries no reason text: the record it creates has no description, and the second
      pass, now finding the record, writes the reason into it. */
  lemma CancelUnknownTwice(db: Db, v: Carried, e: FeedEvent, ctx: Context)
    requires Valid(db)
    requires e.amdmntRsn.None? && e.cxlRsn.Some? && e.orgnlMndtId.Some?
    requires MandatesWithReference(db, e.orgnlMndtId) == {}
    ensures var once := Step(db, v, e, ctx).db;
            Step(once, v, e, ctx).db == once <==> e.cxlRsn.value.rsn == None
  {
    CancelUnknownRepeated(db, v, e, ctx);
    var once := Step(db, v, e, ctx).db;
    var created := CancelledMandate(e.orgnlMndtId.value);
    if e.cxlRsn.value.rsn == None {
      assert once.mandates[db.nextMandate := created.(description := None)] == once.mandates;
    }
  }

  // ---------------- customer matching (lines 42-48, 123-129) ----------------

  /** The partners `partner_id` may hold in `db`. */
  predicate CarriedIn(db: Db, v: Binding<set<nat>>)
  {
    v.Bound? ==> v.value <= db.partners.Keys
  }

  /** The external-id step (lines 42-43 and 123-124) leaves an empty `partner_id`: the
      message names an external id no partner carries, or names none and the loop
      variable holds an empty recordset. */
  predicate NoIdMatch(db: Db, carried: Binding<set<nat>>, mndt: Option<MandateBlock>)
  {
    || (ExternalId(mndt).Some? && PartnersWithExternalId(db, ExternalId(mndt).value) == {})
    || (ExternalId(mndt).None? && carried == Bound({}))
  }

  /** Customer matching, step by step: partners with the debtor's external id come first;
      when that step leaves nothing, the partners carrying the debtor's (non-empty) name;
      when that leaves nothing too, a new partner with only the name, which the database
      refuses when the debtor has no name. A partner is created only on that last step; a
      successful match is never empty and only holds existing partners. */
  lemma CustomerResolutionOrder(db: Db, carried: Binding<set<nat>>, mndt: Option<MandateBlock>, t: Tables)
    requires Valid(db)
    ensures var r := ResolveCustomer(db, carried, mndt, t);
            && (ExternalId(mndt).Some? && PartnersWithExternalId(db, ExternalId(mndt).value) != {} ==>
                  r == Effect(db, Ok(PartnersWithExternalId(db, ExternalId(mndt).value))))
            && (NoIdMatch(db, carried, mndt) && (mndt.None? || mndt.value.dbtr.None?) ==>
                  r == Effect(db, Raise(AttributeError("get"))))
    ensures var r := ResolveCustomer(db, carried, mndt, t);
            NoIdMatch(db, carried, mndt) && mndt.Some? && mndt.value.dbtr.Some? ==>
              var nm := mndt.value.dbtr.value.nm;
              && (Truthy(nm) && PartnersNamed(db, nm.value) != {} ==>
                    r == Effect(db, Ok(PartnersNamed(db, nm.value))))
              && (nm.None? ==> r == Effect(db, Raise(CheckViolation(CheckName))))
              && (nm.Some? && (nm.value == [] || PartnersNamed(db, nm.value) == {}) ==>
                    r == Effect(AddPartner(db, NewPartner(nm, t.userLang)), Ok({db.nextPartner})))
    ensures var r := ResolveCustomer(db, carried, mndt, t);
            && (r.db != db ==>
                  && mndt.Some? && mndt.value.dbtr.Some?
                  && NoIdMatch(db, carried, mndt)
                  && mndt.value.dbtr.value.nm.Some?
                  && (Truthy(mndt.value.dbtr.value.nm) ==> PartnersNamed(db, mndt.value.dbtr.value.nm.value) == {})
                  && db.nextPartner !in db.partners
                  && r.db == AddPartner(db, NewPartner(mndt.value.dbtr.value.nm, t.userLang))
                  && r.result == Ok({db.nextPartner}))
            && (r.db == db || r.db.mandates == db.mandates)
            && (r.result.Ok? ==> r.result.value != {})
    ensures var r := ResolveCustomer(db, carried, mndt, t);
            CarriedIn(db, carried) && r.result.Ok? ==> r.result.value <= r.db.partners.Keys
  {
  }

  /** Without an external id in the message, the customer is the `partner_id` left by an
      earlier message whenever that is not empty: the loop variable carries over. */
  lemma CustomerCarriesOver(db: Db, previous: set<nat>, mndt: Option<MandateBlock>, t: Tables)
    requires ExternalId(mndt).None? && previous != {}
    ensures ResolveCustomer(db, Bound(previous), mndt, t) == Effect(db, Ok(previous))
  {
  }

  /** On the first message, a snapshot or amendment without an external id fails: the
      loop variable `partner_id` has never been assigned. */
  lemma FirstMessageNeedsExternalId(db: Db, mndt: Option<MandateBlock>, t: Tables)
    requires ExternalId(mndt).None?
    ensures ResolveCustomer(db, Unbound, mndt, t).result == Raise(UnboundLocal("partner_id"))
  {
  }

  // ---------------- mandate snapshot (lines 119-166) ----------------

  /** A message that is neither an amendment nor a cancellation and has a `Mndt` block. */
  predicate IsSnapshot(e: FeedEvent)
  {
    e.amdmntRsn.None? && e.cxlRsn.None? && e.mndt.Some?
  }

  /** A snapshot of a mandate not yet stored, as the first message of a pass, always
      fails: the new mandate is linked to `partner_id` (line 122) before the message's own
      customer is looked up (lines 123-129), and nothing has assigned it yet. The store is
      left as it was, whatever the message says. */
  lemma FirstSnapshotOfNewMandateFails(db: Db, e: FeedEvent, ctx: Context)
    requires IsSnapshot(e) && MandatesWithReference(db, e.mndt.value.mndtId) == {}
    ensures Step(db, Fresh, e, ctx) == Outcome(db, Fresh, Some(UnboundLocal("partner_id")))
  {
  }

  lemma SameReferences(d1: Db, d2: Db, ref: Option<string>)
    requires d1.mandates.Keys == d2.mandates.Keys
    requires forall id :: id in d1.mandates ==> d2.mandates[id].reference == d1.mandates[id].reference
    ensures MandatesWithReference(d1, ref) == MandatesWithReference(d2, ref)
  {
  }

  /** After placing the mandate, a snapshot changes no mandate's reference and adds no
      mandate. */
  lemma SnapshotKeepsReferences(db: Db, v: Carried, e: FeedEvent, ctx: Context, ref: Option<string>)
    requires IsSnapshot(e)
    ensures var m := e.mndt.value;
            var placed := PlaceSnapshotMandate(db, MandatesWithReference(db, m.mndtId), v.partner, m);
            var o := Step(db, v, e, ctx);
            && o.db.mandates.Keys == placed.db.mandates.Keys
            && MandatesWithReference(o.db, ref) == MandatesWithReference(placed.db, ref)
  {
    var m := e.mndt.value;
    var placed := PlaceSnapshotMandate(db, MandatesWithReference(db, m.mndtId), v.partner, m);
    SameReferences(placed.db, Step(db, v, e, ctx).db, ref);
  }

  /** A snapshot of a known `MndtId` never adds a mandate, and the same records keep
      that reference. */
  lemma SnapshotKnownReference(db: Db, v: Carried, e: FeedEvent, ctx: Context)
    requires IsSnapshot(e) && MandatesWithReference(db, e.mndt.value.mndtId) != {}
    ensures var o := Step(db, v, e, ctx);
            var ref := e.mndt.value.mndtId;
            && o.db.mandates.Keys == db.mandates.Keys
            && MandatesWithReference(o.db, ref) == MandatesWithReference(db, ref)
  {
    SnapshotKeepsReferences(db, v, e, ctx, e.mndt.value.mndtId);
  }

  /** A successful snapshot of an unknown `MndtId` adds exactly one mandate, the only one
      with that reference. */
  lemma SnapshotUnknownReference(db: Db, v: Carried, e: FeedEvent, ctx: Context)
    requires Valid(db) && IsSnapshot(e) && MandatesWithReference(db, e.mndt.value.mndtId) == {}
    requires Step(db, v, e, ctx).error.None?
    ensures var o := Step(db, v, e, ctx);
            var ref := e.mndt.value.mndtId;
            && db.nextMandate !in db.mandates
            && o.db.mandates.Keys == db.mandates.Keys + {db.nextMandate}
            && MandatesWithReference(o.db, ref) == {db.nextMandate}
  {
    var m := e.mndt.value;
    var placed := PlaceSnapshotMandate(db, {}, v.partner, m);
    SnapshotKeepsReferences(db, v, e, ctx, m.mndtId);
    assert placed.result.Ok?;
    AddMandateSearch(db, placed.db.mandates[db.nextMandate], m.mndtId);
  }

  /** After a successful snapshot, the mandates with its `MndtId` are the ones it placed. */
  lemma SnapshotFindsPlaced(db: Db, v: Carried, e: FeedEvent, ctx: Context)
    requires Valid(db) && IsSnapshot(e) && Step(db, v, e, ctx).error.None?
    ensures var m := e.mndt.value;
            var placed := PlaceSnapshotMandate(db, MandatesWithReference(db, m.mndtId), v.partner, m);
            placed.result.Ok? && MandatesWithReference(Step(db, v, e, ctx).db, m.mndtId) == placed.result.value
  {
    if MandatesWithReference(db, e.mndt.value.mndtId) == {} {
      SnapshotUnknownReference(db, v, e, ctx);
    } else {
      SnapshotKnownReference(db, v, e, ctx);
    }
  }

  /** A successful snapshot is the placement, the customer match, the enrichment and the
      signing, each succeeding in turn. */
  lemma SnapshotStages(db: Db, v: Carried, e: FeedEvent, ctx: Context)
    requires IsSnapshot(e) && Step(db, v, e, ctx).error.None?
    ensures var m := e.mndt.value;
            var placed := PlaceSnapshotMandate(db, MandatesWithReference(db, m.mndtId), v.partner, m);
            && placed.result.Ok?
            && var who := ResolveCustomer(placed.db, v.partner, Some(m), ctx.tables);
               && who.result.Ok?
               && var enriched := EnrichSnapshotCustomer(who.db, who.result.value, m, ctx.tables);
                  && enriched.result.Ok?
                  && Step(db, v, e, ctx) ==
                       SignSnapshotMandate(enriched.db, placed.result.value, who.result.value, m, v, ctx)
  {
  }

  /** A successful signing of a non-empty set of mandates for a non-empty customer: the
      customer is one partner, and the mandates get the values of line 156. */
  lemma SigningSucceeded(db: Db, mandates: set<nat>, customer: set<nat>, m: MandateBlock, v: Carried, ctx: Context)
    requires mandates != {} && customer != {}
    requires SignSnapshotMandate(db, mandates, customer, m, v, ctx).error.None?
    ensures m.splmtryData.Some?
    ensures var langs := MessageLanguages(m.splmtryData.value, ctx.tables);
            var r := SignSnapshotMandate(db, mandates, customer, m, v, ctx);
            && IdOf(customer).Ok? && IdOf(customer).value.Some?
            && CodeOf(ctx.tables, langs).Ok?
            && r.vars == Carried(Bound(customer), Bound(langs))
            && r.db == WriteMandateRecords(db, mandates, SignValues(m, IdOf(customer).value, CodeOf(ctx.tables, langs).value))
  {
  }

  /** After a successful snapshot, every mandate with the snapshot's `MndtId` is signed
      and carries the debtor's account, BIC and language and the matched customer, who is
      a single partner; the loop variables now hold that customer and the message's
      language. An ISO code that matches no installed language leaves the language False
      rather than failing. */
  lemma SnapshotSignsMandates(db: Db, v: Carried, e: FeedEvent, ctx: Context)
    requires Valid(db) && IsSnapshot(e)
    requires Step(db, v, e, ctx).error.None?
    ensures var o := Step(db, v, e, ctx);
            var m := e.mndt.value;
            && m.splmtryData.Some?
            && o.vars.lang == Bound(MessageLanguages(m.splmtryData.value, ctx.tables))
            && o.vars.partner.Bound? && |o.vars.partner.value| == 1
            && MandatesWithReference(o.db, m.mndtId) != {}
            && forall id :: id in MandatesWithReference(o.db, m.mndtId) ==>
                 && o.db.mandates[id].state == Signed
                 && o.db.mandates[id].partner.Some?
                 && o.vars.partner.value == {o.db.mandates[id].partner.value}
                 && o.db.mandates[id].iban == OrFalse(m.dbtrAcct)
                 && o.db.mandates[id].bic == Bic(m)
                 && CodeOf(ctx.tables, o.vars.lang.value) == Ok(o.db.mandates[id].lang)
                 && (o.vars.lang.value == {} ==> o.db.mandates[id].lang == None)
  {
    var m := e.mndt.value;
    var t := ctx.tables;
    var found := MandatesWithReference(db, m.mndtId);
    var placed := PlaceSnapshotMandate(db, found, v.partner, m);
    var who := ResolveCustomer(placed.db, v.partner, Some(m), t);
    SnapshotStages(db, v, e, ctx);
    var enriched := EnrichSnapshotCustomer(who.db, who.result.value, m, t);
    var mandates := placed.result.value;
    SigningSucceeded(enriched.db, mandates, who.result.value, m, v, ctx);
    SnapshotFindsPlaced(db, v, e, ctx);
  }

  /** The snapshot's partner write (lines 130-147) on existing partners. */
  lemma EnrichmentWritten(db: Db, customer: set<nat>, m: MandateBlock, t: Tables)
    requires customer != {} && customer <= db.partners.Keys
    requires EnrichSnapshotCustomer(db, customer, m, t).result.Ok?
    ensures m.dbtr.Some?
    ensures var r := EnrichSnapshotCustomer(db, customer, m, t);
            var adr := m.dbtr.value.pstlAdr;
            forall id :: id in customer ==>
                 && r.db.partners[id].name == OrFalse(m.dbtr.value.nm)
                 && r.db.partners[id].twikeyReference == ExternalIdOrEmpty(Some(m))
                 && r.db.partners[id].email == Email(m)
                 && r.db.partners[id].street == (if adr.Some? then OrFalse(adr.value.adrLine) else None)
                 && r.db.partners[id].zip == (if adr.Some? then OrFalse(adr.value.pstCd) else None)
                 && r.db.partners[id].city == (if adr.Some? then OrFalse(adr.value.twnNm) else None)
                 && IdOf(if adr.Some? then CountriesWithCode(t, adr.value.ctry) else {})
                      == Ok(r.db.partners[id].country)
  {
  }

  /** After a successful snapshot the matched customer's name, external id, e-mail and
      address are exactly those of the debtor block: a field the block lacks is cleared,
      and a missing postal address clears the country too. Every other partner that
      existed before is unchanged. */
  lemma SnapshotEnrichesCustomer(db: Db, v: Carried, e: FeedEvent, ctx: Context)
    requires Valid(db) && CarriedIn(db, v.partner) && IsSnapshot(e)
    requires Step(db, v, e, ctx).error.None?
    ensures var r := Step(db, v, e, ctx);
            var m := e.mndt.value;
            var t := ctx.tables;
            && m.dbtr.Some?
            && r.vars.partner.Bound? && r.vars.partner.value <= r.db.partners.Keys
            && var adr := m.dbtr.value.pstlAdr;
               forall id :: id in r.vars.partner.value ==>
                 && r.db.partners[id].name == OrFalse(m.dbtr.value.nm)
                 && r.db.partners[id].twikeyReference == ExternalIdOrEmpty(Some(m))
                 && r.db.partners[id].email == Email(m)
                 && r.db.partners[id].street == (if adr.Some? then OrFalse(adr.value.adrLine) else None)
                 && r.db.partners[id].zip == (if adr.Some? then OrFalse(adr.value.pstCd) else None)
                 && r.db.partners[id].city == (if adr.Some? then OrFalse(adr.value.twnNm) else None)
                 && IdOf(if adr.Some? then CountriesWithCode(t, adr.value.ctry) else {})
                      == Ok(r.db.partners[id].country)
    ensures var r := Step(db, v, e, ctx);
            forall id :: id in db.partners && id !in r.vars.partner.value ==>
              r.db.partners[id] == db.partners[id]
  {
    var m := e.mndt.value;
    var t := ctx.tables;
    var found := MandatesWithReference(db, m.mndtId);
    var placed := PlaceSnapshotMandate(db, found, v.partner, m);
    var who := ResolveCustomer(placed.db, v.partner, Some(m), t);
    SnapshotStages(db, v, e, ctx);
    CustomerResolutionOrder(placed.db, v.partner, Some(m), t);
    var customer := who.result.value;
    EnrichmentWritten(who.db, customer, m, t);
    var enriched := EnrichSnapshotCustomer(who.db, customer, m, t);
    SigningSucceeded(enriched.db, placed.result.value, customer, m, v, ctx);
  }

  /** Once the customer's external id has been written, searching by it finds exactly the
      customer the match chose. */
  lemma ExternalIdFindsCustomer(db: Db, carried: Binding<set<nat>>, m: MandateBlock, t: Tables, en: Enrichment)
    requires Valid(db) && CarriedIn(db, carried)
    requires ExternalId(Some(m)).Some? && en.twikeyReference == ExternalId(Some(m))
    requires ResolveCustomer(db, carried, Some(m), t).result.Ok?
    ensures var who := ResolveCustomer(db, carried, Some(m), t);
            PartnersWithExternalId(WritePartnerRecords(who.db, who.result.value, en), ExternalId(Some(m)).value)
              == who.result.value
  {
    var x := ExternalId(Some(m)).value;
    var who := ResolveCustomer(db, carried, Some(m), t);
    var customer := who.result.value;
    var d := WritePartnerRecords(who.db, customer, en);
    CustomerResolutionOrder(db, carried, Some(m), t);
    forall id | id in d.partners && id !in customer
      ensures d.partners[id].twikeyReference != Some(x)
    {
      if id in db.partners {
        assert who.db.partners[id] == db.partners[id];
        assert id !in PartnersWithExternalId(db, x);
      }
    }
  }

  /** A snapshot applied a second time, with the loop variables the first application
      left, finds the same mandates and the same customer, writes the same values and
      gets the same answer from the service: it changes nothing. */
  lemma SnapshotIdempotent(db: Db, v: Carried, e: FeedEvent, ctx: Context)
    requires Valid(db) && CarriedIn(db, v.partner) && IsSnapshot(e)
    requires Step(db, v, e, ctx).error.None?
    ensures var r := Step(db, v, e, ctx);
            Step(r.db, r.vars, e, ctx) == r
  {
    var m := e.mndt.value;
    var t := ctx.tables;
    var found := MandatesWithReference(db, m.mndtId);
    var placed := PlaceSnapshotMandate(db, found, v.partner, m);
    var who := ResolveCustomer(placed.db, v.partner, Some(m), t);
    SnapshotStages(db, v, e, ctx);
    assert Valid(placed.db);
    CustomerResolutionOrder(placed.db, v.partner, Some(m), t);
    var mandates := placed.result.value;
    var customer := who.result.value;
    var enriched := EnrichSnapshotCustomer(who.db, customer, m, t);
    SigningSucceeded(enriched.db, mandates, customer, m, v, ctx);
    var r := Step(db, v, e, ctx);

    // the mandates are found again, so none is created
    SnapshotFindsPlaced(db, v, e, ctx);
    assert MandatesWithReference(r.db, m.mndtId) == mandates;

    // the same customer is matched
    EnrichmentWritten(who.db, customer, m, t);
    var en := DebtorValues(m, t, OrFalse(m.dbtr.value.nm), Keep).value;
    assert enriched.db == WritePartnerRecords(who.db, customer, en);
    if ExternalId(Some(m)).Some? {
      ExternalIdFindsCustomer(placed.db, v.partner, m, t, en);
    }
    assert ResolveCustomer(r.db, r.vars.partner, Some(m), t) == Effect(r.db, Ok(customer));

    // the partner write repeats what is already stored
    WritePartnerRecordsTwice(who.db, customer, en);
    assert WritePartnerRecords(r.db, customer, en) == r.db;
    assert EnrichSnapshotCustomer(r.db, customer, m, t) == Effect(r.db, Ok(()));

    // the mandate write repeats what is already stored, and pushes the same fields
    var langs := MessageLanguages(m.splmtryData.value, t);
    var values := SignValues(m, IdOf(customer).value, CodeOf(t, langs).value);
    WriteRepeats(enriched.db, mandates, values, ctx.token, ctx.push, ctx.push);
  }

  // ---------------- amendment (lines 40-109) ----------------

  /** A successful amendment: the customer was matched, and the known or unknown branch
      ran to its end. */
  lemma AmendmentStages(db: Db, v: Carried, e: FeedEvent, ctx: Context)
    requires e.amdmntRsn.Some? && Step(db, v, e, ctx).error.None?
    ensures var who := ResolveCustomer(db, v.partner, e.mndt, ctx.tables);
            var found := MandatesWithReference(db, e.orgnlMndtId);
            && who.result.Ok?
            && (found != {} ==> Step(db, v, e, ctx) == AmendKnown(who.db, found, who.result.value, e.mndt, v, ctx))
            && (found == {} ==> Step(db, v, e, ctx) == AmendUnknown(who.db, who.result.value, e.mndt, v, ctx))
  {
  }

  /** The known branch, run to its end for a non-empty customer: the mandates get the
      values of lines 54-61, then the customer the debtor's values with the language. */
  lemma AmendKnownSucceeded(db: Db, found: set<nat>, customer: set<nat>, mndt: Option<MandateBlock>,
                            v: Carried, ctx: Context)
    requires customer != {} && AmendKnown(db, found, customer, mndt, v, ctx).error.None?
    ensures mndt.Some? && mndt.value.splmtryData.Some? && mndt.value.dbtr.Some?
    ensures var m := mndt.value;
            var t := ctx.tables;
            var langs := MessageLanguages(m.splmtryData.value, t);
            var r := AmendKnown(db, found, customer, mndt, v, ctx);
            && IdOf(customer).Ok? && IdOf(customer).value.Some?
            && CodeOf(t, langs).Ok?
            && Truthy(m.mndtId)
            && DebtorValues(m, t, m.dbtr.value.nm, Put(CodeOf(t, langs).value)).Ok?
            && r.vars == Carried(Bound(customer), Bound(langs))
            && r.db == WritePartnerRecords(
                         WriteMandateRecords(db, found, AmendValues(m, IdOf(customer).value, CodeOf(t, langs).value)),
                         customer, DebtorValues(m, t, m.dbtr.value.nm, Put(CodeOf(t, langs).value)).value)
  {
  }

  /** A search by reference depends on the mandates alone. */
  lemma SameMandatesSameSearch(d: Db, d': Db, ref: Option<string>)
    requires d.mandates == d'.mandates
    ensures MandatesWithReference(d, ref) == MandatesWithReference(d', ref)
  {
  }

  /** The mandate write of an amendment of a known reference: the mandates found by the
      original reference get the new reference, customer, state, account, BIC and
      language; the others stay; none keeps the original reference unless it is the new
      one. */
  lemma AmendedMandates(db: Db, ref: Option<string>, m: MandateBlock, partner: Option<nat>, code: Option<string>)
    requires Truthy(m.mndtId)
    ensures var found := MandatesWithReference(db, ref);
            var w := WriteMandateRecords(db, found, AmendValues(m, partner, code));
            && w.mandates.Keys == db.mandates.Keys
            && (forall id :: id in found ==>
                  w.mandates[id] == Mandate(m.mndtId.value, partner, Signed, OrFalse(m.dbtrAcct), Bic(m), code,
                                            db.mandates[id].description))
            && (forall id :: id in db.mandates && id !in found ==> w.mandates[id] == db.mandates[id])
            && (ref != m.mndtId ==> MandatesWithReference(w, ref) == {})
  {
  }

  /** A successful amendment of a known reference re-points every mandate with that
      reference to the new `MndtId`, signs it and gives it the debtor's account, BIC and
      language and the single matched customer; no mandate is added or otherwise changed,
      and the original reference no longer names any mandate. */
  lemma AmendKnownReference(db: Db, v: Carried, e: FeedEvent, ctx: Context)
    requires Valid(db) && CarriedIn(db, v.partner) && e.amdmntRsn.Some?
    requires MandatesWithReference(db, e.orgnlMndtId) != {}
    requires Step(db, v, e, ctx).error.None?
    ensures var r := Step(db, v, e, ctx);
            var found := MandatesWithReference(db, e.orgnlMndtId);
            && e.mndt.Some? && Truthy(e.mndt.value.mndtId)
            && r.db.mandates.Keys == db.mandates.Keys && r.db.nextMandate == db.nextMandate
            && r.vars.partner.Bound? && r.vars.lang.Bound?
            && (forall id :: id in found ==>
                  && r.db.mandates[id].reference == e.mndt.value.mndtId.value
                  && r.db.mandates[id].state == Signed
                  && r.db.mandates[id].iban == OrFalse(e.mndt.value.dbtrAcct)
                  && r.db.mandates[id].bic == Bic(e.mndt.value)
                  && r.db.mandates[id].partner.Some?
                  && r.vars.partner.value == {r.db.mandates[id].partner.value}
                  && CodeOf(ctx.tables, r.vars.lang.value) == Ok(r.db.mandates[id].lang))
            && (forall id :: id in db.mandates && id !in found ==> r.db.mandates[id] == db.mandates[id])
            && (e.orgnlMndtId != e.mndt.value.mndtId ==> MandatesWithReference(r.db, e.orgnlMndtId) == {})
  {
    var t := ctx.tables;
    var found := MandatesWithReference(db, e.orgnlMndtId);
    var who := ResolveCustomer(db, v.partner, e.mndt, t);
    AmendmentStages(db, v, e, ctx);
    CustomerResolutionOrder(db, v.partner, e.mndt, t);
    AmendKnownSucceeded(who.db, found, who.result.value, e.mndt, v, ctx);
    var m := e.mndt.value;
    var code := CodeOf(t, MessageLanguages(m.splmtryData.value, t)).value;
    var mid := WriteMandateRecords(who.db, found, AmendValues(m, IdOf(who.result.value).value, code));
    SameMandatesSameSearch(db, who.db, e.orgnlMndtId);
    AmendedMandates(who.db, e.orgnlMndtId, m, IdOf(who.result.value).value, code);
    SameMandatesSameSearch(Step(db, v, e, ctx).db, mid, e.orgnlMndtId);
  }

  /** An amendment whose customer is found by external id reuses that customer: no
      partner is created, and the customer's name, language, e-mail and address are
      overwritten from the debtor block, a field the block lacks being cleared. */
  lemma AmendKnownReusesCustomer(db: Db, v: Carried, e: FeedEvent, ctx: Context)
    requires e.amdmntRsn.Some? && MandatesWithReference(db, e.orgnlMndtId) != {}
    requires ExternalId(e.mndt).Some? && PartnersWithExternalId(db, ExternalId(e.mndt).value) != {}
    requires Step(db, v, e, ctx).error.None?
    ensures var r := Step(db, v, e, ctx);
            var customer := PartnersWithExternalId(db, ExternalId(e.mndt).value);
            var m := e.mndt.value;
            var t := ctx.tables;
            && r.db.partners.Keys == db.partners.Keys && r.db.nextPartner == db.nextPartner
            && r.vars.partner == Bound(customer)
            && m.dbtr.Some? && r.vars.lang.Bound?
            && var adr := m.dbtr.value.pstlAdr;
               forall id :: id in customer ==>
                 && r.db.partners[id].name == m.dbtr.value.nm
                 && r.db.partners[id].twikeyReference == ExternalId(e.mndt)
                 && r.db.partners[id].email == Email(m)
                 && CodeOf(t, r.vars.lang.value) == Ok(r.db.partners[id].lang)
                 && r.db.partners[id].street == (if adr.Some? then OrFalse(adr.value.adrLine) else None)
                 && r.db.partners[id].zip == (if adr.Some? then OrFalse(adr.value.pstCd) else None)
                 && r.db.partners[id].city == (if adr.Some? then OrFalse(adr.value.twnNm) else None)
                 && IdOf(if adr.Some? then CountriesWithCode(t, adr.value.ctry) else {})
                      == Ok(r.db.partners[id].country)
  {
    var found := MandatesWithReference(db, e.orgnlMndtId);
    var who := ResolveCustomer(db, v.partner, e.mndt, ctx.tables);
    AmendmentStages(db, v, e, ctx);
    AmendKnownSucceeded(who.db, found, who.result.value, e.mndt, v, ctx);
  }

  /** A successful amendment of an unknown reference creates one mandate from the event,
      signed, for the single matched customer, with the language an earlier message left in
      `lang_id` rather than this message's; existing partners are not enriched, and
      `lang_id` is passed on as it was. */
  lemma AmendUnknownReference(db: Db, v: Carried, e: FeedEvent, ctx: Context)
    requires Valid(db) && e.amdmntRsn.Some?
    requires MandatesWithReference(db, e.orgnlMndtId) == {}
    requires Step(db, v, e, ctx).error.None?
    ensures var r := Step(db, v, e, ctx);
            var m := e.mndt.value;
            && e.mndt.Some? && m.mndtId.Some? && v.lang.Bound?
            && db.nextMandate !in db.mandates
            && r.db.nextMandate == db.nextMandate + 1
            && r.vars.partner.Bound? && r.vars.lang == v.lang
            && (forall id :: id in db.partners ==> r.db.partners[id] == db.partners[id])
            && db.nextMandate in r.db.mandates
            && var created := r.db.mandates[db.nextMandate];
               && created.partner.Some? && r.vars.partner.value == {created.partner.value}
               && r.db.mandates == db.mandates[db.nextMandate := Mandate(m.mndtId.value, created.partner, Signed,
                                    OrFalse(m.dbtrAcct), Bic(m), CodeOf(ctx.tables, v.lang.value).value, None)]
  {
    var who := ResolveCustomer(db, v.partner, e.mndt, ctx.tables);
    AmendmentStages(db, v, e, ctx);
    CustomerResolutionOrder(db, v.partner, e.mndt, ctx.tables);
    var p := IdOf(who.result.value).value.value;
    assert who.result.value == {p};
  }

  /** Applying a successful amendment of a known reference a second time does not leave
      the store as it was: the original reference is gone, so the second pass takes the
      unknown-reference branch and creates another mandate with the new `MndtId`. */
  lemma AmendmentTwiceDuplicates(db: Db, v: Carried, e: FeedEvent, ctx: Context)
    requires Valid(db) && CarriedIn(db, v.partner) && e.amdmntRsn.Some?
    requires MandatesWithReference(db, e.orgnlMndtId) != {}
    requires e.mndt.Some? && e.orgnlMndtId != e.mndt.value.mndtId
    requires Step(db, v, e, ctx).error.None?
    requires var once := Step(db, v, e, ctx); Step(once.db, once.vars, e, ctx).error.None?
    ensures var once := Step(db, v, e, ctx);
            var twice := Step(once.db, once.vars, e, ctx);
            var ref := e.mndt.value.mndtId;
            && MandatesWithReference(once.db, ref) != {}
            && once.db.nextMandate !in MandatesWithReference(once.db, ref)
            && MandatesWithReference(twice.db, ref) == MandatesWithReference(once.db, ref) + {once.db.nextMandate}
  {
    var once := Step(db, v, e, ctx);
    var ref := e.mndt.value.mndtId;
    AmendKnownReference(db, v, e, ctx);
    StepKeepsInvariant(db, v, e, ctx);
    AmendUnknownReference(once.db, once.vars, e, ctx);
    var twice := Step(once.db, once.vars, e, ctx);
    var created := twice.db.mandates[once.db.nextMandate];
    assert twice.db.mandates == AddMandate(once.db, created).mandates;
    AddMandateSearch(once.db, created, ref);
    SameReferences(twice.db, AddMandate(once.db, created), ref);
    var someFound :| someFound in MandatesWithReference(db, e.orgnlMndtId);
    assert someFound in MandatesWithReference(once.db, ref);
  }

  // A feed of two snapshots, run twice. The first names its customer by external id "A";
  // the second names none, so it inherits the first one's customer in `partner_id`.

  const RerunCtx: Context := Context(None, Tables(map[], map[], None), (u: UpdatePayload) => Unreachable)
  const RerunFirst: FeedEvent := FeedEvent(None, None, None, Some(MandateBlock(Some("r1"),
    Some(Debtor(Some("a"), None, Some(ContactDetails(Some("A"), None)))), None, None, Some([]))), false)
  const RerunSecond: FeedEvent := FeedEvent(None, None, None, Some(MandateBlock(Some("r2"),
    Some(Debtor(Some("b"), None, None)), None, None, Some([]))), false)
  /** The customer as the first snapshot describes it, and as the second overwrites it. */
  const PartnerA: Partner := Partner(Some("a"), Some("A"), None, None, None, None, None, None, Person, None)
  const PartnerB: Partner := Partner(Some("b"), Some(""), None, None, None, None, None, None, Person, None)

  function Unsigned(reference: string): Mandate
  {
    Mandate(reference, None, MandateState.Pending, None, None, None, None)
  }

  function SignedFor(reference: string, partner: nat): Mandate
  {
    Mandate(reference, Some(partner), Signed, None, None, None, None)
  }

  function CustomerIs(partner: nat): Carried
  {
    Carried(Bound({partner}), Bound({}))
  }

  const RerunStart: Db := Db(map[0 := Unsigned("r1"), 1 := Unsigned("r2")], map[0 := PartnerA], 2, 1)

  /** The store after the first run. */
  const RerunOnce: Db := Db(map[0 := SignedFor("r1", 0), 1 := SignedFor("r2", 0)], map[0 := PartnerB], 2, 1)

  /** The store after the first run's first snapshot. */
  const RerunAfterFirst: Db := Db(map[0 := SignedFor("r1", 0), 1 := Unsigned("r2")], map[0 := PartnerA], 2, 1)

  lemma RerunKnownCustomerEnriched()
    ensures EnrichSnapshotCustomer(RerunStart, {0}, RerunFirst.mndt.value, RerunCtx.tables) == Effect(RerunStart, Ok(()))
  {
    var r := EnrichSnapshotCustomer(RerunStart, {0}, RerunFirst.mndt.value, RerunCtx.tables);
    assert r.db.partners == map[0 := PartnerA];
  }

  lemma RerunSignsForKnownCustomer()
    ensures SignSnapshotMandate(RerunStart, {0}, {0}, RerunFirst.mndt.value, Fresh, RerunCtx) ==
              Outcome(RerunAfterFirst, CustomerIs(0), None)
  {
  }

  lemma RerunFirstRunFirstStep()
    ensures Step(RerunStart, Fresh, RerunFirst, RerunCtx) == Outcome(RerunAfterFirst, CustomerIs(0), None)
  {
    assert MandatesWithReference(RerunStart, Some("r1")) == {0};
    assert PartnersWithExternalId(RerunStart, "A") == {0};
    RerunKnownCustomerEnriched();
    RerunSignsForKnownCustomer();
  }

  lemma RerunCarriedCustomerEnriched()
    ensures EnrichSnapshotCustomer(RerunAfterFirst, {0}, RerunSecond.mndt.value, RerunCtx.tables) ==
              Effect(RerunAfterFirst.(partners := map[0 := PartnerB]), Ok(()))
  {
    var r := EnrichSnapshotCustomer(RerunAfterFirst, {0}, RerunSecond.mndt.value, RerunCtx.tables);
    assert r.db.partners == map[0 := PartnerB];
  }

  lemma RerunSignsForCarriedCustomer()
    ensures SignSnapshotMandate(RerunAfterFirst.(partners := map[0 := PartnerB]), {1}, {0}, RerunSecond.mndt.value,
                                CustomerIs(0), RerunCtx) == Outcome(RerunOnce, CustomerIs(0), None)
  {
  }

  lemma RerunFirstRunSecondStep()
    ensures Step(RerunAfterFirst, CustomerIs(0), RerunSecond, RerunCtx) == Outcome(RerunOnce, CustomerIs(0), None)
  {
    assert MandatesWithReference(RerunAfterFirst, Some("r2")) == {1};
    RerunCarriedCustomerEnriched();
    RerunSignsForCarriedCustomer();
  }

  lemma RerunCreatesCustomer()
    ensures ResolveCustomer(RerunOnce, Unbound, RerunFirst.mndt, RerunCtx.tables) ==
              Effect(RerunOnce.(partners := map[0 := PartnerB, 1 := NewPartner(Some("a"), None)], nextPartner := 2), Ok({1}))
  {
    assert PartnersWithExternalId(RerunOnce, "A") == {};
    assert PartnersNamed(RerunOnce, "a") == {};
  }

  lemma RerunEnrichesCreatedCustomer()
    ensures var db := RerunOnce.(partners := map[0 := PartnerB, 1 := NewPartner(Some("a"), None)], nextPartner := 2);
            EnrichSnapshotCustomer(db, {1}, RerunFirst.mndt.value, RerunCtx.tables) ==
              Effect(db.(partners := map[0 := PartnerB, 1 := PartnerA]), Ok(()))
  {
    var db := RerunOnce.(partners := map[0 := PartnerB, 1 := NewPartner(Some("a"), None)], nextPartner := 2);
    var r := EnrichSnapshotCustomer(db, {1}, RerunFirst.mndt.value, RerunCtx.tables);
    assert r.db.partners == map[0 := PartnerB, 1 := PartnerA];
  }

  lemma RerunSignsForCreatedCustomer()
    ensures var db := RerunOnce.(partners := map[0 := PartnerB, 1 := PartnerA], nextPartner := 2);
            SignSnapshotMandate(db, {0}, {1}, RerunFirst.mndt.value, Fresh, RerunCtx) ==
              Outcome(db.(mandates := map[0 := SignedFor("r1", 1), 1 := SignedFor("r2", 0)]), CustomerIs(1), None)
  {
  }

  /** The store after the second run's first snapshot. */
  const RerunMid: Db := Db(map[0 := SignedFor("r1", 1), 1 := SignedFor("r2", 0)], map[0 := PartnerB, 1 := PartnerA], 2, 2)

  lemma RerunSecondRunFirstStep()
    ensures Step(RerunOnce, Fresh, RerunFirst, RerunCtx) == Outcome(RerunMid, CustomerIs(1), None)
  {
    assert MandatesWithReference(RerunOnce, Some("r1")) == {0};
    RerunCreatesCustomer();
    RerunEnrichesCreatedCustomer();
    RerunSignsForCreatedCustomer();
  }

  lemma RerunInheritedCustomerEnriched()
    ensures EnrichSnapshotCustomer(RerunMid, {1}, RerunSecond.mndt.value, RerunCtx.tables) ==
              Effect(RerunMid.(partners := map[0 := PartnerB, 1 := PartnerB]), Ok(()))
  {
    var r := EnrichSnapshotCustomer(RerunMid, {1}, RerunSecond.mndt.value, RerunCtx.tables);
    assert r.db.partners == map[0 := PartnerB, 1 := PartnerB];
  }

  lemma RerunSignsForInheritedCustomer()
    ensures var db := RerunMid.(partners := map[0 := PartnerB, 1 := PartnerB]);
            SignSnapshotMandate(db, {1}, {1}, RerunSecond.mndt.value, CustomerIs(1), RerunCtx) ==
              Outcome(db.(mandates := map[0 := SignedFor("r1", 1), 1 := SignedFor("r2", 1)]), CustomerIs(1), None)
  {
  }

  lemma RerunSecondRunSecondStep()
    ensures Step(RerunMid, CustomerIs(1), RerunSecond, RerunCtx) ==
              Outcome(Db(map[0 := SignedFor("r1", 1), 1 := SignedFor("r2", 1)], map[0 := PartnerB, 1 := PartnerB], 2, 2),
                      CustomerIs(1), None)
  {
    assert MandatesWithReference(RerunMid, Some("r2")) == {1};
    RerunInheritedCustomerEnriched();
    RerunSignsForInheritedCustomer();
  }

  /** A feed of two messages that both succeed ends where the second one leaves the store. */
  lemma RunOfTwo(db: Db, first: FeedEvent, second: FeedEvent, ctx: Context, mid: Db, v: Carried, out: Outcome)
    requires Step(db, Fresh, first, ctx) == Outcome(mid, v, None)
    requires Step(mid, v, second, ctx) == out && out.error.None?
    ensures Run(db, [first, second], ctx) == out
  {
    assert [first][..0] == [];
    assert Run(db, [first], ctx) == Outcome(mid, v, None);
    assert [first, second][..1] == [first];
  }

  /** Re-running a feed of snapshots does not leave the store as one run did. The second
      snapshot of the feed names no external id, so it overwrites the customer it inherits
      in `partner_id` (lines 141-144), name and external id included. On the second run no
      partner carries the first snapshot's external id or name any more, so that snapshot
      creates a partner (lines 128-129), which the second snapshot then overwrites. */
  lemma SnapshotFeedRerunAddsPartner()
    ensures var feed := [RerunFirst, RerunSecond];
            var once := Run(RerunStart, feed, RerunCtx);
            var twice := Run(once.db, feed, RerunCtx);
            && once.error.None? && twice.error.None?
            && once.db.partners == map[0 := PartnerB]
            && twice.db.partners == map[0 := PartnerB, 1 := PartnerB]
  {
    RerunFirstRunFirstStep();
    RerunFirstRunSecondStep();
    RunOfTwo(RerunStart, RerunFirst, RerunSecond, RerunCtx, RerunAfterFirst, CustomerIs(0),
             Outcome(RerunOnce, CustomerIs(0), None));
    RerunSecondRunFirstStep();
    RerunSecondRunSecondStep();
    RunOfTwo(RerunOnce, RerunFirst, RerunSecond, RerunCtx, RerunMid, CustomerIs(1),
             Outcome(Db(map[0 := SignedFor("r1", 1), 1 := SignedFor("r2", 1)], map[0 := PartnerB, 1 := PartnerB], 2, 2),
                     CustomerIs(1), None));
  }

  // ---------------- the pass ----------------

  /** The store's invariant after a message that started from `db`: the id sequences
      are ahead of the stored ids, `partner_id` holds only partners that exist, and no
      record was deleted. */
  predicate KeptInvariant(db: Db, r: Outcome)
  {
    && Valid(r.db) && CarriedIn(r.db, r.vars.partner)
    && db.mandates.Keys <= r.db.mandates.Keys && db.partners.Keys <= r.db.partners.Keys
  }

  lemma AmendKeepsInvariant(db: Db, v: Carried, e: FeedEvent, ctx: Context)
    requires Valid(db) && CarriedIn(db, v.partner) && e.amdmntRsn.Some?
    ensures KeptInvariant(db, Amend(db, v, e, ctx))
  {
    var who := ResolveCustomer(db, v.partner, e.mndt, ctx.tables);
    CustomerResolutionOrder(db, v.partner, e.mndt, ctx.tables);
    var r := Amend(db, v, e, ctx);
    assert r.vars.partner == v.partner || (who.result.Ok? && r.vars.partner == Bound(who.result.value));
  }

  lemma SnapshotKeepsInvariant(db: Db, v: Carried, m: MandateBlock, ctx: Context)
    requires Valid(db) && CarriedIn(db, v.partner)
    ensures KeptInvariant(db, Snapshot(db, v, m, ctx))
  {
    var placed := PlaceSnapshotMandate(db, MandatesWithReference(db, m.mndtId), v.partner, m);
    var who := ResolveCustomer(placed.db, v.partner, Some(m), ctx.tables);
    CustomerResolutionOrder(placed.db, v.partner, Some(m), ctx.tables);
    var r := Snapshot(db, v, m, ctx);
    assert r.vars.partner == v.partner || (who.result.Ok? && r.vars.partner == Bound(who.result.value));
  }

  /** Every message keeps the id sequences ahead of the stored ids and leaves in
      `partner_id` only partners that exist; no record is ever deleted. */
  lemma StepKeepsInvariant(db: Db, v: Carried, e: FeedEvent, ctx: Context)
    requires Valid(db) && CarriedIn(db, v.partner)
    ensures var r := Step(db, v, e, ctx);
            && Valid(r.db) && CarriedIn(r.db, r.vars.partner)
            && db.mandates.Keys <= r.db.mandates.Keys && db.partners.Keys <= r.db.partners.Keys
  {
    if e.amdmntRsn.Some? {
      AmendKeepsInvariant(db, v, e, ctx);
    } else if e.cxlRsn.None? && e.mndt.Some? {
      SnapshotKeepsInvariant(db, v, e.mndt.value, ctx);
    }
  }

  /** Once a message has failed, the messages after it change nothing: the pass over the
      whole feed ends as the pass over the prefix ended. */
  lemma {:induction false} RunStopsAtError(db: Db, msgs: seq<FeedEvent>, k: nat, ctx: Context)
    requires k <= |msgs| && Run(db, msgs[..k], ctx).error.Some?
    ensures Run(db, msgs, ctx) == Run(db, msgs[..k], ctx)
    decreases |msgs|
  {
    if k < |msgs| {
      var init := msgs[..|msgs| - 1];
      assert init[..k] == msgs[..k];
      RunStopsAtError(db, init, k, ctx);
    } else {
      assert msgs[..k] == msgs;
    }
  }

  /** The pass keeps the store's invariant, whatever the messages. */
  lemma {:induction false} RunKeepsInvariant(db: Db, msgs: seq<FeedEvent>, ctx: Context)
    requires Valid(db)
    ensures Valid(Run(db, msgs, ctx).db) && CarriedIn(Run(db, msgs, ctx).db, Run(db, msgs, ctx).vars.partner)
    decreases |msgs|
  {
    if msgs != [] {
      var before := Run(db, msgs[..|msgs| - 1], ctx);
      RunKeepsInvariant(db, msgs[..|msgs| - 1], ctx);
      if before.error.None? {
        StepKeepsInvariant(before.db, before.vars, msgs[|msgs| - 1], ctx);
      }
    }
  }
}
