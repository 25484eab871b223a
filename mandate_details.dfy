/** The mandate.details model as the host framework runs it: the mandate and partner
    tables are updated in place by `create` and `write`, and `update_feed` walks the feed's
    messages in a loop whose variables `partner_id` and `lang_id` survive from one message
    to the next. Every method is proved to leave the tables as the functions of module
    `Reconcile` say. */
module MandateDetails {
  import opened Common
  import opened Records
  import opened FeedEvents
  import opened MandateWrite
  import opened Reconcile
  import ReconcileProps
  import opened MandateSync

  /** Lines 53-57 and 155-159: the loop over `SplmtryData` that keeps the value of the
      last entry whose key is "Language". */
  method FindLanguage(entries: seq<SupplementaryEntry>) returns (lang: Option<string>)
    ensures lang == LastLanguage(entries)
  {
    lang := None;
    for i := 0 to |entries|
      invariant lang == LastLanguage(entries[..i])
    {
      assert entries[..i + 1][..i] == entries[..i];
      if entries[i].key == Some(LanguageKey) {
        lang := entries[i].value;
      }
    }
    assert entries[..|entries|] == entries;
  }

  /** The mandate and partner tables with their id sequences. */
  class Store {
    var mandates: map<nat, Mandate>
    var partners: map<nat, Partner>
    var nextMandate: nat
    var nextPartner: nat

    function State(): Db
      reads this
    {
      Db(mandates, partners, nextMandate, nextPartner)
    }

    /** Every stored id was handed out by its sequence. */
    predicate Valid()
      reads this
    {
      Records.Valid(State())
    }

    constructor ()
      ensures State() == Db(map[], map[], 0, 0)
      ensures Valid()
    {
      mandates := map[];
      partners := map[];
      nextMandate := 0;
      nextPartner := 0;
    }

    /** `search([('reference', '=', ref)])` */
    method SearchMandates(ref: Option<string>) returns (ids: set<nat>)
      ensures ids == MandatesWithReference(State(), ref)
      ensures forall id :: id in ids ==> id in mandates && Some(mandates[id].reference) == ref
    {
      ids := set id | id in mandates && Some(mandates[id].reference) == ref;
    }

    /** `create` on mandate.details */
    method CreateMandate(m: Mandate) returns (id: nat)
      modifies this
      ensures State() == AddMandate(old(State()), m)
      ensures id == old(nextMandate) && mandates[id] == m
      ensures old(Valid()) ==> Valid() && id !in old(mandates)
    {
      id := nextMandate;
      mandates := mandates[id := m];
      nextMandate := nextMandate + 1;
    }

    /** `create` on res.partner */
    method CreatePartner(p: Partner) returns (id: nat)
      modifies this
      ensures State() == AddPartner(old(State()), p)
      ensures id == old(nextPartner) && partners[id] == p
      ensures old(Valid()) ==> Valid() && id !in old(partners)
    {
      id := nextPartner;
      partners := partners[id := p];
      nextPartner := nextPartner + 1;
    }

    /** `write` on a partner recordset. */
    method WritePartners(ids: set<nat>, en: Enrichment)
      modifies this
      ensures State() == WritePartnerRecords(old(State()), ids, en)
      ensures old(Valid()) ==> Valid()
    {
      partners := map id | id in partners :: if id in ids then Enrich(partners[id], en) else partners[id];
    }

    /** Lines 229-267, the `write` override: the records are written first; then, with a
        token, the four fields are pushed and any status but 204 fails. */
    method Write(ids: set<nat>, v: MandateValues, token: Option<string>,
                 push: UpdatePayload -> Reply<ErrorBody>) returns (result: Result<()>)
      modifies this
      ensures Effect(State(), result) == MandateWrite.Write(old(State()), ids, v, token, push)
      ensures old(Valid()) ==> Valid()
    {
      if v.reference == Put(None) {
        return Raise(NotNullViolation("reference"));
      }
      mandates := map id | id in mandates :: if id in ids then ApplyValues(mandates[id], v) else mandates[id];
      if !Truthy(token) {
        return Ok(());
      }
      var payload := PayloadFor(State(), ids, v);
      if payload.Raise? {
        return Raise(payload.error);
      }
      result := ErrorOf(PushOutcome(push(payload.value)));
    }

    /** Lines 42-48 and 123-129: the customer of a message. */
    method MatchCustomer(carried: Binding<set<nat>>, mndt: Option<MandateBlock>, t: Tables)
      returns (result: Result<set<nat>>)
      modifies this
      ensures Effect(State(), result) == ResolveCustomer(old(State()), carried, mndt, t)
      ensures old(Valid()) ==> Valid()
    {
      var current := carried;
      if ExternalId(mndt).Some? {
        current := Bound(PartnersWithExternalId(State(), ExternalId(mndt).value));
      }
      if current.Unbound? {
        return Raise(UnboundLocal("partner_id"));
      }
      if current.value != {} {
        return Ok(current.value);
      }
      if mndt.None? || mndt.value.dbtr.None? {
        return Raise(AttributeError("get"));
      }
      var name := mndt.value.dbtr.value.nm;
      if Truthy(name) {
        var byName := PartnersNamed(State(), name.value);
        if byName != {} {
          return Ok(byName);
        }
      }
      if name.None? {
        return Raise(CheckViolation(CheckName));
      }
      var id := CreatePartner(NewPartner(name, t.userLang));
      result := Ok({id});
    }

    /** Lines 40-109: an amendment. */
    method ApplyAmendment(v: Carried, e: FeedEvent, ctx: Context) returns (vars: Carried, error: Option<Error>)
      requires e.amdmntRsn.Some?
      modifies this
      ensures Outcome(State(), vars, error) == Amend(old(State()), v, e, ctx)
      ensures old(Valid()) ==> Valid()
    {
      var found := SearchMandates(e.orgnlMndtId);
      var who := MatchCustomer(v.partner, e.mndt, ctx.tables);
      if who.Raise? {
        return v, Some(who.error);
      }
      var customer := who.value;
      vars, error := v, None;
      if found != {} {
        if e.mndt.None? {
          return v, Some(AttributeError("get"));
        }
        var m := e.mndt.value;
        if m.splmtryData.None? {
          return v, Some(TypeError(NoneNotIterable));
        }
        var lang := FindLanguage(m.splmtryData.value);
        var langs := LanguagesWithIso(ctx.tables, lang);
        var partner := IdOf(customer);
        if partner.Raise? {
          return v, Some(partner.error);
        }
        var code := CodeOf(ctx.tables, langs);
        if code.Raise? {
          return v, Some(code.error);
        }
        var w := Write(found, AmendValues(m, partner.value, code.value), ctx.token, ctx.push);
        if w.Raise? {
          return v, Some(w.error);
        }
        if customer != {} {
          if m.dbtr.None? {
            return v, Some(AttributeError("get"));
          }
          var en := DebtorValues(m, ctx.tables, m.dbtr.value.nm, Put(code.value));
          if en.Raise? {
            return v, Some(en.error);
          }
          if en.value.name.None? {
            return v, Some(CheckViolation(CheckName));
          }
          WritePartners(customer, en.value);
        }
        vars := Carried(Bound(customer), Bound(langs));
      } else {
        var partner := IdOf(customer);
        if partner.Raise? {
          return v, Some(partner.error);
        }
        if e.mndt.None? {
          return v, Some(AttributeError("get"));
        }
        var m := e.mndt.value;
        if v.lang.Unbound? {
          return v, Some(UnboundLocal("lang_id"));
        }
        var code := CodeOf(ctx.tables, v.lang.value);
        if code.Raise? {
          return v, Some(code.error);
        }
        if m.mndtId.None? {
          return v, Some(NotNullViolation("reference"));
        }
        var _ := CreateMandate(Mandate(m.mndtId.value, partner.value, Signed, OrFalse(m.dbtrAcct), Bic(m), code.value, None));
        vars := Carried(Bound(customer), v.lang);
      }
    }

    /** Lines 110-118: a cancellation. */
    method ApplyCancellation(v: Carried, e: FeedEvent, ctx: Context) returns (error: Option<Error>)
      requires e.cxlRsn.Some?
      modifies this
      ensures Outcome(State(), v, error) == Cancel(old(State()), v, e, ctx)
      ensures old(Valid()) ==> Valid()
    {
      var found := SearchMandates(e.orgnlMndtId);
      if found != {} {
        var w := Write(found, CancelValues(e.cxlRsn.value.rsn), ctx.token, ctx.push);
        error := if w.Raise? then Some(w.error) else None;
      } else if e.orgnlMndtId.None? {
        error := Some(NotNullViolation("reference"));
      } else {
        var _ := CreateMandate(CancelledMandate(e.orgnlMndtId.value));
        error := None;
      }
    }

    /** Lines 119-166: a mandate snapshot. */
    method ApplySnapshot(v: Carried, m: MandateBlock, ctx: Context) returns (vars: Carried, error: Option<Error>)
      modifies this
      ensures Outcome(State(), vars, error) == Snapshot(old(State()), v, m, ctx)
      ensures old(Valid()) ==> Valid()
    {
      // lines 120-122
      var placed := SearchMandates(m.mndtId);
      if placed == {} {
        if v.partner.Unbound? {
          return v, Some(UnboundLocal("partner_id"));
        }
        var previous := IdOf(v.partner.value);
        if previous.Raise? {
          return v, Some(previous.error);
        }
        if m.mndtId.None? {
          return v, Some(NotNullViolation("reference"));
        }
        var id := CreateMandate(Mandate(m.mndtId.value, previous.value, Signed, None, None, None, None));
        placed := {id};
      }
      // lines 123-129
      var who := MatchCustomer(v.partner, Some(m), ctx.tables);
      if who.Raise? {
        return v, Some(who.error);
      }
      var customer := who.value;
      // lines 130-147
      if customer != {} {
        if m.dbtr.None? {
          return v, Some(AttributeError("get"));
        }
        var en := DebtorValues(m, ctx.tables, OrFalse(m.dbtr.value.nm), Keep);
        if en.Raise? {
          return v, Some(en.error);
        }
        if en.value.name.None? {
          return v, Some(CheckViolation(CheckName));
        }
        WritePartners(customer, en.value);
      }
      // lines 154-166
      vars, error := Carried(Bound(customer), v.lang), None;
      if placed != {} {
        if m.splmtryData.None? {
          return v, Some(TypeError(NoneNotIterable));
        }
        var lang := FindLanguage(m.splmtryData.value);
        var langs := LanguagesWithIso(ctx.tables, lang);
        var partner := IdOf(customer);
        if partner.Raise? {
          return v, Some(partner.error);
        }
        var code := CodeOf(ctx.tables, langs);
        if code.Raise? {
          return v, Some(code.error);
        }
        var w := Write(placed, SignValues(m, partner.value, code.value), ctx.token, ctx.push);
        if w.Raise? {
          return v, Some(w.error);
        }
        vars := Carried(Bound(customer), Bound(langs));
      }
    }

    /** One message of the feed. */
    method ApplyMessage(v: Carried, e: FeedEvent, ctx: Context) returns (vars: Carried, error: Option<Error>)
      modifies this
      ensures Outcome(State(), vars, error) == Step(old(State()), v, e, ctx)
      ensures old(Valid()) ==> Valid()
    {
      if e.amdmntRsn.Some? {
        vars, error := ApplyAmendment(v, e, ctx);
      } else if e.cxlRsn.Some? {
        vars := v;
        error := ApplyCancellation(v, e, ctx);
      } else if e.mndt.Some? {
        vars, error := ApplySnapshot(v, e.mndt.value, ctx);
      } else {
        vars, error := v, None;
      }
    }

    /** Lines 28-170, `update_feed`: fetch the feed and apply its messages in order. The
        first exception ends the loop; what earlier messages wrote stays written. */
    method UpdateFeed(ctx: Context, reply: Reply<FeedBody>) returns (error: Option<Error>)
      requires Valid()
      modifies this
      ensures FeedResult(State(), error) == Reconcile.UpdateFeed(old(State()), ctx, reply)
      ensures Valid()
    {
      if !Truthy(ctx.token) {
        return None;
      }
      if reply.Unreachable? || reply.body.None? {
        return Some(AccessError);
      }
      if reply.status != 200 || !HasMessages(reply.body.value) {
        return None;
      }
      var msgs := reply.body.value.messages.value;
      var vars := Fresh;
      ghost var start := State();
      for i := 0 to |msgs|
        invariant Run(start, msgs[..i], ctx) == Outcome(State(), vars, None)
      {
        assert msgs[..i + 1][..i] == msgs[..i];
        var failure;
        vars, failure := ApplyMessage(vars, msgs[i], ctx);
        if failure.Some? {
          error := Some(Caught(failure.value));
          ReconcileProps.RunStopsAtError(start, msgs, i + 1, ctx);
          ReconcileProps.RunKeepsInvariant(start, msgs, ctx);
          return;
        }
      }
      assert msgs[..|msgs|] == msgs;
      ReconcileProps.RunKeepsInvariant(start, msgs, ctx);
      error := None;
    }
 
    /** Lines 172-203, `sync_mandate` on mandate `id`: with a token, the feed is applied
        first, then the mandate and its customer are posted. */
    method SyncMandate(id: nat, ctx: Context, feed: Reply<FeedBody>, delivered: bool)
      returns (error: Option<Error>, sent: Option<SyncPayload>)
      requires Valid() && id in mandates
      modifies this
      ensures SyncResult(State(), error, sent) == Sync(old(State()), id, ctx, feed, delivered)
      ensures Valid()
    {
      if !Truthy(ctx.token) {
        return None, None;
      }
      error := UpdateFeed(ctx, feed);
      if error.Some? {
        return error, None;
      }
      var body := SyncPayloadOf(State(), id, ctx.tables);
      if body.Raise? {
        return Some(body.error), None;
      }
      sent := Some(body.value);
      error := if delivered then None else Some(AccessError);
    }
  }
}
