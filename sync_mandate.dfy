/** `sync_mandate` (lines 172-203 of mandate_details.py): after refreshing from the feed,
    the mandate and its customer are sent to `POST /creditor/mandate/update`. The
    customer's name is split on single spaces into a first and a last name. */
module MandateSync {
  import opened Common
  import opened Records
  import opened Reconcile

  // ---------------- str.split(' ') ----------------

  /** Python's `s.split(' ')`: the pieces between single spaces, empty pieces included, so
      that there is always one piece more than there are spaces. */
  function Split(s: string): (parts: seq<string>)
    ensures |parts| >= 1
    decreases |s|
  {
    if s == [] then [""]
    else
      var rest := Split(s[1..]);
      if s[0] == ' ' then [""] + rest
      else [[s[0]] + rest[0]] + rest[1..]
  }

  /** `' '.join(parts)` */
  function Join(parts: seq<string>): string
    requires |parts| >= 1
    decreases |parts|
  {
    if |parts| == 1 then parts[0] else parts[0] + " " + Join(parts[1..])
  }

  /** Joining the pieces with single spaces gives back the name. */
  lemma {:induction false} JoinSplit(s: string)
    ensures Join(Split(s)) == s
    decreases |s|
  {
    if s != [] {
      var rest := Split(s[1..]);
      JoinSplit(s[1..]);
      if s[0] == ' ' {
        assert ([""] + rest)[1..] == rest;
      } else if |rest| > 1 {
        var parts := [[s[0]] + rest[0]] + rest[1..];
        assert parts[1..] == rest[1..];
        assert Join(rest) == rest[0] + " " + Join(rest[1..]);
      }
    }
  }

  /** There is one piece more than the name has spaces. */
  lemma {:induction false} SplitCount(s: string)
    ensures |Split(s)| == multiset(s)[' '] + 1
    decreases |s|
  {
    if s != [] {
      assert s == [s[0]] + s[1..];
      SplitCount(s[1..]);
    }
  }

  /** No piece holds a space. */
  lemma {:induction false} SplitHasNoSpace(s: string)
    ensures forall i, k :: 0 <= i < |Split(s)| && 0 <= k < |Split(s)[i]| ==> Split(s)[i][k] != ' '
    decreases |s|
  {
    if s != [] {
      SplitHasNoSpace(s[1..]);
      var rest := Split(s[1..]);
      if s[0] != ' ' {
        var parts := Split(s);
        assert parts[0] == [s[0]] + rest[0];
        forall i, k | 0 <= i < |parts| && 0 <= k < |parts[i]|
          ensures parts[i][k] != ' '
        {
          if i == 0 {
            if k > 0 {
              assert parts[0][k] == rest[0][k - 1];
            }
          } else {
            assert parts[i] == rest[i];
          }
        }
      }
    }
  }

  predicate NoSpace(s: string)
  {
    forall k :: 0 <= k < |s| ==> s[k] != ' '
  }

  /** The first piece is the name up to its first space, or the whole name when it has no
      space, in which case it is the only piece. */
  lemma {:induction false} FirstPiece(s: string)
    ensures var first := Split(s)[0];
            && |first| <= |s| && first == s[..|first|] && NoSpace(first)
            && (|first| == |s| || s[|first|] == ' ')
            && (|first| == |s| <==> |Split(s)| == 1)
    decreases |s|
  {
    if s != [] && s[0] != ' ' {
      FirstPiece(s[1..]);
      var rest := Split(s[1..]);
      assert Split(s)[0] == [s[0]] + rest[0];
    }
  }

  /** After the first piece and its space, the remaining pieces are those of the rest of
      the name. */
  lemma {:induction false} SplitRest(s: string)
    requires |Split(s)[0]| < |s|
    ensures Split(s)[1..] == Split(s[|Split(s)[0]| + 1..])
    decreases |s|
  {
    var rest := Split(s[1..]);
    if s[0] == ' ' {
      assert ([""] + rest)[1..] == rest;
    } else {
      assert Split(s)[0] == [s[0]] + rest[0];
      SplitRest(s[1..]);
      assert s[1..][|rest[0]| + 1..] == s[|rest[0]| + 2..];
    }
  }

  // ---------------- the request body ----------------

  /** The form fields of the request. `customerNumber` is the partner's id, or False. */
  datatype SyncPayload = SyncPayload(
    mndtId: string,
    iban: string,
    bic: string,
    l: string,
    state: MandateState,
    email: string,
    firstname: string,
    lastname: string,
    companyName: string,
    vatno: string,
    customerNumber: Option<nat>,
    address: string,
    city: string,
    zip: string,
    country: string)

  /** The mandate's customer, when it has one that exists. */
  function CustomerOf(db: Db, m: Mandate): Option<Partner>
  {
    if m.partner.Some? && m.partner.value in db.partners then Some(db.partners[m.partner.value]) else None
  }

  /** Lines 179-197: the request body for mandate `id`. A customer without a name cannot
      be split and fails; an unset field is sent as ''. */
  function SyncPayloadOf(db: Db, id: nat, t: Tables): (r: Result<SyncPayload>)
    requires id in db.mandates
    ensures var c := CustomerOf(db, db.mandates[id]);
            r.Raise? <==> c.Some? && c.value.name.None?
    ensures r.Raise? ==> r.error == AttributeError("split")
    ensures var m := db.mandates[id];
            r.Ok? ==>
              && r.value.mndtId == m.reference && r.value.state == m.state
              && r.value.iban == OrEmpty(m.iban) && r.value.bic == OrEmpty(m.bic) && r.value.l == OrEmpty(m.lang)
              && r.value.customerNumber == m.partner
  {
    var m := db.mandates[id];
    var customer := CustomerOf(db, m);
    if customer.Some? && customer.value.name.None? then Raise(AttributeError("split"))
    else
      var names := if customer.Some? then Split(customer.value.name.value) else [];
      var person := customer.Some? && customer.value.companyType == Person;
      var company := customer.Some? && customer.value.companyType == Company;
      var p := if customer.Some? then customer.value else NewPartner(None, None);
      Ok(SyncPayload(
        OrEmpty(Some(m.reference)), OrEmpty(m.iban), OrEmpty(m.bic), OrEmpty(m.lang), m.state,
        OrEmpty(p.email),
        if |names| > 0 && person then names[0] else "",
        if |names| > 1 && person then names[1] else "",
        if company && Truthy(p.name) then p.name.value else "",
        if company && Truthy(p.vat) then p.vat.value else "",
        m.partner,
        OrEmpty(p.street), OrEmpty(p.city), OrEmpty(p.zip),
        if p.country.Some? && p.country.value in t.countries then t.countries[p.country.value] else ""))
  }

  /** What `sync_mandate` ends with: the database after the feed refresh, the exception
      if any, and the body that was posted. */
  datatype SyncResult = SyncResult(db: Db, error: Option<Error>, sent: Option<SyncPayload>)

  /** `sync_mandate` on mandate `id`: without a token nothing happens; otherwise the feed
      is applied first and its exception ends the call; then the body is built and posted.
      The service's answer is not looked at: only a request that does not get through is
      an access error. */
  function Sync(db: Db, id: nat, ctx: Context, feed: Reply<FeedBody>, delivered: bool): (r: SyncResult)
    requires id in db.mandates
    ensures !Truthy(ctx.token) ==> r == SyncResult(db, None, None)
    ensures Truthy(ctx.token) ==> r.db == UpdateFeed(db, ctx, feed).db
    ensures Grows(db, r.db) && id in r.db.mandates
    ensures r.sent.Some? ==>
              && Truthy(ctx.token) && UpdateFeed(db, ctx, feed).error.None?
              && SyncPayloadOf(r.db, id, ctx.tables) == Ok(r.sent.value)
              && (r.error.None? <==> delivered)
    ensures Truthy(ctx.token) && r.sent.None? ==> r.error.Some?
  {
    if !Truthy(ctx.token) then SyncResult(db, None, None)
    else
      var refreshed := UpdateFeed(db, ctx, feed);
      if refreshed.error.Some? then SyncResult(refreshed.db, refreshed.error, None)
      else match SyncPayloadOf(refreshed.db, id, ctx.tables)
        case Raise(e) => SyncResult(refreshed.db, Some(e), None)
        case Ok(body) => SyncResult(refreshed.db, if delivered then None else Some(AccessError), Some(body))
  }

  // ---------------- properties ----------------

  /** A person's name is sent split at its spaces: `firstname` is the text before the
      first space (the whole name when there is none) and `lastname` the text between the
      first and the second space ('' without a space); company fields stay ''. */
  lemma PersonNames(db: Db, id: nat, t: Tables)
    requires id in db.mandates
    requires var c := CustomerOf(db, db.mandates[id]);
             c.Some? && c.value.companyType == Person && c.value.name.Some?
    ensures var n := CustomerOf(db, db.mandates[id]).value.name.value;
            var r := SyncPayloadOf(db, id, t);
            && r.Ok?
            && r.value.companyName == "" && r.value.vatno == ""
            && var first := r.value.firstname;
               var last := r.value.lastname;
               && NoSpace(first) && NoSpace(last)
               && |first| <= |n| && first == n[..|first|]
               && (first == n ==> last == "")
               && (first != n ==>
                     && n[|first|] == ' '
                     && |first| + 1 + |last| <= |n|
                     && last == n[|first| + 1..|first| + 1 + |last|]
                     && (|first| + 1 + |last| == |n| || n[|first| + 1 + |last|] == ' '))
  {
    var n := CustomerOf(db, db.mandates[id]).value.name.value;
    FirstPiece(n);
    var first := Split(n)[0];
    if |first| < |n| {
      SplitRest(n);
      var rest := n[|first| + 1..];
      FirstPiece(rest);
      assert Split(n)[1] == Split(rest)[0];
    }
  }

  /** A company is sent by name and VAT number; the person fields stay ''. */
  lemma CompanyFields(db: Db, id: nat, t: Tables)
    requires id in db.mandates
    requires var c := CustomerOf(db, db.mandates[id]);
             c.Some? && c.value.companyType == Company && c.value.name.Some?
    ensures var c := CustomerOf(db, db.mandates[id]).value;
            var r := SyncPayloadOf(db, id, t);
            && r.Ok?
            && r.value.firstname == "" && r.value.lastname == ""
            && r.value.companyName == OrEmpty(c.name) && r.value.vatno == OrEmpty(c.vat)
            && r.value.customerNumber == db.mandates[id].partner
  {
  }

  /** The mandate's own fields are sent as stored, '' for an unset one; a mandate without
      a customer sends '' for every customer field; a customer without a name fails. */
  lemma MandateFields(db: Db, id: nat, t: Tables)
    requires id in db.mandates
    ensures var m := db.mandates[id];
            var c := CustomerOf(db, m);
            var r := SyncPayloadOf(db, id, t);
            && (r.Raise? <==> c.Some? && c.value.name.None?)
            && (r.Raise? ==> r.error == AttributeError("split"))
            && (r.Ok? ==>
                  && r.value.mndtId == m.reference && r.value.state == m.state
                  && r.value.iban == OrEmpty(m.iban) && r.value.bic == OrEmpty(m.bic) && r.value.l == OrEmpty(m.lang))
            && (c.None? ==>
                  && r.Ok?
                  && r.value.email == "" && r.value.firstname == "" && r.value.lastname == ""
                  && r.value.companyName == "" && r.value.vatno == "" && r.value.address == ""
                  && r.value.city == "" && r.value.zip == "" && r.value.country == "")
  {
  }

  /** Nothing is posted without a token; the feed is applied first and its exception
      stops the call before anything is posted; otherwise the body describes the mandate
      as the refreshed database holds it. */
  lemma SyncAfterFeed(db: Db, id: nat, ctx: Context, feed: Reply<FeedBody>, delivered: bool)
    requires id in db.mandates
    ensures var s := Sync(db, id, ctx, feed, delivered);
            var refreshed := UpdateFeed(db, ctx, feed);
            && (!Truthy(ctx.token) ==> s == SyncResult(db, None, None))
            && (Truthy(ctx.token) ==> s.db == refreshed.db)
            && (Truthy(ctx.token) && refreshed.error.Some? ==> s.sent.None? && s.error == refreshed.error)
            && (s.sent.Some? ==>
                  && id in refreshed.db.mandates
                  && SyncPayloadOf(refreshed.db, id, ctx.tables) == Ok(s.sent.value)
                  && (s.error.None? <==> delivered))
  {
  }
}
