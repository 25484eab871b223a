/** The records the reconciler reads and writes (mandate.details, res.partner, res.lang,
    res.country), the database as a value, and the host framework's record operations
    as this integration uses them: `search` returns every match, `create` adds one record
    with a fresh id, `write` changes every record of a recordset, and reading a field of a
    recordset gives False when it is empty and fails when it holds several records. */
module Records {
  import opened Common

  datatype MandateState = Pending | Signed | Suspended | Cancelled

  /** A mandate.details record. `reference` is a required column, so it is never NULL. */
  datatype Mandate = Mandate(
    reference: string,
    partner: Option<nat>,
    state: MandateState,
    iban: Option<string>,
    bic: Option<string>,
    lang: Option<string>,
    description: Option<string>)

  datatype CompanyType = Person | Company

  /** A res.partner record, restricted to the columns the integration reads or writes. */
  datatype Partner = Partner(
    name: Option<string>,
    twikeyReference: Option<string>,
    street: Option<string>,
    zip: Option<string>,
    city: Option<string>,
    country: Option<nat>,
    email: Option<string>,
    lang: Option<string>,
    companyType: CompanyType,
    vat: Option<string>)

  /** An installed res.lang record: its code (the value a `lang` selection holds) and its
      ISO code, which may be NULL. */
  datatype Language = Language(code: string, isoCode: Option<string>)

  /** The read-only tables the reconciler consults: installed languages, countries (id to
      two-letter code), and the language a newly created partner gets by default. */
  datatype Tables = Tables(
    languages: map<nat, Language>,
    countries: map<nat, string>,
    userLang: Option<string>)

  /** The mandate and partner tables with their id sequences. */
  datatype Db = Db(
    mandates: map<nat, Mandate>,
    partners: map<nat, Partner>,
    nextMandate: nat,
    nextPartner: nat)

  /** Every stored id was handed out by its sequence, so a new record never overwrites one. */
  predicate Valid(db: Db)
  {
    && (forall id :: id in db.mandates ==> id < db.nextMandate)
    && (forall id :: id in db.partners ==> id < db.nextPartner)
  }

  /** `later` keeps every record of `earlier`, and keeps the invariant if `earlier` had it. */
  predicate Grows(earlier: Db, later: Db)
  {
    && earlier.mandates.Keys <= later.mandates.Keys
    && earlier.partners.Keys <= later.partners.Keys
    && (Valid(earlier) ==> Valid(later))
  }

  // ---- search: every record whose column equals the value (None matches NULL) ----

  function MandatesWithReference(db: Db, ref: Option<string>): set<nat>
  {
    set id | id in db.mandates && Some(db.mandates[id].reference) == ref
  }

  function PartnersWithExternalId(db: Db, externalId: string): set<nat>
  {
    set id | id in db.partners && db.partners[id].twikeyReference == Some(externalId)
  }

  function PartnersNamed(db: Db, name: string): set<nat>
  {
    set id | id in db.partners && db.partners[id].name == Some(name)
  }

  function LanguagesWithIso(t: Tables, iso: Option<string>): set<nat>
  {
    set id | id in t.languages && t.languages[id].isoCode == iso
  }

  function CountriesWithCode(t: Tables, code: Option<string>): set<nat>
  {
    set id | id in t.countries && Some(t.countries[id]) == code
  }

  // ---- reading a field of a recordset ----

  lemma SingletonIsUnique(s: set<nat>)
    requires |s| == 1
    ensures forall a, b :: a in s && b in s ==> a == b
  {
    forall a, b | a in s && b in s
      ensures a == b
    {
      if a != b {
        SubsetSize({a, b}, s);
        assert false;
      }
    }
  }

  lemma SubsetSize(a: set<nat>, b: set<nat>)
    requires a <= b
    ensures |a| <= |b|
  {
    assert b == a + (b - a);
  }

  /** The one member of a singleton recordset. */
  function TheOnly(s: set<nat>): (x: nat)
    requires |s| == 1
    ensures x in s
  {
    SingletonIsUnique(s);
    var x :| x in s; x
  }

  /** `records.id if records else False`: a recordset of several records fails. */
  function IdOf(ids: set<nat>): (r: Result<Option<nat>>)
    ensures ids == {} <==> r == Ok(None)
    ensures |ids| > 1 <==> r == Raise(ExpectedSingleton)
    ensures r.Ok? && r.value.Some? ==> ids == {r.value.value}
  {
    if ids == {} then Ok(None)
    else if |ids| == 1 then
      var x := TheOnly(ids);
      SingletonIsUnique(ids);
      Ok(Some(x))
    else Raise(ExpectedSingleton)
  }

  /** `lang_id.code if lang_id else False` for a set of language ids. */
  function CodeOf(t: Tables, ids: set<nat>): (r: Result<Option<string>>)
    ensures r.Raise? <==> |ids| > 1
    ensures r.Raise? ==> r.error == ExpectedSingleton
    ensures ids == {} ==> r == Ok(None)
    ensures r.Ok? && r.value.Some? ==>
              exists id :: ids == {id} && id in t.languages && t.languages[id].code == r.value.value
  {
    match IdOf(ids)
    case Raise(e) => Raise(e)
    case Ok(None) => Ok(None)
    case Ok(Some(id)) => Ok(if id in t.languages then Some(t.languages[id].code) else None)
  }

  // ---- write and create ----

  /** One entry of a `write`/`create` values dict: the key is absent, or set to a value. */
  datatype Assign<+T> = Keep | Put(value: T)

  function Pick<T>(a: Assign<T>, current: T): T
  {
    if a.Put? then a.value else current
  }

  /** `values.get(key)`: None when the key is absent. */
  function Get<T>(a: Assign<Option<T>>): Option<T>
  {
    if a.Put? then a.value else None
  }

  /** The values dict of a mandate write. */
  datatype MandateValues = MandateValues(
    reference: Assign<Option<string>>,
    partner: Assign<Option<nat>>,
    state: Assign<MandateState>,
    iban: Assign<Option<string>>,
    bic: Assign<Option<string>>,
    lang: Assign<Option<string>>,
    description: Assign<Option<string>>)

  function ApplyValues(m: Mandate, v: MandateValues): Mandate
    requires v.reference != Put(None)
  {
    Mandate(
      if v.reference.Put? then v.reference.value.value else m.reference,
      Pick(v.partner, m.partner),
      Pick(v.state, m.state),
      Pick(v.iban, m.iban),
      Pick(v.bic, m.bic),
      Pick(v.lang, m.lang),
      Pick(v.description, m.description))
  }

  /** The database part of `write` on a mandate recordset. */
  function WriteMandateRecords(db: Db, ids: set<nat>, v: MandateValues): (r: Db)
    requires v.reference != Put(None)
    ensures r.partners == db.partners && r.nextMandate == db.nextMandate && r.nextPartner == db.nextPartner
    ensures r.mandates.Keys == db.mandates.Keys
    ensures forall id :: id in db.mandates && id in ids ==> r.mandates[id] == ApplyValues(db.mandates[id], v)
    ensures forall id :: id in db.mandates && id !in ids ==> r.mandates[id] == db.mandates[id]
  {
    db.(mandates := map id | id in db.mandates ::
                      if id in ids then ApplyValues(db.mandates[id], v) else db.mandates[id])
  }

  /** `create` on mandate.details: the new record gets the next id. */
  function AddMandate(db: Db, m: Mandate): (r: Db)
    ensures r.mandates.Keys == db.mandates.Keys + {db.nextMandate} && r.mandates[db.nextMandate] == m
    ensures r.partners == db.partners && r.nextPartner == db.nextPartner
    ensures Valid(db) ==>
              && Valid(r) && db.nextMandate !in db.mandates
              && forall id :: id in db.mandates ==> r.mandates[id] == db.mandates[id]
  {
    db.(mandates := db.mandates[db.nextMandate := m], nextMandate := db.nextMandate + 1)
  }

  /** The values dict of the partner writes in the feed: every column is written,
      except `lang`, which only the amendment branch writes. */
  datatype Enrichment = Enrichment(
    street: Option<string>,
    name: Option<string>,
    zip: Option<string>,
    twikeyReference: Option<string>,
    city: Option<string>,
    country: Option<nat>,
    lang: Assign<Option<string>>,
    email: Option<string>)

  function Enrich(p: Partner, en: Enrichment): Partner
  {
    p.(street := en.street, name := en.name, zip := en.zip,
       twikeyReference := en.twikeyReference, city := en.city, country := en.country,
       lang := Pick(en.lang, p.lang), email := en.email)
  }

  /** The database part of `write` on a partner recordset. */
  function WritePartnerRecords(db: Db, ids: set<nat>, en: Enrichment): (r: Db)
    ensures r.mandates == db.mandates && r.nextMandate == db.nextMandate && r.nextPartner == db.nextPartner
    ensures r.partners.Keys == db.partners.Keys
    ensures forall id :: id in db.partners && id in ids ==> r.partners[id] == Enrich(db.partners[id], en)
    ensures forall id :: id in db.partners && id !in ids ==> r.partners[id] == db.partners[id]
  {
    db.(partners := map id | id in db.partners ::
                      if id in ids then Enrich(db.partners[id], en) else db.partners[id])
  }

  /** res.partner's CHECK constraint `check_name`: a contact must have a name. Every
      partner here is a contact, the default address type. */
  const CheckName: string := "check_name"

  /** `create({'name': name})` on res.partner: every other column takes its default. */
  function NewPartner(name: Option<string>, userLang: Option<string>): (p: Partner)
    ensures p.name == name && p.lang == userLang && p.companyType == Person
    ensures p.twikeyReference.None? && p.street.None? && p.zip.None? && p.city.None?
    ensures p.country.None? && p.email.None? && p.vat.None?
  {
    Partner(name, None, None, None, None, None, None, userLang, Person, None)
  }

  /** `create` on res.partner: the new record gets the next id. */
  function AddPartner(db: Db, p: Partner): (r: Db)
    ensures r.partners.Keys == db.partners.Keys + {db.nextPartner} && r.partners[db.nextPartner] == p
    ensures r.mandates == db.mandates && r.nextMandate == db.nextMandate
    ensures Valid(db) ==>
              && Valid(r) && db.nextPartner !in db.partners
              && forall id :: id in db.partners ==> r.partners[id] == db.partners[id]
  {
    db.(partners := db.partners[db.nextPartner := p], nextPartner := db.nextPartner + 1)
  }

  /** What a step that reads and writes the database leaves behind: the database as it
      stands (nothing is rolled back on failure) and the step's value or exception. */
  datatype Effect<+T> = Effect(db: Db, result: Result<T>)
}
