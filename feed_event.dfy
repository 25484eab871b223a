/** One message of the mandate feed (`GET /creditor/mandate`) and the lookups the
    reconciler performs on it. Every key of the JSON message is optional. A nested object
    is either absent (None) or present with its keys; a present object counts as true. */
module FeedEvents {
  import opened Common

  /** `AmdmntRsn` / `CxlRsn`: the reason block of an amendment or cancellation. */
  datatype Reason = Reason(rsn: Option<string>)

  /** `Dbtr.PstlAdr` */
  datatype PostalAddress = PostalAddress(
    adrLine: Option<string>,
    pstCd: Option<string>,
    twnNm: Option<string>,
    ctry: Option<string>)

  /** `Dbtr.CtctDtls`: `Othr` carries the debtor's customer number at the service. */
  datatype ContactDetails = ContactDetails(othr: Option<string>, emailAdr: Option<string>)

  /** `Dbtr` */
  datatype Debtor = Debtor(
    nm: Option<string>,
    pstlAdr: Option<PostalAddress>,
    ctctDtls: Option<ContactDetails>)

  /** `DbtrAgt.FinInstnId.BICFI` */
  datatype Institution = Institution(bicfi: Option<string>)
  datatype Agent = Agent(finInstnId: Option<Institution>)

  /** One element of `SplmtryData`. */
  datatype SupplementaryEntry = Entry(key: Option<string>, value: Option<string>)

  /** `Mndt`: the mandate as the service now holds it. `splmtryData` is None when the key
      is missing, in which case iterating over it fails. */
  datatype MandateBlock = MandateBlock(
    mndtId: Option<string>,
    dbtr: Option<Debtor>,
    dbtrAcct: Option<string>,
    dbtrAgt: Option<Agent>,
    splmtryData: Option<seq<SupplementaryEntry>>)

  /** A feed message. `otherKeys` records whether the message holds keys that nothing
      here reads (such as its event time); it only matters for the message's truthiness. */
  datatype FeedEvent = FeedEvent(
    amdmntRsn: Option<Reason>,
    cxlRsn: Option<Reason>,
    orgnlMndtId: Option<string>,
    mndt: Option<MandateBlock>,
    otherKeys: bool)

  /** A message that is the empty object `{}`, which Python treats as false. */
  predicate IsEmptyMessage(e: FeedEvent)
  {
    e.amdmntRsn.None? && e.cxlRsn.None? && e.orgnlMndtId.None? && e.mndt.None? && !e.otherKeys
  }

  /** `Mndt.Dbtr.CtctDtls.Othr` when every link of that chain is present and the value is
      a non-empty string; None otherwise. */
  function ExternalId(mndt: Option<MandateBlock>): (r: Option<string>)
    ensures r.Some? ==> r.value != ""
    ensures r.Some? <==>
              mndt.Some? && mndt.value.dbtr.Some? && mndt.value.dbtr.value.ctctDtls.Some?
              && Truthy(mndt.value.dbtr.value.ctctDtls.value.othr)
    ensures r.Some? ==> r == mndt.value.dbtr.value.ctctDtls.value.othr
  {
    if && mndt.Some? && mndt.value.dbtr.Some?
       && mndt.value.dbtr.value.ctctDtls.Some?
       && Truthy(mndt.value.dbtr.value.ctctDtls.value.othr)
    then mndt.value.dbtr.value.ctctDtls.value.othr
    else None
  }

  /** The `twikey_reference` a partner write stores: the external id, or '' without one. */
  function ExternalIdOrEmpty(mndt: Option<MandateBlock>): Option<string>
  {
    if ExternalId(mndt).Some? then ExternalId(mndt) else Some("")
  }

  /** `DbtrAgt.FinInstnId.BICFI` when that chain is present and truthy, else False. */
  function Bic(m: MandateBlock): Option<string>
  {
    if m.dbtrAgt.Some? && m.dbtrAgt.value.finInstnId.Some?
       && Truthy(m.dbtrAgt.value.finInstnId.value.bicfi)
    then m.dbtrAgt.value.finInstnId.value.bicfi
    else None
  }

  /** `Dbtr.CtctDtls.EmailAdr` when that chain is present and truthy, else False. */
  function Email(m: MandateBlock): Option<string>
  {
    if m.dbtr.Some? && m.dbtr.value.ctctDtls.Some? && Truthy(m.dbtr.value.ctctDtls.value.emailAdr)
    then m.dbtr.value.ctctDtls.value.emailAdr
    else None
  }

  const LanguageKey: string := "Language"

  /** The value the reconciler's inner loop leaves in `lang`: the `Value` of the last
      entry whose `Key` is "Language", or False when there is none. */
  function LastLanguage(entries: seq<SupplementaryEntry>): (r: Option<string>)
    ensures r.Some? ==> exists i :: 0 <= i < |entries| && entries[i].key == Some(LanguageKey) && entries[i].value == r
    decreases |entries|
  {
    if entries == [] then None
    else if entries[|entries| - 1].key == Some(LanguageKey) then entries[|entries| - 1].value
    else LastLanguage(entries[..|entries| - 1])
  }

  /** When several entries carry the key "Language", the last one wins. */
  lemma {:induction false} LastLanguageIsLastEntry(entries: seq<SupplementaryEntry>, k: nat)
    requires k < |entries| && entries[k].key == Some(LanguageKey)
    requires forall j :: k < j < |entries| ==> entries[j].key != Some(LanguageKey)
    ensures LastLanguage(entries) == entries[k].value
    decreases |entries|
  {
    if k < |entries| - 1 {
      var init := entries[..|entries| - 1];
      assert init[k] == entries[k];
      LastLanguageIsLastEntry(init, k);
    }
  }

  /** Without an entry keyed "Language", no language is found. */
  lemma {:induction false} LastLanguageWithoutEntry(entries: seq<SupplementaryEntry>)
    requires forall j :: 0 <= j < |entries| ==> entries[j].key != Some(LanguageKey)
    ensures LastLanguage(entries) == None
    decreases |entries|
  {
    if entries != [] {
      LastLanguageWithoutEntry(entries[..|entries| - 1]);
    }
  }
}
