/** The Twikey payment provider's extension of payment.transaction: the payloads of the
    paylink and mandate-signing requests, the redirect rendering, the look-up of a
    transaction from a webhook, the webhook handler and the post-processing poll. The
    transaction is a record whose fields these handlers update in place; tokens and
    twikey.mandate.details records are created beside it. */
module PaymentTransaction {
  import opened Common
  import opened Records

  const Twikey: string := "twikey"

  /** The states a transaction moves through by `_set_pending`, `_set_authorized`,
      `_set_done`, `_set_canceled` and `_set_error`. */
  datatype TxState = Draft | Pending | Authorized | Done | Canceled | Error

  /** An account.move linked to the transaction. */
  datatype Invoice = Invoice(id: nat, name: string, twikeyInvoiceIdentifier: Option<string>)

  /** A twikey.mandate.details record, restricted to the columns read or written here. */
  datatype TwikeyMandate = TwikeyMandate(
    reference: Option<string>,
    state: MandateState,
    iban: Option<string>,
    partner: Option<PValue>,
    templateId: nat,
    lang: Option<string>,
    url: Option<string>,
    zip: Option<string>,
    address: Option<string>,
    city: Option<string>,
    country: Option<nat>)

  /** A payment.token record as created here. */
  datatype Token = Token(paymentDetails: Option<string>, providerId: nat, partnerId: nat,
                         providerRef: Option<string>, active: bool)

  /** A value of a request payload. A trailing comma in an assignment makes the value a
      tuple of one element, `Single`. */
  datatype PValue = Text(text: string) | Num(num: int) | Null | Single(item: PValue)

  type Payload = map<string, PValue>

  /** `payload[key] == value` */
  predicate Has(payload: Payload, key: string, value: PValue)
  {
    key in payload && payload[key] == value
  }

  function OptText(s: Option<string>): PValue
  {
    if s.Some? then Text(s.value) else Null
  }

  /** The TypeError of `raise "<string>"`. */
  const NotAnException: string := "exceptions must derive from BaseException"

  /** The transaction's columns read or written here. `amountText` is the amount already
      formatted with two decimals. */
  datatype TxRecord = TxRecord(
    reference: string,
    providerCode: string,
    providerReference: Option<string>,
    tokenize: bool,
    state: TxState,
    stateMessage: Option<string>,
    amountText: string,
    invoices: seq<Invoice>,
    partnerId: nat,
    providerId: nat)

  // ---------------- invoice linkage (lines 81-89, 102-109) ----------------

  /** The invoice a payload links: none without invoices or when the single invoice is
      unknown to Twikey; several invoices abort with the TypeError of `raise "<string>"`. */
  function LinkedInvoice(invoices: seq<Invoice>): (r: Result<Option<Invoice>>)
    ensures r.Raise? <==> |invoices| > 1
    ensures r.Raise? ==> r.error == TypeError(NotAnException)
    ensures r.Ok? && r.value.Some? <==> |invoices| == 1 && Truthy(invoices[0].twikeyInvoiceIdentifier)
    ensures r.Ok? && r.value.Some? ==> r.value.value == invoices[0]
  {
    if |invoices| == 0 then Ok(None)
    else if |invoices| == 1 then
      if Truthy(invoices[0].twikeyInvoiceIdentifier) then Ok(Some(invoices[0])) else Ok(None)
    else Raise(TypeError(NotAnException))
  }

  /** The path of the return URL. */
  function StatusPath(reference: string): string
  {
    "/twikey/status?ref=" + reference
  }

  // ---------------- the status if-chain (lines 158-168) ----------------

  /** What one of the `_set_*` calls writes: the state and the state message. */
  datatype Transition = Transition(state: TxState, message: Option<string>)

  function StatusTransition(status: string): (t: Transition)
    ensures t.state != Draft
    ensures t.message.Some? <==> t.state == Canceled || t.state == Error
  {
    if status == "pending" then Transition(TxState.Pending, None)
    else if status == "authorized" then Transition(Authorized, None)
    else if status == "paid" then Transition(Done, None)
    else if status in ["expired", "canceled", "failed"] then
      Transition(Canceled, Some("Twikey: Canceled payment with status: " + status))
    else Transition(Error, Some("Twikey: Received data with invalid payment status: " + status))
  }

  function Apply(tx: TxRecord, t: Transition): TxRecord
  {
    tx.(state := t.state, stateMessage := t.message)
  }

  /** The status mapping: pending, authorized and paid move to pending, authorized and
      done; expired, canceled and failed cancel with a message naming the status; any
      other status is an error whose message names it. */
  lemma StatusMapping(status: string)
    ensures StatusTransition(status).state == TxState.Pending <==> status == "pending"
    ensures StatusTransition(status).state == Authorized <==> status == "authorized"
    ensures StatusTransition(status).state == Done <==> status == "paid"
    ensures StatusTransition(status).state == Canceled <==> status == "expired" || status == "canceled" || status == "failed"
    ensures StatusTransition(status).state == Error <==>
              status !in {"pending", "authorized", "paid", "expired", "canceled", "failed"}
    ensures StatusTransition(status).state != Draft
    ensures StatusTransition(status).message.Some? <==> StatusTransition(status).state in {Canceled, Error}
    ensures StatusTransition(status).message.Some? ==> status <= StatusTransition(status).message.value[|StatusTransition(status).message.value| - |status|..]
  {
  }

  // ---------------- the mandate behind a tokenized transaction ----------------

  /** `search([('reference', '=', ref)])` on twikey.mandate.details. */
  function MandatesWithReference(table: seq<TwikeyMandate>, ref: Option<string>): set<nat>
  {
    set i | 0 <= i < |table| && table[i].reference == ref
  }

  /** `mandate_id.state == 'signed'` on the search result: an empty result is not signed,
      several records cannot be read; the one record found is returned when it is signed. */
  function SignedMandate(table: seq<TwikeyMandate>, ref: Option<string>): (r: Result<Option<TwikeyMandate>>)
    ensures var found := MandatesWithReference(table, ref);
            && (r.Raise? <==> |found| > 1)
            && (r.Raise? ==> r.error == ExpectedSingleton)
            && (r == Ok(None) <==> found == {} || (|found| == 1 && forall i :: i in found ==> table[i].state != Signed))
            && (r.Ok? && r.value.Some? ==>
                  && r.value.value.state == Signed && r.value.value.reference == ref
                  && exists i :: 0 <= i < |table| && found == {i} && table[i] == r.value.value)
  {
    match IdOf(MandatesWithReference(table, ref))
    case Raise(e) => Raise(e)
    case Ok(None) => Ok(None)
    case Ok(Some(i)) => if table[i].state == Signed then Ok(Some(table[i])) else Ok(None)
  }

  function TokenFor(m: TwikeyMandate, providerId: nat, partnerId: nat): Token
  {
    Token(m.iban, providerId, partnerId, m.reference, true)
  }

  // ---------------- the webhook (lines 122-168) ----------------

  /** The transaction after a webhook and the token it created, if any. */
  datatype Handled = Handled(tx: TxRecord, token: Option<Token>)

  /** `_process_notification_data` as intended: for a tokenized transaction the status of
      the webhook is replaced by paid (with a token) when the mandate is signed, and by
      pending otherwise. */
  function Notify(tx: TxRecord, status: Option<string>, table: seq<TwikeyMandate>): (r: Result<Handled>)
    ensures r.Raise? ==> r.error == ExpectedSingleton && tx.tokenize
    ensures r.Ok? ==> r.value.tx == tx.(state := r.value.tx.state, stateMessage := r.value.tx.stateMessage)
    ensures r.Ok? && r.value.token.Some? ==>
              && tx.tokenize && r.value.tx.state == Done
              && r.value.token.value.providerRef == tx.providerReference
              && r.value.token.value.providerId == tx.providerId
              && r.value.token.value.partnerId == tx.partnerId
  {
    if tx.providerCode != Twikey || !Truthy(status) then Ok(Handled(tx, None))
    else if !tx.tokenize then Ok(Handled(Apply(tx, StatusTransition(status.value)), None))
    else match SignedMandate(table, tx.providerReference)
      case Raise(e) => Raise(e)
      case Ok(None) => Ok(Handled(Apply(tx, StatusTransition("pending")), None))
      case Ok(Some(m)) => Ok(Handled(Apply(tx, StatusTransition("paid")), Some(TokenFor(m, tx.providerId, tx.partnerId))))
  }

  /** `_process_notification_data` as written: building the token's values reads
      `self.provider`, a field payment.transaction does not have, so a signed mandate ends
      the handler with an AttributeError before the token is created or the state set. */
  function NotifyAsWritten(tx: TxRecord, status: Option<string>, table: seq<TwikeyMandate>): (r: Result<Handled>)
    ensures r.Ok? ==> r.value.token.None?
    ensures r.Raise? ==> r.error == ExpectedSingleton || r.error == AttributeError("provider")
  {
    if tx.providerCode != Twikey || !Truthy(status) then Ok(Handled(tx, None))
    else if !tx.tokenize then Ok(Handled(Apply(tx, StatusTransition(status.value)), None))
    else match SignedMandate(table, tx.providerReference)
      case Raise(e) => Raise(e)
      case Ok(None) => Ok(Handled(Apply(tx, StatusTransition("pending")), None))
      case Ok(Some(m)) => Raise(AttributeError("provider"))
  }

  /** The handler as written never completes a tokenized payment whose mandate is signed,
      which is exactly the case the intended handler turns into a done payment with a
      token; in every other case the two agree. */
  lemma NotifyAsWrittenFailsWhenSigned(tx: TxRecord, status: Option<string>, table: seq<TwikeyMandate>)
    ensures var signed := tx.providerCode == Twikey && Truthy(status) && tx.tokenize &&
                          SignedMandate(table, tx.providerReference).Ok? &&
                          SignedMandate(table, tx.providerReference).value.Some?;
            && (signed ==> NotifyAsWritten(tx, status, table) == Raise(AttributeError("provider")))
            && (signed ==> Notify(tx, status, table).Ok? && Notify(tx, status, table).value.tx.state == Done
                           && Notify(tx, status, table).value.token.Some?)
            && (!signed ==> NotifyAsWritten(tx, status, table) == Notify(tx, status, table))
  {
  }

  /** One transaction and one signed mandate on which the handler as written fails. */
  lemma NotifyAsWrittenCounterexample()
    ensures var tx := TxRecord("S0001", Twikey, Some("MNDT1"), true, TxState.Pending, None, "10.00", [], 7, 3);
            var table := [TwikeyMandate(Some("MNDT1"), Signed, Some("BE68539007547034"), None, 0, None, None, None, None, None, None)];
            && NotifyAsWritten(tx, Some("paid"), table) == Raise(AttributeError("provider"))
            && Notify(tx, Some("paid"), table) ==
                 Ok(Handled(tx.(state := Done), Some(Token(Some("BE68539007547034"), 3, 7, Some("MNDT1"), true))))
  {
    var table := [TwikeyMandate(Some("MNDT1"), Signed, Some("BE68539007547034"), None, 0, None, None, None, None, None, None)];
    assert MandatesWithReference(table, Some("MNDT1")) == {0};
  }

  /** A webhook without a status, or for another provider, changes nothing. */
  lemma NotifyWithoutStatus(tx: TxRecord, status: Option<string>, table: seq<TwikeyMandate>)
    requires tx.providerCode != Twikey || !Truthy(status)
    ensures Notify(tx, status, table) == Ok(Handled(tx, None))
  {
  }

  /** For a tokenized transaction the webhook's own status is ignored: only the mandate's
      state decides, done with a token holding the mandate's IBAN and reference when it is
      signed, pending without a token otherwise. */
  lemma TokenizedIgnoresStatus(tx: TxRecord, s1: string, s2: string, table: seq<TwikeyMandate>)
    requires tx.providerCode == Twikey && tx.tokenize && s1 != "" && s2 != ""
    ensures Notify(tx, Some(s1), table) == Notify(tx, Some(s2), table)
    ensures var r := Notify(tx, Some(s1), table);
            var m := SignedMandate(table, tx.providerReference);
            && (m.Ok? && m.value.Some? ==>
                  && r.Ok? && r.value.tx.state == Done && r.value.token.Some?
                  && r.value.token.value.paymentDetails == m.value.value.iban
                  && r.value.token.value.providerRef == tx.providerReference
                  && r.value.token.value.active)
            && (m.Ok? && m.value.None? ==> r == Ok(Handled(tx.(state := TxState.Pending, stateMessage := None), None)))
  {
  }

  /** A non-tokenized transaction follows the status mapping, and the webhook only ever
      changes the state and its message. */
  lemma PlainNotification(tx: TxRecord, status: string, table: seq<TwikeyMandate>)
    requires tx.providerCode == Twikey && !tx.tokenize && status != ""
    ensures Notify(tx, Some(status), table) ==
              Ok(Handled(tx.(state := StatusTransition(status).state, stateMessage := StatusTransition(status).message), None))
  {
  }

  // ---------------- the poll (lines 170-190) ----------------

  /** `_get_post_processing_values`: a tokenized transaction still in draft or pending is
      done, with a token, once its mandate is signed; anything else is left as it is. */
  function PostProcess(tx: TxRecord, table: seq<TwikeyMandate>): (r: Result<Handled>)
    ensures r.Raise? ==> r.error == ExpectedSingleton
    ensures r.Ok? && r.value.token.None? ==> r.value.tx == tx
    ensures r.Ok? && r.value.token.Some? ==>
              && tx.tokenize && tx.state in {Draft, TxState.Pending}
              && r.value.tx == tx.(state := Done, stateMessage := None)
  {
    if tx.providerCode != Twikey || !(tx.tokenize && tx.state in {Draft, TxState.Pending}) then Ok(Handled(tx, None))
    else match SignedMandate(table, tx.providerReference)
      case Raise(e) => Raise(e)
      case Ok(None) => Ok(Handled(tx, None))
      case Ok(Some(m)) => Ok(Handled(Apply(tx, StatusTransition("paid")), Some(TokenFor(m, tx.providerId, tx.partnerId))))
  }

  /** The poll creates a token exactly for a Twikey transaction that is tokenized, still in
      draft or pending, and whose mandate is signed; the token holds that mandate's IBAN
      and reference and the transaction moves to done. Without a token nothing changes,
      and repeating the poll never creates a second token. */
  lemma PollCreatesOneToken(tx: TxRecord, table: seq<TwikeyMandate>)
    ensures var r := PostProcess(tx, table);
            var m := SignedMandate(table, tx.providerReference);
            r.Ok? && r.value.token.Some? <==>
              tx.providerCode == Twikey && tx.tokenize && tx.state in {Draft, TxState.Pending} && m.Ok? && m.value.Some?
    ensures var r := PostProcess(tx, table);
            var m := SignedMandate(table, tx.providerReference);
            && (r.Ok? && r.value.token.Some? ==>
                  && r.value.tx == tx.(state := Done, stateMessage := None)
                  && r.value.token.value == TokenFor(m.value.value, tx.providerId, tx.partnerId))
            && (r.Ok? && r.value.token.None? ==> r.value.tx == tx)
            && (r.Raise? ==> r.error == ExpectedSingleton)
            && (r.Ok? ==> PostProcess(r.value.tx, table).Ok? && PostProcess(r.value.tx, table).value.token.None?)
  {
  }

  /** The poll of a tokenized transaction in draft or pending whose one mandate is signed:
      the transaction is done and a token for that mandate is created. */
  lemma PollWithSignedMandate(tx: TxRecord, table: seq<TwikeyMandate>, i: nat)
    requires tx.providerCode == Twikey && tx.tokenize && tx.state in {Draft, TxState.Pending}
    requires i < |table| && MandatesWithReference(table, tx.providerReference) == {i} && table[i].state == Signed
    ensures PostProcess(tx, table) ==
              Ok(Handled(tx.(state := Done, stateMessage := None),
                         Some(Token(table[i].iban, tx.providerId, tx.partnerId, tx.providerReference, true))))
  {
  }

  /** The poll of a tokenized transaction whose mandate is missing or not signed changes
      nothing, and several mandates with its reference cannot be read. */
  lemma PollWithoutSignedMandate(tx: TxRecord, table: seq<TwikeyMandate>)
    requires tx.providerCode == Twikey && tx.tokenize && tx.state in {Draft, TxState.Pending}
    ensures var found := MandatesWithReference(table, tx.providerReference);
            (found == {} || (|found| == 1 && forall i :: i in found ==> table[i].state != Signed)) ==>
              PostProcess(tx, table) == Ok(Handled(tx, None))
    ensures |MandatesWithReference(table, tx.providerReference)| > 1 ==>
              PostProcess(tx, table) == Raise(ExpectedSingleton)
  {
  }

  /** The webhook does not look at the current state: once the attribute read is fixed, a
      webhook for a tokenized transaction with a signed mandate creates another token even
      after the poll has created one; as written, that webhook fails instead. */
  lemma WebhookAfterPollRepeatsToken(tx: TxRecord, status: string, table: seq<TwikeyMandate>)
    requires tx.providerCode == Twikey && tx.tokenize && tx.state in {Draft, TxState.Pending} && status != ""
    requires PostProcess(tx, table).Ok? && PostProcess(tx, table).value.token.Some?
    ensures var polled := PostProcess(tx, table).value;
            Notify(polled.tx, Some(status), table) == Ok(Handled(polled.tx, polled.token))
    ensures var polled := PostProcess(tx, table).value;
            NotifyAsWritten(polled.tx, Some(status), table) == Raise(AttributeError("provider"))
  {
  }

  // ---------------- the transaction look-up (lines 113-120) ----------------

  /** `'%s' % value` */
  function Shown(s: Option<string>): string
  {
    if s.Some? then s.value else "None"
  }

  /** `_get_tx_from_notification_data`: the Twikey transactions with the webhook's
      reference. For another provider the search result is returned as it is; for Twikey
      an empty result is an error, and several matches are returned as they are. */
  function FindTransactions(txs: map<nat, TxRecord>, providerCode: string, ref: Option<string>): (r: Result<set<nat>>)
    ensures r.Ok? ==> forall id :: id in r.value <==> id in txs && Some(txs[id].reference) == ref && txs[id].providerCode == Twikey
    ensures r.Raise? <==>
              && providerCode == Twikey
              && (forall id :: id in txs ==> Some(txs[id].reference) != ref || txs[id].providerCode != Twikey)
    ensures r.Raise? ==> r.error == ValidationError("Twikey: No transaction found matching reference " + Shown(ref) + ".")
  {
    var found := set id | id in txs && Some(txs[id].reference) == ref && txs[id].providerCode == Twikey;
    if providerCode != Twikey || |found| == 1 then Ok(found)
    else if found == {} then
      assert forall id :: id in txs ==> id !in found;
      Raise(ValidationError("Twikey: No transaction found matching reference " + Shown(ref) + "."))
    else Ok(found)
  }

  // ---------------- the records updated in place ----------------

  /** The twikey.mandate.details table. */
  class MandateTable {
    var records: seq<TwikeyMandate>

    constructor (records: seq<TwikeyMandate>)
      ensures this.records == records
    {
      this.records := records;
    }

    /** `create` */
    method Create(m: TwikeyMandate)
      modifies this
      ensures records == old(records) + [m]
    {
      records := records + [m];
    }
  }

  /** The provider's Twikey settings: tokenization, the contract template (its id and
      Twikey template id) and the payment method. */
  datatype Template = Template(id: nat, templateIdTwikey: Option<string>)
  datatype Provider = Provider(allowTokenization: bool, template: Option<Template>, payMethod: Option<string>)

  /** The service's answers: the signing request's `MndtId` and `url`, the paylink's `id`
      and `url`. */
  datatype SignReply = SignReply(mndtId: Option<string>, url: Option<string>)
  datatype PaylinkReply = PaylinkReply(id: Option<string>, url: Option<string>)

  /** What `_get_specific_rendering_values` returns: the inherited values for another
      provider, or the checkout URL and the provider reference. */
  datatype Rendering = Inherited | Checkout(apiUrl: Option<string>, reference: Option<string>)

  /** The keys both payload builders may set. */
  const PaymentKeys: set<string> := {"redirectUrl", "title", "remittance", "amount", "ct", "method", "invoice"}
  const TokenKeys: set<string> := {"ct", "method", "redirectUrl", "transactionMessage", "transactionAmount", "invoice"}

  /** A single invoice known to Twikey, the one a payload links. */
  predicate LinksInvoice(invoices: seq<Invoice>)
  {
    |invoices| == 1 && Truthy(invoices[0].twikeyInvoiceIdentifier)
  }

  /** The keys the paylink builder sets over the customer's fields. */
  function PaymentWritten(template: Option<string>, payMethod: Option<string>, linked: bool): set<string>
  {
    {"redirectUrl", "title", "remittance", "amount"}
    + (if Truthy(template) then {"ct"} else {})
    + (if Truthy(payMethod) then {"method"} else {})
    + (if linked then {"invoice"} else {})
  }

  /** The keys the signing builder sets over the customer's fields. */
  function TokenWritten(linked: bool): set<string>
  {
    {"ct", "method", "redirectUrl", "transactionMessage", "transactionAmount"}
    + (if linked then {"invoice"} else {})
  }

  /** Lines 65-91: the paylink payload built over the customer's fields for transaction
      `tx`. The return URL, title, remittance and amount are 1-tuples; the template and
      method are added only when set; a single invoice known to Twikey is linked by name,
      and its id replaces the remittance; every other key is the customer's. */
  predicate IsPaymentPayload(p: Payload, customer: Payload, urlJoin: (string, string) -> string, baseUrl: string,
                             tx: TxRecord, template: Option<string>, payMethod: Option<string>)
  {
    var written := PaymentWritten(template, payMethod, LinksInvoice(tx.invoices));
    && p.Keys == customer.Keys + written
    && (forall k :: k in customer && k !in written ==> p[k] == customer[k])
    && Has(p, "redirectUrl", Single(Text(urlJoin(baseUrl, StatusPath(tx.reference)))))
    && Has(p, "title", Single(Text(tx.reference)))
    && Has(p, "amount", Single(Text(tx.amountText)))
    && (Truthy(template) ==> Has(p, "ct", Text(template.value)))
    && (Truthy(payMethod) ==> Has(p, "method", Text(payMethod.value)))
    && (LinksInvoice(tx.invoices) ==>
          Has(p, "invoice", Text(tx.invoices[0].name)) && Has(p, "remittance", Num(tx.invoices[0].id)))
    && (!LinksInvoice(tx.invoices) ==> Has(p, "remittance", Single(Text(tx.reference))))
  }

  /** Lines 93-111: the mandate-signing payload built over the customer's fields for
      transaction `tx`. The template, method, return URL, message and amount are always
      set, as 1-tuples; a single invoice known to Twikey is linked by name; every other
      key is the customer's. */
  predicate IsTokenPayload(p: Payload, customer: Payload, urlJoin: (string, string) -> string, baseUrl: string,
                           tx: TxRecord, template: Option<string>, payMethod: Option<string>)
  {
    var written := TokenWritten(LinksInvoice(tx.invoices));
    && p.Keys == customer.Keys + written
    && (forall k :: k in customer && k !in written ==> p[k] == customer[k])
    && Has(p, "ct", Single(OptText(template)))
    && Has(p, "method", Single(OptText(payMethod)))
    && Has(p, "redirectUrl", Single(Text(urlJoin(baseUrl, StatusPath(tx.reference)))))
    && Has(p, "transactionMessage", Single(Text(tx.reference)))
    && Has(p, "transactionAmount", Single(Text(tx.amountText)))
    && (LinksInvoice(tx.invoices) ==> Has(p, "invoice", Text(tx.invoices[0].name)))
  }

  /** A key the builder leaves alone: the customer's value when it has one, absent otherwise. */
  predicate Kept(p: Payload, customer: Payload, k: string)
  {
    && (k in customer ==> Has(p, k, customer[k]))
    && (k !in customer ==> k !in p)
  }

  /** What the paylink builder leaves alone: the template and method when they are not
      set, the invoice when none is linked, and every key it never sets. */
  lemma PaymentPayloadKeeps(p: Payload, customer: Payload, urlJoin: (string, string) -> string, baseUrl: string,
                            tx: TxRecord, template: Option<string>, payMethod: Option<string>)
    requires IsPaymentPayload(p, customer, urlJoin, baseUrl, tx, template, payMethod)
    ensures !Truthy(template) ==> Kept(p, customer, "ct")
    ensures !Truthy(payMethod) ==> Kept(p, customer, "method")
    ensures !LinksInvoice(tx.invoices) ==> Kept(p, customer, "invoice")
    ensures p.Keys <= customer.Keys + PaymentKeys
    ensures forall k :: k in customer && k !in PaymentKeys ==> Has(p, k, customer[k])
  {
    var written := PaymentWritten(template, payMethod, LinksInvoice(tx.invoices));
    assert written <= PaymentKeys;
    assert !Truthy(template) ==> "ct" !in written;
    assert !Truthy(payMethod) ==> "method" !in written;
    assert !LinksInvoice(tx.invoices) ==> "invoice" !in written;
  }

  /** What the signing builder leaves alone: the invoice when none is linked, and every
      key it never sets. */
  lemma TokenPayloadKeeps(p: Payload, customer: Payload, urlJoin: (string, string) -> string, baseUrl: string,
                          tx: TxRecord, template: Option<string>, payMethod: Option<string>)
    requires IsTokenPayload(p, customer, urlJoin, baseUrl, tx, template, payMethod)
    ensures !LinksInvoice(tx.invoices) ==> Kept(p, customer, "invoice")
    ensures p.Keys <= customer.Keys + TokenKeys
    ensures forall k :: k in customer && k !in TokenKeys ==> Has(p, k, customer[k])
  {
    var written := TokenWritten(LinksInvoice(tx.invoices));
    assert written <= TokenKeys;
    assert !LinksInvoice(tx.invoices) ==> "invoice" !in written;
  }

  /** The `customerNumber` the signing payload carries, stored as the mandate's partner. */
  function CustomerNumber(p: Payload): Option<PValue>
  {
    if "customerNumber" in p then Some(p["customerNumber"]) else None
  }

  class Transaction {
    var reference: string
    var providerCode: string
    var providerReference: Option<string>
    var tokenize: bool
    var state: TxState
    var stateMessage: Option<string>
    var amountText: string
    var invoices: seq<Invoice>
    var partnerId: nat
    var providerId: nat

    function Record(): TxRecord
      reads this
    {
      TxRecord(reference, providerCode, providerReference, tokenize, state, stateMessage,
               amountText, invoices, partnerId, providerId)
    }

    constructor (tx: TxRecord)
      ensures Record() == tx
    {
      reference := tx.reference;
      providerCode := tx.providerCode;
      providerReference := tx.providerReference;
      tokenize := tx.tokenize;
      state := tx.state;
      stateMessage := tx.stateMessage;
      amountText := tx.amountText;
      invoices := tx.invoices;
      partnerId := tx.partnerId;
      providerId := tx.providerId;
    }

    /** Lines 65-91: the paylink payload, filled key by key over the customer's fields;
        two invoices or more end it with a TypeError. */
    method PreparePaymentPayload(customer: Payload, urlJoin: (string, string) -> string, baseUrl: string,
                                 template: Option<string>, payMethod: Option<string>) returns (r: Result<Payload>)
      ensures r.Raise? <==> |invoices| > 1
      ensures r.Raise? ==> r.error == TypeError(NotAnException)
      ensures r.Ok? ==> IsPaymentPayload(r.value, customer, urlJoin, baseUrl, Record(), template, payMethod)
    {
      var payload := customer;
      payload := payload["redirectUrl" := Single(Text(urlJoin(baseUrl, StatusPath(reference))))];
      payload := payload["title" := Single(Text(reference))];
      payload := payload["remittance" := Single(Text(reference))];
      payload := payload["amount" := Single(Text(amountText))];
      if Truthy(template) {
        payload := payload["ct" := Text(template.value)];
      }
      if Truthy(payMethod) {
        payload := payload["method" := Text(payMethod.value)];
      }
      var link := LinkedInvoice(invoices);
      if link.Raise? {
        return Raise(link.error);
      }
      if link.value.Some? {
        payload := payload["invoice" := Text(link.value.value.name)];
        payload := payload["remittance" := Num(link.value.value.id)];
      }
      assert payload.Keys == customer.Keys + PaymentWritten(template, payMethod, link.value.Some?);
      r := Ok(payload);
    }

    /** Lines 93-111: the mandate-signing payload. The transaction is marked for
        tokenization before anything can fail; two invoices or more end it with a
        TypeError. */
    method PrepareTokenPayload(customer: Payload, urlJoin: (string, string) -> string, baseUrl: string,
                               template: Option<string>, payMethod: Option<string>) returns (r: Result<Payload>)
      modifies this
      ensures Record() == old(Record()).(tokenize := true)
      ensures r.Raise? <==> |invoices| > 1
      ensures r.Raise? ==> r.error == TypeError(NotAnException)
      ensures r.Ok? ==> IsTokenPayload(r.value, customer, urlJoin, baseUrl, Record(), template, payMethod)
    {
      tokenize := true;
      var payload := customer;
      payload := payload["ct" := Single(OptText(template))];
      payload := payload["method" := Single(OptText(payMethod))];
      payload := payload["redirectUrl" := Single(Text(urlJoin(baseUrl, StatusPath(reference))))];
      payload := payload["transactionMessage" := Single(Text(reference))];
      payload := payload["transactionAmount" := Single(Text(amountText))];
      var link := LinkedInvoice(invoices);
      if link.Raise? {
        return Raise(link.error);
      }
      if link.value.Some? {
        payload := payload["invoice" := Text(link.value.value.name)];
      }
      assert payload.Keys == customer.Keys + TokenWritten(link.value.Some?);
      r := Ok(payload);
    }

    /** `_set_pending`, `_set_authorized`, `_set_done`, `_set_canceled`, `_set_error` */
    method SetState(t: Transition)
      modifies this
      ensures Record() == Apply(old(Record()), t)
    {
      state := t.state;
      stateMessage := t.message;
    }

    /** Lines 122-168, with the token's provider and partner read from `provider_id` and
        `partner_id`. */
    method ProcessNotification(status: Option<string>, table: seq<TwikeyMandate>) returns (r: Result<Option<Token>>)
      modifies this
      ensures var h := Notify(old(Record()), status, table);
              && (h.Raise? ==> r == Raise(h.error) && Record() == old(Record()))
              && (h.Ok? ==> r == Ok(h.value.token) && Record() == h.value.tx)
    {
      if providerCode != Twikey {
        return Ok(None);
      }
      var paymentStatus := status;
      if !Truthy(paymentStatus) {
        return Ok(None);
      }
      r := Ok(None);
      if tokenize {
        var signed := SignedMandate(table, providerReference);
        if signed.Raise? {
          return Raise(signed.error);
        }
        if signed.value.Some? {
          paymentStatus := Some("paid");
          r := Ok(Some(TokenFor(signed.value.value, providerId, partnerId)));
        } else {
          paymentStatus := Some("pending");
        }
      }
      SetState(StatusTransition(paymentStatus.value));
    }

    /** Lines 170-190: returns the state the inherited values were built with, and the
        token created, if any. */
    method PostProcessing(table: seq<TwikeyMandate>) returns (valuesState: TxState, r: Result<Option<Token>>)
      modifies this
      ensures valuesState == old(state)
      ensures var h := PostProcess(old(Record()), table);
              && (h.Raise? ==> r == Raise(h.error) && Record() == old(Record()))
              && (h.Ok? ==> r == Ok(h.value.token) && Record() == h.value.tx)
    {
      valuesState := state;
      if providerCode != Twikey {
        return valuesState, Ok(None);
      }
      r := Ok(None);
      if tokenize && valuesState in {Draft, TxState.Pending} {
        var signed := SignedMandate(table, providerReference);
        if signed.Raise? {
          return valuesState, Raise(signed.error);
        }
        if signed.value.Some? {
          r := Ok(Some(TokenFor(signed.value.value, providerId, partnerId)));
          SetState(StatusTransition("paid"));
        }
      }
    }

    /** Lines 17-63: with tokenization allowed and a contract template, the signing
        payload is sent, the reply's `MndtId` becomes the provider reference and a
        twikey.mandate.details record is created for it; otherwise the paylink payload is
        sent and the paylink's id becomes the provider reference. Either way the reply's
        URL is the checkout URL. `sent` is the payload handed to the service. */
    method RenderingValues(customer: Partner, customerFields: Partner -> Payload,
                           urlJoin: (string, string) -> string, baseUrl: string, provider: Provider,
                           sign: Payload -> SignReply, paylink: Payload -> PaylinkReply,
                           mandates: MandateTable) returns (r: Result<Rendering>, ghost sent: Payload)
      modifies this, mandates
      ensures old(providerCode) != Twikey ==>
                r == Ok(Inherited) && Record() == old(Record()) && mandates.records == old(mandates.records)
      ensures old(providerCode) == Twikey && |old(invoices)| > 1 ==>
                r == Raise(TypeError(NotAnException)) && mandates.records == old(mandates.records)
                && Record() == old(Record()).(tokenize := old(tokenize) || (provider.allowTokenization && provider.template.Some?))
      ensures old(providerCode) == Twikey && |old(invoices)| <= 1 ==>
                && r.Ok? && r.value.Checkout? && r.value.reference == providerReference
                && Record() == old(Record()).(providerReference := providerReference,
                                              tokenize := old(tokenize) || (provider.allowTokenization && provider.template.Some?))
      ensures old(providerCode) == Twikey && |old(invoices)| <= 1 && provider.allowTokenization && provider.template.Some? ==>
                && IsTokenPayload(sent, customerFields(customer), urlJoin, baseUrl, old(Record()),
                                  provider.template.value.templateIdTwikey, provider.payMethod)
                && providerReference == sign(sent).mndtId
                && r.value.apiUrl == sign(sent).url
                && mandates.records == old(mandates.records) + [TwikeyMandate(
                     sign(sent).mndtId, MandateState.Pending, None, CustomerNumber(sent), provider.template.value.id,
                     customer.lang, sign(sent).url, OrFalse(customer.zip), OrFalse(customer.street),
                     OrFalse(customer.city), customer.country)]
      ensures old(providerCode) == Twikey && |old(invoices)| <= 1 && !(provider.allowTokenization && provider.template.Some?) ==>
                && IsPaymentPayload(sent, customerFields(customer), urlJoin, baseUrl, old(Record()),
                                    if provider.template.Some? then provider.template.value.templateIdTwikey else None,
                                    provider.payMethod)
                && providerReference == paylink(sent).id
                && r.value.apiUrl == paylink(sent).url
                && mandates.records == old(mandates.records)
    {
      sent := map[];
      if providerCode != Twikey {
        return Ok(Inherited), sent;
      }
      var url;
      if provider.allowTokenization && provider.template.Some? {
        var template := provider.template.value;
        var payload := PrepareTokenPayload(customerFields(customer), urlJoin, baseUrl, template.templateIdTwikey, provider.payMethod);
        if payload.Raise? {
          return Raise(payload.error), sent;
        }
        sent := payload.value;
        var mndt := sign(payload.value);
        providerReference := mndt.mndtId;
        url := mndt.url;
        mandates.Create(TwikeyMandate(providerReference, MandateState.Pending, None, CustomerNumber(payload.value), template.id, customer.lang, url,
                                      OrFalse(customer.zip), OrFalse(customer.street), OrFalse(customer.city), customer.country));
      } else {
        var templateId := if provider.template.Some? then provider.template.value.templateIdTwikey else None;
        var payload := PreparePaymentPayload(customerFields(customer), urlJoin, baseUrl, templateId, provider.payMethod);
        if payload.Raise? {
          return Raise(payload.error), sent;
        }
        sent := payload.value;
        var link := paylink(payload.value);
        providerReference := link.id;
        url := link.url;
      }
      r := Ok(Checkout(url, providerReference));
    }
  }
}
