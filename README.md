# Twikey integration for Odoo — a Dafny model

This project models the core of the Twikey direct-debit integration for Odoo and proves
properties of it. There are two parts.

**Mandate feed reconciliation** (`V12/twikey_integration/models/mandate_details.py`):
- `update_feed` pulls the list of mandate change messages from `GET /creditor/mandate`.
- Each message is applied to the local mandate.details and res.partner tables:
  - an amendment (`AmdmntRsn`) re-points, signs and enriches the mandates with the original reference, or creates one;
  - a cancellation (`CxlRsn`) cancels the mandates with the original reference, or creates a cancelled one;
  - a snapshot (`Mndt`) creates the mandate if absent, enriches its customer and signs it.
- The customer is matched by the debtor's external id, then by name, then created. The loop variables `partner_id` and `lang_id` carry over from one message to the next.
- Every mandate write goes through the overridden `write`. It writes to the database, then pushes reference, IBAN, BIC and language to `POST /creditor/mandate/update`.
- `sync_mandate` refreshes from the feed, then posts the mandate and its customer.

**Twikey payment provider** (`twikey_integration/models/payment_transaction.py`):
- It builds the paylink and mandate-signing payloads and renders the redirect.
- It finds the transaction a webhook names.
- It maps the webhook's status to the transaction state. For tokenized payments the mandate's state decides instead, and a payment token is created once the mandate is signed.
- The post-processing poll does the same for tokenized payments still in draft or pending.

Files:
- `common.dfy`: options, Python truthiness, the exceptions, results, and a remote service's replies.
- `records.dfy`: the records, the database as a value, and `search`, `create`, `write` and singleton reads as the framework performs them.
- `feed_event.dfy`: a feed message and the key chains the reconciler reads.
- `mandate_write.dfy`: the `write` override.
- `reconcile.dfy`: `update_feed` as functions. One function per branch; `Step` handles one message, `Run` the loop, `UpdateFeed` the whole call.
- `reconcile_props.dfy`: the properties of the reconciliation.
- `sync_mandate.dfy`: `sync_mandate`, including Python's `split(' ')`.
- `mandate_details.dfy`: the tables as a class updated in place. Its methods (the `update_feed` loop, `write`, `sync_mandate`) are proved to end as the functions say.
- `payment_transaction.dfy`: the transaction as a class whose handlers update its fields. Beside it are the pure status mapping, look-ups and handler specifications, with their properties.

Modelling choices:
- A recordset is a set of ids.
- Reading a field of an empty recordset gives False. Reading one of several records is the framework's `ValueError`, which `update_feed` turns into an `AccessError`.
- A present nested JSON object counts as true.
- HTTP replies are parameters: a status and an optional body, or no answer at all.

## Model

| member | source | states |
|---|---|---|
| FeedEvents.ExternalId | V12/twikey_integration/models/mandate_details.py:42-43 | the external id is `Othr` when every link of `Mndt.Dbtr.CtctDtls` is present and it is non-empty, and absent otherwise |
| FeedEvents.LastLanguage | V12/twikey_integration/models/mandate_details.py:53-57 | a language found is the value of an entry keyed `Language` |
| FeedEvents.LastLanguageIsLastEntry | V12/twikey_integration/models/mandate_details.py:55-57 | with several `Language` entries, the value of the last one is the language |
| FeedEvents.LastLanguageWithoutEntry | V12/twikey_integration/models/mandate_details.py:54-57 | without a `Language` entry the language stays False |
| MandateDetails.FindLanguage | V12/twikey_integration/models/mandate_details.py:53-57 | the loop over `SplmtryData` leaves the value of the last `Language` entry |
| Records.IdOf | V12/twikey_integration/models/mandate_details.py:60 | `x.id if x else False`: False exactly for an empty recordset, ValueError exactly for several records, otherwise the one id |
| Records.WriteMandateRecords | V12/twikey_integration/models/mandate_details.py:229-230 | the database part of `write`: every record of the set gets the values, the others and the partners are unchanged, no record is added |
| Records.AddMandate | V12/twikey_integration/models/mandate_details.py:103-109 | `create` adds the record under the next id, which no stored mandate had, and changes no other record |
| Records.WritePartnerRecords | V12/twikey_integration/models/mandate_details.py:141-147 | the database part of `write` on partners: every partner of the set gets the values, its language only when one is given; the others, the mandates and the id counters are unchanged, no record is added |
| Records.AddPartner | V12/twikey_integration/models/mandate_details.py:48 | `create` on res.partner adds the record under the next id, which no stored partner had, and changes no other record |
| Records.CodeOf | V12/twikey_integration/models/mandate_details.py:64 | reading `code` of the language recordset: False for no language, the language's code for one, ExpectedSingleton for several |
| Records.NewPartner | V12/twikey_integration/models/mandate_details.py:48 | `create({'name': ...})` gives a person with that name and the user's language and nothing else set |
| MandateWrite.PayloadFor | V12/twikey_integration/models/mandate_details.py:240-244 | each of the four pushed values is the given one when given and non-empty; the fallback read fails with ValueError only for several records; an empty recordset pushes False and '' |
| MandateWrite.PushOutcome | V12/twikey_integration/models/mandate_details.py:257-266 | the push succeeds iff the service answers 204; another status with a JSON body is a UserError with its message; otherwise an AccessError |
| MandateWrite.Write | V12/twikey_integration/models/mandate_details.py:229-267 | a NULL reference is refused before anything changes; otherwise every record of the set gets the values and nothing else changes; without a token nothing is pushed; with one, the write succeeds iff the payload is built and the service answers 204 |
| MandateWrite.PayloadIsNewRecord | V12/twikey_integration/models/mandate_details.py:240-244 | since the database write comes first, the push for one record carries that record's new reference, IBAN, BIC and language, with '' for each unset one |
| MandateWrite.PayloadFromSeveralRecords | V12/twikey_integration/models/mandate_details.py:240-244 | for several records the payload exists iff all four values are given and non-empty; otherwise it fails with ValueError |
| MandateWrite.WriteOutcome | V12/twikey_integration/models/mandate_details.py:229-267 | the records are always written; without a token nothing is pushed; with a token, 204 succeeds and any other status is a UserError with the service's message |
| ReconcileProps.WriteRepeats | V12/twikey_integration/models/mandate_details.py:229-267 | a `write` that succeeded, repeated, leaves the database as it was whatever the service answers, and pushes the same fields; it succeeds again when the service answers those fields as before |
| Reconcile.ResolveCustomer | V12/twikey_integration/models/mandate_details.py:42-48 | customer matching never touches a mandate, keeps every partner and the table invariant, and a match it returns is never empty |
| Reconcile.DebtorValues | V12/twikey_integration/models/mandate_details.py:67-84 | the partner values carry the given name and language, the debtor's e-mail and external id (or ''); street, zip and city are cleared when missing or empty; a country code shared by several countries fails with ValueError |
| Reconcile.AmendKnown | V12/twikey_integration/models/mandate_details.py:52-101 | the known-reference amendment keeps every record and the table invariant, and leaves in `partner_id` the carried value or the matched customer |
| Reconcile.AmendUnknown | V12/twikey_integration/models/mandate_details.py:102-109 | the unknown-reference amendment keeps every record and the table invariant, and leaves in `partner_id` the carried value or the matched customer |
| Reconcile.Amend | V12/twikey_integration/models/mandate_details.py:40-109 | an amendment keeps every record and the table invariant |
| Reconcile.Cancel | V12/twikey_integration/models/mandate_details.py:110-118 | a cancellation keeps every record and the table invariant |
| Reconcile.PlaceSnapshotMandate | V12/twikey_integration/models/mandate_details.py:120-122 | a known `MndtId` gives its mandates and changes nothing; an unknown one creates exactly one mandate, under the next id and with that reference; no partner changes |
| Reconcile.EnrichSnapshotCustomer | V12/twikey_integration/models/mandate_details.py:130-147 | the enrichment changes only the customer's partner records, and is refused by `check_name` when the debtor has no name; no mandate or partner is added |
| Reconcile.SignSnapshotMandate | V12/twikey_integration/models/mandate_details.py:154-166 | signing keeps every mandate and its reference and changes no partner |
| Reconcile.Snapshot | V12/twikey_integration/models/mandate_details.py:119-166 | a snapshot keeps every record and the table invariant |
| Reconcile.Step | V12/twikey_integration/models/mandate_details.py:39-166 | one message keeps every record and the table invariant |
| Reconcile.Run | V12/twikey_integration/models/mandate_details.py:39-166 | the message loop keeps every record and the table invariant |
| Reconcile.Caught | V12/twikey_integration/models/mandate_details.py:168-169 | a ValueError becomes the access error; every other exception passes unchanged |
| Reconcile.UpdateFeed | V12/twikey_integration/models/mandate_details.py:28-170 | `update_feed` keeps every record and the table invariant |
| ReconcileProps.FeedGate | V12/twikey_integration/models/mandate_details.py:33-38 | messages are applied only with a token, a JSON body, status 200 and a non-empty `Messages` list with a non-empty first message; otherwise nothing changes; no answer or a non-JSON body is an AccessError |
| ReconcileProps.DispatchOrder | V12/twikey_integration/models/mandate_details.py:40-119 | `AmdmntRsn` is tested before `CxlRsn`, which is tested before `Mndt`; a message with none of the three changes nothing |
| ReconcileProps.CancelKnownReference | V12/twikey_integration/models/mandate_details.py:111-113 | a cancellation of a known reference sets state cancelled and description to the reason on every mandate with it, and changes nothing else |
| ReconcileProps.CancelUnknownReference | V12/twikey_integration/models/mandate_details.py:114-118 | a cancellation of an unknown reference creates exactly one mandate: that reference, cancelled, with no partner, IBAN, BIC, language or description |
| ReconcileProps.CancelKnownTwice | V12/twikey_integration/models/mandate_details.py:111-113 | repeating a cancellation of a known reference changes nothing more |
| ReconcileProps.CancelUnknownRepeated | V12/twikey_integration/models/mandate_details.py:111-118 | the second pass of a cancellation of an unknown reference finds the record the first created and writes the reason into it, changing nothing else |
| ReconcileProps.CancelUnknownTwice | V12/twikey_integration/models/mandate_details.py:111-118 | repeating a cancellation of an unknown reference changes nothing more iff the cancellation has no reason text |
| ReconcileProps.CustomerResolutionOrder | V12/twikey_integration/models/mandate_details.py:42-48 | partners with the external id win; when that step finds nothing (no partner with the id, or no id and an empty `partner_id`), a missing debtor block is an AttributeError, partners with the non-empty name win next, a missing name violates `check_name`, and otherwise one partner with only the name and the user's language is created; nothing else creates a partner; a match is never empty and holds only existing partners |
| ReconcileProps.CustomerCarriesOver | V12/twikey_integration/models/mandate_details.py:42-44 | without an external id, a non-empty `partner_id` left by an earlier message is the customer |
| ReconcileProps.FirstMessageNeedsExternalId | V12/twikey_integration/models/mandate_details.py:42-44 | on the first message, a customer match without an external id fails: `partner_id` was never assigned |
| ReconcileProps.FirstSnapshotOfNewMandateFails | V12/twikey_integration/models/mandate_details.py:120-123 | a snapshot of an unknown `MndtId` as the first message always fails with UnboundLocalError, leaving the tables unchanged: `partner_id` is read before it is assigned |
| ReconcileProps.SnapshotKeepsReferences | V12/twikey_integration/models/mandate_details.py:123-166 | after the mandate is placed, the rest of a snapshot adds no mandate and changes no reference |
| ReconcileProps.SnapshotKnownReference | V12/twikey_integration/models/mandate_details.py:120-122 | a snapshot of a known `MndtId` adds no mandate, and the same records keep that reference |
| ReconcileProps.SnapshotUnknownReference | V12/twikey_integration/models/mandate_details.py:120-122 | a successful snapshot of an unknown `MndtId` adds exactly one mandate, the only one with that reference |
| ReconcileProps.SnapshotFindsPlaced | V12/twikey_integration/models/mandate_details.py:120-122 | after a successful snapshot, the mandates with its `MndtId` are the ones it placed |
| ReconcileProps.SnapshotStages | V12/twikey_integration/models/mandate_details.py:119-166 | a successful snapshot is placement, customer match, enrichment and signing, each succeeding in turn |
| ReconcileProps.SigningSucceeded | V12/twikey_integration/models/mandate_details.py:154-166 | a successful signing has one customer and writes the signed state, the customer, the account, the BIC and the language code |
| ReconcileProps.SnapshotSignsMandates | V12/twikey_integration/models/mandate_details.py:154-166 | after a snapshot every mandate with its `MndtId` is signed, with the debtor's account and BIC (False when missing), the single matched customer and the message's language; an unknown ISO code gives language False |
| ReconcileProps.EnrichmentWritten | V12/twikey_integration/models/mandate_details.py:130-147 | the customer gets the debtor's name, external id (or ''), e-mail and address, and a missing field is cleared |
| ReconcileProps.SnapshotEnrichesCustomer | V12/twikey_integration/models/mandate_details.py:123-147 | after a snapshot the matched customer holds the debtor block's name, external id, e-mail, street, zip, city and country, each cleared when missing; every other partner is unchanged |
| ReconcileProps.ExternalIdFindsCustomer | V12/twikey_integration/models/mandate_details.py:123-144 | once the external id is written, searching by it finds exactly the matched customer |
| ReconcileProps.SnapshotIdempotent | V12/twikey_integration/models/mandate_details.py:119-166 | a snapshot applied again, with the loop variables it left, changes nothing |
| ReconcileProps.AmendmentStages | V12/twikey_integration/models/mandate_details.py:40-109 | a successful amendment matched its customer and ran the known or the unknown branch to its end |
| ReconcileProps.AmendKnownSucceeded | V12/twikey_integration/models/mandate_details.py:52-84 | the known branch writes the mandate values of lines 59-65, then the debtor values with the language onto the single customer |
| ReconcileProps.AmendedMandates | V12/twikey_integration/models/mandate_details.py:59-65 | the mandate write of an amendment: each mandate found by the original reference gets the new reference, customer, state signed, account, BIC and language and keeps its description; the others stay; the original reference then names none unless it is the new one |
| ReconcileProps.AmendKnownReference | V12/twikey_integration/models/mandate_details.py:52-65 | every mandate with the original reference gets the new `MndtId`, state signed, the debtor's account, BIC and language and the single customer; no other mandate changes; the original reference then names no mandate |
| ReconcileProps.AmendKnownReusesCustomer | V12/twikey_integration/models/mandate_details.py:42-84 | a customer found by external id is reused, no partner is created, and its name, language, e-mail and address are overwritten from the debtor block |
| ReconcileProps.AmendUnknownReference | V12/twikey_integration/models/mandate_details.py:102-109 | an amendment of an unknown reference creates one signed mandate for the single customer, with the language an earlier message left in `lang_id`; existing partners are unchanged |
| ReconcileProps.SnapshotFeedRerunAddsPartner | V12/twikey_integration/models/mandate_details.py:119-166 | a feed of two snapshots, the second naming no external id, run twice: the second snapshot overwrites the customer the first one found, so the second run no longer finds it and creates another partner |
| ReconcileProps.AmendmentTwiceDuplicates | V12/twikey_integration/models/mandate_details.py:41-109 | a second pass of the same amendment creates another mandate with the new `MndtId` |
| ReconcileProps.StepKeepsInvariant | V12/twikey_integration/models/mandate_details.py:39-166 | each message keeps the id sequences ahead of stored ids and `partner_id` pointing at existing partners; no record is deleted |
| ReconcileProps.RunStopsAtError | V12/twikey_integration/models/mandate_details.py:34-170 | once a message fails, later messages change nothing |
| ReconcileProps.RunKeepsInvariant | V12/twikey_integration/models/mandate_details.py:39-166 | the loop keeps the table invariant whatever the messages |
| MandateDetails.Store.SearchMandates | V12/twikey_integration/models/mandate_details.py:41 | the search returns every mandate with the reference |
| MandateDetails.Store.CreateMandate | V12/twikey_integration/models/mandate_details.py:103-109 | `create` adds the record under the next id; keeps the table invariant |
| MandateDetails.Store.CreatePartner | V12/twikey_integration/models/mandate_details.py:48 | `create` adds the partner under the next id; keeps the table invariant |
| MandateDetails.Store.WritePartners | V12/twikey_integration/models/mandate_details.py:77-84 | the partner write changes every record of the set; keeps the table invariant |
| MandateDetails.Store.Write | V12/twikey_integration/models/mandate_details.py:229-267 | the in-place `write` ends as `MandateWrite.Write` says; keeps the table invariant |
| MandateDetails.Store.MatchCustomer | V12/twikey_integration/models/mandate_details.py:42-48 | the in-place customer match ends as `ResolveCustomer` says; keeps the table invariant |
| MandateDetails.Store.ApplyAmendment | V12/twikey_integration/models/mandate_details.py:40-109 | the in-place amendment ends as `Amend` says; keeps the table invariant |
| MandateDetails.Store.ApplyCancellation | V12/twikey_integration/models/mandate_details.py:110-118 | the in-place cancellation ends as `Cancel` says; keeps the table invariant |
| MandateDetails.Store.ApplySnapshot | V12/twikey_integration/models/mandate_details.py:119-166 | the in-place snapshot ends as `Snapshot` says; keeps the table invariant |
| MandateDetails.Store.ApplyMessage | V12/twikey_integration/models/mandate_details.py:39-166 | one loop iteration ends as `Step` says; keeps the table invariant |
| MandateDetails.Store.UpdateFeed | V12/twikey_integration/models/mandate_details.py:28-170 | the loop over the messages ends as `Reconcile.UpdateFeed` says and keeps the table invariant |
| MandateDetails.Store.SyncMandate | V12/twikey_integration/models/mandate_details.py:172-203 | `sync_mandate` ends as `MandateSync.Sync` says and keeps the table invariant |
| MandateSync.Split | V12/twikey_integration/models/mandate_details.py:181 | `split(' ')` always gives at least one piece, so taking the first never fails; the pieces themselves are stated by the four lemmas below |
| MandateSync.SplitCount | V12/twikey_integration/models/mandate_details.py:181 | `split(' ')` gives one piece more than the name has spaces, empty pieces included |
| MandateSync.JoinSplit | V12/twikey_integration/models/mandate_details.py:181 | joining the pieces with single spaces gives back the name |
| MandateSync.SplitHasNoSpace | V12/twikey_integration/models/mandate_details.py:181 | no piece holds a space |
| MandateSync.FirstPiece | V12/twikey_integration/models/mandate_details.py:181 | the first piece is the name up to its first space, and the only piece iff the name has no space |
| MandateSync.SplitRest | V12/twikey_integration/models/mandate_details.py:181 | after the first piece and its space, the pieces are those of the rest of the name |
| MandateSync.SyncPayloadOf | V12/twikey_integration/models/mandate_details.py:179-197 | the body fails with AttributeError iff the customer has no name; otherwise it carries the mandate's reference, state, account, BIC, language (with '' when unset) and customer id |
| MandateSync.Sync | V12/twikey_integration/models/mandate_details.py:172-203 | nothing happens without a token; the database is the one the feed left, keeping every record; a body is sent only after the feed succeeded, it is the refreshed mandate's body, and the call fails iff it was not delivered |
| MandateSync.PersonNames | V12/twikey_integration/models/mandate_details.py:181-191 | for a person, `firstname` is the name up to the first space and `lastname` only the text up to the second; company fields are '' |
| MandateSync.CompanyFields | V12/twikey_integration/models/mandate_details.py:188-192 | for a company, name and VAT are sent and person fields are '' |
| MandateSync.MandateFields | V12/twikey_integration/models/mandate_details.py:180-196 | the mandate's fields are sent as stored ('' when unset); without a customer every customer field is ''; a customer without a name fails |
| MandateSync.SyncAfterFeed | V12/twikey_integration/models/mandate_details.py:177-203 | nothing happens without a token; the feed is applied first and its exception stops the call; the body then describes the refreshed mandate; an undelivered post is an AccessError |
| PaymentTransaction.LinkedInvoice | twikey_integration/models/payment_transaction.py:81-89 | several invoices fail with TypeError; an invoice is linked iff there is exactly one and Twikey knows it |
| PaymentTransaction.StatusTransition | twikey_integration/models/payment_transaction.py:158-168 | no status leaves the transaction in draft; exactly canceled and error carry a message |
| PaymentTransaction.StatusMapping | twikey_integration/models/payment_transaction.py:158-168 | pending, authorized and paid give pending, authorized and done; expired, canceled and failed give canceled; any other status gives error; only canceled and error carry a message, which ends with the status |
| PaymentTransaction.SignedMandate | twikey_integration/models/payment_transaction.py:141-144 | no mandate with the reference reads as not signed; several fail with ValueError; exactly one is returned iff it is signed, and otherwise reads as not signed |
| PaymentTransaction.Notify | twikey_integration/models/payment_transaction.py:122-168 | the corrected webhook changes only the state and its message; a token is created only for a tokenized transaction, which is then done, with the transaction's provider, partner and provider reference; the only failure is a mandate read over several records |
| PaymentTransaction.NotifyAsWritten | twikey_integration/models/payment_transaction.py:122-168 | the webhook as written never creates a token; it fails only on a mandate read over several records or on the missing `provider` attribute |
| PaymentTransaction.NotifyAsWrittenFailsWhenSigned | twikey_integration/models/payment_transaction.py:139-156 | as written, a tokenized webhook with a signed mandate raises AttributeError where the intended handler completes the payment with a token; otherwise the two agree |
| PaymentTransaction.NotifyAsWrittenCounterexample | twikey_integration/models/payment_transaction.py:147-153 | one concrete transaction and signed mandate on which the handler as written fails |
| PaymentTransaction.NotifyWithoutStatus | twikey_integration/models/payment_transaction.py:131-137 | another provider, or a missing or empty status, changes nothing |
| PaymentTransaction.TokenizedIgnoresStatus | twikey_integration/models/payment_transaction.py:139-156 | for a tokenized transaction the webhook's status is ignored: signed mandate gives done and a token with the mandate's IBAN and reference; otherwise pending |
| PaymentTransaction.PlainNotification | twikey_integration/models/payment_transaction.py:158-168 | a non-tokenized transaction takes the mapped state and message, and nothing else changes |
| PaymentTransaction.PollCreatesOneToken | twikey_integration/models/payment_transaction.py:175-189 | the poll creates a token iff the transaction is a tokenized Twikey one in draft or pending and its one mandate is signed; the token holds that mandate's IBAN and reference and the transaction moves to done; otherwise nothing changes; a second poll never creates a token |
| PaymentTransaction.PostProcess | twikey_integration/models/payment_transaction.py:170-190 | the poll either changes nothing or, with a token, moves a tokenized draft or pending transaction to done; the only failure is a mandate read over several records |
| PaymentTransaction.PollWithSignedMandate | twikey_integration/models/payment_transaction.py:175-189 | a tokenized draft or pending transaction whose one mandate is signed is done, with a token holding the mandate's IBAN and reference |
| PaymentTransaction.PollWithoutSignedMandate | twikey_integration/models/payment_transaction.py:175-189 | without a mandate, or with one that is not signed, the poll changes nothing; several mandates fail with ValueError |
| PaymentTransaction.WebhookAfterPollRepeatsToken | twikey_integration/models/payment_transaction.py:139-153 | the webhook does not check the state: after the poll has created a token, the corrected handler would create another; the handler as written raises AttributeError instead |
| PaymentTransaction.FindTransactions | twikey_integration/models/payment_transaction.py:113-120 | the result is exactly the Twikey transactions with the reference; it fails with ValidationError, naming the reference, iff the provider is Twikey and there is no match |
| PaymentTransaction.Transaction.PreparePaymentPayload | twikey_integration/models/payment_transaction.py:65-91 | the payload is `IsPaymentPayload`: its keys are exactly the customer's plus return URL, title, remittance and amount (as 1-tuples), `ct` and `method` when the template and method are set, and `invoice` when one invoice is linked, whose id then replaces the remittance; every other key keeps the customer's value; several invoices fail with TypeError |
| PaymentTransaction.Transaction.PrepareTokenPayload | twikey_integration/models/payment_transaction.py:93-111 | tokenize is set even when the build fails; the payload is `IsTokenPayload`: its keys are exactly the customer's plus `ct`, `method`, return URL, message and amount (always, as 1-tuples) and `invoice` when one invoice is linked, by name; every other key keeps the customer's value; several invoices fail with TypeError |
| PaymentTransaction.PaymentPayloadKeeps | twikey_integration/models/payment_transaction.py:65-91 | the paylink payload keeps the customer's `ct` and `method` when no template or method is set, and the customer's `invoice` when no invoice is linked (absent stays absent); no key outside the builder's seven is added or changed |
| PaymentTransaction.TokenPayloadKeeps | twikey_integration/models/payment_transaction.py:93-111 | the signing payload keeps the customer's `invoice` when no invoice is linked (absent stays absent); no key outside the builder's six is added or changed |
| PaymentTransaction.Transaction.ProcessNotification | twikey_integration/models/payment_transaction.py:122-168 | the in-place webhook handler ends as `Notify` says |
| PaymentTransaction.Transaction.PostProcessing | twikey_integration/models/payment_transaction.py:170-190 | the in-place poll ends as `PostProcess` says and returns the state the inherited values were built with |
| PaymentTransaction.Transaction.RenderingValues | twikey_integration/models/payment_transaction.py:17-63 | another provider changes nothing; with tokenization allowed and a template the signing payload is sent, the reply's `MndtId` becomes the provider reference, its URL the checkout URL, and exactly one mandate record is created with them, the payload's `customerNumber` and the customer's address; otherwise the paylink payload is sent and the paylink's id and URL become the provider reference and checkout URL; several invoices fail |

Two behaviours one would expect of a feed reconciler and a payment provider hold only in part in the code, and one kind of message always fails:

- **Feed idempotence.** Applying the same feed twice leaves the tables as one application did only for some messages:
  - the same snapshot applied twice in a row does (`SnapshotIdempotent`);
  - a whole feed of snapshots run again need not (`SnapshotFeedRerunAddsPartner`): a snapshot that names no external id overwrites, name and external id included, the customer it inherits from the message before it; on the second run that earlier message no longer finds its customer and creates a new partner;
  - a cancellation of a known reference does (`CancelKnownTwice`);
  - a cancellation of an unknown reference does only when it has no reason text (`CancelUnknownTwice`): the record it creates has no description, and the second pass writes one;
  - an amendment of a known reference does not (`AmendmentTwiceDuplicates`): it renames the mandates, so the second pass no longer finds the original reference and creates a second mandate.
- **Payment tokens.** Repeated polls create only one token (`PollCreatesOneToken`). The webhook does not look at the transaction's state. With the fix in "## Findings", a later webhook would create another token. As written, that webhook raises AttributeError instead (`WebhookAfterPollRepeatsToken`).
- **First snapshot of a new mandate.** Line 122 links a new mandate to the `partner_id` of an earlier message, before lines 123-129 look up the message's own customer. As the first message of a pass, such a snapshot always fails with UnboundLocalError (`FirstSnapshotOfNewMandateFails`).

## Findings

| source | as written | input that shows it | evidently intended | confidence | as-written member | corrected member |
|---|---|---|---|---|---|---|
| twikey_integration/models/payment_transaction.py:149-150 | the token's values read `self.provider.id` and `self.partner.id`, but payment.transaction has no `provider` or `partner` field, so the handler raises AttributeError before the token is created or the state set | a Twikey transaction with `tokenize` set, a webhook with any non-empty status, and one twikey.mandate.details record in state signed whose reference is the transaction's provider reference (`NotifyAsWrittenCounterexample`) | read `self.provider_id.id` and `self.partner_id.id`, as the poll does at lines 182-183: create the token and set the transaction done | high; not executed | PaymentTransaction.NotifyAsWrittenCounterexample | PaymentTransaction.TokenizedIgnoresStatus |

The rest of the model uses the corrected handler: `PaymentTransaction.Notify` and `PaymentTransaction.Transaction.ProcessNotification`. The code as written is `PaymentTransaction.NotifyAsWritten`, and `PaymentTransaction.NotifyAsWrittenFailsWhenSigned` shows that the two differ exactly in this case.

## Left out

**Outside the model:**
- HTTP traffic and the Twikey client. Each request's answer is a parameter: a status with an optional JSON body, or no answer. `requests`' exceptions and a body that is not JSON become one access error.
- The response to `sync_mandate`'s post is not read by the code. The model only says whether the post got through.
- The framework rolls back the database when an exception leaves a request. The model shows the tables as they stand when the exception is raised. Pushes already sent to the service are not rolled back in any case.
- Configuration parameters, `sudo()`, access rights and logging.
- The settings page, the module manifest and the contract-template model. They hold no behaviour of the core.
- Commented-out code: creditor enrichment and `cancel_or_delete_mandate`.
- twikey.mandate.details (used by the payment provider) is not part of this model. Its records are modelled with the columns read and written here. A created record is assumed to start in state pending.

**Simplifications:**
- A nested JSON object is present or absent. An empty object `{}`, which Python treats as false, is not distinguished from a present one, except for a whole feed message.
- A partner id stored on a mandate but missing from the partner table is treated as no customer.
- Every partner is active. Archived partners, which `search` skips, are not modelled.
- Every partner is taken to be a contact, the default address type. So res.partner's `check_name` constraint always applies: a partner created or written without a name is refused with an integrity error.
- `get_twikey_customer`, werkzeug's `url_join` and the signing and paylink calls are uninterpreted function parameters.
- `url_parse`/`url_decode` of the checkout URL are left out: `url_params` is not modelled, and `RenderingValues` returns only the URL and the reference.
- The amount is an opaque, already formatted string. The two-decimal float formatting is not modelled.
- The framework's `_set_*` internals are reduced to setting the state and its message. Their checks on which states may be left are not modelled.
- `update_feed` is modelled for one call. The real method is called on a recordset but does not use it.
- ReconcileProps.SnapshotIdempotent: the service's answer to a push is a function of the pushed fields. So the repeated snapshot gets the same answer as the first. A service that answers the same push differently the second time is not covered; `WriteRepeats` shows the database stays as it was in that case too.
- MandateDetails.Store.SyncMandate: requires the mandate to exist in the table. `sync_mandate` runs on a stored record, so the mandate exists.
