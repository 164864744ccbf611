# QBMS gateway model

A Dafny model of the QuickBooks Merchant Service gateway of Active Merchant
(`QbmsGateway`, QBMSXML API version 4.1). It covers everything the gateway
does apart from the HTTPS post:

- **Action catalog** (`action_catalog.dfy`). The eight QBMS actions and
  their wire stems. The stem plus `Rq` names the request element; the stem
  plus `Rs` names the response element.
- **Request builder** (`request_builder.dfy`). `build_request` and its
  helpers. A `Markup` class stands in for the XML builder: each tag call
  appends events to its `events` field. Each `build_*` method is proved
  against a payload function. `BuildRequest` is proved equal to the prolog
  followed by the serialization of the request tree: the signon block, then
  the message block holding the one request element.
- **Response parser** (`response_parser.dfy`). `parse_element` and `parse`
  as methods with loops, proved equal to specification functions:
  - an element without child elements becomes its text;
  - otherwise it becomes a map from normalised tag to value, where a tag
    repeated among siblings is promoted to a list in document order;
  - the response element is found at `QBMSXML/QBMSXMLMsgsRs/<Stem>Rs`, and
    its attributes are merged over the children.
- **Result classifier** (`result_classifier.dfy`). `commit` after the
  transport: the success flag, message, authorization, AVS result
  (`parse_avs_result`) and CVV result (`parse_cvv_result`). Four answers
  are replayed through the parser and classifier as lemmas: the create,
  update and authorize answers of the unit tests and the rejected query of
  the remote test. Each document carries the signon reply ahead of the
  message block, for any server time and session ticket.
- **Gateway** (`gateway.dfy`). The public operations:
  - the `requires!` key lists, checked in order;
  - the options capture and void build from;
  - the gateway's own options, which `void` updates in place;
  - `Perform`, which validates, builds, and classifies the server's answer.

`wrappers.dfy` holds the `Option` and `Result` datatypes. `errors.dfy` holds
the Ruby exceptions the code paths raise (`ArgumentError` naming a missing
key, `NoMethodError`), shared by the builder, the classifier and the gateway.

Ruby's `Hash#[]` on a missing key yields nil. The parsed-value side models
nil as `Text(None)`; the options side models it as `Value.Nil`.

When the response element is absent, `parse` returns nil (qbms.rb:246-255),
and `commit` then calls `[]` on nil, which raises `NoMethodError`. In the
model `ParseResult` is `None`, and `Commit` and `Perform` return
`Failure(NoMethodError)`.

## Model

| member | source | states |
|---|---|---|
| ActionCatalog.StemInjective | lib/active_merchant/billing/gateways/qbms.rb:11-20 | two actions have the same wire stem iff they are the same action |
| ActionCatalog.SuffixedStems | lib/active_merchant/billing/gateways/qbms.rb:114 | appending the same suffix to two actions' stems gives equal names iff the actions are equal |
| ActionCatalog.ResponseMatchesRequest | lib/active_merchant/billing/gateways/qbms.rb:114 | two actions send the same request element name iff they are the same action, and likewise for the response element name; an action's `Rq` and `Rs` names start with its stem; no request name is a response name |
| ResponseParser.ElementValue | lib/active_merchant/billing/gateways/qbms.rb:258-280 | an element's value is never itself a list: lists only arise under a key of a parent's map |
| ResponseParser.SiblingPromotion | lib/active_merchant/billing/gateways/qbms.rb:258-280 | a key is present iff some child normalises to it; one occurrence maps to that child's value; n >= 2 occurrences map to the list of the n values in document order |
| ResponseParser.GroupSnoc | lib/active_merchant/billing/gateways/qbms.rb:265-273 | adding one child: a new key stores the value; a key holding a list gets the value appended; a key holding a scalar becomes `[old, new]` |
| ResponseParser.PickCount | lib/active_merchant/billing/gateways/qbms.rb:262-274 | the values gathered under a key are exactly as many as the children with that key |
| ResponseParser.ParseElement | lib/active_merchant/billing/gateways/qbms.rb:258-280 | the hash the loop fills equals the element's value (the loop invariant is the grouping of the children seen so far) |
| ResponseParser.FindIn | lib/active_merchant/billing/gateways/qbms.rb:245 | an element found for a target has the target's name |
| ResponseParser.FirstMatch | lib/active_merchant/billing/gateways/qbms.rb:245 | nothing is found iff no element matches; otherwise the first matching element in the given order |
| ResponseParser.FindInIsFirstInPreorder | lib/active_merchant/billing/gateways/qbms.rb:245 | the search yields the first element in document order at the response path |
| ResponseParser.RootLookup | lib/active_merchant/billing/gateways/qbms.rb:245-256 | `parse` yields nil iff no element sits at `QBMSXML/QBMSXMLMsgsRs/<Stem>Rs`; otherwise it parses the first such element |
| ResponseParser.LastValueAt | lib/active_merchant/billing/gateways/qbms.rb:250-252 | an attribute whose normalised name no later attribute shares is the value stored under that name |
| ResponseParser.Parse | lib/active_merchant/billing/gateways/qbms.rb:242-256 | the method (lookup, `parse_element`, `||= {}`, attribute loop) equals the parse function: nil, or the children's map overridden by the attributes |
| ResponseParser.AttributeMerge | lib/active_merchant/billing/gateways/qbms.rb:246-253 | the result's keys are the child keys plus the attribute keys; each attribute is stored (the last of equal names wins) over a child of the same key; other child keys keep the children's value |
| ResultClassifier.AvsResult | lib/active_merchant/billing/gateways/qbms.rb:196-208 | `street_match`/`postal_match` are set iff `avs_street`/`avs_zip` is non-nil, and read "Y" iff the source is exactly "Pass", "N" otherwise |
| ResultClassifier.AvsResultIndependent | lib/active_merchant/billing/gateways/qbms.rb:196-208 | the AVS result is determined by the parameters, and each entry depends only on its own source field |
| ResultClassifier.CvvResult | lib/active_merchant/billing/gateways/qbms.rb:210-221 | nil iff `card_security_code_match` is nil; otherwise one of M/N/X, with "M" iff the code is "Y" and "N" iff it is "N" |
| ResultClassifier.Commit | lib/active_merchant/billing/gateways/qbms.rb:227-239 | fails (NoMethodError) iff `parse` yields nil; otherwise success iff `status_code` is "0", message is `status_message`, authorization is `credit_card_trans_id` (nil when absent), with the AVS and CVV results of the parameters |
| ResultClassifier.GroupOfDistinct | lib/active_merchant/billing/gateways/qbms.rb:262-273 | children whose names normalise to distinct keys are stored as plain key/value pairs, no lists |
| ResultClassifier.AnswerEntries | lib/active_merchant/billing/gateways/qbms.rb:246-253 | an answer of distinct leaves carrying the three status attributes parses to its leaves followed by `status_code`, `status_message`, `status_severity` |
| ResultClassifier.AttributeFold | lib/active_merchant/billing/gateways/qbms.rb:250-252 | storing the attributes one by one under their normalised names is folding them in document order: a later attribute with the same name overrides an earlier one |
| ResultClassifier.AnswerParsed | lib/active_merchant/billing/gateways/qbms.rb:242-256 | a document holding one answer with status attributes and distinct leaves parses to those leaves' texts followed by the status attributes |
| ResultClassifier.SignonSkipped | lib/active_merchant/billing/gateways/qbms.rb:245 | the search for a response element never stops inside the signon reply, whatever its time and ticket |
| ResultClassifier.CreateFixture | test/unit/gateways/qbms_test.rb:10-26 | the wallet-add answer classifies as success, message "Status OK", the wallet entry id, `is_duplicate` "false", no authorization |
| ResultClassifier.UpdateFixture | test/unit/gateways/qbms_test.rb:28-41 | the self-closing wallet-mod answer still yields its status attributes: success, message "Status OK" |
| ResultClassifier.AuthorizeFixture | test/unit/gateways/qbms_test.rb:90-103 | the wallet-auth answer: success, authorization "YY1000045060", both AVS entries "Y", CVV "X" |
| ResultClassifier.RejectedQueryFixture | test/remote/gateways/remote_qbms_test.rb:155-163 | an answer with status 10307 is a failure carrying the server's message |
| ResultClassifier.SignonOnlyFixture | lib/active_merchant/billing/gateways/qbms.rb:245-255 | a document answering only at the signon level has no response element, so `parse` yields nil |
| RequestBuilder.CreateXmlHeader | lib/active_merchant/billing/gateways/qbms.rb:135-138 | appends the XML declaration (version 1.0, utf-8) and the `qbmsxml` instruction with version 4.1 |
| RequestBuilder.AddSignonMsgsRq | lib/active_merchant/billing/gateways/qbms.rb:140-148 | appends `SignonMsgsRq > SignonDesktopRq` holding ClientDateTime, ApplicationLogin = login and ConnectionTicket = password, in that order |
| RequestBuilder.BuildWalletAddRequest | lib/active_merchant/billing/gateways/qbms.rb:150-158 | appends the add payload: customer id, the card's number, month, year and name, address, postal code |
| RequestBuilder.AddWalletEntryIdAndCustomerId | lib/active_merchant/billing/gateways/qbms.rb:160-163 | appends WalletEntryID then CustomerID from the options |
| RequestBuilder.BuildWalletModRequest | lib/active_merchant/billing/gateways/qbms.rb:165-172 | appends wallet entry and customer ids, the card's month, year and name, then address and postal code each only when truthy |
| RequestBuilder.BuildWalletChargeRequest | lib/active_merchant/billing/gateways/qbms.rb:177-183 | appends the fresh TransRequestID, the wallet entry and customer ids, and the formatted amount |
| RequestBuilder.BuildCaptureRequest | lib/active_merchant/billing/gateways/qbms.rb:185-189 | appends TransRequestID and CreditCardTransID, then the formatted amount only when the amount is not blank |
| RequestBuilder.BuildTxnVoidRequest | lib/active_merchant/billing/gateways/qbms.rb:191-194 | appends TransRequestID and CreditCardTransID |
| RequestBuilder.BuildPayload | lib/active_merchant/billing/gateways/qbms.rb:113-117 | dispatches on the action (the aliases share a builder); fails, appending nothing, iff a card action finds no card object under `credit_card` |
| RequestBuilder.BuildRequest | lib/active_merchant/billing/gateways/qbms.rb:110-120 | the recorded events are the prolog followed by the serialized request tree, or NoMethodError when the payload cannot be built |
| RequestBuilder.OpenEnvelope | lib/active_merchant/billing/gateways/qbms.rb:123-128 | appends the XML prolog, opens QBMSXML, appends the signon block, and opens QBMSXMLMsgsRq |
| RequestBuilder.CloseEnvelope | lib/active_merchant/billing/gateways/qbms.rb:128-132 | closes QBMSXMLMsgsRq, then QBMSXML |
| RequestBuilder.EnvelopeEvents | lib/active_merchant/billing/gateways/qbms.rb:123-132 | the request opens QBMSXML, holds the signon block, then QBMSXMLMsgsRq holding exactly the one `<Stem>Rq` element, and closes them in reverse order |
| RequestBuilder.DecodeSerialize | lib/active_merchant/billing/gateways/qbms.rb:110-132 | every emitted tag is well nested: reading the events back yields the same tag |
| RequestBuilder.RequestDecodes | lib/active_merchant/billing/gateways/qbms.rb:110-148 | a built request is the prolog and exactly one tag, the request tree, with nothing after it |
| RequestBuilder.BuildFailure | lib/active_merchant/billing/gateways/qbms.rb:150-172 | building fails iff the action is add or mod and `credit_card` does not hold a card |
| RequestBuilder.PayloadOrder | lib/active_merchant/billing/gateways/qbms.rb:150-194 | the exact tag order of each action's payload, with mod's address/postal code only when truthy and capture's Amount only when not blank |
| RequestBuilder.SharedPayloads | lib/active_merchant/billing/gateways/qbms.rb:174-183 | delete and query send identical payloads; so do charge and authorize |
| RequestBuilder.PayloadSources | lib/active_merchant/billing/gateways/qbms.rb:150-194 | every payload tag holds a single value, the one its name designates (option, card attribute, formatted amount or fresh id) |
| RequestBuilder.PayloadDistinct | lib/active_merchant/billing/gateways/qbms.rb:150-194 | no tag appears twice in a payload |
| RequestBuilder.ModKeys | lib/active_merchant/billing/gateways/qbms.rb:165-172 | the mod payload reads the wallet entry id, customer id and card, plus `credit_card_address` iff it is truthy and `credit_card_postal_code` iff it is truthy |
| RequestBuilder.CaptureKeys | lib/active_merchant/billing/gateways/qbms.rb:185-189 | the capture payload reads `credit_card_trans_id`, plus `amount` iff it is not blank |
| RequestBuilder.PayloadKeys | lib/active_merchant/billing/gateways/qbms.rb:150-194 | every payload of an action carries the tags of the action's fixed keys and at most its optional ones (mod's address and postal code, capture's amount); with the optional keys falsy or blank it carries exactly the fixed keys |
| Gateway.ActionOf | lib/active_merchant/billing/gateways/qbms.rb:45-104 | each public operation builds and commits one action; an action needs a card iff the call is create or update |
| Gateway.EveryActionPerformed | lib/active_merchant/billing/gateways/qbms.rb:39-106 | every action is performed by some public operation, on any given options (void on the gateway's own) |
| Gateway.RequiredKeys | lib/active_merchant/billing/gateways/qbms.rb:40-102 | each operation checks at least one key, and no key twice |
| Gateway.EffectiveOptions | lib/active_merchant/billing/gateways/qbms.rb:92-106 | capture builds from the caller's options updated with `amount` = money and `credit_card_trans_id` = authorization; void builds from the gateway's options updated with `credit_card_trans_id`; the other operations build from the caller's options unchanged |
| Gateway.FirstMissing | lib/active_merchant/billing/gateways/qbms.rb:40-43 | nothing is reported iff every required key is present; otherwise the reported key is absent and every key checked before it is present |
| Gateway.CaptureAndVoidValidate | lib/active_merchant/billing/gateways/qbms.rb:92-106 | capture and void store `credit_card_trans_id` before requiring it, so their check never fails |
| Gateway.RequiredKeysCarried | lib/active_merchant/billing/gateways/qbms.rb:39-106 | each operation requires exactly the option keys of the tags every payload of its action carries |
| Gateway.ValidatedBuild | lib/active_merchant/billing/gateways/qbms.rb:39-106 | each operation requires exactly the option keys of the tags every payload of its action carries, so each required key ends up in the request; after the check passes, building fails only when `credit_card` holds something other than a card |
| Gateway.CaptureWithNilMoney | test/unit/gateways/qbms_test.rb:105-111 | a capture with nil money sends only TransRequestID and CreditCardTransID = the authorization |
| Gateway.QbmsGateway.New | lib/active_merchant/billing/gateways/qbms.rb:33-37 | creating a gateway fails with the first of login/password that is missing; otherwise the gateway holds the given options |
| Gateway.QbmsGateway.Perform | lib/active_merchant/billing/gateways/qbms.rb:39-106 | void stores the authorization in the gateway's options, other calls leave them; a missing required key raises ArgumentError naming it; otherwise the request posted is `build_request`'s, and the result is `commit`'s classification of the answer: success iff `status_code` is "0", the status message, the transaction id as authorization, the AVS and CVV results of the parsed parameters, and the gateway's test flag |

## Left out

- The HTTPS post (`ssl_post`), the content type and the test/live endpoint choice. The server's answer is a parameter of `Perform` and `Commit`.
- XML text. REXML's parsing and Builder's serialization and indentation are replaced by element trees and event streams.
- `String#underscore`. It is an abstract function parameter; the fixture lemmas require only the ten name mappings they use.
- `Time.now.utc`, `generate_unique_id` and `Money.parse(..).to_s`. These are parameters, the last as an abstract formatting function.
- `test?`, the logger and the class-level URL accessors. `test?` is a boolean parameter.
- `Response.new`. It is the `Response` datatype, with the same fields.
- Hash key order. Ruby hashes are ordered; the model's maps are not.
- Aliasing of the options hash. `capture` mutates the caller's hash, and the gateway keeps the hash passed at creation. The model passes the effective options to the builder and keeps the gateway's options in a field; the caller does not see the update.
- The partial markup emitted before a `NoMethodError`. The builder raises mid-build and the markup is discarded, so the model reports only the error.
- ResponseParser.Parse: requires that the found response element has child elements or no text. For a text-only response element `parse_element` returns the String. With attributes, `parse` then calls `String#[]=`, which raises. Without attributes, `parse` returns the String, and `commit`'s `String#[]` lookups give nil or substrings, a failure response. The model covers neither case.
- ResponseParser.ParseElement: calls `parse_element` once per child. The source calls it a second time for a new key, and that call yields the same value.
- `requires!`: only key presence is modelled. A key present with nil passes, as it does with `has_key?`. The base class's optional allowed-value lists are not used by this gateway.
- `String#blank?` is taken to mean nil, false, or a string of only ASCII white space.
