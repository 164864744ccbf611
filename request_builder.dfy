/**
 * The QBMSXML request builder: the fixed envelope (two processing
 * instructions, the signon block, the message block) around the per-action
 * payload, emitted tag by tag into a markup builder.
 *
 * Serialized text is not modelled: the builder records a stream of events
 * (instructions, opening and closing tags, single-value tags), and that
 * stream is proved equal to the serialization of an abstract tag tree.
 */
module RequestBuilder {
  import opened Wrappers
  import opened ActionCatalog
  import opened RubyErrors

  // ---------------------------------------------------------------------------
  // Option values
  // ---------------------------------------------------------------------------

  /** The card object the gateway reads `number`, `month`, `year` and `name` from. */
  datatype CreditCard = CreditCard(number: Value, month: Value, year: Value, name: Value)

  /** The Ruby values an options hash may hold. */
  datatype Value =
    | Nil
    | Bool(b: bool)
    | Str(s: string)
    | Num(n: int)
    | Card(card: CreditCard)

  /** An options hash, keyed by the names of its symbols. */
  type Options = map<string, Value>

  /** `options[key]`: nil when the key is absent. */
  function Lookup(opts: Options, key: string): (v: Value)
    ensures key !in opts ==> v == Nil
    ensures key in opts ==> v == opts[key]
  {
    if key in opts then opts[key] else Nil
  }

  /** Ruby truthiness: everything but nil and false. */
  predicate Truthy(v: Value)
  {
    !v.Nil? && v != Bool(false)
  }

  predicate IsSpace(c: char)
  {
    c == ' ' || c == '\t' || c == '\n' || c == '\r' || c == '\U{000C}' || c == '\U{000B}'
  }

  /** `blank?`: nil, false, and strings of white space only. */
  predicate Blank(v: Value)
  {
    match v
    case Nil => true
    case Bool(b) => !b
    case Str(s) => forall i :: 0 <= i < |s| ==> IsSpace(s[i])
    case Num(_) => false
    case Card(_) => false
  }

  /**
   * What the builder takes from outside the options hash: the gateway's login
   * and password, the current time, the id `generate_unique_id` returns and
   * the formatting `Money.parse(..).to_s` applies to an amount.
   */
  datatype Env = Env(login: Value, password: Value, now: Value, uniqueId: string, money: Value -> string)

  // ---------------------------------------------------------------------------
  // Tag trees and their serialization
  // ---------------------------------------------------------------------------

  /** A tag with a single value, or a tag whose block emits further tags. */
  datatype Tag =
    | Field(name: string, content: Value)
    | Block(name: string, body: seq<Tag>)

  /** What the markup builder records. */
  datatype Event =
    | Instruction(target: string, attrs: seq<(string, string)>)
    | Open(name: string)
    | Close(name: string)
    | Single(name: string, content: Value)

  function Serialize(t: Tag): seq<Event>
    decreases t
  {
    match t
    case Field(n, c) => [Single(n, c)]
    case Block(n, body) => [Open(n)] + SerializeAll(body) + [Close(n)]
  }

  function SerializeAll(ts: seq<Tag>): seq<Event>
    decreases ts
  {
    if ts == [] then [] else Serialize(ts[0]) + SerializeAll(ts[1..])
  }

  lemma {:induction false} SerializeAllAppend(xs: seq<Tag>, ys: seq<Tag>)
    ensures SerializeAll(xs + ys) == SerializeAll(xs) + SerializeAll(ys)
  {
    if xs == [] {
      assert xs + ys == ys;
    } else {
      assert (xs + ys)[1..] == xs[1..] + ys;
      SerializeAllAppend(xs[1..], ys);
    }
  }

  lemma SerializeAllFields(ts: seq<Tag>)
    requires forall i :: 0 <= i < |ts| ==> ts[i].Field?
    ensures SerializeAll(ts) == seq(|ts|, i requires 0 <= i < |ts| => Single(ts[i].name, ts[i].content))
  {
    if ts != [] {
      SerializeAllFields(ts[1..]);
    }
  }

  /** Reading a serialized tag back: one tag, and the events after it. */
  function DecodeTag(evs: seq<Event>): (r: Option<(Tag, seq<Event>)>)
    ensures r.Some? ==> |r.value.1| < |evs|
    decreases |evs|, 0
  {
    if evs == [] then None
    else match evs[0]
      case Single(n, c) => Some((Field(n, c), evs[1..]))
      case Open(n) =>
        var (body, rest) := DecodeTags(evs[1..]);
        if rest != [] && rest[0] == Close(n) then Some((Block(n, body), rest[1..])) else None
      case _ => None
  }

  /** Reading tags back for as long as one starts. */
  function DecodeTags(evs: seq<Event>): (r: (seq<Tag>, seq<Event>))
    ensures |r.1| <= |evs|
    decreases |evs|, 1
  {
    match DecodeTag(evs)
    case None => ([], evs)
    case Some((t, rest)) =>
      var (ts, rest') := DecodeTags(rest);
      ([t] + ts, rest')
  }

  /** Events no tag starts with. */
  predicate Stops(evs: seq<Event>)
  {
    evs == [] || evs[0].Close?
  }

  /** A serialized tag reads back as itself. */
  lemma {:induction false} DecodeSerialize(t: Tag, rest: seq<Event>)
    ensures DecodeTag(Serialize(t) + rest) == Some((t, rest))
    decreases t, 1
  {
    match t
    case Field(n, c) =>
      assert (Serialize(t) + rest)[1..] == rest;
    case Block(n, body) =>
      var evs := Serialize(t) + rest;
      assert evs[1..] == SerializeAll(body) + ([Close(n)] + rest);
      DecodeSerializeAll(body, [Close(n)] + rest);
  }

  /** Serialized tags followed by a closing tag or nothing read back as themselves. */
  lemma {:induction false} DecodeSerializeAll(ts: seq<Tag>, rest: seq<Event>)
    requires Stops(rest)
    ensures DecodeTags(SerializeAll(ts) + rest) == (ts, rest)
    decreases ts, 0
  {
    if ts == [] {
      assert SerializeAll(ts) + rest == rest;
    } else {
      var evs := SerializeAll(ts) + rest;
      assert evs == Serialize(ts[0]) + (SerializeAll(ts[1..]) + rest);
      DecodeSerialize(ts[0], SerializeAll(ts[1..]) + rest);
      DecodeSerializeAll(ts[1..], rest);
      assert [ts[0]] + ts[1..] == ts;
    }
  }

  // ---------------------------------------------------------------------------
  // The markup builder
  // ---------------------------------------------------------------------------

  /** The markup builder: it only ever appends to what it has recorded. */
  class Markup {
    var events: seq<Event>

    constructor ()
      ensures events == []
    {
      events := [];
    }

    /** `instruct!`: a processing instruction. */
    method AddInstruction(target: string, attrs: seq<(string, string)>)
      modifies this
      ensures events == old(events) + [Instruction(target, attrs)]
    {
      events := events + [Instruction(target, attrs)];
    }

    /** `tag!(name) do`: the opening half of a tag with a block. */
    method OpenTag(name: string)
      modifies this
      ensures events == old(events) + [Open(name)]
    {
      events := events + [Open(name)];
    }

    /** The end of a `tag!` block. */
    method CloseTag(name: string)
      modifies this
      ensures events == old(events) + [Close(name)]
    {
      events := events + [Close(name)];
    }

    /** `tag!(name, value)`: a tag holding one value. */
    method AddField(name: string, content: Value)
      modifies this
      ensures events == old(events) + [Single(name, content)]
    {
      events := events + [Single(name, content)];
    }
  }

  // ---------------------------------------------------------------------------
  // What each action's payload holds
  // ---------------------------------------------------------------------------

  /** The prolog: the XML declaration and the QBMSXML version instruction. */
  function Prolog(): seq<Event>
  {
    [ Instruction("xml", [("version", "1.0"), ("encoding", "utf-8")]),
      Instruction("qbmsxml", [("version", ApiVersion)]) ]
  }

  function SignonTag(env: Env): Tag
  {
    Block("SignonMsgsRq", [
      Block("SignonDesktopRq", [
        Field("ClientDateTime", env.now),
        Field("ApplicationLogin", env.login),
        Field("ConnectionTicket", env.password) ]) ])
  }

  function WalletAndCustomer(opts: Options): seq<Tag>
  {
    [Field("WalletEntryID", Lookup(opts, "wallet_entry_id")), Field("CustomerID", Lookup(opts, "customer_id"))]
  }

  function ExpirationAndName(card: CreditCard): seq<Tag>
  {
    [Field("ExpirationMonth", card.month), Field("ExpirationYear", card.year), Field("NameOnCard", card.name)]
  }

  function AddPayload(opts: Options, card: CreditCard): seq<Tag>
  {
    [Field("CustomerID", Lookup(opts, "customer_id")), Field("CreditCardNumber", card.number)]
    + ExpirationAndName(card)
    + [ Field("CreditCardAddress", Lookup(opts, "credit_card_address")),
        Field("CreditCardPostalCode", Lookup(opts, "credit_card_postal_code")) ]
  }

  /** A tag for an option that is emitted only when the option is truthy. */
  function IfTruthy(opts: Options, key: string, name: string): seq<Tag>
  {
    if Truthy(Lookup(opts, key)) then [Field(name, Lookup(opts, key))] else []
  }

  function ModPayload(opts: Options, card: CreditCard): seq<Tag>
  {
    WalletAndCustomer(opts) + ExpirationAndName(card)
    + IfTruthy(opts, "credit_card_address", "CreditCardAddress")
    + IfTruthy(opts, "credit_card_postal_code", "CreditCardPostalCode")
  }

  function AmountTag(opts: Options, env: Env): Tag
  {
    Field("Amount", Str(env.money(Lookup(opts, "amount"))))
  }

  function ChargePayload(opts: Options, env: Env): seq<Tag>
  {
    [Field("TransRequestID", Str(env.uniqueId))] + WalletAndCustomer(opts) + [AmountTag(opts, env)]
  }

  function VoidPayload(opts: Options, env: Env): seq<Tag>
  {
    [Field("TransRequestID", Str(env.uniqueId)), Field("CreditCardTransID", Lookup(opts, "credit_card_trans_id"))]
  }

  function CapturePayload(opts: Options, env: Env): seq<Tag>
  {
    VoidPayload(opts, env) + (if !Blank(Lookup(opts, "amount")) then [AmountTag(opts, env)] else [])
  }

  /** Whether building `a` reads a card object from `credit_card`. */
  predicate NeedsCard(a: Action)
  {
    a == WalletAdd || a == WalletMod
  }

  /**
   * The payload of `a`'s request element; None where the builder calls a card
   * method on a `credit_card` option that is not a card.
   */
  function Payload(a: Action, opts: Options, env: Env): Option<seq<Tag>>
  {
    var cc := Lookup(opts, "credit_card");
    match a
    case WalletAdd => if cc.Card? then Some(AddPayload(opts, cc.card)) else None
    case WalletMod => if cc.Card? then Some(ModPayload(opts, cc.card)) else None
    case WalletDel => Some(WalletAndCustomer(opts))
    case WalletQuery => Some(WalletAndCustomer(opts))
    case WalletCharge => Some(ChargePayload(opts, env))
    case WalletAuth => Some(ChargePayload(opts, env))
    case Capture => Some(CapturePayload(opts, env))
    case TxnVoid => Some(VoidPayload(opts, env))
  }

  /** The whole request: signon block, then the message block holding the one request element. */
  function RequestTree(a: Action, payload: seq<Tag>, env: Env): Tag
  {
    Block("QBMSXML", [SignonTag(env), Block("QBMSXMLMsgsRq", [Block(RequestName(a), payload)])])
  }

  /** What `build_request` returns for `a`. */
  function RequestEvents(a: Action, opts: Options, env: Env): Result<seq<Event>, Raised>
  {
    match Payload(a, opts, env)
    case None => Failure(NoMethodError)
    case Some(p) => Success(Prolog() + Serialize(RequestTree(a, p, env)))
  }

  // ---------------------------------------------------------------------------
  // The builder methods
  // ---------------------------------------------------------------------------

  method CreateXmlHeader(xml: Markup)
    modifies xml
    ensures xml.events == old(xml.events) + Prolog()
  {
    xml.AddInstruction("xml", [("version", "1.0"), ("encoding", "utf-8")]);
    xml.AddInstruction("qbmsxml", [("version", ApiVersion)]);
  }

  method AddSignonMsgsRq(xml: Markup, env: Env)
    modifies xml
    ensures xml.events == old(xml.events) + Serialize(SignonTag(env))
  {
    xml.OpenTag("SignonMsgsRq");
    xml.OpenTag("SignonDesktopRq");
    xml.AddField("ClientDateTime", env.now);
    xml.AddField("ApplicationLogin", env.login);
    xml.AddField("ConnectionTicket", env.password);
    xml.CloseTag("SignonDesktopRq");
    xml.CloseTag("SignonMsgsRq");
    var desktop := SignonTag(env).body[0];
    SerializeAllFields(desktop.body);
    assert SerializeAll([desktop]) == Serialize(desktop) + SerializeAll([]);
  }

  method BuildWalletAddRequest(xml: Markup, opts: Options, card: CreditCard)
    modifies xml
    ensures xml.events == old(xml.events) + SerializeAll(AddPayload(opts, card))
  {
    ghost var start := xml.events;
    var customer := Single("CustomerID", Lookup(opts, "customer_id"));
    var number := Single("CreditCardNumber", card.number);
    var address := Single("CreditCardAddress", Lookup(opts, "credit_card_address"));
    var postal := Single("CreditCardPostalCode", Lookup(opts, "credit_card_postal_code"));
    xml.AddField("CustomerID", Lookup(opts, "customer_id"));
    xml.AddField("CreditCardNumber", card.number);
    AddExpirationAndName(xml, card);
    xml.AddField("CreditCardAddress", Lookup(opts, "credit_card_address"));
    xml.AddField("CreditCardPostalCode", Lookup(opts, "credit_card_postal_code"));
    AddEvents(opts, card);
    ConcatAround(start, customer, number, SerializeAll(ExpirationAndName(card)), address, postal);
  }

  lemma AddEvents(opts: Options, card: CreditCard)
    ensures SerializeAll(AddPayload(opts, card))
            == [Single("CustomerID", Lookup(opts, "customer_id")), Single("CreditCardNumber", card.number)]
               + SerializeAll(ExpirationAndName(card))
               + [ Single("CreditCardAddress", Lookup(opts, "credit_card_address")),
                   Single("CreditCardPostalCode", Lookup(opts, "credit_card_postal_code")) ]
  {
    var p := AddPayload(opts, card);
    SerializeAllFields(p);
    SerializeAllFields(ExpirationAndName(card));
  }

  lemma ConcatAround<T>(s: seq<T>, a: T, b: T, x: seq<T>, c: T, d: T)
    ensures s + [a] + [b] + x + [c] + [d] == s + ([a, b] + x + [c, d])
  {
  }

  method AddWalletEntryIdAndCustomerId(xml: Markup, opts: Options)
    modifies xml
    ensures xml.events == old(xml.events) + SerializeAll(WalletAndCustomer(opts))
  {
    xml.AddField("WalletEntryID", Lookup(opts, "wallet_entry_id"));
    xml.AddField("CustomerID", Lookup(opts, "customer_id"));
    SerializeAllFields(WalletAndCustomer(opts));
  }

  method AddIfTruthy(xml: Markup, opts: Options, key: string, name: string)
    modifies xml
    ensures xml.events == old(xml.events) + SerializeAll(IfTruthy(opts, key, name))
  {
    if Truthy(Lookup(opts, key)) {
      xml.AddField(name, Lookup(opts, key));
    }
    SerializeAllFields(IfTruthy(opts, key, name));
  }

  /** The card's expiration month, expiration year and name, as the add and mod payloads emit them. */
  method AddExpirationAndName(xml: Markup, card: CreditCard)
    modifies xml
    ensures xml.events == old(xml.events) + SerializeAll(ExpirationAndName(card))
  {
    xml.AddField("ExpirationMonth", card.month);
    xml.AddField("ExpirationYear", card.year);
    xml.AddField("NameOnCard", card.name);
    SerializeAllFields(ExpirationAndName(card));
  }

  lemma ModEvents(opts: Options, card: CreditCard)
    ensures SerializeAll(ModPayload(opts, card))
            == SerializeAll(WalletAndCustomer(opts)) + SerializeAll(ExpirationAndName(card))
               + SerializeAll(IfTruthy(opts, "credit_card_address", "CreditCardAddress"))
               + SerializeAll(IfTruthy(opts, "credit_card_postal_code", "CreditCardPostalCode"))
  {
    var wc, en := WalletAndCustomer(opts), ExpirationAndName(card);
    var address := IfTruthy(opts, "credit_card_address", "CreditCardAddress");
    var postal := IfTruthy(opts, "credit_card_postal_code", "CreditCardPostalCode");
    SerializeAllAppend(wc, en);
    SerializeAllAppend(wc + en, address);
    SerializeAllAppend(wc + en + address, postal);
  }

  method BuildWalletModRequest(xml: Markup, opts: Options, card: CreditCard)
    modifies xml
    ensures xml.events == old(xml.events) + SerializeAll(ModPayload(opts, card))
  {
    ghost var start := xml.events;
    AddWalletEntryIdAndCustomerId(xml, opts);
    AddExpirationAndName(xml, card);
    AddIfTruthy(xml, opts, "credit_card_address", "CreditCardAddress");
    AddIfTruthy(xml, opts, "credit_card_postal_code", "CreditCardPostalCode");
    ModEvents(opts, card);
    Concat4(start, SerializeAll(WalletAndCustomer(opts)), SerializeAll(ExpirationAndName(card)),
            SerializeAll(IfTruthy(opts, "credit_card_address", "CreditCardAddress")),
            SerializeAll(IfTruthy(opts, "credit_card_postal_code", "CreditCardPostalCode")));
  }

  lemma Concat4<T>(s: seq<T>, x1: seq<T>, x2: seq<T>, x3: seq<T>, x4: seq<T>)
    ensures s + x1 + x2 + x3 + x4 == s + (x1 + x2 + x3 + x4)
  {
  }

  method BuildWalletChargeRequest(xml: Markup, opts: Options, env: Env)
    modifies xml
    ensures xml.events == old(xml.events) + SerializeAll(ChargePayload(opts, env))
  {
    xml.AddField("TransRequestID", Str(env.uniqueId));
    AddWalletEntryIdAndCustomerId(xml, opts);
    xml.AddField("Amount", Str(env.money(Lookup(opts, "amount"))));
    SerializeAllFields(ChargePayload(opts, env));
    SerializeAllFields(WalletAndCustomer(opts));
  }

  method BuildTxnVoidRequest(xml: Markup, opts: Options, env: Env)
    modifies xml
    ensures xml.events == old(xml.events) + SerializeAll(VoidPayload(opts, env))
  {
    xml.AddField("TransRequestID", Str(env.uniqueId));
    xml.AddField("CreditCardTransID", Lookup(opts, "credit_card_trans_id"));
    SerializeAllFields(VoidPayload(opts, env));
  }

  method BuildCaptureRequest(xml: Markup, opts: Options, env: Env)
    modifies xml
    ensures xml.events == old(xml.events) + SerializeAll(CapturePayload(opts, env))
  {
    xml.AddField("TransRequestID", Str(env.uniqueId));
    xml.AddField("CreditCardTransID", Lookup(opts, "credit_card_trans_id"));
    if !Blank(Lookup(opts, "amount")) {
      xml.AddField("Amount", Str(env.money(Lookup(opts, "amount"))));
    }
    SerializeAllFields(CapturePayload(opts, env));
  }

  /**
   * `send("build_#{action}_request")`: the payload of `a`, or false where the
   * card methods are called on something that is not a card.
   */
  method BuildPayload(xml: Markup, a: Action, opts: Options, env: Env) returns (ok: bool)
    modifies xml
    ensures ok <==> Payload(a, opts, env).Some?
    ensures ok ==> xml.events == old(xml.events) + SerializeAll(Payload(a, opts, env).value)
    ensures !ok ==> xml.events == old(xml.events)
  {
    var cc := Lookup(opts, "credit_card");
    ok := true;
    match a {
      case WalletAdd =>
        if !cc.Card? {
          return false;
        }
        BuildWalletAddRequest(xml, opts, cc.card);
      case WalletMod =>
        if !cc.Card? {
          return false;
        }
        BuildWalletModRequest(xml, opts, cc.card);
      case WalletDel =>
        AddWalletEntryIdAndCustomerId(xml, opts);
      case WalletQuery =>
        AddWalletEntryIdAndCustomerId(xml, opts);
      case WalletCharge =>
        BuildWalletChargeRequest(xml, opts, env);
      case WalletAuth =>
        BuildWalletChargeRequest(xml, opts, env);
      case Capture =>
        BuildCaptureRequest(xml, opts, env);
      case TxnVoid =>
        BuildTxnVoidRequest(xml, opts, env);
    }
  }

  /** The events `create_qbmsxml_msgs_rq` emits before it yields to the request element. */
  function EnvelopeHead(env: Env): seq<Event>
  {
    Prolog() + [Open("QBMSXML")] + Serialize(SignonTag(env)) + [Open("QBMSXMLMsgsRq")]
  }

  /** The events that close the message block and QBMSXML after the request element. */
  function EnvelopeTail(): seq<Event>
  {
    [Close("QBMSXMLMsgsRq"), Close("QBMSXML")]
  }

  /** The part of `create_qbmsxml_msgs_rq` before its block: header, QBMSXML, signon, QBMSXMLMsgsRq. */
  method OpenEnvelope(xml: Markup, env: Env)
    modifies xml
    ensures xml.events == old(xml.events) + EnvelopeHead(env)
  {
    CreateXmlHeader(xml);
    xml.OpenTag("QBMSXML");
    AddSignonMsgsRq(xml, env);
    xml.OpenTag("QBMSXMLMsgsRq");
  }

  /** The part of `create_qbmsxml_msgs_rq` after its block. */
  method CloseEnvelope(xml: Markup)
    modifies xml
    ensures xml.events == old(xml.events) + EnvelopeTail()
  {
    xml.CloseTag("QBMSXMLMsgsRq");
    xml.CloseTag("QBMSXML");
  }

  /** `build_request`: the recorded events of the whole request, or the error building raised. */
  method BuildRequest(a: Action, opts: Options, env: Env) returns (r: Result<seq<Event>, Raised>)
    ensures r == RequestEvents(a, opts, env)
  {
    ghost var payload := Payload(a, opts, env);
    ghost var expected := RequestEvents(a, opts, env);
    RequestEventsShape(a, opts, env);
    var xml := new Markup();
    OpenEnvelope(xml, env);
    ghost var head := xml.events;
    assert head == EnvelopeHead(env);
    xml.OpenTag(RequestName(a));
    var ok := BuildPayload(xml, a, opts, env);
    if !ok {
      return Failure(NoMethodError);
    }
    ghost var evs := SerializeAll(payload.value);
    var rq := RequestName(a);
    ghost var afterPayload := xml.events;
    assert afterPayload == head + [Open(rq)] + evs;
    xml.CloseTag(rq);
    CloseEnvelope(xml);
    assert xml.events == afterPayload + [Close(rq)] + EnvelopeTail();
    AppendShape(head, rq, evs, EnvelopeTail());
    r := Success(xml.events);
    assert r == expected;
  }

  lemma AppendShape(head: seq<Event>, rq: string, evs: seq<Event>, tail: seq<Event>)
    ensures head + [Open(rq)] + evs + [Close(rq)] + tail == head + ([Open(rq)] + evs + [Close(rq)]) + tail
  {
  }

  /** The events of a request, split at the request element. */
  lemma RequestEventsShape(a: Action, opts: Options, env: Env)
    ensures Payload(a, opts, env).None? ==> RequestEvents(a, opts, env) == Failure(NoMethodError)
    ensures Payload(a, opts, env).Some? ==>
              RequestEvents(a, opts, env)
              == Success(EnvelopeHead(env)
                         + ([Open(RequestName(a))] + SerializeAll(Payload(a, opts, env).value) + [Close(RequestName(a))])
                         + EnvelopeTail())
  {
    if Payload(a, opts, env).Some? {
      EnvelopeEvents(a, Payload(a, opts, env).value, env);
    }
  }

  /** The request tree serialized: the signon block, then the request element inside the message block. */
  lemma EnvelopeEvents(a: Action, payload: seq<Tag>, env: Env)
    ensures Prolog() + Serialize(RequestTree(a, payload, env))
            == EnvelopeHead(env) + ([Open(RequestName(a))] + SerializeAll(payload) + [Close(RequestName(a))])
               + EnvelopeTail()
  {
    EnvelopeAround(Block(RequestName(a), payload), env);
  }

  /** Whatever request element `rq` is, the envelope puts the head before it and the tail after it. */
  lemma EnvelopeAround(rq: Tag, env: Env)
    ensures Prolog() + Serialize(Block("QBMSXML", [SignonTag(env), Block("QBMSXMLMsgsRq", [rq])]))
            == EnvelopeHead(env) + Serialize(rq) + EnvelopeTail()
  {
    var signon := Serialize(SignonTag(env));
    var msgs := Block("QBMSXMLMsgsRq", [rq]);
    var inner := Serialize(rq);
    assert SerializeAll([rq]) == inner + SerializeAll([]);
    assert SerializeAll([msgs]) == Serialize(msgs) + SerializeAll([]);
    assert SerializeAll([SignonTag(env), msgs]) == signon + SerializeAll([msgs]);
    Nest(Prolog(), Open("QBMSXML"), signon, Open("QBMSXMLMsgsRq"), inner, Close("QBMSXMLMsgsRq"), Close("QBMSXML"));
  }

  lemma Nest<T>(p: seq<T>, o1: T, s: seq<T>, o2: T, x: seq<T>, c2: T, c1: T)
    ensures p + ([o1] + (s + ([o2] + x + [c2])) + [c1]) == p + [o1] + s + [o2] + x + [c2, c1]
  {
  }

  // ---------------------------------------------------------------------------
  // What the request promises
  // ---------------------------------------------------------------------------

  /** Building fails exactly for the card actions when `credit_card` is not a card. */
  lemma BuildFailure(a: Action, opts: Options, env: Env)
    ensures RequestEvents(a, opts, env).Failure? <==> NeedsCard(a) && !Lookup(opts, "credit_card").Card?
  {
  }

  /**
   * A built request is the prolog followed by exactly one well-nested tag,
   * and that tag is the request tree: QBMSXML with the signon block and the
   * message block holding `a`'s request element.
   */
  lemma RequestDecodes(a: Action, opts: Options, env: Env)
    requires RequestEvents(a, opts, env).Success?
    ensures var evs := RequestEvents(a, opts, env).value;
            && |evs| >= 2 && evs[..2] == Prolog()
            && DecodeTag(evs[2..]) == Some((RequestTree(a, Payload(a, opts, env).value, env), []))
  {
    var tree := RequestTree(a, Payload(a, opts, env).value, env);
    var evs := RequestEvents(a, opts, env).value;
    assert evs[2..] == Serialize(tree) + [];
    DecodeSerialize(tree, []);
  }

  function Names(ts: seq<Tag>): seq<string>
  {
    seq(|ts|, i requires 0 <= i < |ts| => ts[i].name)
  }

  lemma NamesAppend(xs: seq<Tag>, ys: seq<Tag>)
    ensures Names(xs + ys) == Names(xs) + Names(ys)
  {
  }

  lemma AddOrder(opts: Options, card: CreditCard)
    ensures Names(AddPayload(opts, card))
            == ["CustomerID", "CreditCardNumber", "ExpirationMonth", "ExpirationYear",
                "NameOnCard", "CreditCardAddress", "CreditCardPostalCode"]
  {
    var head := [Field("CustomerID", Lookup(opts, "customer_id")), Field("CreditCardNumber", card.number)];
    var tail := [ Field("CreditCardAddress", Lookup(opts, "credit_card_address")),
                  Field("CreditCardPostalCode", Lookup(opts, "credit_card_postal_code")) ];
    NamesAppend(head, ExpirationAndName(card));
    NamesAppend(head + ExpirationAndName(card), tail);
  }

  lemma ModOrder(opts: Options, card: CreditCard)
    ensures Names(ModPayload(opts, card))
            == ["WalletEntryID", "CustomerID", "ExpirationMonth", "ExpirationYear", "NameOnCard"]
               + (if Truthy(Lookup(opts, "credit_card_address")) then ["CreditCardAddress"] else [])
               + (if Truthy(Lookup(opts, "credit_card_postal_code")) then ["CreditCardPostalCode"] else [])
  {
    var wc := WalletAndCustomer(opts);
    var address := IfTruthy(opts, "credit_card_address", "CreditCardAddress");
    var postal := IfTruthy(opts, "credit_card_postal_code", "CreditCardPostalCode");
    NamesAppend(wc, ExpirationAndName(card));
    NamesAppend(wc + ExpirationAndName(card), address);
    NamesAppend(wc + ExpirationAndName(card) + address, postal);
  }

  lemma ChargeOrder(opts: Options, env: Env)
    ensures Names(ChargePayload(opts, env)) == ["TransRequestID", "WalletEntryID", "CustomerID", "Amount"]
  {
    var id := [Field("TransRequestID", Str(env.uniqueId))];
    NamesAppend(id, WalletAndCustomer(opts));
    NamesAppend(id + WalletAndCustomer(opts), [AmountTag(opts, env)]);
  }

  lemma CaptureOrder(opts: Options, env: Env)
    ensures Names(CapturePayload(opts, env))
            == ["TransRequestID", "CreditCardTransID"] + (if Blank(Lookup(opts, "amount")) then [] else ["Amount"])
  {
    NamesAppend(VoidPayload(opts, env), if !Blank(Lookup(opts, "amount")) then [AmountTag(opts, env)] else []);
  }

  /** The tags of each action's payload, in the order they are emitted. */
  lemma PayloadOrder(a: Action, opts: Options, env: Env)
    requires Payload(a, opts, env).Some?
    ensures var names := Names(Payload(a, opts, env).value);
            && (a == WalletAdd ==>
                  names == ["CustomerID", "CreditCardNumber", "ExpirationMonth", "ExpirationYear",
                            "NameOnCard", "CreditCardAddress", "CreditCardPostalCode"])
            && (a == WalletMod ==>
                  names == ["WalletEntryID", "CustomerID", "ExpirationMonth", "ExpirationYear", "NameOnCard"]
                           + (if Truthy(Lookup(opts, "credit_card_address")) then ["CreditCardAddress"] else [])
                           + (if Truthy(Lookup(opts, "credit_card_postal_code")) then ["CreditCardPostalCode"] else []))
            && (a == WalletDel || a == WalletQuery ==> names == ["WalletEntryID", "CustomerID"])
            && (a == WalletCharge || a == WalletAuth ==>
                  names == ["TransRequestID", "WalletEntryID", "CustomerID", "Amount"])
            && (a == Capture ==>
                  names == ["TransRequestID", "CreditCardTransID"]
                           + (if Blank(Lookup(opts, "amount")) then [] else ["Amount"]))
            && (a == TxnVoid ==> names == ["TransRequestID", "CreditCardTransID"])
  {
    var cc := Lookup(opts, "credit_card");
    match a
    case WalletAdd => AddOrder(opts, cc.card);
    case WalletMod => ModOrder(opts, cc.card);
    case WalletCharge => ChargeOrder(opts, env);
    case WalletAuth => ChargeOrder(opts, env);
    case Capture => CaptureOrder(opts, env);
    case _ =>
  }

  /** Deleting and querying a wallet entry send the same payload; so do charging and authorizing. */
  lemma SharedPayloads(opts: Options, env: Env)
    ensures Payload(WalletDel, opts, env) == Payload(WalletQuery, opts, env)
    ensures Payload(WalletCharge, opts, env) == Payload(WalletAuth, opts, env)
  {
  }

  /** The option a payload tag is read from; the four card tags all read `credit_card`, TransRequestID none. */
  function OptionKey(name: string): Option<string>
  {
    if name == "CustomerID" then Some("customer_id")
    else if name == "WalletEntryID" then Some("wallet_entry_id")
    else if name == "CreditCardAddress" then Some("credit_card_address")
    else if name == "CreditCardPostalCode" then Some("credit_card_postal_code")
    else if name == "CreditCardTransID" then Some("credit_card_trans_id")
    else if name == "Amount" then Some("amount")
    else if name == "CreditCardNumber" || name == "ExpirationMonth" || name == "ExpirationYear" || name == "NameOnCard"
    then Some("credit_card")
    else None
  }

  /**
   * The value each payload tag carries: the fresh id, the formatted amount,
   * an attribute of the card, or the option the tag is read from.
   */
  function Source(name: string, opts: Options, env: Env): Value
  {
    var cc := Lookup(opts, "credit_card");
    if name == "TransRequestID" then Str(env.uniqueId)
    else if name == "Amount" then Str(env.money(Lookup(opts, "amount")))
    else if OptionKey(name) == Some("credit_card") then
      if !cc.Card? then Nil
      else if name == "CreditCardNumber" then cc.card.number
      else if name == "ExpirationMonth" then cc.card.month
      else if name == "ExpirationYear" then cc.card.year
      else cc.card.name
    else if OptionKey(name).Some? then Lookup(opts, OptionKey(name).value)
    else Nil
  }

  /** All tags of `ts` carry the value their name is sourced from. */
  predicate Sourced(ts: seq<Tag>, opts: Options, env: Env)
  {
    forall i :: 0 <= i < |ts| ==> ts[i] == Field(ts[i].name, Source(ts[i].name, opts, env))
  }

  lemma SourcedAppend(xs: seq<Tag>, ys: seq<Tag>, opts: Options, env: Env)
    requires Sourced(xs, opts, env) && Sourced(ys, opts, env)
    ensures Sourced(xs + ys, opts, env)
  {
    forall i | 0 <= i < |xs + ys|
      ensures (xs + ys)[i] == Field((xs + ys)[i].name, Source((xs + ys)[i].name, opts, env))
    {
      if i >= |xs| {
        assert (xs + ys)[i] == ys[i - |xs|];
      }
    }
  }

  lemma AddSources(opts: Options, env: Env)
    requires Lookup(opts, "credit_card").Card?
    ensures Sourced(AddPayload(opts, Lookup(opts, "credit_card").card), opts, env)
  {
    var card := Lookup(opts, "credit_card").card;
    var head := [Field("CustomerID", Lookup(opts, "customer_id")), Field("CreditCardNumber", card.number)];
    var tail := [ Field("CreditCardAddress", Lookup(opts, "credit_card_address")),
                  Field("CreditCardPostalCode", Lookup(opts, "credit_card_postal_code")) ];
    assert Sourced(head, opts, env) && Sourced(tail, opts, env);
    assert Sourced(ExpirationAndName(card), opts, env);
    SourcedAppend(head, ExpirationAndName(card), opts, env);
    SourcedAppend(head + ExpirationAndName(card), tail, opts, env);
  }

  lemma ModSources(opts: Options, env: Env)
    requires Lookup(opts, "credit_card").Card?
    ensures Sourced(ModPayload(opts, Lookup(opts, "credit_card").card), opts, env)
  {
    var card := Lookup(opts, "credit_card").card;
    var wc := WalletAndCustomer(opts);
    var address := IfTruthy(opts, "credit_card_address", "CreditCardAddress");
    var postal := IfTruthy(opts, "credit_card_postal_code", "CreditCardPostalCode");
    assert Sourced(wc, opts, env);
    assert Sourced(ExpirationAndName(card), opts, env);
    assert Sourced(address, opts, env) && Sourced(postal, opts, env);
    SourcedAppend(wc, ExpirationAndName(card), opts, env);
    SourcedAppend(wc + ExpirationAndName(card), address, opts, env);
    SourcedAppend(wc + ExpirationAndName(card) + address, postal, opts, env);
  }

  lemma WalletSources(opts: Options, env: Env)
    ensures Sourced(WalletAndCustomer(opts), opts, env)
  {
    var wc := WalletAndCustomer(opts);
    assert wc[0] == Field(wc[0].name, Source(wc[0].name, opts, env));
    assert wc[1] == Field(wc[1].name, Source(wc[1].name, opts, env));
  }

  lemma VoidSources(opts: Options, env: Env)
    ensures Sourced(VoidPayload(opts, env), opts, env)
  {
    var p := VoidPayload(opts, env);
    assert p[0] == Field(p[0].name, Source(p[0].name, opts, env));
    assert p[1] == Field(p[1].name, Source(p[1].name, opts, env));
  }

  lemma ChargeSources(opts: Options, env: Env)
    ensures Sourced(ChargePayload(opts, env), opts, env)
  {
    var id := [Field("TransRequestID", Str(env.uniqueId))];
    WalletSources(opts, env);
    SourcedAppend(id, WalletAndCustomer(opts), opts, env);
    SourcedAppend(id + WalletAndCustomer(opts), [AmountTag(opts, env)], opts, env);
  }

  lemma CaptureSources(opts: Options, env: Env)
    ensures Sourced(CapturePayload(opts, env), opts, env)
  {
    var amount := if !Blank(Lookup(opts, "amount")) then [AmountTag(opts, env)] else [];
    assert Sourced(VoidPayload(opts, env), opts, env) && Sourced(amount, opts, env);
    SourcedAppend(VoidPayload(opts, env), amount, opts, env);
  }

  /** Every payload tag is a single value, taken from where its name says. */
  lemma PayloadSources(a: Action, opts: Options, env: Env)
    requires Payload(a, opts, env).Some?
    ensures Sourced(Payload(a, opts, env).value, opts, env)
  {
    match a
    case WalletAdd => AddSources(opts, env);
    case WalletMod => ModSources(opts, env);
    case WalletCharge => ChargeSources(opts, env);
    case WalletAuth => ChargeSources(opts, env);
    case Capture => CaptureSources(opts, env);
    case WalletDel => WalletSources(opts, env);
    case WalletQuery => WalletSources(opts, env);
    case TxnVoid => VoidSources(opts, env);
  }

  /** No two tags of `ts` share a name. */
  predicate DistinctNames(ts: seq<Tag>)
  {
    forall i, j :: 0 <= i < j < |ts| ==> ts[i].name != ts[j].name
  }

  lemma DistinctByNames(ts: seq<Tag>, names: seq<string>)
    requires Names(ts) == names
    requires forall i, j :: 0 <= i < j < |names| ==> names[i] != names[j]
    ensures DistinctNames(ts)
  {
    assert forall i :: 0 <= i < |ts| ==> ts[i].name == names[i];
  }

  lemma ModDistinct(opts: Options, card: CreditCard)
    ensures DistinctNames(ModPayload(opts, card))
  {
    var p := ModPayload(opts, card);
    ModOrder(opts, card);
    var base := ["WalletEntryID", "CustomerID", "ExpirationMonth", "ExpirationYear", "NameOnCard"];
    var address := Truthy(Lookup(opts, "credit_card_address"));
    var postal := Truthy(Lookup(opts, "credit_card_postal_code"));
    if address && postal {
      DistinctByNames(p, base + ["CreditCardAddress"] + ["CreditCardPostalCode"]);
    } else if address {
      DistinctByNames(p, base + ["CreditCardAddress"] + []);
    } else if postal {
      DistinctByNames(p, base + [] + ["CreditCardPostalCode"]);
    } else {
      DistinctByNames(p, base + [] + []);
    }
  }

  lemma AddDistinct(opts: Options, card: CreditCard)
    ensures DistinctNames(AddPayload(opts, card))
  {
    AddOrder(opts, card);
    DistinctByNames(AddPayload(opts, card), Names(AddPayload(opts, card)));
  }

  lemma ChargeDistinct(opts: Options, env: Env)
    ensures DistinctNames(ChargePayload(opts, env))
  {
    ChargeOrder(opts, env);
    DistinctByNames(ChargePayload(opts, env), Names(ChargePayload(opts, env)));
  }

  lemma CaptureDistinct(opts: Options, env: Env)
    ensures DistinctNames(CapturePayload(opts, env))
  {
    CaptureOrder(opts, env);
    DistinctByNames(CapturePayload(opts, env), Names(CapturePayload(opts, env)));
  }

  /** No tag appears twice in a payload. */
  lemma PayloadDistinct(a: Action, opts: Options, env: Env)
    requires Payload(a, opts, env).Some?
    ensures DistinctNames(Payload(a, opts, env).value)
  {
    var cc := Lookup(opts, "credit_card");
    match a
    case WalletAdd => AddDistinct(opts, cc.card);
    case WalletMod => ModDistinct(opts, cc.card);
    case WalletCharge => ChargeDistinct(opts, env);
    case WalletAuth => ChargeDistinct(opts, env);
    case Capture => CaptureDistinct(opts, env);
    case WalletDel => DistinctByNames(WalletAndCustomer(opts), Names(WalletAndCustomer(opts)));
    case WalletQuery => DistinctByNames(WalletAndCustomer(opts), Names(WalletAndCustomer(opts)));
    case TxnVoid => DistinctByNames(VoidPayload(opts, env), Names(VoidPayload(opts, env)));
  }

  // ---------------------------------------------------------------------------
  // The options a payload reads
  // ---------------------------------------------------------------------------

  /** The option the tag named `name` is read from, as a set: empty for a tag read from no option. */
  function KeyOf(name: string): set<string>
  {
    if OptionKey(name).Some? then {OptionKey(name).value} else {}
  }

  /** The options the tags `ts` are read from. */
  function TagKeys(ts: seq<Tag>): set<string>
  {
    if ts == [] then {} else KeyOf(ts[0].name) + TagKeys(ts[1..])
  }

  lemma {:induction false} TagKeysAppend(xs: seq<Tag>, ys: seq<Tag>)
    ensures TagKeys(xs + ys) == TagKeys(xs) + TagKeys(ys)
  {
    if xs == [] {
      assert xs + ys == ys;
    } else {
      assert (xs + ys)[0] == xs[0];
      assert (xs + ys)[1..] == xs[1..] + ys;
      TagKeysAppend(xs[1..], ys);
    }
  }

  lemma TagKeysTwo(t1: Tag, t2: Tag)
    ensures TagKeys([t1, t2]) == KeyOf(t1.name) + KeyOf(t2.name)
  {
    assert [t1, t2][1..] == [t2];
    assert [t2][1..] == [];
    assert TagKeys([t2]) == KeyOf(t2.name) + TagKeys([]);
  }

  /** The card's expiration and name tags all read `credit_card`. */
  lemma CardTagKeys(card: CreditCard)
    ensures TagKeys(ExpirationAndName(card)) == {"credit_card"}
  {
    var ean := ExpirationAndName(card);
    assert ean[1..] == [ean[1], ean[2]];
    TagKeysTwo(ean[1], ean[2]);
  }

  /** The option keys whose tags every payload of `a` carries, whatever the options hold. */
  function CarriedKeys(a: Action): set<string>
  {
    match a
    case WalletAdd => {"customer_id", "credit_card", "credit_card_address", "credit_card_postal_code"}
    case WalletMod => {"wallet_entry_id", "customer_id", "credit_card"}
    case WalletDel => {"wallet_entry_id", "customer_id"}
    case WalletQuery => {"wallet_entry_id", "customer_id"}
    case WalletCharge => {"wallet_entry_id", "customer_id", "amount"}
    case WalletAuth => {"wallet_entry_id", "customer_id", "amount"}
    case Capture => {"credit_card_trans_id"}
    case TxnVoid => {"credit_card_trans_id"}
  }

  /** The option keys whose tags a payload of `a` carries only for some values of those options. */
  function OptionalKeys(a: Action): set<string>
  {
    match a
    case WalletMod => {"credit_card_address", "credit_card_postal_code"}
    case Capture => {"amount"}
    case _ => {}
  }

  /** The options leave every optional tag out: mod's address and postal code are falsy, capture's amount is blank. */
  predicate OptionalTagsOmitted(a: Action, opts: Options)
  {
    && (a == WalletMod ==>
          !Truthy(Lookup(opts, "credit_card_address")) && !Truthy(Lookup(opts, "credit_card_postal_code")))
    && (a == Capture ==> Blank(Lookup(opts, "amount")))
  }

  lemma WalletKeys(opts: Options)
    ensures TagKeys(WalletAndCustomer(opts)) == {"wallet_entry_id", "customer_id"}
  {
    var wc := WalletAndCustomer(opts);
    TagKeysTwo(wc[0], wc[1]);
  }

  lemma VoidKeys(opts: Options, env: Env)
    ensures TagKeys(VoidPayload(opts, env)) == {"credit_card_trans_id"}
  {
    var p := VoidPayload(opts, env);
    TagKeysTwo(p[0], p[1]);
  }

  lemma AddKeys(opts: Options, card: CreditCard)
    ensures TagKeys(AddPayload(opts, card)) == CarriedKeys(WalletAdd)
  {
    var head := [Field("CustomerID", Lookup(opts, "customer_id")), Field("CreditCardNumber", card.number)];
    var tail := [ Field("CreditCardAddress", Lookup(opts, "credit_card_address")),
                  Field("CreditCardPostalCode", Lookup(opts, "credit_card_postal_code")) ];
    TagKeysAppend(head, ExpirationAndName(card));
    TagKeysAppend(head + ExpirationAndName(card), tail);
    AddEndKeys(opts, card);
    CardTagKeys(card);
  }

  lemma AddEndKeys(opts: Options, card: CreditCard)
    ensures TagKeys([Field("CustomerID", Lookup(opts, "customer_id")), Field("CreditCardNumber", card.number)])
            == {"customer_id", "credit_card"}
    ensures TagKeys([ Field("CreditCardAddress", Lookup(opts, "credit_card_address")),
                      Field("CreditCardPostalCode", Lookup(opts, "credit_card_postal_code")) ])
            == {"credit_card_address", "credit_card_postal_code"}
  {
    TagKeysTwo(Field("CustomerID", Lookup(opts, "customer_id")), Field("CreditCardNumber", card.number));
    TagKeysTwo(Field("CreditCardAddress", Lookup(opts, "credit_card_address")),
               Field("CreditCardPostalCode", Lookup(opts, "credit_card_postal_code")));
  }

  /** A tag emitted only when its option is truthy adds that option's key exactly then. */
  lemma IfTruthyKeys(opts: Options, key: string, name: string)
    ensures TagKeys(IfTruthy(opts, key, name)) == if Truthy(Lookup(opts, key)) then KeyOf(name) else {}
  {
    var t := IfTruthy(opts, key, name);
    if t != [] {
      assert t[1..] == [];
    }
  }

  lemma ModKeys(opts: Options, card: CreditCard)
    ensures TagKeys(ModPayload(opts, card))
            == CarriedKeys(WalletMod)
               + (if Truthy(Lookup(opts, "credit_card_address")) then {"credit_card_address"} else {})
               + (if Truthy(Lookup(opts, "credit_card_postal_code")) then {"credit_card_postal_code"} else {})
  {
    var wc, ean := WalletAndCustomer(opts), ExpirationAndName(card);
    var address := IfTruthy(opts, "credit_card_address", "CreditCardAddress");
    var postal := IfTruthy(opts, "credit_card_postal_code", "CreditCardPostalCode");
    TagKeysAppend(wc, ean);
    TagKeysAppend(wc + ean, address);
    TagKeysAppend(wc + ean + address, postal);
    WalletKeys(opts);
    CardTagKeys(card);
    IfTruthyKeys(opts, "credit_card_address", "CreditCardAddress");
    IfTruthyKeys(opts, "credit_card_postal_code", "CreditCardPostalCode");
  }

  lemma ChargeKeys(opts: Options, env: Env)
    ensures TagKeys(ChargePayload(opts, env)) == CarriedKeys(WalletCharge)
  {
    var id := [Field("TransRequestID", Str(env.uniqueId))];
    TagKeysAppend(id, WalletAndCustomer(opts));
    TagKeysAppend(id + WalletAndCustomer(opts), [AmountTag(opts, env)]);
    WalletKeys(opts);
    assert TagKeys(id) == KeyOf(id[0].name) + TagKeys([]);
    assert TagKeys([AmountTag(opts, env)]) == KeyOf("Amount") + TagKeys([]);
  }

  lemma CaptureKeys(opts: Options, env: Env)
    ensures TagKeys(CapturePayload(opts, env))
            == CarriedKeys(Capture) + (if Blank(Lookup(opts, "amount")) then {} else {"amount"})
  {
    var amount := if !Blank(Lookup(opts, "amount")) then [AmountTag(opts, env)] else [];
    TagKeysAppend(VoidPayload(opts, env), amount);
    VoidKeys(opts, env);
    if amount != [] {
      assert TagKeys(amount) == KeyOf("Amount") + TagKeys([]);
    }
  }

  /**
   * Every payload of `a` reads the options of `CarriedKeys(a)`, and besides
   * them only optional ones, whose tags it carries exactly when the options
   * call for them; with the optional tags left out it reads `CarriedKeys(a)`
   * and no more.
   */
  lemma PayloadKeys(a: Action, opts: Options, env: Env)
    requires Payload(a, opts, env).Some?
    ensures var keys := TagKeys(Payload(a, opts, env).value);
            && CarriedKeys(a) <= keys <= CarriedKeys(a) + OptionalKeys(a)
            && (OptionalTagsOmitted(a, opts) ==> keys == CarriedKeys(a))
  {
    var cc := Lookup(opts, "credit_card");
    match a
    case WalletAdd => AddKeys(opts, cc.card);
    case WalletMod => ModKeys(opts, cc.card);
    case WalletCharge => ChargeKeys(opts, env);
    case WalletAuth => ChargeKeys(opts, env);
    case Capture => CaptureKeys(opts, env);
    case WalletDel => WalletKeys(opts);
    case WalletQuery => WalletKeys(opts);
    case TxnVoid => VoidKeys(opts, env);
  }
}
