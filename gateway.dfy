/**
 * The gateway's public operations: each checks its required option keys,
 * builds the request for its action and classifies the answer.
 *
 * The HTTPS post is not modelled: the document the server answers with is a
 * parameter, as are the clock, the unique-id generator, the money formatter
 * and the key normaliser.
 */
module Gateway {
  import opened Wrappers
  import opened ActionCatalog
  import opened RubyErrors
  import ResponseParser
  import ResultClassifier
  import RequestBuilder

  type Value = RequestBuilder.Value
  type Options = RequestBuilder.Options

  /** A call of one of the public operations, with its arguments. */
  datatype Call =
    | CreateCustomerCreditCard(options: Options)
    | UpdateCustomerCreditCard(options: Options)
    | GetCustomerCreditCard(options: Options)
    | DeleteCustomerCreditCard(options: Options)
    | ChargeCustomerCreditCard(options: Options)
    | AuthorizeCustomerCreditCard(options: Options)
    | Capture(money: Value, authorization: Value, options: Options)
    | Void(authorization: Value)

  /** The action each operation builds and commits; only creating and updating a card entry reads a card. */
  function ActionOf(c: Call): (a: Action)
    ensures RequestBuilder.NeedsCard(a) <==> c.CreateCustomerCreditCard? || c.UpdateCustomerCreditCard?
  {
    match c
    case CreateCustomerCreditCard(_) => WalletAdd
    case UpdateCustomerCreditCard(_) => WalletMod
    case GetCustomerCreditCard(_) => WalletQuery
    case DeleteCustomerCreditCard(_) => WalletDel
    case ChargeCustomerCreditCard(_) => WalletCharge
    case AuthorizeCustomerCreditCard(_) => WalletAuth
    case Capture(_, _, _) => ActionCatalog.Capture
    case Void(_) => TxnVoid
  }

  /** Every action of QBMS_ACTIONS is committed by some public operation. */
  lemma EveryActionPerformed(a: Action, opts: Options)
    ensures exists c :: ActionOf(c) == a && (c.Void? || c.options == opts)
  {
    var c := match a
      case WalletAdd => CreateCustomerCreditCard(opts)
      case WalletMod => UpdateCustomerCreditCard(opts)
      case WalletQuery => GetCustomerCreditCard(opts)
      case WalletDel => DeleteCustomerCreditCard(opts)
      case WalletCharge => ChargeCustomerCreditCard(opts)
      case WalletAuth => AuthorizeCustomerCreditCard(opts)
      case Capture => Call.Capture(RequestBuilder.Nil, RequestBuilder.Nil, opts)
      case TxnVoid => Void(RequestBuilder.Nil);
    assert ActionOf(c) == a;
  }

  /** The keys each operation passes to `requires!`, in the order it checks them; none is checked twice. */
  function RequiredKeys(c: Call): (keys: seq<string>)
    ensures |keys| >= 1
    ensures forall i, j :: 0 <= i < j < |keys| ==> keys[i] != keys[j]
  {
    match c
    case CreateCustomerCreditCard(_) =>
      ["customer_id", "credit_card", "credit_card_address", "credit_card_postal_code"]
    case UpdateCustomerCreditCard(_) => ["wallet_entry_id", "customer_id", "credit_card"]
    case GetCustomerCreditCard(_) => ["wallet_entry_id", "customer_id"]
    case DeleteCustomerCreditCard(_) => ["wallet_entry_id", "customer_id"]
    case ChargeCustomerCreditCard(_) => ["wallet_entry_id", "customer_id", "amount"]
    case AuthorizeCustomerCreditCard(_) => ["wallet_entry_id", "customer_id", "amount"]
    case Capture(_, _, _) => ["credit_card_trans_id"]
    case Void(_) => ["credit_card_trans_id"]
  }

  /**
   * The options the request is built from: the caller's, except that capture
   * first stores the amount and the authorization in them, and void stores
   * the authorization in the gateway's own options and uses those.
   */
  function EffectiveOptions(c: Call, gatewayOptions: Options): (opts: Options)
    ensures c.Capture? ==>
              && opts.Keys == c.options.Keys + {"amount", "credit_card_trans_id"}
              && opts["amount"] == c.money && opts["credit_card_trans_id"] == c.authorization
              && forall k :: k in c.options && k != "amount" && k != "credit_card_trans_id" ==> opts[k] == c.options[k]
    ensures c.Void? ==>
              && opts.Keys == gatewayOptions.Keys + {"credit_card_trans_id"}
              && opts["credit_card_trans_id"] == c.authorization
              && forall k :: k in gatewayOptions && k != "credit_card_trans_id" ==> opts[k] == gatewayOptions[k]
    ensures !c.Capture? && !c.Void? ==> opts == c.options
  {
    match c
    case Capture(money, authorization, opts) =>
      opts["amount" := money]["credit_card_trans_id" := authorization]
    case Void(authorization) => gatewayOptions["credit_card_trans_id" := authorization]
    case _ => c.options
  }

  /** The key the first failing `requires!` reports: the first one the hash lacks. */
  function FirstMissing(opts: Options, keys: seq<string>): (r: Option<string>)
    ensures r.None? <==> forall i :: 0 <= i < |keys| ==> keys[i] in opts
    ensures r.Some? ==>
              exists i :: 0 <= i < |keys| && keys[i] == r.value && r.value !in opts
                          && forall j :: 0 <= j < i ==> keys[j] in opts
  {
    if keys == [] then None
    else if keys[0] !in opts then Some(keys[0])
    else
      var r := FirstMissing(opts, keys[1..]);
      assert r.Some? ==> exists i :: 1 <= i < |keys| && keys[i] == r.value && r.value !in opts
                                     && forall j :: 1 <= j < i ==> keys[j] in opts;
      r
  }

  /** Capture and void store the key they require just before checking it, so they never fail the check. */
  lemma CaptureAndVoidValidate(c: Call, gatewayOptions: Options)
    requires c.Capture? || c.Void?
    ensures FirstMissing(EffectiveOptions(c, gatewayOptions), RequiredKeys(c)).None?
  {
    assert RequiredKeys(c)[0] == "credit_card_trans_id";
  }

  /**
   * The required keys are exactly the option keys whose tags every payload of
   * the operation's action carries, so each of them ends up in the request;
   * once they pass, building fails only where `credit_card` is present but
   * not a card.
   */
  lemma ValidatedBuild(c: Call, gatewayOptions: Options, env: RequestBuilder.Env)
    requires FirstMissing(EffectiveOptions(c, gatewayOptions), RequiredKeys(c)).None?
    ensures forall k :: k in RequestBuilder.CarriedKeys(ActionOf(c)) <==> k in RequiredKeys(c)
    ensures var payload := RequestBuilder.Payload(ActionOf(c), EffectiveOptions(c, gatewayOptions), env);
            payload.Some? ==> forall i :: 0 <= i < |RequiredKeys(c)| ==> RequiredKeys(c)[i] in RequestBuilder.TagKeys(payload.value)
    ensures var opts := EffectiveOptions(c, gatewayOptions);
            RequestBuilder.RequestEvents(ActionOf(c), opts, env).Failure?
            <==> RequestBuilder.NeedsCard(ActionOf(c)) && "credit_card" in opts && !opts["credit_card"].Card?
  {
    var opts := EffectiveOptions(c, gatewayOptions);
    var keys := RequiredKeys(c);
    RequiredKeysCarried(c);
    if RequestBuilder.Payload(ActionOf(c), opts, env).Some? {
      RequestBuilder.PayloadKeys(ActionOf(c), opts, env);
    }
    RequestBuilder.BuildFailure(ActionOf(c), opts, env);
    if RequestBuilder.NeedsCard(ActionOf(c)) {
      assert keys[|keys| - 1] == "credit_card" || keys[1] == "credit_card";
    }
  }

  /** Each operation requires exactly the keys whose tags every payload of its action carries. */
  lemma RequiredKeysCarried(c: Call)
    ensures forall k :: k in RequestBuilder.CarriedKeys(ActionOf(c)) <==> k in RequiredKeys(c)
  {
  }

  /** A capture with no money (nil) sends no Amount tag, only the fresh id and the authorization. */
  lemma CaptureWithNilMoney(authorization: Value, opts: Options, gatewayOptions: Options, env: RequestBuilder.Env)
    ensures var eff := EffectiveOptions(Call.Capture(RequestBuilder.Nil, authorization, opts), gatewayOptions);
            RequestBuilder.Payload(ActionCatalog.Capture, eff, env)
            == Some([RequestBuilder.Field("TransRequestID", RequestBuilder.Str(env.uniqueId)),
                     RequestBuilder.Field("CreditCardTransID", authorization)])
  {
    var eff := EffectiveOptions(Call.Capture(RequestBuilder.Nil, authorization, opts), gatewayOptions);
    assert RequestBuilder.Lookup(eff, "amount") == RequestBuilder.Nil;
    assert RequestBuilder.Lookup(eff, "credit_card_trans_id") == authorization;
    var p := RequestBuilder.VoidPayload(eff, env);
    assert RequestBuilder.CapturePayload(eff, env) == p + [] == p;
  }

  /** What one operation posts and what it returns. */
  datatype Exchange = Exchange(request: seq<RequestBuilder.Event>, response: ResultClassifier.Response)

  /** The gateway, holding the options it was created with. */
  class QbmsGateway {
    var options: Options

    constructor (options: Options)
      requires "login" in options && "password" in options
      ensures this.options == options
    {
      this.options := options;
    }

    /** `initialize`: the login and the password are required. */
    static method New(options: Options) returns (r: Result<QbmsGateway, Raised>)
      ensures var missing := FirstMissing(options, ["login", "password"]);
              && (r.Failure? <==> missing.Some?)
              && (r.Failure? ==> r.error == ArgumentError(missing.value))
              && (r.Success? ==> fresh(r.value) && r.value.options == options)
    {
      var missing := FirstMissing(options, ["login", "password"]);
      if missing.Some? {
        return Failure(ArgumentError(missing.value));
      }
      assert "login" == ["login", "password"][0] && "password" == ["login", "password"][1];
      var g := new QbmsGateway(options);
      r := Success(g);
    }

    function Env(now: Value, uniqueId: string, money: Value -> string): RequestBuilder.Env
      reads this
    {
      RequestBuilder.Env(RequestBuilder.Lookup(options, "login"), RequestBuilder.Lookup(options, "password"),
                         now, uniqueId, money)
    }

    /**
     * One public operation: `reply` is what the server answers with, `now`,
     * `uniqueId` and `money` stand for the clock, the id generator and the
     * amount formatter, `u` for the key normaliser and `test` for `test?`.
     */
    method Perform(c: Call, now: Value, uniqueId: string, money: Value -> string,
                   u: ResponseParser.Underscore, test: bool, reply: ResponseParser.Elem)
      returns (r: Result<Exchange, Raised>)
      requires ResponseParser.RootShapeOk(reply, ActionOf(c))
      modifies this
      ensures options == if c.Void? then old(options)["credit_card_trans_id" := c.authorization] else old(options)
      ensures var opts := EffectiveOptions(c, old(options));
              var missing := FirstMissing(opts, RequiredKeys(c));
              var built := RequestBuilder.RequestEvents(ActionOf(c), opts, Env(now, uniqueId, money));
              var parsed := ResponseParser.ParseResult(u, ActionOf(c), reply);
              && (missing.Some? ==> r == Failure(ArgumentError(missing.value)))
              && (missing.None? && built.Failure? ==> r == Failure(NoMethodError))
              && (missing.None? && built.Success? && parsed.None? ==> r == Failure(NoMethodError))
              && (r.Success? <==> missing.None? && built.Success? && parsed.Some?)
              && (r.Success? ==> r.value.request == built.value
                                 && r.value.response.params == parsed.value
                                 && (r.value.response.success <==> ResultClassifier.Succeeded(parsed.value))
                                 && r.value.response.message == ResultClassifier.Message(parsed.value)
                                 && r.value.response.authorization == ResultClassifier.Authorization(parsed.value)
                                 && ResultClassifier.IsAvsResultFor(parsed.value, r.value.response.avsResult)
                                 && r.value.response.cvvResult == ResultClassifier.CvvResult(parsed.value)
                                 && r.value.response.test == test)
    {
      var opts := EffectiveOptions(c, options);
      if c.Void? {
        options := options["credit_card_trans_id" := c.authorization];
      }
      var missing := FirstMissing(opts, RequiredKeys(c));
      if missing.Some? {
        return Failure(ArgumentError(missing.value));
      }
      var env := Env(now, uniqueId, money);
      var built := RequestBuilder.BuildRequest(ActionOf(c), opts, env);
      if built.Failure? {
        return Failure(NoMethodError);
      }
      var committed := ResultClassifier.Commit(u, test, ActionOf(c), reply);
      if committed.Failure? {
        return Failure(NoMethodError);
      }
      r := Success(Exchange(built.value, committed.value));
    }
  }
}
