/**
 * The closed table of QBMSXML actions (QBMS_ACTIONS) and the element names
 * derived from it: a request goes out as `<Stem>Rq` and its answer is looked
 * up as `<Stem>Rs`.
 */
module ActionCatalog {

  /** The eight keys of QBMS_ACTIONS. */
  datatype Action =
    | WalletAdd      // :customer_credit_card_wallet_add
    | WalletMod      // :customer_credit_card_wallet_mod
    | WalletDel      // :customer_credit_card_wallet_del
    | WalletCharge   // :customer_credit_card_wallet_charge
    | WalletAuth     // :customer_credit_card_wallet_auth
    | Capture        // :customer_credit_card_capture
    | TxnVoid        // :customer_credit_card_txn_void
    | WalletQuery    // :customer_wallet_query

  /** The protocol version announced in the request prolog (API_VERSION). */
  const ApiVersion: string := "4.1"

  /** The wire stem QBMS_ACTIONS binds to each action. */
  function Stem(a: Action): string
  {
    match a
    case WalletAdd => "CustomerCreditCardWalletAdd"
    case WalletMod => "CustomerCreditCardWalletMod"
    case WalletDel => "CustomerCreditCardWalletDel"
    case WalletCharge => "CustomerCreditCardWalletCharge"
    case WalletAuth => "CustomerCreditCardWalletAuth"
    case Capture => "CustomerCreditCardCapture"
    case TxnVoid => "CustomerCreditCardTxnVoid"
    case WalletQuery => "CustomerWalletQuery"
  }

  /** Name of the single element inside QBMSXMLMsgsRq. */
  function RequestName(a: Action): string
  {
    Stem(a) + "Rq"
  }

  /** Name of the element looked up inside QBMSXMLMsgsRs. */
  function ResponseName(a: Action): string
  {
    Stem(a) + "Rs"
  }

  /** Distinct actions have distinct stems, so the table is a bijection onto its stems. */
  lemma StemInjective(a: Action, b: Action)
    ensures Stem(a) == Stem(b) <==> a == b
  {
    if a != b {
      assert Stem(a) != Stem(b) by { StemsDiffer(a, b); }
    }
  }

  lemma StemsDiffer(a: Action, b: Action)
    requires a != b
    ensures Stem(a) != Stem(b)
  {
    // Stems of equal length differ right after the common prefix: at
    // position 18 for capture and void, at position 24 for add, mod and del.
    var sa, sb := Stem(a), Stem(b);
    if |sa| == |sb| {
      if a == Capture || a == TxnVoid {
        assert sa[18] != sb[18];
      } else {
        assert sa[24] != sb[24];
      }
    }
  }

  /** Appending the same suffix to two stems keeps them apart exactly when the actions differ. */
  lemma SuffixedStems(a: Action, b: Action, suffix: string)
    ensures Stem(a) + suffix == Stem(b) + suffix <==> a == b
  {
    var x, y := Stem(a) + suffix, Stem(b) + suffix;
    if x == y {
      assert |Stem(a)| == |Stem(b)|;
      assert Stem(a) == x[..|Stem(a)|] && Stem(b) == y[..|Stem(b)|];
      StemInjective(a, b);
    }
  }

  /**
   * Request names and response names each name one action only; an action's
   * request and response names share its stem; and no request name is a
   * response name, so a request element is never taken for an answer.
   */
  lemma ResponseMatchesRequest(a: Action, b: Action)
    ensures RequestName(a) == RequestName(b) <==> a == b
    ensures ResponseName(a) == ResponseName(b) <==> a == b
    ensures RequestName(a)[..|Stem(a)|] == ResponseName(a)[..|Stem(a)|] == Stem(a)
    ensures RequestName(a) != ResponseName(b)
  {
    SuffixedStems(a, b, "Rq");
    SuffixedStems(a, b, "Rs");
    var rq, rs := RequestName(a), ResponseName(b);
    assert rq[|rq| - 1] == 'q' && rs[|rs| - 1] == 's';
    assert RequestName(a)[..|Stem(a)|] == Stem(a);
    assert ResponseName(a)[..|Stem(a)|] == Stem(a);
  }
}
