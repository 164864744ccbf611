/**
 * The interpretation half of `commit`: from the parsed response parameters
 * to the gateway's response (success flag, message, authorization, AVS and
 * CVV results), together with the response fixtures the gateway is known to
 * handle.
 */
module ResultClassifier {
  import opened Wrappers
  import opened ActionCatalog
  import opened ResponseParser
  import opened RubyErrors

  /** The hash `parse` returns. */
  type Params = map<string, Val>

  /** Ruby's nil: what a missing key or a text-less element reads as. */
  const Nil: Val := Text(None)

  function Str(s: string): Val
  {
    Text(Some(s))
  }

  /** `Hash#[]`: the stored value, or nil when the key is absent. */
  function Get(params: Params, key: string): Val
  {
    if key in params then params[key] else Nil
  }

  /** Ruby truthiness of a parsed value: everything but nil. */
  predicate Truthy(v: Val)
  {
    v != Nil
  }

  function Succeeded(params: Params): bool
  {
    Get(params, "status_code") == Str("0")
  }

  function Message(params: Params): Val
  {
    Get(params, "status_message")
  }

  function Authorization(params: Params): Val
  {
    Get(params, "credit_card_trans_id")
  }

  // ---------------------------------------------------------------------------
  // AVS
  // ---------------------------------------------------------------------------

  /** The keys of the AVS result hash (:street_match, :postal_match). */
  datatype AvsKey = StreetMatch | PostalMatch

  /** An AVS source field reads "Y" only when it is exactly "Pass". */
  function AvsCode(v: Val): string
  {
    if v == Str("Pass") then "Y" else "N"
  }

  /** `attrs` holds an entry for a key exactly when its source field is set, coded by AvsCode. */
  predicate IsAvsResultFor(params: Params, attrs: map<AvsKey, string>)
  {
    && (StreetMatch in attrs <==> Truthy(Get(params, "avs_street")))
    && (PostalMatch in attrs <==> Truthy(Get(params, "avs_zip")))
    && (StreetMatch in attrs ==> attrs[StreetMatch] == AvsCode(Get(params, "avs_street")))
    && (PostalMatch in attrs ==> attrs[PostalMatch] == AvsCode(Get(params, "avs_zip")))
  }

  /** `parse_avs_result`: fills the result hash field by field. */
  method AvsResult(params: Params) returns (attrs: map<AvsKey, string>)
    ensures IsAvsResultFor(params, attrs)
    ensures StreetMatch in attrs ==> (attrs[StreetMatch] == "Y" <==> params["avs_street"] == Str("Pass"))
    ensures PostalMatch in attrs ==> (attrs[PostalMatch] == "Y" <==> params["avs_zip"] == Str("Pass"))
  {
    attrs := map[];
    var avsStreet := Get(params, "avs_street");
    if Truthy(avsStreet) {
      attrs := attrs[StreetMatch := if avsStreet == Str("Pass") then "Y" else "N"];
    }
    var avsZip := Get(params, "avs_zip");
    if Truthy(avsZip) {
      attrs := attrs[PostalMatch := if avsZip == Str("Pass") then "Y" else "N"];
    }
  }

  /**
   * The AVS result is determined by the parameters, and each of its two
   * entries depends only on its own source field.
   */
  lemma AvsResultIndependent(p: Params, q: Params, a: map<AvsKey, string>, b: map<AvsKey, string>)
    requires IsAvsResultFor(p, a) && IsAvsResultFor(q, b)
    ensures Get(p, "avs_street") == Get(q, "avs_street") ==>
              (StreetMatch in a <==> StreetMatch in b) && (StreetMatch in a ==> a[StreetMatch] == b[StreetMatch])
    ensures Get(p, "avs_zip") == Get(q, "avs_zip") ==>
              (PostalMatch in a <==> PostalMatch in b) && (PostalMatch in a ==> a[PostalMatch] == b[PostalMatch])
    ensures p == q ==> a == b
  {
    if p == q {
      assert a.Keys == b.Keys by {
        forall k | k in a ensures k in b { if k == StreetMatch { } else { } }
        forall k | k in b ensures k in a { if k == StreetMatch { } else { } }
      }
      forall k | k in a ensures a[k] == b[k] { if k == StreetMatch { } else { } }
    }
  }

  // ---------------------------------------------------------------------------
  // CVV
  // ---------------------------------------------------------------------------

  /** `parse_cvv_result`: "Y" reads "M", "N" reads "N", any other set value reads "X". */
  function CvvResult(params: Params): (r: Option<string>)
    ensures r.None? <==> !Truthy(Get(params, "card_security_code_match"))
    ensures r.Some? ==> r.value == "M" || r.value == "N" || r.value == "X"
    ensures r == Some("M") <==> Get(params, "card_security_code_match") == Str("Y")
    ensures r == Some("N") <==> Get(params, "card_security_code_match") == Str("N")
  {
    var code := Get(params, "card_security_code_match");
    if !Truthy(code) then None
    else if code == Str("Y") then Some("M")
    else if code == Str("N") then Some("N")
    else Some("X")
  }

  // ---------------------------------------------------------------------------
  // commit
  // ---------------------------------------------------------------------------

  /** The gateway's answer to one call. */
  datatype Response = Response(
    success: bool,
    message: Val,
    params: Params,
    test: bool,
    avsResult: map<AvsKey, string>,
    cvvResult: Option<string>,
    authorization: Val)

  /**
   * `commit` after the transport call: parse the response document for the
   * action and classify it. Indexing nil (what `parse` returns without a
   * response element) raises NoMethodError.
   */
  method Commit(u: Underscore, test: bool, a: Action, doc: Elem) returns (r: Result<Response, Raised>)
    requires RootShapeOk(doc, a)
    ensures r.Failure? <==> ParseResult(u, a, doc).None?
    ensures r.Failure? ==> r.error == NoMethodError
    ensures r.Success? ==>
              var p := ParseResult(u, a, doc).value;
              && r.value.params == p
              && (r.value.success <==> "status_code" in p && p["status_code"] == Str("0"))
              && r.value.message == Get(p, "status_message")
              && r.value.authorization == Get(p, "credit_card_trans_id")
              && (r.value.authorization == Nil <==> "credit_card_trans_id" !in p || p["credit_card_trans_id"] == Nil)
              && IsAvsResultFor(p, r.value.avsResult)
              && r.value.cvvResult == CvvResult(p)
              && r.value.test == test
  {
    var parsed := Parse(u, a, doc);
    if parsed.None? {
      return Failure(NoMethodError);
    }
    var params := parsed.value;
    var message := Message(params);
    var success := Succeeded(params);
    var avs := AvsResult(params);
    r := Success(Response(success, message, params, test, avs, CvvResult(params), Authorization(params)));
  }

  // ---------------------------------------------------------------------------
  // Response fixtures
  // ---------------------------------------------------------------------------

  /** What `underscore` does to the names the fixtures use. */
  predicate FixtureNames(u: Underscore)
  {
    && u("statusCode") == "status_code"
    && u("statusMessage") == "status_message"
    && u("statusSeverity") == "status_severity"
    && u("WalletEntryID") == "wallet_entry_id"
    && u("IsDuplicate") == "is_duplicate"
    && u("CreditCardTransID") == "credit_card_trans_id"
    && u("AuthorizationCode") == "authorization_code"
    && u("AVSStreet") == "avs_street"
    && u("AVSZip") == "avs_zip"
    && u("CardSecurityCodeMatch") == "card_security_code_match"
  }

  function Leaf(name: string, text: string): Elem
  {
    Elem(name, [], [], Some(text))
  }

  function StatusAttrs(code: string, message: string): seq<(string, string)>
  {
    [("statusCode", code), ("statusMessage", message), ("statusSeverity", "INFO")]
  }

  /**
   * The signon reply the server sends ahead of the messages: a successful
   * SignonDesktopRs with its server time and session ticket.
   */
  function SignonReply(time: string, ticket: string): Elem
  {
    Elem("SignonMsgsRs", [],
         [Elem("SignonDesktopRs", [("statusCode", "0"), ("statusSeverity", "INFO")],
               [Leaf("ServerDateTime", time), Leaf("SessionTicket", ticket)], Some("\n"))],
         Some("\n"))
  }

  /** A response document: the signon reply, then `rs` under QBMSXMLMsgsRs. */
  function ResponseDoc(time: string, ticket: string, rs: Elem): Elem
  {
    Elem("QBMSXML", [], [SignonReply(time, ticket), Elem("QBMSXMLMsgsRs", [], [rs], Some("\n"))], Some("\n"))
  }

  /** The lookup finds nothing inside the signon reply, although its SignonDesktopRs carries a `statusCode`. */
  lemma SignonSkipped(time: string, ticket: string, t: string)
    ensures FindIn(["QBMSXML", "SignonMsgsRs"], SignonReply(time, ticket).children, t) == None
  {
    var desk := SignonReply(time, ticket).children[0];
    var anc := ["QBMSXML", "SignonMsgsRs", "SignonDesktopRs"];
    assert ["QBMSXML", "SignonMsgsRs"] + [desk.name] == anc;
    var leaves := desk.children;
    assert !AtResponsePath(anc, leaves[1], t);
    assert FindIn(anc, leaves[1..], t) == None by {
      assert leaves[1..][1..] == [];
    }
    assert !AtResponsePath(anc, leaves[0], t);
    assert FindIn(anc, leaves, t) == None;
    assert !AtResponsePath(["QBMSXML", "SignonMsgsRs"], desk, t);
  }

  /** The response element of a well-formed answer is found past the signon reply, under its two wrappers, and parsed. */
  lemma ParseResponseDoc(u: Underscore, time: string, ticket: string, rs: Elem, a: Action)
    requires rs.name == ResponseName(a)
    requires rs.children != [] || rs.text.None?
    ensures RootShapeOk(ResponseDoc(time, ticket, rs), a)
    ensures ParseResult(u, a, ResponseDoc(time, ticket, rs)) == Some(RootEntries(u, rs) + AttributeMap(u, rs.attrs))
  {
    var signon := SignonReply(time, ticket);
    var msgs := Elem("QBMSXMLMsgsRs", [], [rs], Some("\n"));
    var doc := ResponseDoc(time, ticket, rs);
    var t := ResponseName(a);
    assert AtResponsePath(["QBMSXML", "QBMSXMLMsgsRs"], rs, t);
    assert FindIn(["QBMSXML", "QBMSXMLMsgsRs"], [rs], t) == Some(rs);
    assert ["QBMSXML"] + [msgs.name] == ["QBMSXML", "QBMSXMLMsgsRs"];
    assert !AtResponsePath(["QBMSXML"], msgs, t);
    assert FindIn(["QBMSXML"], [msgs], t) == Some(rs);
    assert ["QBMSXML"] + [signon.name] == ["QBMSXML", "SignonMsgsRs"];
    SignonSkipped(time, ticket, t);
    assert !AtResponsePath(["QBMSXML"], signon, t);
    assert [signon, msgs][1..] == [msgs];
    assert FindIn(["QBMSXML"], [signon, msgs], t) == Some(rs);
    assert [] + [doc.name] == ["QBMSXML"];
    assert !AtResponsePath([], doc, t);
    assert FindIn([], [doc], t) == Some(rs);
  }

  /** The map that files each entry under its own key, later entries overriding earlier ones. */
  function Fold(es: seq<Entry>): map<string, Val>
  {
    if es == [] then map[] else Fold(es[..|es| - 1])[es[|es| - 1].0 := es[|es| - 1].1]
  }

  lemma FoldSnoc(es: seq<Entry>, e: Entry)
    ensures Fold(es + [e]) == Fold(es)[e.0 := e.1]
  {
    assert (es + [e])[..|es|] == es;
  }

  /** An entry's value is what the fold holds for its key when no later entry reuses the key. */
  lemma {:induction false} FoldLookup(es: seq<Entry>, i: nat)
    requires i < |es|
    requires forall j :: i < j < |es| ==> es[j].0 != es[i].0
    ensures es[i].0 in Fold(es) && Fold(es)[es[i].0] == es[i].1
  {
    if i < |es| - 1 {
      FoldLookup(es[..|es| - 1], i);
    }
  }

  /** A key no entry carries is absent from the fold. */
  lemma {:induction false} FoldMissing(es: seq<Entry>, k: string)
    requires forall j :: 0 <= j < |es| ==> es[j].0 != k
    ensures k !in Fold(es)
  {
    if es != [] {
      FoldMissing(es[..|es| - 1], k);
    }
  }

  lemma {:induction false} FoldAppend(xs: seq<Entry>, ys: seq<Entry>)
    ensures Fold(xs + ys) == Fold(xs) + Fold(ys)
    decreases |ys|
  {
    if ys == [] {
      assert xs + ys == xs;
    } else {
      var init, last := ys[..|ys| - 1], ys[|ys| - 1];
      assert (xs + ys)[..|xs + ys| - 1] == xs + init;
      FoldAppend(xs, init);
    }
  }

  /** Appending a child whose tag is new stores its value as is. */
  lemma GroupPush(es: seq<Entry>, k: string, v: Val)
    requires NoLists(es) && !v.List? && k !in Group(es)
    ensures NoLists(es + [(k, v)])
    ensures Group(es + [(k, v)]) == Group(es)[k := v]
  {
    GroupSnoc(es, k, v);
  }

  /** With pairwise distinct keys and no lists, grouping files each value under its key unchanged. */
  lemma {:induction false} GroupOfDistinct(es: seq<Entry>)
    requires NoLists(es)
    requires forall i, j :: 0 <= i < j < |es| ==> es[i].0 != es[j].0
    ensures Group(es) == Fold(es)
  {
    if es == [] {
      assert Keys(es) == {};
    } else {
      var init, last := es[..|es| - 1], es[|es| - 1];
      assert es == init + [last];
      GroupOfDistinct(init);
      assert last.0 !in Keys(init);
      GroupPush(init, last.0, last.1);
    }
  }

  /** The status attributes, as entries under their normalised names. */
  function StatusEntries(code: string, message: string): seq<Entry>
  {
    [("status_code", Str(code)), ("status_message", Str(message)), ("status_severity", Str("INFO"))]
  }

  /** The attributes as entries under their normalised names, in document order. */
  function AttributeEntries(u: Underscore, attrs: seq<(string, string)>): seq<Entry>
  {
    seq(|attrs|, i requires 0 <= i < |attrs| => (u(attrs[i].0), Str(attrs[i].1)))
  }

  /** Storing attributes in a hash is folding their entries in order: a later duplicate overrides. */
  lemma {:induction false} AttributeFold(u: Underscore, attrs: seq<(string, string)>)
    ensures AttributeMap(u, attrs) == Fold(AttributeEntries(u, attrs))
    decreases |attrs|
  {
    if attrs == [] {
      assert AttributeKeys(u, attrs) == {};
    } else {
      var init, last := attrs[..|attrs| - 1], attrs[|attrs| - 1];
      assert attrs == init + [last];
      AttributeFold(u, init);
      AttributeMapSnoc(u, init, last);
      assert AttributeEntries(u, attrs) == AttributeEntries(u, init) + [(u(last.0), Str(last.1))];
      FoldSnoc(AttributeEntries(u, init), (u(last.0), Str(last.1)));
    }
  }

  /** The three status attributes, stored under their normalised names. */
  lemma StatusAttributes(u: Underscore, code: string, message: string)
    requires FixtureNames(u)
    ensures AttributeMap(u, StatusAttrs(code, message)) == Fold(StatusEntries(code, message))
  {
    AttributeFold(u, StatusAttrs(code, message));
    assert AttributeEntries(u, StatusAttrs(code, message)) == StatusEntries(code, message);
  }

  /** The parameters of an answer whose children normalise to `children`, with status attributes. */
  function AnswerParams(children: seq<Entry>, code: string, message: string): Params
  {
    Fold(children + StatusEntries(code, message))
  }

  /**
   * An answer whose children are leaves with distinct normalised names: its
   * parameters are those leaves' texts followed by the status attributes.
   */
  lemma AnswerEntries(u: Underscore, rs: Elem, children: seq<Entry>, code: string, message: string)
    requires FixtureNames(u)
    requires rs.attrs == StatusAttrs(code, message)
    requires rs.children == [] ==> children == []
    requires rs.children != [] ==> ChildEntries(u, rs.children) == children
    requires NoLists(children)
    requires forall i, j :: 0 <= i < j < |children| ==> children[i].0 != children[j].0
    ensures RootEntries(u, rs) + AttributeMap(u, rs.attrs) == AnswerParams(children, code, message)
  {
    if rs.children == [] {
      assert Fold(children) == map[];
    } else {
      GroupOfDistinct(children);
    }
    StatusAttributes(u, code, message);
    FoldAppend(children, StatusEntries(code, message));
  }

  /**
   * A response element for `a` carrying the status attributes, with `leaves`
   * as its children; an answer without children is self-closing.
   */
  function Answer(a: Action, code: string, message: string, leaves: seq<Elem>): Elem
  {
    Elem(ResponseName(a), StatusAttrs(code, message), leaves, if leaves == [] then None else Some("\n"))
  }

  /** Such an answer, wrapped in its document, parses to its leaves followed by the status attributes. */
  lemma AnswerParsed(u: Underscore, time: string, ticket: string, a: Action, code: string, message: string, leaves: seq<Elem>, children: seq<Entry>)
    requires FixtureNames(u)
    requires leaves == [] ==> children == []
    requires leaves != [] ==> ChildEntries(u, leaves) == children
    requires forall i, j :: 0 <= i < j < |children| ==> children[i].0 != children[j].0
    ensures RootShapeOk(ResponseDoc(time, ticket, Answer(a, code, message, leaves)), a)
    ensures ParseResult(u, a, ResponseDoc(time, ticket, Answer(a, code, message, leaves)))
            == Some(AnswerParams(children, code, message))
  {
    var rs := Answer(a, code, message, leaves);
    ParseResponseDoc(u, time, ticket, rs, a);
    ChildEntriesNoLists(u, leaves);
    AnswerEntries(u, rs, children, code, message);
  }

  /** The children of the wallet-add answer of the unit fixture. */
  function AddLeaves(): seq<Elem>
  {
    [Leaf("WalletEntryID", "101123456789012345671111"), Leaf("IsDuplicate", "false")]
  }

  function AddEntries(): seq<Entry>
  {
    [("wallet_entry_id", Str("101123456789012345671111")), ("is_duplicate", Str("false"))]
  }

  lemma AddChildren(u: Underscore)
    requires FixtureNames(u)
    ensures ChildEntries(u, AddLeaves()) == AddEntries()
  {
  }

  /** The wallet-add answer's parameters: a success with a wallet entry id and no authorization. */
  lemma AddClassified()
    ensures var p := AnswerParams(AddEntries(), "0", "Status OK");
            && Succeeded(p) && Message(p) == Str("Status OK")
            && Get(p, "wallet_entry_id") == Str("101123456789012345671111")
            && Get(p, "is_duplicate") == Str("false")
            && Authorization(p) == Nil
  {
    var es := AddEntries() + StatusEntries("0", "Status OK");
    FoldLookup(es, 0);
    FoldLookup(es, 1);
    FoldLookup(es, 2);
    FoldLookup(es, 3);
    FoldMissing(es, "credit_card_trans_id");
  }

  /** A wallet-add answer: a success with a wallet entry id and no authorization. */
  lemma CreateFixture(u: Underscore, time: string, ticket: string)
    requires FixtureNames(u)
    ensures var doc := ResponseDoc(time, ticket, Answer(WalletAdd, "0", "Status OK", AddLeaves()));
            && RootShapeOk(doc, WalletAdd)
            && ParseResult(u, WalletAdd, doc).Some?
    ensures var p := ParseResult(u, WalletAdd, ResponseDoc(time, ticket, Answer(WalletAdd, "0", "Status OK", AddLeaves()))).value;
            && Succeeded(p) && Message(p) == Str("Status OK")
            && Get(p, "wallet_entry_id") == Str("101123456789012345671111")
            && Get(p, "is_duplicate") == Str("false")
            && Authorization(p) == Nil
  {
    AddChildren(u);
    AnswerParsed(u, time, ticket, WalletAdd, "0", "Status OK", AddLeaves(), AddEntries());
    AddClassified();
  }

  /** Status attributes alone decide success and carry the message. */
  lemma StatusClassified(code: string, message: string)
    ensures var p := AnswerParams([], code, message);
            && (Succeeded(p) <==> code == "0")
            && Message(p) == Str(message)
            && Authorization(p) == Nil
  {
    var es := [] + StatusEntries(code, message);
    assert es == StatusEntries(code, message);
    FoldLookup(es, 0);
    FoldLookup(es, 1);
    FoldMissing(es, "credit_card_trans_id");
  }

  /** A self-closing wallet-mod answer still yields its status attributes. */
  lemma UpdateFixture(u: Underscore, time: string, ticket: string)
    requires FixtureNames(u)
    ensures var doc := ResponseDoc(time, ticket, Answer(WalletMod, "0", "Status OK", []));
            && RootShapeOk(doc, WalletMod)
            && ParseResult(u, WalletMod, doc).Some?
    ensures var p := ParseResult(u, WalletMod, ResponseDoc(time, ticket, Answer(WalletMod, "0", "Status OK", []))).value;
            Succeeded(p) && Message(p) == Str("Status OK")
  {
    AnswerParsed(u, time, ticket, WalletMod, "0", "Status OK", [], []);
    StatusClassified("0", "Status OK");
  }

  /** The children of the wallet-auth answer of the unit fixture. */
  function AuthLeaves(): seq<Elem>
  {
    [ Leaf("CreditCardTransID", "YY1000045060"), Leaf("AuthorizationCode", "447279"),
      Leaf("AVSStreet", "Pass"), Leaf("AVSZip", "Pass"),
      Leaf("CardSecurityCodeMatch", "NotAvailable") ]
  }

  /** The entries the wallet-auth answer's children normalise to, in document order. */
  function AuthEntries(): seq<Entry>
  {
    [ ("credit_card_trans_id", Str("YY1000045060")), ("authorization_code", Str("447279")),
      ("avs_street", Str("Pass")), ("avs_zip", Str("Pass")),
      ("card_security_code_match", Str("NotAvailable")) ]
  }

  lemma AuthChildren(u: Underscore)
    requires FixtureNames(u)
    ensures ChildEntries(u, AuthLeaves()) == AuthEntries()
  {
  }

  /** The wallet-auth parameters: a success with a transaction id, both AVS checks passed, CVV not available. */
  lemma AuthClassified()
    ensures var p := AnswerParams(AuthEntries(), "0", "Status OK");
            && Succeeded(p)
            && Authorization(p) == Str("YY1000045060")
            && IsAvsResultFor(p, map[StreetMatch := "Y", PostalMatch := "Y"])
            && CvvResult(p) == Some("X")
  {
    var es := AuthEntries() + StatusEntries("0", "Status OK");
    FoldLookup(es, 0);
    FoldLookup(es, 2);
    FoldLookup(es, 3);
    FoldLookup(es, 4);
    FoldLookup(es, 5);
  }

  /** An authorization answer: transaction id, both AVS checks pass, CVV not available. */
  lemma AuthorizeFixture(u: Underscore, time: string, ticket: string)
    requires FixtureNames(u)
    ensures var doc := ResponseDoc(time, ticket, Answer(WalletAuth, "0", "Status OK", AuthLeaves()));
            && RootShapeOk(doc, WalletAuth)
            && ParseResult(u, WalletAuth, doc).Some?
    ensures var p := ParseResult(u, WalletAuth, ResponseDoc(time, ticket, Answer(WalletAuth, "0", "Status OK", AuthLeaves()))).value;
            && Succeeded(p)
            && Authorization(p) == Str("YY1000045060")
            && IsAvsResultFor(p, map[StreetMatch := "Y", PostalMatch := "Y"])
            && CvvResult(p) == Some("X")
  {
    AuthChildren(u);
    AnswerParsed(u, time, ticket, WalletAuth, "0", "Status OK", AuthLeaves(), AuthEntries());
    AuthClassified();
  }

  const RejectedMessage: string := "The string worse in the field WalletEntryID is too short. The minimum length is 24."

  /** A wallet query rejected by the server: a failure carrying the server's status message. */
  lemma RejectedQueryFixture(u: Underscore, time: string, ticket: string)
    requires FixtureNames(u)
    ensures var doc := ResponseDoc(time, ticket, Answer(WalletQuery, "10307", RejectedMessage, []));
            && RootShapeOk(doc, WalletQuery)
            && ParseResult(u, WalletQuery, doc).Some?
    ensures var p := ParseResult(u, WalletQuery, ResponseDoc(time, ticket, Answer(WalletQuery, "10307", RejectedMessage, []))).value;
            !Succeeded(p) && Message(p) == Str(RejectedMessage)
  {
    AnswerParsed(u, time, ticket, WalletQuery, "10307", RejectedMessage, [], []);
    StatusClassified("10307", RejectedMessage);
  }

  /**
   * A document that answers only at the signon level has no response element:
   * `parse` yields nil, and `commit` then fails indexing it.
   */
  lemma SignonOnlyFixture(u: Underscore)
    ensures var doc := Elem("QBMSXML", [], [Elem("SignonMsgsRs", [], [Elem("SignonDesktopRs", [("statusCode", "2000")], [], None)], None),
                                            Elem("QBMSXMLMsgsRs", [], [], None)], None);
            && RootShapeOk(doc, WalletQuery)
            && ParseResult(u, WalletQuery, doc).None?
  {
  }
}
