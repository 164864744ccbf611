/**
 * The response side of the gateway: `parse` and `parse_element`.
 *
 * A response arrives as an already-parsed element tree (the XML library's
 * document); `parse` finds the `<Stem>Rs` element for the action and turns it
 * into a nested value keyed by normalised tag names, promoting a tag that
 * repeats among siblings to an ordered list and merging in the attributes of
 * that element. The key normaliser (ActiveSupport's `underscore`) is foreign
 * and is passed in as a function.
 */
module ResponseParser {
  import opened Wrappers
  import opened ActionCatalog

  /**
   * An element of a parsed document: its name, its attributes in document
   * order, its child elements in document order, and its text (the first
   * text node, absent when it has none, as for `<X/>`).
   */
  datatype Elem = Elem(name: string, attrs: seq<(string, string)>, children: seq<Elem>, text: Option<string>)

  /**
   * What `parse_element` yields: a String or nil (`Text`), an Array (`List`),
   * or a Hash from normalised tag name to value (`Map`).
   */
  datatype Val = Text(text: Option<string>) | List(items: seq<Val>) | Map(entries: map<string, Val>)

  /** The tag-name normaliser, e.g. "CreditCardTransID" to "credit_card_trans_id". */
  type Underscore = string -> string

  /** A child's normalised tag paired with its value, in document order. */
  type Entry = (string, Val)

  // ---------------------------------------------------------------------------
  // Sibling aggregation, stated declaratively
  // ---------------------------------------------------------------------------

  function Keys(es: seq<Entry>): set<string>
  {
    set i | 0 <= i < |es| :: es[i].0
  }

  /** The values filed under key `k`, in document order. */
  function Pick(es: seq<Entry>, k: string): seq<Val>
  {
    if es == [] then []
    else (if es[0].0 == k then [es[0].1] else []) + Pick(es[1..], k)
  }

  /** The positions at which key `k` occurs. */
  function Occurrences(es: seq<Entry>, k: string): set<nat>
  {
    set i: nat | i < |es| && es[i].0 == k
  }

  /** One occurrence is kept as is; two or more become a list. */
  function Collapse(vs: seq<Val>): Val
  {
    if |vs| == 1 then vs[0] else List(vs)
  }

  /** The mapping a sequence of siblings denotes. */
  function Group(es: seq<Entry>): map<string, Val>
  {
    map k | k in Keys(es) :: Collapse(Pick(es, k))
  }

  predicate NoLists(es: seq<Entry>)
  {
    forall i :: 0 <= i < |es| ==> !es[i].1.List?
  }

  lemma {:induction false} PickSnoc(es: seq<Entry>, e: Entry, k: string)
    ensures Pick(es + [e], k) == Pick(es, k) + (if e.0 == k then [e.1] else [])
  {
    if es != [] {
      assert (es + [e])[1..] == es[1..] + [e];
      PickSnoc(es[1..], e, k);
    }
  }

  lemma {:induction false} PickNonEmpty(es: seq<Entry>, k: string)
    ensures k in Keys(es) <==> Pick(es, k) != []
  {
    if es != [] {
      PickNonEmpty(es[1..], k);
      assert Keys(es) == {es[0].0} + Keys(es[1..]) by {
        forall x | x in Keys(es) ensures x in {es[0].0} + Keys(es[1..]) {
          var i :| 0 <= i < |es| && es[i].0 == x;
          if i > 0 { assert es[1..][i - 1].0 == x; }
        }
        forall x | x in Keys(es[1..]) ensures x in Keys(es) {
          var i :| 0 <= i < |es[1..]| && es[1..][i].0 == x;
          assert es[i + 1].0 == x;
        }
      }
    }
  }

  lemma {:induction false} PickNoLists(es: seq<Entry>, k: string)
    requires NoLists(es)
    ensures forall j :: 0 <= j < |Pick(es, k)| ==> !Pick(es, k)[j].List?
  {
    if es != [] {
      assert NoLists(es[1..]) by {
        forall i | 0 <= i < |es[1..]| ensures !es[1..][i].1.List? {
          assert es[1..][i] == es[i + 1];
        }
      }
      PickNoLists(es[1..], k);
    }
  }

  lemma OccurrencesSnoc(es: seq<Entry>, e: Entry, k: string)
    ensures |es| !in Occurrences(es, k)
    ensures Occurrences(es + [e], k) == Occurrences(es, k) + (if e.0 == k then {|es|} else {})
  {
    var es' := es + [e];
    forall i: nat | i < |es| ensures es'[i] == es[i] { }
  }

  /** The number of values filed under `k` is the number of times `k` occurs. */
  lemma {:induction false} PickCount(es: seq<Entry>, k: string)
    ensures |Pick(es, k)| == |Occurrences(es, k)|
    decreases |es|
  {
    if es == [] {
      assert Occurrences(es, k) == {};
    } else {
      var n := |es| - 1;
      var front := es[..n];
      assert es == front + [es[n]];
      PickSnoc(front, es[n], k);
      PickCount(front, k);
      OccurrencesSnoc(front, es[n], k);
    }
  }

  /** What storing `v` under `k` makes of a grouped mapping, as `parse_element` does it. */
  function Pushed(g: map<string, Val>, k: string, v: Val): Val
  {
    if k !in g then v
    else if g[k].List? then List(g[k].items + [v])
    else List([g[k], v])
  }

  /**
   * The loop of `parse_element` keeps `Group` of the siblings seen so far:
   * a new tag is stored as is, the second occurrence replaces the stored
   * value by `[first, second]`, and each later one is appended.
   */
  lemma GroupSnoc(es: seq<Entry>, k: string, v: Val)
    requires NoLists(es) && !v.List?
    ensures k !in Group(es) ==> Group(es + [(k, v)]) == Group(es)[k := v]
    ensures k in Group(es) && Group(es)[k].List? ==>
              Group(es + [(k, v)]) == Group(es)[k := List(Group(es)[k].items + [v])]
    ensures k in Group(es) && !Group(es)[k].List? ==>
              Group(es + [(k, v)]) == Group(es)[k := List([Group(es)[k], v])]
  {
    var g, g' := Group(es), Group(es + [(k, v)]);
    GroupSnocKeys(es, k, v);
    forall x | x in g && x != k ensures g'[x] == g[x] {
      PickSnoc(es, (k, v), x);
    }
    GroupSnocAt(es, k, v);
    MapUpdateExt(g, g', k, Pushed(g, k, v));
  }

  lemma GroupSnocAt(es: seq<Entry>, k: string, v: Val)
    requires NoLists(es) && !v.List?
    ensures k in Group(es + [(k, v)]) && Group(es + [(k, v)])[k] == Pushed(Group(es), k, v)
  {
    var g := Group(es);
    var p, p' := Pick(es, k), Pick(es + [(k, v)], k);
    GroupSnocKeys(es, k, v);
    PickSnoc(es, (k, v), k);
    assert p' == p + [v];
    PickNonEmpty(es, k);
    if k !in g {
      assert p == [];
      assert p' == [v];
    } else {
      PickNoLists(es, k);
      assert g[k] == Collapse(p);
      if |p| == 1 {
        assert !g[k].List?;
        assert p' == [g[k], v];
      } else {
        assert g[k] == List(p);
      }
    }
  }

  /** Two maps that agree off `k` and differ at `k` only by a new value. */
  lemma MapUpdateExt(g: map<string, Val>, g': map<string, Val>, k: string, w: Val)
    requires g'.Keys == g.Keys + {k}
    requires forall x :: x in g && x != k ==> g'[x] == g[x]
    requires g'[k] == w
    ensures g' == g[k := w]
  {
  }

  lemma GroupSnocKeys(es: seq<Entry>, k: string, v: Val)
    ensures Keys(es + [(k, v)]) == Keys(es) + {k}
  {
    var es' := es + [(k, v)];
    forall x | x in Keys(es') ensures x in Keys(es) + {k} {
      var i :| 0 <= i < |es'| && es'[i].0 == x;
      if i < |es| { assert es[i].0 == x; }
    }
    forall x | x in Keys(es) ensures x in Keys(es') {
      var i :| 0 <= i < |es| && es[i].0 == x;
      assert es'[i].0 == x;
    }
    assert es'[|es|].0 == k;
  }

  // ---------------------------------------------------------------------------
  // The value of an element
  // ---------------------------------------------------------------------------

  /**
   * The value `parse_element` gives an element: its text when it has no
   * child elements, otherwise the grouped mapping of its children.
   */
  function ElementValue(u: Underscore, e: Elem): (v: Val)
    ensures !v.List?
    decreases e
  {
    if e.children == [] then Text(e.text)
    else Map(Group(ChildEntries(u, e.children)))
  }

  function ChildEntries(u: Underscore, cs: seq<Elem>): seq<Entry>
    decreases cs
  {
    seq(|cs|, i requires 0 <= i < |cs| => (u(cs[i].name), ElementValue(u, cs[i])))
  }

  lemma ChildEntriesNoLists(u: Underscore, cs: seq<Elem>)
    ensures NoLists(ChildEntries(u, cs))
  {
    forall i | 0 <= i < |cs| ensures !ChildEntries(u, cs)[i].1.List? {
      var v := ElementValue(u, cs[i]);
    }
  }

  /**
   * Sibling promotion: a tag that occurs once among an element's children
   * maps to that child's value; a tag that occurs n >= 2 times maps to the
   * list of the n values in document order; other tags are absent.
   */
  lemma SiblingPromotion(u: Underscore, e: Elem, k: string)
    requires e.children != []
    ensures ElementValue(u, e).Map?
    ensures k in ElementValue(u, e).entries <==> exists i :: 0 <= i < |e.children| && u(e.children[i].name) == k
    ensures var occ := Pick(ChildEntries(u, e.children), k);
            && |occ| == |Occurrences(ChildEntries(u, e.children), k)|
            && (|occ| == 1 ==> ElementValue(u, e).entries[k] == occ[0] && !occ[0].List?)
            && (|occ| >= 2 ==> ElementValue(u, e).entries[k] == List(occ))
  {
    var es := ChildEntries(u, e.children);
    PickCount(es, k);
    PickNonEmpty(es, k);
    ChildEntriesNoLists(u, e.children);
    PickNoLists(es, k);
    if k in Keys(es) {
      var i :| 0 <= i < |es| && es[i].0 == k;
      assert u(e.children[i].name) == k;
    }
    if exists i :: 0 <= i < |e.children| && u(e.children[i].name) == k {
      var i :| 0 <= i < |e.children| && u(e.children[i].name) == k;
      assert es[i].0 == k;
    }
  }

  /** `parse_element`: recursive descent, filling a hash child by child. */
  method ParseElement(u: Underscore, node: Elem) returns (v: Val)
    ensures v == ElementValue(u, node)
    decreases node
  {
    if node.children != [] {
      var response: map<string, Val> := map[];
      var i := 0;
      while i < |node.children|
        invariant 0 <= i <= |node.children|
        invariant response == Group(ChildEntries(u, node.children[..i]))
      {
        var e := node.children[i];
        var key := u(e.name);
        var value := ParseElement(u, e);
        ChildEntriesNoLists(u, node.children[..i]);
        GroupSnoc(ChildEntries(u, node.children[..i]), key, value);
        if key in response {
          if response[key].List? {
            response := response[key := List(response[key].items + [value])];
          } else {
            response := response[key := List([response[key], value])];
          }
        } else {
          response := response[key := value];
        }
        assert ChildEntries(u, node.children[..i + 1]) == ChildEntries(u, node.children[..i]) + [(key, value)];
        i := i + 1;
      }
      assert node.children[..i] == node.children;
      v := Map(response);
    } else {
      v := Text(node.text);
    }
  }

  // ---------------------------------------------------------------------------
  // Locating //QBMSXML/QBMSXMLMsgsRs/<Stem>Rs
  // ---------------------------------------------------------------------------

  /** `e`, whose ancestors' names are `ancestors`, sits at QBMSXML/QBMSXMLMsgsRs/`target`. */
  predicate AtResponsePath(ancestors: seq<string>, e: Elem, target: string)
  {
    && |ancestors| >= 2
    && ancestors[|ancestors| - 2] == "QBMSXML"
    && ancestors[|ancestors| - 1] == "QBMSXMLMsgsRs"
    && e.name == target
  }

  /** Depth-first, document-order search of the forest `cs`. */
  function FindIn(ancestors: seq<string>, cs: seq<Elem>, target: string): (r: Option<Elem>)
    ensures r.Some? ==> r.value.name == target
    decreases cs
  {
    if cs == [] then None
    else if AtResponsePath(ancestors, cs[0], target) then Some(cs[0])
    else match FindIn(ancestors + [cs[0].name], cs[0].children, target)
      case Some(r) => Some(r)
      case None => FindIn(ancestors, cs[1..], target)
  }

  /** The element the XPath `//QBMSXML/QBMSXMLMsgsRs/<Stem>Rs` selects first. */
  function FindRoot(doc: Elem, a: Action): Option<Elem>
  {
    FindIn([], [doc], ResponseName(a))
  }

  /** Every element of the forest `cs` with its ancestors' names, in document order. */
  function Preorder(ancestors: seq<string>, cs: seq<Elem>): seq<(seq<string>, Elem)>
    decreases cs
  {
    if cs == [] then []
    else [(ancestors, cs[0])] + Preorder(ancestors + [cs[0].name], cs[0].children) + Preorder(ancestors, cs[1..])
  }

  /** The first entry of `s` at the response path, if any. */
  function FirstMatch(s: seq<(seq<string>, Elem)>, target: string): (r: Option<Elem>)
    ensures r.None? <==> forall i :: 0 <= i < |s| ==> !AtResponsePath(s[i].0, s[i].1, target)
    ensures r.Some? ==> exists i :: && 0 <= i < |s| && AtResponsePath(s[i].0, s[i].1, target) && r.value == s[i].1
                                    && forall j :: 0 <= j < i ==> !AtResponsePath(s[j].0, s[j].1, target)
  {
    if s == [] then None
    else if AtResponsePath(s[0].0, s[0].1, target) then Some(s[0].1)
    else
      var r := FirstMatch(s[1..], target);
      assert forall i :: 1 <= i < |s| ==> s[i] == s[1..][i - 1];
      r
  }

  lemma {:induction false} FirstMatchAppend(s: seq<(seq<string>, Elem)>, t: seq<(seq<string>, Elem)>, target: string)
    ensures FirstMatch(s + t, target) == if FirstMatch(s, target).Some? then FirstMatch(s, target) else FirstMatch(t, target)
  {
    if s != [] {
      assert (s + t)[0] == s[0];
      assert (s + t)[1..] == s[1..] + t;
      FirstMatchAppend(s[1..], t, target);
      if !AtResponsePath(s[0].0, s[0].1, target) {
        assert FirstMatch(s + t, target) == FirstMatch(s[1..] + t, target);
        assert FirstMatch(s, target) == FirstMatch(s[1..], target);
      }
    } else {
      assert s + t == t;
    }
  }

  /** The search finds exactly the first element in document order that sits at the path. */
  lemma {:induction false} FindInIsFirstInPreorder(ancestors: seq<string>, cs: seq<Elem>, target: string)
    ensures FindIn(ancestors, cs, target) == FirstMatch(Preorder(ancestors, cs), target)
    decreases cs
  {
    if cs != [] {
      var head := [(ancestors, cs[0])];
      var inner := Preorder(ancestors + [cs[0].name], cs[0].children);
      var rest := Preorder(ancestors, cs[1..]);
      FindInIsFirstInPreorder(ancestors + [cs[0].name], cs[0].children, target);
      FindInIsFirstInPreorder(ancestors, cs[1..], target);
      FirstMatchAppend(head + inner, rest, target);
      FirstMatchAppend(head, inner, target);
    }
  }

  // ---------------------------------------------------------------------------
  // Attributes of the matched element
  // ---------------------------------------------------------------------------

  function AttributeKeys(u: Underscore, attrs: seq<(string, string)>): set<string>
  {
    set i | 0 <= i < |attrs| :: u(attrs[i].0)
  }

  /** The value of the last attribute whose normalised name is `k`. */
  function LastValue(u: Underscore, attrs: seq<(string, string)>, k: string): string
    requires k in AttributeKeys(u, attrs)
    decreases |attrs|
  {
    var n := |attrs| - 1;
    if u(attrs[n].0) == k then attrs[n].1
    else
      assert k in AttributeKeys(u, attrs[..n]) by {
        var i :| 0 <= i < |attrs| && u(attrs[i].0) == k;
        assert attrs[..n][i].0 == attrs[i].0;
      }
      LastValue(u, attrs[..n], k)
  }

  /** The attributes as entries; a later attribute overrides an earlier one with the same key. */
  function AttributeMap(u: Underscore, attrs: seq<(string, string)>): map<string, Val>
  {
    map k | k in AttributeKeys(u, attrs) :: Text(Some(LastValue(u, attrs, k)))
  }

  lemma AttributeMapSnoc(u: Underscore, attrs: seq<(string, string)>, a: (string, string))
    ensures AttributeMap(u, attrs + [a]) == AttributeMap(u, attrs)[u(a.0) := Text(Some(a.1))]
  {
    var attrs' := attrs + [a];
    assert attrs'[..|attrs|] == attrs;
    assert AttributeKeys(u, attrs') == AttributeKeys(u, attrs) + {u(a.0)} by {
      forall x | x in AttributeKeys(u, attrs') ensures x in AttributeKeys(u, attrs) + {u(a.0)} {
        var i :| 0 <= i < |attrs'| && u(attrs'[i].0) == x;
        if i < |attrs| { assert u(attrs[i].0) == x; }
      }
      forall x | x in AttributeKeys(u, attrs) ensures x in AttributeKeys(u, attrs') {
        var i :| 0 <= i < |attrs| && u(attrs[i].0) == x;
        assert u(attrs'[i].0) == x;
      }
      assert u(attrs'[|attrs|].0) == u(a.0);
    }
  }

  /** The attribute at position `i` is the one stored when no later attribute shares its key. */
  lemma {:induction false} LastValueAt(u: Underscore, attrs: seq<(string, string)>, i: nat)
    requires i < |attrs|
    requires forall j :: i < j < |attrs| ==> u(attrs[j].0) != u(attrs[i].0)
    ensures u(attrs[i].0) in AttributeKeys(u, attrs)
    ensures LastValue(u, attrs, u(attrs[i].0)) == attrs[i].1
    decreases |attrs|
  {
    var n := |attrs| - 1;
    if i < n {
      var front := attrs[..n];
      assert front[i] == attrs[i];
      assert forall j :: i < j < |front| ==> front[j] == attrs[j];
      LastValueAt(u, front, i);
    }
  }

  // ---------------------------------------------------------------------------
  // parse
  // ---------------------------------------------------------------------------

  /**
   * The matched element either has child elements or has no text. (Were it a
   * text-only element, the attribute merge would index into a String.)
   */
  predicate RootShapeOk(doc: Elem, a: Action)
  {
    match FindRoot(doc, a)
    case None => true
    case Some(root) => root.children != [] || root.text.None?
  }

  /** The child part of the parsed root: `parse_element`'s hash, or `{}` for a childless root. */
  function RootEntries(u: Underscore, root: Elem): map<string, Val>
  {
    if root.children == [] then map[] else Group(ChildEntries(u, root.children))
  }

  /** What `parse` returns: nil when the response element is absent. */
  function ParseResult(u: Underscore, a: Action, doc: Elem): Option<map<string, Val>>
    requires RootShapeOk(doc, a)
  {
    match FindRoot(doc, a)
    case None => None
    case Some(root) => Some(RootEntries(u, root) + AttributeMap(u, root.attrs))
  }

  /** `parse`: locate the response element, parse it, then store its attributes one by one. */
  method Parse(u: Underscore, a: Action, doc: Elem) returns (r: Option<map<string, Val>>)
    requires RootShapeOk(doc, a)
    ensures r == ParseResult(u, a, doc)
  {
    var found := FindRoot(doc, a);
    if found.None? {
      return None;
    }
    var root := found.value;
    var parsed := ParseElement(u, root);
    var response: map<string, Val>;
    if parsed.Map? {
      response := parsed.entries;
    } else {
      response := map[];  // response ||= {}
    }
    assert response == RootEntries(u, root);
    var i := 0;
    while i < |root.attrs|
      invariant 0 <= i <= |root.attrs|
      invariant response == RootEntries(u, root) + AttributeMap(u, root.attrs[..i])
    {
      var attribute := root.attrs[i];
      MergeStep(u, RootEntries(u, root), root.attrs, i);
      response := response[u(attribute.0) := Text(Some(attribute.1))];
      i := i + 1;
    }
    assert root.attrs[..i] == root.attrs;
    r := Some(response);
  }

  lemma MergeStep(u: Underscore, base: map<string, Val>, attrs: seq<(string, string)>, i: nat)
    requires i < |attrs|
    ensures (base + AttributeMap(u, attrs[..i]))[u(attrs[i].0) := Text(Some(attrs[i].1))]
            == base + AttributeMap(u, attrs[..i + 1])
  {
    assert attrs[..i + 1] == attrs[..i] + [attrs[i]];
    AttributeMapSnoc(u, attrs[..i], attrs[i]);
  }

  /**
   * Root lookup: `parse` yields nil exactly when no element of the document
   * sits at QBMSXML/QBMSXMLMsgsRs/<Stem>Rs; otherwise it parses the first such
   * element in document order.
   */
  lemma RootLookup(u: Underscore, a: Action, doc: Elem)
    requires RootShapeOk(doc, a)
    ensures var s := Preorder([], [doc]);
            && (ParseResult(u, a, doc).None? <==> forall i :: 0 <= i < |s| ==> !AtResponsePath(s[i].0, s[i].1, ResponseName(a)))
            && (FindRoot(doc, a).Some? ==>
                  exists i :: && 0 <= i < |s| && s[i].1 == FindRoot(doc, a).value
                              && AtResponsePath(s[i].0, s[i].1, ResponseName(a))
                              && forall j :: 0 <= j < i ==> !AtResponsePath(s[j].0, s[j].1, ResponseName(a)))
  {
    FindInIsFirstInPreorder([], [doc], ResponseName(a));
  }

  /**
   * Attribute merge: every attribute of the matched element is stored under
   * its normalised name (the last one wins when two normalise alike),
   * overriding a child of the same key; child keys that no attribute names
   * keep the children's value.
   */
  lemma AttributeMerge(u: Underscore, a: Action, doc: Elem, root: Elem)
    requires RootShapeOk(doc, a)
    requires FindRoot(doc, a) == Some(root)
    ensures ParseResult(u, a, doc).Some?
    ensures var r := ParseResult(u, a, doc).value;
            && r.Keys == RootEntries(u, root).Keys + AttributeKeys(u, root.attrs)
            && (forall i :: 0 <= i < |root.attrs| && (forall j :: i < j < |root.attrs| ==> u(root.attrs[j].0) != u(root.attrs[i].0)) ==>
                  r[u(root.attrs[i].0)] == Text(Some(root.attrs[i].1)))
            && (forall k :: k in RootEntries(u, root) && k !in AttributeKeys(u, root.attrs) ==> r[k] == RootEntries(u, root)[k])
  {
    var r := ParseResult(u, a, doc).value;
    forall i | 0 <= i < |root.attrs| && (forall j :: i < j < |root.attrs| ==> u(root.attrs[j].0) != u(root.attrs[i].0))
      ensures r[u(root.attrs[i].0)] == Text(Some(root.attrs[i].1))
    {
      LastValueAt(u, root.attrs, i);
    }
  }
}
