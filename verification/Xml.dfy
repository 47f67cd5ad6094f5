/** XML documents as finite trees, with the ElementTree searches the modelled code uses. */
module Xml {
  import opened Wrappers

  /** `ns` is "" for a bare tag; `tail` is the text after the element. */
  datatype Element = Element(ns: string, tag: string, attrs: map<string, string>, text: string, tail: string,
                             children: seq<Element>)

  function Node(tag: string, attrs: map<string, string>, children: seq<Element>): Element {
    Element("", tag, attrs, "", "", children)
  }

  function Leaf(ns: string, tag: string, text: string): Element {
    Element(ns, tag, map[], text, "", [])
  }

  /** es.findall("tag"): those elements of es that carry the tag, in order. */
  function Tagged(es: seq<Element>, tag: string): (r: seq<Element>)
    ensures forall e :: e in r <==> e in es && e.tag == tag
  {
    if es == [] then []
    else if es[0].tag == tag then [es[0]] + Tagged(es[1..], tag)
    else Tagged(es[1..], tag)
  }

  /** e.find("tag"). */
  function First(e: Element, tag: string): Option<Element> {
    var found := Tagged(e.children, tag);
    if found == [] then None else Some(found[0])
  }

  /** es and everything below, in document order; Flatten(e.children) is what ".//" searches. */
  function Flatten(es: seq<Element>): seq<Element> {
    if es == [] then [] else [es[0]] + Flatten(es[0].children) + Flatten(es[1..])
  }

  /** x is reached from e by taking child ix[0], then its child ix[1], and so on. */
  predicate Reaches(e: Element, ix: seq<nat>, x: Element)
    decreases |ix|
  {
    if ix == [] then x == e
    else ix[0] < |e.children| && Reaches(e.children[ix[0]], ix[1..], x)
  }

  lemma {:induction false} FlattenAppend(a: seq<Element>, b: seq<Element>)
    ensures Flatten(a + b) == Flatten(a) + Flatten(b)
  {
    if a == [] {
      assert a + b == b;
    } else {
      assert (a + b)[1..] == a[1..] + b;
      FlattenAppend(a[1..], b);
    }
  }

  lemma {:induction false} FlattenContains(es: seq<Element>, k: nat)
    requires k < |es|
    ensures es[k] in Flatten(es)
    ensures forall x :: x in Flatten(es[k].children) ==> x in Flatten(es)
  {
    if k > 0 {
      FlattenContains(es[1..], k - 1);
    }
  }

  /** ".//" finds every element at every depth below e. */
  lemma {:induction false} FlattenFindsEveryDepth(e: Element, ix: seq<nat>, x: Element)
    requires ix != [] && Reaches(e, ix, x)
    ensures x in Flatten(e.children)
    decreases |ix|
  {
    FlattenContains(e.children, ix[0]);
    if |ix| > 1 {
      FlattenFindsEveryDepth(e.children[ix[0]], ix[1..], x);
    }
  }

  /** It finds nothing else. */
  lemma {:induction false} FlattenFindsOnlyDescendants(es: seq<Element>, x: Element) returns (k: nat, ix: seq<nat>)
    requires x in Flatten(es)
    ensures k < |es| && Reaches(es[k], ix, x)
  {
    if x == es[0] {
      k, ix := 0, [];
    } else if x in Flatten(es[0].children) {
      var j, jx := FlattenFindsOnlyDescendants(es[0].children, x);
      k, ix := 0, [j] + jx;
    } else {
      var j, jx := FlattenFindsOnlyDescendants(es[1..], x);
      k, ix := j + 1, jx;
    }
  }
}
