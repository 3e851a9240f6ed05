/** The part of a parsed XML document that the rate limiter reads: an element's
    tag, its attributes and its child elements, with the three ElementTree
    queries the daemon uses (`attrib.get`, `findall('./Tag')`, `find('./Tag')`)
    and the truth value of an element. */
module Xml {
  import opened Wrappers

  datatype Element = Element(tag: string, attrib: map<string, string>, children: seq<Element>)

  /** `attrib.get(key)`: the attribute's value, or None when it is absent. */
  function Get(attrib: map<string, string>, key: string): Option<string>
  {
    if key in attrib then Some(attrib[key]) else None
  }

  /** `attrib.get(key, default)`. */
  function GetOr(attrib: map<string, string>, key: string, default: string): string
  {
    if key in attrib then attrib[key] else default
  }

  /** `bool(element)`: an ElementTree element is true exactly when it has at
      least one child element; its attributes do not matter. */
  predicate IsTruthy(e: Element)
  {
    |e.children| > 0
  }

  /** `findall('./tag')`: the direct children with that tag, in document order. */
  function FindAll(children: seq<Element>, tag: string): (found: seq<Element>)
    ensures |found| <= |children|
    ensures forall e :: e in found <==> e in children && e.tag == tag
  {
    if children == [] then []
    else
      assert children == [children[0]] + children[1..];
      if children[0].tag == tag then [children[0]] + FindAll(children[1..], tag)
      else FindAll(children[1..], tag)
  }

  /** Searching two runs of children one after the other finds the matches of
      the first run, in order, followed by those of the second. */
  lemma {:induction false} FindAllAppend(a: seq<Element>, b: seq<Element>, tag: string)
    ensures FindAll(a + b, tag) == FindAll(a, tag) + FindAll(b, tag)
    decreases |a|
  {
    if a == [] {
      assert a + b == b;
    } else {
      assert (a + b)[0] == a[0];
      assert (a + b)[1..] == a[1..] + b;
      FindAllAppend(a[1..], b, tag);
    }
  }

  /** One child is found once when its tag matches and not at all otherwise. */
  lemma FindAllSingle(e: Element, tag: string)
    ensures FindAll([e], tag) == if e.tag == tag then [e] else []
  {
    assert [e][1..] == [];
  }

  /** `find('./tag')`: the first direct child with that tag, which is the first
      element `findall` would return. */
  function Find(children: seq<Element>, tag: string): (first: Option<Element>)
    ensures first.None? <==> FindAll(children, tag) == []
    ensures first.Some? ==> first.value == FindAll(children, tag)[0]
  {
    if children == [] then None
    else if children[0].tag == tag then Some(children[0])
    else Find(children[1..], tag)
  }
}
