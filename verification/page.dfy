/** The parsed preview page, reduced to what the token decision looks at: the
    elements of the document in document order, and the first-match search
    that BeautifulSoup's `find` performs over them. */
module Page {

  import opened Wrappers

  /** One element of the parsed document. `name` and `value` are the element's
      attributes of those names when present; `text` is its text content. */
  datatype Element = Element(
    tag: string,
    classes: set<string>,
    name: Option<string>,
    value: Option<string>,
    text: string)

  /** The two kinds of query made on the page: a tag carrying a given CSS class,
      and a tag whose `name` attribute has a given value. */
  datatype Selector =
    | TagWithClass(tag: string, cls: string)
    | TagWithName(tag: string, nameValue: string)
  {
    predicate Matches(e: Element) {
      match this
      case TagWithClass(t, c) => e.tag == t && c in e.classes
      case TagWithName(t, n) => e.tag == t && e.name == Some(n)
    }
  }

  /** `i` is the position of the first element of `page` that `sel` matches. */
  ghost predicate IsFirst(page: seq<Element>, sel: Selector, i: int) {
    && 0 <= i < |page|
    && sel.Matches(page[i])
    && forall j :: 0 <= j < i ==> !sel.Matches(page[j])
  }

  /** No element of `page` matches `sel`. */
  ghost predicate NoMatch(page: seq<Element>, sel: Selector) {
    forall j :: 0 <= j < |page| ==> !sel.Matches(page[j])
  }

  /** At most one position can be the first match. */
  lemma FirstIsUnique(page: seq<Element>, sel: Selector, i: int, k: int)
    requires IsFirst(page, sel, i) && IsFirst(page, sel, k)
    ensures i == k
  {
  }

  /** Position of the first element matching `sel`, in document order. */
  function FindIndex(page: seq<Element>, sel: Selector): (r: Option<nat>)
    ensures r.Some? ==> IsFirst(page, sel, r.value)
    ensures r.None? <==> NoMatch(page, sel)
  {
    if |page| == 0 then None
    else if sel.Matches(page[0]) then Some(0)
    else
      match FindIndex(page[1..], sel)
      case None => None
      case Some(k) =>
        assert page[1..][k] == page[k + 1];
        Some(k + 1)
  }

  /** `soup.find(...)`: the first matching element, or `None`. */
  function Find(page: seq<Element>, sel: Selector): (r: Option<Element>)
    ensures r.None? <==> NoMatch(page, sel)
    ensures r.Some? ==> exists i :: IsFirst(page, sel, i) && page[i] == r.value
  {
    match FindIndex(page, sel)
    case None => None
    case Some(i) => Some(page[i])
  }

  /** The first match is found wherever it sits: elements after it, matching or
      not, never change the answer. */
  lemma {:induction false} FindIgnoresLaterElements(pre: seq<Element>, e: Element, post: seq<Element>, sel: Selector)
    requires NoMatch(pre, sel)
    requires sel.Matches(e)
    ensures Find(pre + [e] + post, sel) == Some(e)
  {
    var page := pre + [e] + post;
    assert page[|pre|] == e;
    assert forall j :: 0 <= j < |pre| ==> page[j] == pre[j];
    assert IsFirst(page, sel, |pre|);
    var r := FindIndex(page, sel);
    assert r.Some?;
    FirstIsUnique(page, sel, r.value, |pre|);
  }

  /** A left-to-right scan for the first match; it returns the same position
      as `FindIndex` on every page. */
  method Scan(page: seq<Element>, sel: Selector) returns (r: Option<nat>)
    ensures r == FindIndex(page, sel)
  {
    var i := 0;
    while i < |page|
      invariant 0 <= i <= |page|
      invariant forall j :: 0 <= j < i ==> !sel.Matches(page[j])
    {
      if sel.Matches(page[i]) {
        assert IsFirst(page, sel, i);
        ghost var f := FindIndex(page, sel);
        FirstIsUnique(page, sel, f.value, i);
        return Some(i);
      }
      i := i + 1;
    }
    return None;
  }
}
