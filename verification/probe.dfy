/** The warning-page token decision of `get_uuid`: given the parsed preview
    page, decide whether the virus-scan warning is shown and, if so, extract
    the confirmation token from the page's `uuid` input. */
module Probe {

  import opened Wrappers
  import opened Text
  import opened Page

  /** The paragraph that carries the warning banner. */
  const WarningCaption := TagWithClass("p", "uc-warning-caption")

  /** The input field that carries the confirmation token. */
  const UuidInput := TagWithName("input", "uuid")

  /** The diagnostic phrase the warning paragraph's text must contain. */
  const WarningPhrase := "Google Drive has detected issues with your download"

  /** Reading the `value` attribute of an element that has none raises;
      this is the one failure of the decision. */
  datatype ProbeError = MissingAttribute(attribute: string)

  /** The four ways the decision can end, one per branch of the source. */
  datatype Outcome =
    | NoWarning
    | UuidNotFound
    | UuidFound(uuid: string)
    | ValueMissing

  /** What `get_uuid` returns on each branch: the token, `None`, or the raised error. */
  function Token(o: Outcome): (r: Result<Option<string>, ProbeError>)
    ensures r.Success? && r.value.Some? <==> o.UuidFound?
    ensures o.UuidFound? ==> r == Success(Some(o.uuid))
    ensures r.Failure? <==> o.ValueMissing?
  {
    match o
    case NoWarning => Success(None)
    case UuidNotFound => Success(None)
    case UuidFound(v) => Success(Some(v))
    case ValueMissing => Failure(MissingAttribute("value"))
  }

  /** The debug lines `get_uuid` emits on each branch (none when it raises
      before reaching its log call). */
  function Messages(o: Outcome): (m: seq<string>)
    ensures |m| <= 1
    ensures o.ValueMissing? <==> m == []
  {
    match o
    case NoWarning => ["No download warning found, proceeding without UUID."]
    case UuidNotFound => ["UUID not found."]
    case UuidFound(v) => ["UUID found: " + v]
    case ValueMissing => []
  }

  /** The warning is shown: the FIRST warning paragraph exists and its text
      contains the phrase. */
  ghost predicate WarningShown(page: seq<Element>) {
    exists i :: IsFirst(page, WarningCaption, i) && Contains(page[i].text, WarningPhrase)
  }

  /** An independent statement of which outcome a page leads to, phrased with
      positions in the document instead of with the search functions. */
  ghost predicate ProbeSpec(page: seq<Element>, o: Outcome) {
    match o
    case NoWarning => !WarningShown(page)
    case UuidNotFound => WarningShown(page) && NoMatch(page, UuidInput)
    case UuidFound(v) =>
      WarningShown(page) && exists j :: IsFirst(page, UuidInput, j) && page[j].value == Some(v)
    case ValueMissing =>
      WarningShown(page) && exists j :: IsFirst(page, UuidInput, j) && page[j].value.None?
  }

  /** The decision as `get_uuid` makes it, on the search results. */
  function Decide(page: seq<Element>): (o: Outcome)
    ensures o.NoWarning? <==> !WarningShown(page)
  {
    match Find(page, WarningCaption)
    case Some(caption) =>
      if Contains(caption.text, WarningPhrase) then
        match Find(page, UuidInput)
        case None => UuidNotFound
        case Some(input) =>
          match input.value
          case Some(v) => UuidFound(v)
          case None => ValueMissing
      else
        NoWarning
    case None => NoWarning
  }

  /** `get_uuid`'s return value for a page: `None` unless the warning is
      shown; with the warning, `None` when the page has no `uuid` input, and
      otherwise the first such input's `value`, or the missing-attribute error
      when it has none. */
  function GetUuid(page: seq<Element>): (r: Result<Option<string>, ProbeError>)
    ensures !WarningShown(page) ==> r == Success(None)
    ensures WarningShown(page) && NoMatch(page, UuidInput) ==> r == Success(None)
    ensures forall j :: WarningShown(page) && IsFirst(page, UuidInput, j) ==>
              r == match page[j].value
                   case Some(v) => Success(Some(v))
                   case None => Failure(MissingAttribute("value"))
  {
    Token(Decide(page))
  }

  /** `Decide`'s outcome satisfies the position-based statement on every page. */
  lemma DecideMeetsSpec(page: seq<Element>)
    ensures ProbeSpec(page, Decide(page))
  {
  }

  /** The position-based statement admits only `Decide`'s outcome, so the two
      agree exactly. */
  lemma ProbeSpecDeterminesOutcome(page: seq<Element>, o: Outcome)
    requires ProbeSpec(page, o)
    ensures o == Decide(page)
  {
  }

  /** Without any warning paragraph there is no token, whatever else the page holds. */
  lemma NoCaptionNoToken(page: seq<Element>)
    requires NoMatch(page, WarningCaption)
    ensures GetUuid(page) == Success(None)
  {
  }

  /** Only the first warning paragraph is examined: when it lacks the phrase
      there is no token, even if a later paragraph of the same class has it. */
  lemma OnlyFirstCaptionCounts(pre: seq<Element>, caption: Element, post: seq<Element>)
    requires NoMatch(pre, WarningCaption)
    requires WarningCaption.Matches(caption)
    requires !Contains(caption.text, WarningPhrase)
    ensures GetUuid(pre + [caption] + post) == Success(None)
  {
    FindIgnoresLaterElements(pre, caption, post, WarningCaption);
  }

  /** With the warning shown, the token is the value of the first `uuid`
      input anywhere in the document, before or after the warning, inside
      any form or none. */
  lemma WarningYieldsFirstInputValue(page: seq<Element>, j: int, v: string)
    requires WarningShown(page)
    requires IsFirst(page, UuidInput, j)
    requires page[j].value == Some(v)
    ensures GetUuid(page) == Success(Some(v))
  {
  }

  /** With the warning shown but no `uuid` input, there is no token. */
  lemma WarningWithoutInputNoToken(page: seq<Element>)
    requires WarningShown(page)
    requires NoMatch(page, UuidInput)
    ensures GetUuid(page) == Success(None)
  {
  }

  /** With the warning shown and a first `uuid` input that has no `value`
      attribute, reading the attribute fails. */
  lemma WarningWithValuelessInputFails(page: seq<Element>, j: int)
    requires WarningShown(page)
    requires IsFirst(page, UuidInput, j)
    requires page[j].value.None?
    ensures GetUuid(page) == Failure(MissingAttribute("value"))
  {
  }

  /** `get_uuid` step by step: two document-order scans and a substring
      test. It reaches the same outcome as `Decide` on every page. */
  method ProbePage(page: seq<Element>) returns (o: Outcome)
    ensures ProbeSpec(page, o)
    ensures o == Decide(page)
  {
    var c := Scan(page, WarningCaption);
    var shown := false;
    if c.Some? {
      shown := Search(page[c.value].text, WarningPhrase);
    }
    if !shown {
      o := NoWarning;
    } else {
      var u := Scan(page, UuidInput);
      if u.None? {
        o := UuidNotFound;
      } else if page[u.value].value.Some? {
        o := UuidFound(page[u.value].value.value);
      } else {
        o := ValueMissing;
      }
    }
    DecideMeetsSpec(page);
  }
}
