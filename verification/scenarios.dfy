/** Concrete cases of the model on small pages, stated as lemmas. */
module Scenarios {

  import opened Wrappers
  import opened Text
  import opened Page
  import opened Probe
  import opened Link
  import opened Metadata
  import opened Program

  /** A page without any warning: the plain link. */
  lemma NoWarningGivesPlainLink()
    ensures var page := [Element("p", {"note"}, None, None, WarningPhrase)];
            GetUuid(page) == Success(None)
            && DownloadLink("abc123", GetUuid(page).value) == "https://drive.google.com/uc?export=download&id=abc123"
  {
  }

  /** A page with the warning and a `uuid` input: the token-qualified link. */
  lemma WarningGivesConfirmLink()
    ensures var caption := Element("p", {"uc-warning-caption"}, None, None, "Sorry. " + WarningPhrase + ".");
            var input := Element("input", {}, Some("uuid"), Some("tok-7"), "");
            var page := [caption, input];
            GetUuid(page) == Success(Some("tok-7"))
            && DownloadLink("big999", GetUuid(page).value)
               == ConfirmPrefix + "big999" + ConfirmInfix + "tok-7"
  {
    var caption := Element("p", {"uc-warning-caption"}, None, None, "Sorry. " + WarningPhrase + ".");
    var input := Element("input", {}, Some("uuid"), Some("tok-7"), "");
    var page := [caption, input];
    ContainsInfix("Sorry. ", WarningPhrase, ".");
    assert IsFirst(page, WarningCaption, 0);
    assert IsFirst(page, UuidInput, 1);
    assert WarningShown(page);
    WarningYieldsFirstInputValue(page, 1, "tok-7");
    assert GetUuid(page).value == Some("tok-7");
  }

  /** An empty token is falsy, so the plain link is used. */
  lemma EmptyTokenGivesPlainLink(id: string)
    ensures DownloadLink(id, Some("")) == ProbeUrl(id)
  {
  }

  /** Without `auto` nothing is written, whether or not a token was found. */
  lemma ManualRunWritesNothing(id: string, verbose: bool, responses: Responses)
    ensures var run := Main(id, false, verbose, responses);
            forall k :: 0 <= k < |run.effects| ==> !run.effects[k].WriteFile?
  {
  }

  /** An empty title is kept as the filename, and `open("", "wb")` then
      fails: the file is fetched but nothing is written. */
  lemma EmptyTitleFailsWrite(id: string, verbose: bool, page: seq<Element>, body: Bytes)
    requires GetUuid(page).Success?
    ensures var run := Main(id, true, verbose, Responses(page, map[TitleKey := ""], body));
            && run.exit == WriteFailed("")
            && Quiet(run.effects) == [Get(ProbeRequest(id)), Get(MetadataRequest(id)),
                                      Get(FileRequest(DownloadLink(id, GetUuid(page).value)))]
  {
    MainTrace(id, true, verbose, Responses(page, map[TitleKey := ""], body));
  }

  /** A title of `.` names the current directory: the file is fetched, the
      write fails, and nothing is written. */
  lemma DotTitleFailsWrite(id: string, verbose: bool, page: seq<Element>, body: Bytes)
    requires GetUuid(page).Success?
    ensures var run := Main(id, true, verbose, Responses(page, map[TitleKey := "."], body));
            && run.exit == WriteFailed(".")
            && Quiet(run.effects) == [Get(ProbeRequest(id)), Get(MetadataRequest(id)),
                                      Get(FileRequest(DownloadLink(id, GetUuid(page).value)))]
  {
    PlainNameOpenable(".");
    MainTrace(id, true, verbose, Responses(page, map[TitleKey := "."], body));
  }
}
