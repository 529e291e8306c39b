/** Filename resolution (`get_filename`): the metadata request and the
    `title` lookup with its fixed fallback. The decoded JSON object is a
    string-keyed map. */
module Metadata {

  import opened Wrappers

  type JsonObject = map<string, string>

  const TitleKey := "title"
  const FallbackFilename := "downloaded_file"
  const ApiBase := "https://www.googleapis.com/drive/v2/files/"

  /** `dict.get(key)`: the entry when the key is present. */
  function Lookup(m: JsonObject, key: string): (r: Option<string>)
    ensures r.Some? <==> key in m
    ensures r.Some? ==> r.value == m[key]
  {
    if key in m then Some(m[key]) else None
  }

  /** The local filename: the `title` entry verbatim whenever the key exists,
      the empty string included; the fallback only when the key is absent. */
  function Filename(metadata: JsonObject): (name: string)
    ensures TitleKey in metadata ==> name == metadata[TitleKey]
    ensures TitleKey !in metadata ==> name == FallbackFilename
  {
    Lookup(metadata, TitleKey).GetOr(FallbackFilename)
  }

  /** The filename depends on the `title` entry and on nothing else in the object. */
  lemma FilenameOnlyReadsTitle(m1: JsonObject, m2: JsonObject)
    requires TitleKey in m1 <==> TitleKey in m2
    requires TitleKey in m1 ==> m1[TitleKey] == m2[TitleKey]
    ensures Filename(m1) == Filename(m2)
  {
  }

  /** An empty title is kept as the (empty) filename; it does not fall back. */
  lemma EmptyTitleIsKept()
    ensures Filename(map[TitleKey := ""]) == ""
  {
  }

  /** The metadata URL as the source writes it: a plain string literal, not an
      f-string, so the placeholder `{id}` stays in the path verbatim. */
  function ApiUrlAsWritten(id: string): (u: string)
    ensures ApiBase <= u
  {
    ApiBase + "{id}"
  }

  /** As written, the URL never names the requested file: two different
      identifiers produce the same request. */
  lemma ApiUrlAsWrittenIgnoresId(id1: string, id2: string)
    ensures ApiUrlAsWritten(id1) == ApiUrlAsWritten(id2)
    ensures ApiUrlAsWritten("abc123")[|ApiBase|..] != "abc123"
  {
  }

  /** The metadata URL as intended: the identifier is the last path segment. */
  function ApiUrl(id: string): (u: string)
    ensures ApiBase <= u && u[|ApiBase|..] == id
  {
    ApiBase + id
  }

  /** Corrected, distinct identifiers ask for distinct files. */
  lemma ApiUrlInjective(id1: string, id2: string)
    requires ApiUrl(id1) == ApiUrl(id2)
    ensures id1 == id2
  {
  }
}
