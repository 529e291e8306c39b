# reversedrive, modelled in Dafny

reversedrive works on a Google Drive file identifier. It fetches the file's
preview page and looks for the warning paragraph whose text says "Google Drive
has detected issues with your download". When that warning is shown, it reads
the confirmation token (`uuid`) from the page. Only with `--auto` does it go on:
it requests a `title` from the Drive metadata API (as written, for the literal
path `{id}` rather than the file's identifier; see Findings), builds the
download link, fetches it, and writes the body under the resolved name
(`downloaded_file` when the response has no `title`). The link is token-qualified when
a non-empty token was found and the plain export URL otherwise. Without
`--auto` the script builds no link and writes nothing; with `--verbose` it only
logs what it found about the token.

This project models the decision logic of `reversedrive.py` as pure functions
and proves properties of it. The HTTP responses are inputs to the model.

- `Page` (page.dfy): the parsed page as a sequence of elements in document
  order. BeautifulSoup's `find` is modelled as "first matching element".
- `Probe` (probe.dfy): `get_uuid`. BeautifulSoup treats every found element
  as true, so `if warning_text` and `if uuid_input` only test whether `find`
  found an element. There are four outcomes: no warning, no
  `uuid` input, token found, and `value` attribute missing (the source raises
  `KeyError`). The model states them in two ways: once through the search
  functions and once as a position-based specification. It proves that the two
  agree.
- `Link` (link.dfy): the probe URL and the two download-link templates, chosen
  by Python truthiness of the token. It also gives a parser that reads a link
  back into identifier and token, with round trips proved in both directions.
- `Metadata` (metadata.dfy): the `title` lookup with the `"downloaded_file"`
  fallback, and the metadata URL (see Findings).
- `Program` (program.dfy): the main block as an ordered trace of effects: GET
  requests, the file write, and debug lines when verbose. The three responses
  are inputs.
- `Text` (text.dfy): substring search, the meaning of Python's `in` on strings.
- `Scenarios` (scenarios.dfy): concrete cases on small pages, stated as lemmas.

The code keeps an empty `title` as the filename (`dict.get` returns `""`); see
`Metadata.EmptyTitleIsKept`. Opening the empty name for writing then raises, so
such a run fetches the file but writes nothing; see
`Scenarios.EmptyTitleFailsWrite`. A title of `.` fails the same way; see
`Scenarios.DotTitleFailsWrite`.

## Model

| member | source | states |
|---|---|---|
| Text.Search | reversedrive.py:31 | the scan answers true exactly when the warning phrase occurs somewhere in the caption text, as Python's substring `in` does |
| Page.FindIndex | reversedrive.py:30 | the result is the position of an element the query matches with no match before it, and is `None` exactly when no element matches |
| Page.Find | reversedrive.py:30-32 | `soup.find` returns the element at the first matching position, and `None` exactly when nothing in the document matches |
| Page.FindIgnoresLaterElements | reversedrive.py:30 | once a matching element is preceded only by non-matching ones, whatever follows it cannot change what `find` returns |
| Page.Scan | reversedrive.py:30 | a left-to-right scan stopping at the first match returns the same position as the first-match definition on every page |
| Probe.Token | reversedrive.py:26-41 | `get_uuid` yields a token exactly on the token-found branch, and fails exactly when the `uuid` input has no `value` attribute |
| Probe.Messages | reversedrive.py:35-39 | each non-raising branch logs exactly one line; only the branch that raises on the missing attribute logs nothing |
| Probe.GetUuid | reversedrive.py:25-41 | `None` unless the warning is shown; with it, `None` when no `uuid` input exists, else the first such input's `value`, or the missing-attribute error when it has none |
| Probe.Decide | reversedrive.py:25-41 | the decision ends in "no warning" exactly when the first warning paragraph is missing or lacks the phrase |
| Probe.DecideMeetsSpec | reversedrive.py:30-41 | the decision meets the position-based statement: first caption with the phrase, then first `uuid` input and its `value` |
| Probe.ProbeSpecDeterminesOutcome | reversedrive.py:30-41 | the position-based statement allows one outcome only, so it and the decision agree on every page |
| Probe.NoCaptionNoToken | reversedrive.py:30-39 | a page with no `p.uc-warning-caption` yields `None`, whatever else it contains |
| Probe.OnlyFirstCaptionCounts | reversedrive.py:30-39 | when the first warning paragraph lacks the phrase the result is `None`, even if a later paragraph of that class has it |
| Probe.WarningYieldsFirstInputValue | reversedrive.py:31-34 | with the warning shown, the token is the `value` of the first `uuid` input anywhere in the document, before or after the caption |
| Probe.WarningWithoutInputNoToken | reversedrive.py:31-37 | with the warning shown and no `uuid` input in the document, the result is `None` |
| Probe.WarningWithValuelessInputFails | reversedrive.py:32-34 | with the warning shown and a first `uuid` input lacking `value`, reading the token fails with a missing-attribute error |
| Probe.ProbePage | reversedrive.py:25-41 | a step-by-step execution (two scans and a substring search) reaches the outcome the position-based statement prescribes |
| Link.ProbeUrl | reversedrive.py:19 | the probe URL is the export endpoint prefix followed by the identifier, which can be read back from it |
| Link.DownloadLink | reversedrive.py:63-66 | a truthy token gives the usercontent template with `confirm=t&uuid=<token>`; `None` or `""` gives exactly the probe URL |
| Link.Effective | reversedrive.py:63 | the token a link uses is present exactly when the token is truthy, and then it is the token unchanged |
| Link.ShapesDiffer | reversedrive.py:63-66 | a token-qualified link never equals a plain link, whatever the identifiers |
| Link.ParseConfirmLink | reversedrive.py:64 | a token-qualified link parses back into its identifier and its non-empty token |
| Link.ParseBuiltLink | reversedrive.py:63-66 | parsing any built link recovers the identifier and the effective token |
| Link.ParsedLinkRebuilds | reversedrive.py:63-66 | every string the parser accepts is exactly the link built from the parts it returns |
| Link.DownloadLinkInjective | reversedrive.py:63-66 | two links are equal only for the same identifier and the same effective token |
| Metadata.Lookup | reversedrive.py:56 | `dict.get` finds an entry exactly when the key is present, and then it is the stored value |
| Metadata.Filename | reversedrive.py:56 | the filename is the `title` entry verbatim whenever the key exists, and `"downloaded_file"` when it is absent |
| Metadata.FilenameOnlyReadsTitle | reversedrive.py:56 | two metadata objects that agree on `title` give the same filename |
| Metadata.EmptyTitleIsKept | reversedrive.py:56 | an empty title is returned as the filename; it does not fall back (the write then fails, see `Scenarios.EmptyTitleFailsWrite`) |
| Metadata.ApiUrlAsWritten | reversedrive.py:44 | the metadata URL as written begins with the files endpoint |
| Metadata.ApiUrlAsWrittenIgnoresId | reversedrive.py:44 | as written, any two identifiers give the same URL, and the URL for `abc123` does not end in the identifier |
| Metadata.ApiUrl | reversedrive.py:44 | the corrected URL is the files endpoint followed by the identifier |
| Metadata.ApiUrlInjective | reversedrive.py:44 | with the correction, distinct identifiers ask for distinct metadata URLs |
| Program.Log | reversedrive.py:21-23 | when verbose, each message becomes one debug line in order; when quiet, nothing is emitted |
| Program.LogLines | reversedrive.py:21-23 | logging adds nothing but debug lines, and their texts are exactly the messages when verbose |
| Program.Download | reversedrive.py:59-71 | `download` logs the link first when verbose, then fetches the link built from the token, then writes the body under the name unless `open` rejects the name whatever the file system holds |
| Program.PlainNameOpenable | reversedrive.py:70 | a name without `/` or NUL can be opened exactly when it is not empty, `.` or `..` |
| Program.DirectoryPathsUnopenable | reversedrive.py:70 | names ending in `/`, `/.` or `/..` are never opened for writing, whatever precedes the ending |
| Program.Main | reversedrive.py:73-76 | every run starts with the preview request; it raises exactly when reading the token fails, and its write fails exactly when, with `auto` and a readable token, the resolved name holds a NUL or has an empty, `.` or `..` last component |
| Program.MainTrace | reversedrive.py:73-76 | the run's requests and writes are: preview; then, only with `auto` and a readable token, metadata, the link built from that token, and the write of the body under the resolved name unless that name holds a NUL or has an empty, `.` or `..` last component |
| Program.ManualRunOnlyProbes | reversedrive.py:74-76 | without `auto`, a run holds only the preview request and debug lines: no link fetched, no file written |
| Program.MainDebugLines | reversedrive.py:73-76 | a verbose run logs the probe branch's message and then, if a download happens, the link; a quiet run logs nothing |
| Program.VerboseOnlyAddsDebugLines | reversedrive.py:21-23 | verbosity changes neither the requests and writes nor the exit of a run |
| Scenarios.NoWarningGivesPlainLink | reversedrive.py:63-66 | identifier `abc123` with no warning caption gives `https://drive.google.com/uc?export=download&id=abc123` |
| Scenarios.WarningGivesConfirmLink | reversedrive.py:30-34 | identifier `big999` with the warning and a `uuid` input `tok-7` gives the token-qualified link carrying `tok-7` |
| Scenarios.EmptyTokenGivesPlainLink | reversedrive.py:63-66 | an empty token is falsy and gives the plain link |
| Scenarios.ManualRunWritesNothing | reversedrive.py:75-76 | without `auto` no file is written, whatever the page holds |
| Scenarios.DotTitleFailsWrite | reversedrive.py:56-71 | with `auto` and `{"title": "."}`, the file is fetched, nothing is written, and the run ends with the write failure for `.` |
| Scenarios.EmptyTitleFailsWrite | reversedrive.py:56-71 | with `auto` and `{"title": ""}`, the file is fetched, nothing is written, and the run ends with the write failure for `""` |

## Left out

- Argument parsing and module globals (reversedrive.py:6-18): `id`, `auto` and `verbose` are parameters of `Program.Main`.
- The ANSI colouring of `debug_log` (reversedrive.py:23): debug output is modelled as message texts only.
- HTTP (reversedrive.py:27, 53, 68): the three responses are inputs (`Program.Responses`). Requests are recorded as URL, query parameters and `Referer`. Redirects, status codes and transport errors are not modelled.
- HTML parsing (reversedrive.py:28): the page is given as its elements. An element's `.text` is a given string. A `class_` query is modelled as matching one class of the element; BeautifulSoup also matches the whole class attribute string, which is not modelled.
- JSON decoding (reversedrive.py:54): the metadata object is a map from strings to strings. Decode errors, non-object bodies and non-string titles are not modelled.
- Writing the file (reversedrive.py:70-71): modelled as one `WriteFile` effect carrying the body unchanged. The model includes the names `open` rejects on a POSIX system whatever the file system holds: names holding a NUL character, and names whose last path component is empty, `.` or `..`. That covers `""`, `.`, `..` and a trailing `/`. Errors that depend on the file system are not modelled: a missing or non-directory parent, an existing directory of that name, permissions, a full disk, a component longer than the file system allows. Whole paths of `PATH_MAX` bytes or more (4096 on Linux), which the kernel refuses with `ENAMETOOLONG` before it consults any file system, are not modelled, because the model's names are characters and not encoded bytes. Windows naming rules are not modelled either.
- Link.ParseBuiltLink: the round trip is stated only for identifiers without `&`, because a token-qualified link's identifier ends at its first `&`. Drive identifiers use letters, digits, `-` and `_`.
- Link.DownloadLinkInjective: stated only for identifiers without `&`, for the same reason.
- Link.ParseConfirmLink: stated only for identifiers without `&`, for the same reason.
- Program.Main: the metadata request uses the corrected URL `Metadata.ApiUrl`, not the as-written one (see Findings).
- Program.MainTrace: the metadata request it lists is to the corrected URL `.../files/<id>`. The code as written requests `.../files/{id}` (see Findings). The same holds for `Scenarios.EmptyTitleFailsWrite` and `Scenarios.DotTitleFailsWrite`.
- Scenarios.WarningGivesConfirmLink: the expected link is written as the template constants around `big999` and `tok-7`, not as one string literal.

## Findings

| source | as written | input that shows it | evidently intended | confidence | as-written member | corrected member |
|---|---|---|---|---|---|---|
| reversedrive.py:44 | `apiUrl` is a plain string, not an f-string, so the path ends in the literal `{id}` | any identifier, e.g. `abc123`: the request is for `.../drive/v2/files/{id}` | `.../drive/v2/files/abc123`, the file being downloaded | high, not executed | Metadata.ApiUrlAsWrittenIgnoresId | Metadata.ApiUrlInjective |
