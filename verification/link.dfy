/** The two URL templates: the preview ("probe") URL fetched to look for the
    warning, and the download link, which is token-qualified when a truthy
    token was found and otherwise the plain export URL. */
module Link {

  import opened Wrappers
  import opened Text

  const PlainPrefix := "https://drive.google.com/uc?export=download&id="
  const ConfirmPrefix := "https://drive.usercontent.google.com/download?id="
  const ConfirmInfix := "&export=download&authuser=0&confirm=t&uuid="

  /** The preview page URL built once from the identifier. */
  function ProbeUrl(id: string): (u: string)
    ensures PlainPrefix <= u && u[|PlainPrefix|..] == id
  {
    PlainPrefix + id
  }

  /** Python truthiness of the optional token: `None` and `""` are false. */
  predicate Truthy(token: Option<string>) {
    token.Some? && token.value != ""
  }

  /** The link `download` builds from the identifier and the optional token. */
  function DownloadLink(id: string, token: Option<string>): (link: string)
    ensures Truthy(token) ==> link == ConfirmPrefix + id + ConfirmInfix + token.value
    ensures !Truthy(token) ==> link == ProbeUrl(id)
  {
    match token
    case Some(uuid) =>
      if uuid != "" then ConfirmPrefix + id + ConfirmInfix + uuid
      else PlainPrefix + id
    case None => PlainPrefix + id
  }

  /** What a download link carries: the identifier and, for the token-qualified
      shape, the token. */
  datatype LinkParts = LinkParts(id: string, token: Option<string>)

  /** Read a download link back into its parts; `None` for any string that is
      not one of the two shapes. The identifier of a token-qualified link ends
      at the first `&`. */
  function ParseLink(link: string): Option<LinkParts> {
    if PlainPrefix <= link then
      Some(LinkParts(link[|PlainPrefix|..], None))
    else if ConfirmPrefix <= link then
      var rest := link[|ConfirmPrefix|..];
      match IndexOf(rest, '&')
      case None => None
      case Some(k) =>
        var tail := rest[k..];
        if ConfirmInfix <= tail && |tail| > |ConfirmInfix| then
          Some(LinkParts(rest[..k], Some(tail[|ConfirmInfix|..])))
        else
          None
    else
      None
  }

  /** The token the link actually uses: a falsy token counts as none. */
  function Effective(token: Option<string>): (t: Option<string>)
    ensures t.Some? <==> Truthy(token)
    ensures t.Some? ==> t == token
  {
    if Truthy(token) then token else None
  }

  /** The two shapes never coincide: they differ at the host name. */
  lemma ShapesDiffer(id: string, token: Option<string>, id': string)
    requires Truthy(token)
    ensures DownloadLink(id, token) != DownloadLink(id', None)
  {
    var a := DownloadLink(id, token);
    assert a[14] == ConfirmPrefix[14] == 'u';
    assert ProbeUrl(id')[14] == PlainPrefix[14] == 'g';
  }

  /** A string that starts with the confirm prefix does not start with the
      plain prefix: the host names differ at index 14. */
  lemma ConfirmIsNotPlain(link: string)
    requires ConfirmPrefix <= link
    ensures !(PlainPrefix <= link)
  {
    assert link[14] == ConfirmPrefix[14] == 'u';
    assert PlainPrefix[14] == 'g';
  }

  /** The part of a token-qualified link after the confirm prefix splits at
      the first `&` into the identifier and the infix followed by the token. */
  lemma SplitConfirmRest(id: string, uuid: string, rest: string)
    requires '&' !in id
    requires rest == id + (ConfirmInfix + uuid)
    ensures IndexOf(rest, '&') == Some(|id|)
    ensures rest[..|id|] == id && rest[|id|..] == ConfirmInfix + uuid
  {
    IndexOfAfterPrefix(id, ConfirmInfix + uuid, '&');
  }

  /** A token-qualified link parses back into its identifier and token. */
  lemma ParseConfirmLink(id: string, uuid: string)
    requires '&' !in id
    requires uuid != ""
    ensures ParseLink(ConfirmPrefix + id + ConfirmInfix + uuid) == Some(LinkParts(id, Some(uuid)))
  {
    var link := ConfirmPrefix + id + ConfirmInfix + uuid;
    assert ConfirmPrefix <= link;
    ConfirmIsNotPlain(link);
    var rest := link[|ConfirmPrefix|..];
    assert rest == id + (ConfirmInfix + uuid);
    SplitConfirmRest(id, uuid, rest);
  }

  /** Parsing recovers the identifier and the effective token from every link
      whose identifier has no `&`. */
  lemma ParseBuiltLink(id: string, token: Option<string>)
    requires '&' !in id
    ensures ParseLink(DownloadLink(id, token)) == Some(LinkParts(id, Effective(token)))
  {
    if Truthy(token) {
      ParseConfirmLink(id, token.value);
    } else {
      assert DownloadLink(id, token) == PlainPrefix + id;
    }
  }

  /** Conversely, every string that parses is exactly the link built from its
      parts, so `ParseLink` accepts nothing but download links. */
  lemma ParsedLinkRebuilds(link: string, parts: LinkParts)
    requires ParseLink(link) == Some(parts)
    ensures DownloadLink(parts.id, parts.token) == link
  {
    if PlainPrefix <= link {
      assert link == PlainPrefix + link[|PlainPrefix|..];
    } else {
      assert ConfirmPrefix <= link;
      var rest := link[|ConfirmPrefix|..];
      var k := IndexOf(rest, '&').value;
      var tail := rest[k..];
      assert ConfirmInfix <= tail && |tail| > |ConfirmInfix|;
      var uuid := tail[|ConfirmInfix|..];
      assert parts == LinkParts(rest[..k], Some(uuid));
      RebuildAround(link, ConfirmPrefix, rest, k, ConfirmInfix, uuid);
    }
  }

  /** A string that starts with `prefix` and whose remainder has `infix + uuid`
      from position `k` on is `prefix`, the first `k` characters of the
      remainder, `infix` and `uuid`, in that order. */
  lemma RebuildAround(link: string, prefix: string, rest: string, k: nat, infix: string, uuid: string)
    requires prefix <= link && rest == link[|prefix|..]
    requires k <= |rest| && rest[k..] == infix + uuid
    ensures link == prefix + rest[..k] + infix + uuid
  {
    assert link == prefix + rest;
    assert rest == rest[..k] + rest[k..];
  }

  /** Two links with `&`-free identifiers are equal only when they carry the
      same identifier and the same effective token. */
  lemma DownloadLinkInjective(id1: string, t1: Option<string>, id2: string, t2: Option<string>)
    requires '&' !in id1 && '&' !in id2
    requires DownloadLink(id1, t1) == DownloadLink(id2, t2)
    ensures id1 == id2 && Effective(t1) == Effective(t2)
  {
    ParseBuiltLink(id1, t1);
    ParseBuiltLink(id2, t2);
  }
}
