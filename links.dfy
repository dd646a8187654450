/**
 * Link normalisation of the generator: the requested link is stripped, an
 * empty result means "no link", and a link that does not already start with
 * `http://` or `https://` (in any case) gets `https://` in front.
 */
module Links {
  import opened Text
  import opened Json
  import opened Wrappers

  const HttpPrefix: string := "http://"
  const HttpsPrefix: string := "https://"

  /** `link.lower()` starts with `http://` or `https://`. */
  predicate HasWebScheme(link: string)
  {
    StartsWith(Lower(link), HttpPrefix) || StartsWith(Lower(link), HttpsPrefix)
  }

  /** A trimmed, non-empty text with `https://` in front passes the scheme test and is still trimmed. */
  lemma HttpsPrefixHasScheme(t: string)
    requires t != "" && Trimmed(t)
    ensures HasWebScheme(HttpsPrefix + t) && Trimmed(HttpsPrefix + t)
  {
    var u := HttpsPrefix + t;
    LowerConcat(HttpsPrefix, t);
    assert Lower(HttpsPrefix) == HttpsPrefix;
    assert Lower(u)[..|HttpsPrefix|] == HttpsPrefix;
    assert u[0] == 'h' && u[|u| - 1] == t[|t| - 1];
  }

  /** `_normalize_link` applied to a string. */
  function Normalize(link: string): (r: string)
    ensures r == "" <==> AllSpace(link)
    ensures r != "" ==> HasWebScheme(r) && Trimmed(r)
  {
    var t := Strip(link);
    if t == "" then ""
    else if HasWebScheme(t) then t
    else
      HttpsPrefixHasScheme(t);
      HttpsPrefix + t
  }

  /**
   * A stripped link that already carries a web scheme, in any case, is kept
   * verbatim; any other non-blank link gets exactly `https://` in front of
   * its stripped text.
   */
  lemma NormalizeScheme(link: string)
    ensures HasWebScheme(Strip(link)) ==> Normalize(link) == Strip(link)
    ensures Strip(link) != "" && !HasWebScheme(Strip(link)) ==> Normalize(link) == HttpsPrefix + Strip(link)
  {
  }

  /** Normalising a normalised link changes nothing. */
  lemma NormalizeIdempotent(link: string)
    ensures Normalize(Normalize(link)) == Normalize(link)
  {
    var r := Normalize(link);
    if r != "" {
      StripTrimmed(r);
    }
  }

  /**
   * `_normalize_link` applied to whatever JSON value the request holds:
   * `(link or "").strip()`. A falsy value becomes `""`; a truthy value that
   * is not a string has no `strip` and raises, which is `None` here.
   */
  function NormalizeLink(v: Value): (r: Option<string>)
    ensures r.None? <==> Truthy(v) && !v.Str?
    ensures r == Some("") <==> !Truthy(v) || (v.Str? && AllSpace(v.s))
    ensures v.Str? ==> r == Some(Normalize(v.s))
  {
    if !Truthy(v) then Some(Normalize(""))
    else if v.Str? then Some(Normalize(v.s))
    else None
  }
}
