/**
 * The decision part of the generator's `generate_qr` handler: from the JSON
 * body to either an error or the parameters handed to the QR encoder
 * (normalised link, fill and background colour, final pixel size).
 */
module Request {
  import opened Wrappers
  import opened Json
  import opened Text
  import opened Colors
  import opened Links

  /** The handler's failures: 400 "No link provided", or an uncaught exception (500). */
  datatype Failure = NoLink | ServerError

  function StatusCode(f: Failure): (code: int)
    ensures f.NoLink? ==> code == 400
    ensures f.ServerError? ==> 500 <= code < 600
  {
    match f
    case NoLink => 400
    case ServerError => 500
  }

  /** Allowed final PNG sizes, in pixels. */
  const SizeMap: map<string, nat> := map["sm" := 200, "md" := 300, "lg" := 500]
  const DefaultSizeKey: string := "md"

  /**
   * `SIZE_MAP.get((size or "md").lower(), SIZE_MAP["md"])`. A truthy value
   * that is not a string has no `lower` and raises, which is `None` here.
   */
  function ResolveSize(v: Value): (r: Option<nat>)
    ensures r.None? <==> Truthy(v) && !v.Str?
    ensures r.Some? ==> r.value in {200, 300, 500}
    ensures r == Some(200) <==> v.Str? && Lower(v.s) == "sm"
    ensures r == Some(500) <==> v.Str? && Lower(v.s) == "lg"
    ensures r == Some(300) <==> !Truthy(v) || (v.Str? && Lower(v.s) != "sm" && Lower(v.s) != "lg")
  {
    if !Truthy(v) then Some(SizeFor(DefaultSizeKey))
    else if v.Str? then Some(SizeFor(Lower(v.s)))
    else None
  }

  /** `SIZE_MAP.get(key, SIZE_MAP["md"])`. */
  function SizeFor(key: string): nat
  {
    if key in SizeMap then SizeMap[key] else SizeMap[DefaultSizeKey]
  }

  /** What the handler passes to the encoder and the resize step. */
  datatype Resolved = Resolved(link: string, fill: string, back: string, px: nat)

  /**
   * `request.get_json(silent=True) or {}`: `None` stands for a body that is
   * not JSON. A falsy JSON value gives the empty dictionary; a truthy value
   * that is not an object has no `get` and raises, which is `None` here.
   */
  function Fields(body: Option<Value>): (r: Option<map<string, Value>>)
    ensures r.None? <==> body.Some? && Truthy(body.value) && !body.value.Obj?
    ensures body.Some? && body.value.Obj? ==> r == Some(body.value.fields)
    ensures body.None? || !Truthy(body.value) ==> r == Some(map[])
  {
    if body.None? || !Truthy(body.value) then Some(map[])
    else if body.value.Obj? then Some(body.value.fields)
    else None
  }

  /** `dict.get(key, default)`. */
  function Get(m: map<string, Value>, key: string, default: Value): Value
  {
    if key in m then m[key] else default
  }

  /**
   * The checks of `generate_qr` in the order the handler makes them: read
   * the body, normalise the link, sanitise both colours, resolve the size,
   * then refuse an empty link.
   */
  function ResolveRequest(body: Option<Value>): (r: Result<Resolved, Failure>)
    ensures r == Err(NoLink) <==>
      && Fields(body).Some?
      && var data := Fields(body).value;
      && NormalizeLink(Get(data, "link", Str(""))) == Some("")
      && ResolveSize(Get(data, "size", Null)).Some?
    ensures r == Err(ServerError) <==>
      || Fields(body).None?
      || NormalizeLink(Get(Fields(body).value, "link", Str(""))).None?
      || ResolveSize(Get(Fields(body).value, "size", Null)).None?
    ensures r.Ok? ==>
      && var data := Fields(body).value;
      && r.value == Resolved(
           NormalizeLink(Get(data, "link", Str(""))).value,
           SafeColor(Get(data, "fill_color", Str(DefaultFill)), DefaultFill),
           SafeColor(Get(data, "back_color", Str(DefaultBack)), DefaultBack),
           ResolveSize(Get(data, "size", Null)).value)
    ensures r.Ok? ==>
      && r.value.link != "" && Trimmed(r.value.link) && HasWebScheme(r.value.link)
      && MatchesHexColor(r.value.fill) && MatchesHexColor(r.value.back)
      && r.value.px in {200, 300, 500}
  {
    DefaultsAreHexColors();
    match Fields(body)
    case None => Err(ServerError)
    case Some(data) =>
      match NormalizeLink(Get(data, "link", Str("")))
      case None => Err(ServerError)
      case Some(link) =>
        var fill := SafeColor(Get(data, "fill_color", Str(DefaultFill)), DefaultFill);
        var back := SafeColor(Get(data, "back_color", Str(DefaultBack)), DefaultBack);
        match ResolveSize(Get(data, "size", Null))
        case None => Err(ServerError)
        case Some(px) =>
          if link == "" then Err(NoLink)
          else Ok(Resolved(link, fill, back, px))
  }

  /**
   * A body whose link is a string: the request succeeds with that link
   * normalised exactly when the link is not blank and the size is readable.
   */
  lemma ResolvedLink(data: map<string, Value>, s: string)
    requires "link" in data && data["link"] == Str(s)
    requires ResolveSize(Get(data, "size", Null)).Some?
    ensures ResolveRequest(Some(Obj(data))).Ok? <==> !AllSpace(s)
    ensures ResolveRequest(Some(Obj(data))).Ok? ==> ResolveRequest(Some(Obj(data))).value.link == Normalize(s)
  {
  }

  /**
   * A body that is not JSON, or an object without a `link` whose size can be
   * read, is refused with 400. (With an unreadable size the handler crashes
   * first.)
   */
  lemma MissingLinkRefused(data: map<string, Value>)
    requires "link" !in data && ResolveSize(Get(data, "size", Null)).Some?
    ensures ResolveRequest(None) == Err(NoLink)
    ensures ResolveRequest(Some(Obj(data))) == Err(NoLink)
  {
    assert AllSpace("");
    assert Get(data, "link", Str("")) == Str("");
  }

  /** A truthy size that is not a string crashes the handler even when the link is missing. */
  lemma SizeCrashBeforeNoLink()
    ensures ResolveRequest(Some(Obj(map["size" := Other(true)]))) == Err(ServerError)
  {
    var data := map["size" := Other(true)];
    assert Fields(Some(Obj(data))) == Some(data);
    assert Get(data, "link", Str("")) == Str("");
    assert Get(data, "size", Null) == Other(true);
  }
}
