# QRCodeGen request handling, modelled in Dafny

QRCodeGen is a small Flask service that turns a link into a QR-code PNG. The
image work is done by external libraries. This project models the logic the
service adds around them, all in `qrcodegen.py`:

- the colour sanitiser `_safe_color` and its pattern `HEX_RE`;
- the link normaliser `_normalize_link`;
- the request gate of `generate_qr`: reading the JSON body, the size table
  `SIZE_MAP`, and the 400 answer for an empty link;
- the data directory of generated PNGs. `generate_qr` writes `<id>.png`.
  `download_png` and `download_pdf` look the file up. `clean_old_files`
  deletes expired PNGs. It runs at startup, on `/health` and at the start of
  every `generate_qr`.

Modules, leaf first:

- `Wrappers`: `Option` and `Result`.
- `Json`: the JSON values a body can hold and their Python truthiness.
  `Other(truthy)` stands for a number, a boolean or an array.
- `Text`: Python's `strip()`, `lower()`, `startswith` and `endswith`.
- `Colors`: `HEX_RE` as a small matcher and `_safe_color`.
- `Links`: `_normalize_link`.
- `Request`: the size lookup and `ResolveRequest`. `ResolveRequest` returns
  the parameters handed to the encoder, or the failure.
- `Store`: the directory as a map from file name to modification time in
  whole seconds. The class `ArtifactStore` holds it, and its methods are the
  handlers that touch it.

Behaviour worth knowing:

- `HEX_RE` ends in `$`. Without `re.MULTILINE`, Python's `$` also matches just
  before a final newline. So `"#A1B2C3\n"` is accepted and returned with its
  newline. The model keeps this (`Colors.MatchesHexColorMeaning`,
  `Colors.SafeColorKeepsSpelling`).
- A truthy JSON value of the wrong type crashes the handler with an uncaught
  exception, which Flask answers with 500. This happens for a link or size
  that is not a string, and for a body that is not an object. The model
  returns `ServerError` for it. The handler reads the link before the size, and
  it checks for an empty link only after both. So a crash takes precedence
  over the 400 answer.
- The download handlers accept any non-empty id. They do not check it against
  the uuid format.

## Model

| member | source | states |
|---|---|---|
| `Text.SkipSpace` | qrcodegen.py:59 | the left scan of `strip()`: everything it passes is whitespace, and it stops at the end or at a non-whitespace character |
| `Text.SkipSpaceBack` | qrcodegen.py:59 | the right scan of `strip()`: everything it passes is whitespace, and it stops at the left bound or after a non-whitespace character |
| `Text.Strip` | qrcodegen.py:59 | the result is the input with a whitespace prefix and a whitespace suffix removed and the middle kept verbatim; it has no whitespace at either end, and it is empty exactly when the input is all whitespace |
| `Text.StripTrimmed` | qrcodegen.py:59 | a string with no whitespace at its ends strips to itself |
| `Text.Lower` | qrcodegen.py:62 | same length; no ASCII capital is left, each capital becomes its small letter, and every other character is kept |
| `Text.LowerConcat` | qrcodegen.py:62 | lower-casing distributes over concatenation |
| `Text.LowerIdempotent` | qrcodegen.py:62 | lower-casing twice equals lower-casing once |
| `Colors.HexRunMeaning` | qrcodegen.py:18 | the regex run `[0-9a-fA-F]{n}` at position i succeeds exactly when the n characters from i exist and are all hex digits |
| `Colors.MatchesHexColorMeaning` | qrcodegen.py:18 | `HEX_RE.match` accepts exactly `#` plus six hex digits, optionally followed by one final newline |
| `Colors.SafeColor` | qrcodegen.py:53-56 | the result is the default, or the caller's own string unchanged when the pattern accepts it |
| `Colors.SafeColorChoice` | qrcodegen.py:53-56 | the value is returned exactly when it is a string of the accepted shape; every other value, including non-strings, yields the default |
| `Colors.ShortOrBareRejected` | qrcodegen.py:53-56 | 3-digit `#RGB` forms, `#`-less forms and the empty string always yield the default |
| `Colors.SafeColorAccepted` | qrcodegen.py:53-56 | with a default the pattern accepts, the result is always accepted too |
| `Colors.SafeColorIdempotent` | qrcodegen.py:53-56 | sanitising a sanitised colour again changes nothing |
| `Colors.DefaultsAreHexColors` | qrcodegen.py:74-75 | the defaults `#000000` and `#FFFFFF` have the strict `#RRGGBB` shape |
| `Colors.SafeColorKeepsSpelling` | qrcodegen.py:18-56 | an accepted colour keeps its letter case and its trailing newline; `#FFF` falls back to the default |
| `Links.HttpsPrefixHasScheme` | qrcodegen.py:62-64 | a trimmed, non-empty text given the `https://` prefix passes the scheme test and stays trimmed |
| `Links.Normalize` | qrcodegen.py:58-65 | the result is empty exactly when the input is all whitespace; a non-empty result has no whitespace at its ends and starts with `http://` or `https://` in any case |
| `Links.NormalizeScheme` | qrcodegen.py:62-65 | a stripped link that already has a web scheme, in any case, is returned verbatim; any other non-blank link gets exactly `https://` in front of its stripped text |
| `Links.NormalizeIdempotent` | qrcodegen.py:58-65 | normalising a normalised link changes nothing |
| `Links.NormalizeLink` | qrcodegen.py:59-61 | a non-string truthy value raises; `None`, falsy values and all-whitespace strings give `""`; a string gives its normalisation |
| `Request.StatusCode` | qrcodegen.py:79-80 | a missing link answers 400; a crash answers with a server-error status |
| `Request.ResolveSize` | qrcodegen.py:21-25 | the size is always 200, 300 or 500; 200 exactly for a key that lower-cases to `sm`, 500 exactly for `lg`; a missing or falsy key and every unknown key give 300; a truthy non-string raises |
| `Request.Fields` | qrcodegen.py:72 | a body that is not JSON, or a falsy one, reads as the empty object; an object reads as its own fields; a truthy body that is not an object raises |
| `Request.ResolveRequest` | qrcodegen.py:72-80 | 500 exactly when the body, the link or the size cannot be read; 400 exactly when all three can and the link normalises to `""`; otherwise the record holds the normalised link, the two sanitised colours read from `fill_color` and `back_color` (or their defaults) and the resolved size, and so has a non-blank trimmed link with a web scheme, two accepted colours and a size of 200, 300 or 500 |
| `Request.ResolvedLink` | qrcodegen.py:73-80 | with a string link and a readable size, the request succeeds exactly when the link is not blank, and then carries the normalised link |
| `Request.MissingLinkRefused` | qrcodegen.py:72-80 | a body that is not JSON, and any object without `link` whose size can be read, is refused with "No link provided" |
| `Request.SizeCrashBeforeNoLink` | qrcodegen.py:76-80 | `{"size": true}` crashes at the size lookup (500) before the missing link is noticed |
| `Store.PngName` | qrcodegen.py:100 | the file name of an id is the id followed by `.png` |
| `Store.PngNameInjective` | qrcodegen.py:99-101 | distinct ids name distinct files |
| `Store.Sweep` | qrcodegen.py:27-40 | the sweep only removes files; what remains is unchanged and is not a PNG older than the cutoff |
| `Store.SweepKeeps` | qrcodegen.py:33-38 | non-PNG names and PNG files modified at or after the cutoff survive unchanged |
| `Store.SweepTwice` | qrcodegen.py:27-40 | two sweeps in a row equal one sweep with the later cutoff |
| `Store.SweepIdempotent` | qrcodegen.py:27-40 | a second sweep with the same cutoff removes nothing |
| `Store.Find` | qrcodegen.py:112-115 | an id is found exactly when it is non-empty and `<id>.png` exists; the answer is that PNG name |
| `Store.FindAfterSweep` | qrcodegen.py:27-40 | after a sweep, an id is found exactly when it was found before and its file had not expired |
| `Store.ArtifactStore.CleanOldFiles` | qrcodegen.py:27-40 | the directory afterwards is exactly the sweep of the old directory with cutoff `now - max_hours*3600` |
| `Store.ArtifactStore.Health` | qrcodegen.py:44-47 | runs the sweep and answers 200 |
| `Store.ArtifactStore.Generate` | qrcodegen.py:67-101 | always sweeps first; on a failure the directory is just the swept one; on success exactly `<id>.png` is added with time `now`, it is one more entry when the id is fresh, and the id can then be downloaded |
| `Store.ArtifactStore.Download` | qrcodegen.py:110-138 | both routes answer 404 exactly for an empty id or a missing `<id>.png`; otherwise the PNG as `qrcode.png` (`image/png`), or a PDF made from it as `qrcode.pdf` (`application/pdf`) |

## Left out

- QR encoding (`qrcode`), the PIL resize, PNG and base64 encoding, and the
  reportlab PDF layout are external libraries. The encoder is a boolean
  parameter of `Generate` that says whether it accepted the link. The image
  bytes are not modelled.
- Flask routing, JSON parsing and `send_file` are left out. A body is a
  `Json.Value`, or `None` when it is not JSON. A response is a `Result` or a
  `Download`.
- `uuid.uuid4()` is a parameter. `Generate` requires it to be 32 lower-case hex
  digits. A colliding id is not excluded: it overwrites the file, as
  `img.save` would.
- `time.time()` and `os.path.getmtime` floats are whole seconds.
  `QR_MAX_AGE_HOURS` is a parameter. Parsing it with `int()`, which can raise,
  is left out.
- Filesystem details are left out: directories named `*.png`
  (`os.path.isfile`), files vanishing during the sweep, swallowed exceptions,
  and recreating a missing directory. The store holds regular files only.
- Store.Find: an id with path separators (`../x`, or an absolute path) makes
  the real lookup leave the data directory. The flat map cannot express
  this, so such ids are only looked up as names.
- Text.Lower lowers ASCII letters only, where Python lowers all of Unicode.
  No non-ASCII character lowers to any character of `http://`, `https://`,
  `sm`, `md` or `lg`, so the scheme test and the size lookup give the same
  answers.
- Concurrent requests sharing the directory are not modelled. Each handler
  is one atomic step.
- `qrgen.py` is an earlier prototype and is not part of this model.
