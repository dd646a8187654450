/**
 * The generator's data directory: PNG files named `<id>.png`, written by
 * `generate_qr`, served by the two download handlers and removed by the
 * retention sweep `clean_old_files`. The directory is modelled as a map from
 * file name to modification time in whole seconds.
 */
module Store {
  import opened Wrappers
  import opened Json
  import opened Text
  import opened Request

  const PngSuffix: string := ".png"

  /** `QR_MAX_AGE_HOURS` when the environment does not set it. */
  const DefaultMaxAgeHours: int := 24

  predicate IsPng(name: string)
  {
    EndsWith(name, PngSuffix)
  }

  /** The file name the handlers use for an id. */
  function PngName(id: string): (name: string)
    ensures IsPng(name) && |name| == |id| + 4
    ensures name[..|id|] == id
  {
    var name := id + PngSuffix;
    assert name[|id|..] == PngSuffix;
    name
  }

  /** Distinct ids name distinct files. */
  lemma PngNameInjective(a: string, b: string)
    requires PngName(a) == PngName(b)
    ensures a == b
  {
    assert |a| == |b|;
    assert a == PngName(a)[..|a|];
  }

  /** `time.time() - max_hours * 3600`. */
  function Cutoff(now: int, maxHours: int): int
  {
    now - maxHours * 3600
  }

  /** The sweep deletes a file when it is a PNG last modified before the cutoff. */
  predicate Expired(name: string, mtime: int, cutoff: int)
  {
    IsPng(name) && mtime < cutoff
  }

  /** The directory after `clean_old_files` with the given cutoff. */
  function Sweep(files: map<string, int>, cutoff: int): (r: map<string, int>)
    ensures r.Keys <= files.Keys
    ensures forall n :: n in r ==> r[n] == files[n] && !Expired(n, r[n], cutoff)
  {
    map n | n in files && !Expired(n, files[n], cutoff) :: files[n]
  }

  /** Non-PNG names and PNG files at or after the cutoff survive the sweep unchanged. */
  lemma SweepKeeps(files: map<string, int>, cutoff: int, name: string)
    requires name in files && (!IsPng(name) || files[name] >= cutoff)
    ensures name in Sweep(files, cutoff) && Sweep(files, cutoff)[name] == files[name]
  {
  }

  /** Two sweeps in a row leave what one sweep with the later cutoff leaves. */
  lemma SweepTwice(files: map<string, int>, c1: int, c2: int)
    ensures Sweep(Sweep(files, c1), c2) == Sweep(files, if c1 < c2 then c2 else c1)
  {
    var c := if c1 < c2 then c2 else c1;
    assert Sweep(Sweep(files, c1), c2).Keys == Sweep(files, c).Keys;
  }

  /** Sweeping again with the same cutoff removes nothing more. */
  lemma SweepIdempotent(files: map<string, int>, cutoff: int)
    ensures Sweep(Sweep(files, cutoff), cutoff) == Sweep(files, cutoff)
  {
    SweepTwice(files, cutoff, cutoff);
  }

  /**
   * The lookup of both download handlers: `<id>.png` when `id` is non-empty
   * and that file exists. The id is not checked against the uuid format.
   */
  function Find(files: map<string, int>, id: string): (r: Option<string>)
    ensures r.Some? <==> id != "" && PngName(id) in files
    ensures r.Some? ==> r.value == PngName(id) && IsPng(r.value)
  {
    if id != "" && PngName(id) in files then Some(PngName(id)) else None
  }

  /** After a sweep, an id is found exactly when it was found before and its file had not expired. */
  lemma FindAfterSweep(files: map<string, int>, cutoff: int, id: string)
    ensures Find(Sweep(files, cutoff), id).Some? <==>
      Find(files, id).Some? && files[PngName(id)] >= cutoff
  {
  }

  /** What a download handler answers: a file attachment, or 404 "QR not found". */
  datatype Download = Attachment(source: string, mimetype: string, downloadName: string) | NotFound

  /** The two download routes: the PNG itself, or a PDF page showing it. */
  datatype Format = Png | Pdf

  function MimeType(f: Format): string
  {
    match f
    case Png => "image/png"
    case Pdf => "application/pdf"
  }

  function AttachmentName(f: Format): string
  {
    match f
    case Png => "qrcode.png"
    case Pdf => "qrcode.pdf"
  }

  /** `uuid.uuid4().hex`: 32 lower-case hex digits. */
  predicate IsUuidHex(id: string)
  {
    |id| == 32 && forall k :: 0 <= k < |id| ==> '0' <= id[k] <= '9' || 'a' <= id[k] <= 'f'
  }

  /** A successful `generate_qr`: the new id and the parameters the image was made from. */
  datatype Generated = Generated(id: string, request: Resolved)

  class ArtifactStore {
    /** File name to modification time, in seconds. */
    var files: map<string, int>

    constructor (existing: map<string, int>)
      ensures files == existing
    {
      files := existing;
    }

    /**
     * `clean_old_files`: walks the directory listing, in whatever order it
     * comes, and deletes each PNG file older than the cutoff.
     */
    method CleanOldFiles(now: int, maxHours: int)
      modifies this
      ensures files == Sweep(old(files), Cutoff(now, maxHours))
    {
      var cutoff := now - maxHours * 3600;
      ghost var before := files;
      var listing := files.Keys;
      while listing != {}
        invariant listing <= before.Keys
        invariant forall n :: n in files <==> n in before && (n in listing || !Expired(n, before[n], cutoff))
        invariant forall n :: n in files ==> files[n] == before[n]
        decreases listing
      {
        var name :| name in listing;
        if IsPng(name) && files[name] < cutoff {
          files := files - {name};
        }
        listing := listing - {name};
      }
      assert files.Keys == Sweep(before, cutoff).Keys;
    }

    /** `health`: runs the sweep and answers 200. */
    method Health(now: int, maxHours: int) returns (status: int)
      modifies this
      ensures files == Sweep(old(files), Cutoff(now, maxHours))
      ensures status == 200
    {
      CleanOldFiles(now, maxHours);
      status := 200;
    }

    /**
     * `generate_qr`: sweeps first, then resolves the request; on success the
     * image is saved as `<id>.png` with modification time `now`. `id` is the
     * value `uuid.uuid4().hex` produced, and `encoderAccepts` says whether the
     * external QR encoder could encode the link (it raises, giving 500,
     * when the link does not fit any symbol version).
     */
    method Generate(body: Option<Value>, now: int, maxHours: int, id: string, encoderAccepts: bool)
      returns (r: Result<Generated, Failure>)
      requires IsUuidHex(id)
      modifies this
      ensures var swept := Sweep(old(files), Cutoff(now, maxHours));
        match ResolveRequest(body)
        case Err(e) => r == Err(e) && files == swept
        case Ok(q) =>
          if encoderAccepts then r == Ok(Generated(id, q)) && files == swept[PngName(id) := now]
          else r == Err(ServerError) && files == swept
      ensures r.Ok? ==> Find(files, id) == Some(PngName(id))
      ensures r.Ok? && PngName(id) !in old(files) ==>
        |files| == |Sweep(old(files), Cutoff(now, maxHours))| + 1
    {
      CleanOldFiles(now, maxHours);
      var q := ResolveRequest(body);
      if q.Err? {
        return Err(q.error);
      }
      if !encoderAccepts {
        return Err(ServerError);
      }
      files := files[PngName(id) := now];
      r := Ok(Generated(id, q.value));
    }

    /**
     * `download_png` and `download_pdf`: both answer 404 unless the id is
     * non-empty and `<id>.png` exists; then they send that PNG, or a PDF page
     * drawn from it, as an attachment.
     */
    method Download(id: string, format: Format) returns (d: Download)
      ensures d.NotFound? <==> id == "" || PngName(id) !in files
      ensures d.Attachment? ==> d == Attachment(PngName(id), MimeType(format), AttachmentName(format))
    {
      var found := Find(files, id);
      if found.None? {
        return NotFound;
      }
      d := Attachment(found.value, MimeType(format), AttachmentName(format));
    }
  }
}
