/**
 * apps/sym/backend/src/routes/media.routes.js: the upload rules of the media
 * routes (the route's own multer set-up, not the storage package's), the
 * media records they create, list and delete, and the files on disk. The
 * media collection is a sequence of records in insertion order and the files
 * are a set of paths, each `path.join` of the directory and a key; the clock,
 * `Math.random()` and new ids are parameters.
 */
module MediaRoutes {
  import opened Common
  import opened Strs
  import opened Enums
  import opened NodePath
  import Seqs

  /** 50 MB. */
  const MaxUploadSize: nat := 50 * 1024 * 1024

  lemma MaxUploadSizeValue()
    ensures MaxUploadSize == 52428800
  {
  }

  /** `/image|video|audio|text|application/.test(mimetype)`: the words may occur anywhere. */
  predicate UploadAllowed(mimetype: string) {
    Contains(mimetype, "image") || Contains(mimetype, "video") || Contains(mimetype, "audio")
    || Contains(mimetype, "text") || Contains(mimetype, "application")
  }

  /** Because the pattern is not anchored, any type with one of the words inside it passes. */
  lemma UploadFilterUnanchored(before: string, word: string, after: string)
    requires word in ["image", "video", "audio", "text", "application"]
    ensures UploadAllowed(before + word + after)
  {
    var s := before + word + after;
    assert s[|before|..|before| + |word|] == word;
    ContainsAt(s, word, |before|);
  }

  /** `typeMap(mime)`: the media type from the type's prefix; anything else is text. */
  function TypeMap(mime: string): (r: MediaType)
    ensures r == Image <==> StartsWith(mime, "image/")
    ensures r == Video <==> StartsWith(mime, "video/") && !StartsWith(mime, "image/")
    ensures r == Audio <==> StartsWith(mime, "audio/") && !StartsWith(mime, "image/") && !StartsWith(mime, "video/")
    ensures r == Text <==> !StartsWith(mime, "image/") && !StartsWith(mime, "video/") && !StartsWith(mime, "audio/")
  {
    if StartsWith(mime, "image/") then Image
    else if StartsWith(mime, "video/") then Video
    else if StartsWith(mime, "audio/") then Audio
    else Text
  }

  /** Every upload whose type maps to image, video or audio passed the filter by its prefix. */
  lemma TypedUploadsPassFilter(mime: string)
    requires TypeMap(mime) != Text
    ensures UploadAllowed(mime)
  {
    if StartsWith(mime, "image/") {
      assert mime[0..5] == "image";
      ContainsAt(mime, "image", 0);
    } else if StartsWith(mime, "video/") {
      assert mime[0..5] == "video";
      ContainsAt(mime, "video", 0);
    } else {
      assert mime[0..5] == "audio";
      ContainsAt(mime, "audio", 0);
    }
  }

  /** `req.body.projectId || '000000000000000000000000'`. */
  const PlaceholderProject: string := "000000000000000000000000"

  function ProjectIdOf(body: Value): (r: Value)
    ensures Truthy(Get(body, "projectId")) ==> r == Get(body, "projectId")
    ensures !Truthy(Get(body, "projectId")) ==> r == Str(PlaceholderProject)
  {
    Or(Get(body, "projectId"), Str(PlaceholderProject))
  }

  /** The file multer receives from the client. */
  datatype Incoming = Incoming(originalname: string, mimetype: string, size: nat)

  datatype Media = Media(id: string, projectId: Value, uploadedBy: string, mediaType: MediaType, filename: string,
                         storageKey: string, mimeType: string, size: nat, createdAt: int)

  /** The replies of the upload route. */
  datatype UploadReply =
    | Created(media: Media)
    /** 400 `No file uploaded`: no file, or one the filter skipped. */
    | NoFile
    /** multer's `File too large` error, passed to the error handler. */
    | TooLarge

  /**
   * The disk name, `${Date.now()}-${Math.round(Math.random() * 1e9)}${path.extname(originalname)}`:
   * one plain path segment that keeps the original's extension.
   */
  function DiskName(now: nat, random: nat, originalname: string): (r: string)
    ensures StartsWith(r, NatToString(now) + "-")
    ensures IsPlainSegment(r)
    ensures Extname(r) == Extname(originalname)
  {
    var t, u := NatToString(now), NatToString(random);
    var prefix := t + "-" + u;
    var ext := Extname(originalname);
    StampFacts(t, u);
    NoSlashAppend(prefix, ext);
    ExtnameOfSuffix(prefix, ext);
    var r := prefix + ext;
    assert prefix <= r;
    assert r[0] == prefix[0];
    r
  }

  /** `${now}-${random}` has neither `.` nor `/`, starts with a digit and with `${now}-`. */
  lemma StampFacts(t: string, u: string)
    requires t != [] && AllDigits(t) && AllDigits(u)
    ensures '.' !in t + "-" + u && '/' !in t + "-" + u
    ensures t + "-" <= t + "-" + u && IsDigit((t + "-" + u)[0])
  {
    var prefix := t + "-" + u;
    assert prefix[..|t| + 1] == t + "-";
    assert prefix[0] == t[0];
    forall i | 0 <= i < |prefix| ensures prefix[i] != '.' && prefix[i] != '/' {
      if i < |t| { assert prefix[i] == t[i]; }
      else if i > |t| { assert prefix[i] == u[i - |t| - 1]; }
    }
  }

  function CreatedAt(m: Media): int {
    m.createdAt
  }

  /** `{ uploadedBy: userId }`: the user's records in collection order. */
  function Uploads(records: seq<Media>, userId: string): seq<Media> {
    Seqs.Filter(records, (m: Media) => m.uploadedBy == userId)
  }

  /**
   * `Media.find({ uploadedBy }).sort({ createdAt: -1 }).limit(100)`: the
   * user's hundred newest records, newest first; every record of the user
   * left out is no newer than any listed.
   */
  function ListMedia(records: seq<Media>, userId: string): (r: seq<Media>)
    ensures |r| == if |Uploads(records, userId)| < 100 then |Uploads(records, userId)| else 100
    ensures forall i :: 0 <= i < |r| ==> r[i] in records && r[i].uploadedBy == userId
    ensures forall i, j :: 0 <= i < j < |r| ==> r[i].createdAt >= r[j].createdAt
    ensures multiset(r) <= multiset(Uploads(records, userId))
    ensures forall m :: m in multiset(Uploads(records, userId)) - multiset(r) ==>
      forall i :: 0 <= i < |r| ==> m.createdAt <= r[i].createdAt
    ensures |Uploads(records, userId)| <= 100 ==> multiset(r) == multiset(Uploads(records, userId))
  {
    Seqs.Top(Uploads(records, userId), CreatedAt, 100)
  }

  /** The index of the first record with this id uploaded by this user. */
  function FindOwned(records: seq<Media>, id: string, userId: string): (k: Option<nat>)
    ensures k.Some? ==> k.value < |records| && records[k.value].id == id && records[k.value].uploadedBy == userId
    ensures k.None? ==> forall i :: 0 <= i < |records| ==> !(records[i].id == id && records[i].uploadedBy == userId)
  {
    if records == [] then None
    else if records[0].id == id && records[0].uploadedBy == userId then Some(0)
    else match FindOwned(records[1..], id, userId)
      case None => None
      case Some(k) => Some(k + 1)
  }

  /**
   * `GET /file/:key` as written: the path `path.join(uploadDir, key)` is
   * served when a file exists there, or `None` for 404 `File not found`.
   * Express decodes `%2F` in the parameter, so the key may hold `/` and `..`.
   */
  function ServeFileAsWritten(files: set<string>, uploadDir: string, key: string): (r: Option<string>)
    ensures r.Some? <==> JoinPath(uploadDir, key) in files
    ensures r.Some? ==> r.value == JoinPath(uploadDir, key)
  {
    var path := JoinPath(uploadDir, key);
    if path in files then Some(path) else None
  }

  /**
   * The key `../../etc/passwd` on the upload directory `/app/uploads` serves
   * `/etc/passwd`, a file outside the directory.
   */
  lemma TraversalEscapesUploadDir(files: set<string>, uploadDir: string, key: string)
    requires uploadDir == "/app/uploads" && key == "../../etc/passwd" && "/etc/passwd" in files
    ensures IsNormalizedAbsolute(uploadDir)
    ensures ServeFileAsWritten(files, uploadDir, key) == Some("/etc/passwd")
    ensures !StartsWith(ServeFileAsWritten(files, uploadDir, key).value, uploadDir + "/")
  {
    JoinPathClimbs(uploadDir, key);
    assert |uploadDir + "/"| == 13;
  }

  /**
   * `GET /file/:key` as intended: only a key that is one plain segment names
   * a file of the upload directory; any other key is 404.
   */
  function ServeFile(files: set<string>, uploadDir: string, key: string): (r: Option<string>)
    ensures r.Some? <==> IsPlainSegment(key) && JoinPath(uploadDir, key) in files
    ensures r.Some? ==> r.value == JoinPath(uploadDir, key)
  {
    if IsPlainSegment(key) then ServeFileAsWritten(files, uploadDir, key) else None
  }

  /** A served file lies directly inside the upload directory, and plain keys are served as before. */
  lemma ServedIsInsideUploadDir(files: set<string>, uploadDir: string, key: string)
    requires IsNormalizedAbsolute(uploadDir)
    ensures ServeFile(files, uploadDir, key).Some? ==>
      ServeFile(files, uploadDir, key).value == Join(uploadDir, key) && '/' !in key
    ensures IsPlainSegment(key) ==> ServeFile(files, uploadDir, key) == ServeFileAsWritten(files, uploadDir, key)
  {
    if IsPlainSegment(key) {
      JoinPathPlain(uploadDir, key);
    }
  }

  /** An accepted upload is served under its disk name; after its deletion it is not. */
  lemma UploadedIsServed(files: set<string>, uploadDir: string, now: nat, random: nat, originalname: string)
    ensures var key := DiskName(now, random, originalname);
      ServeFile(files + {JoinPath(uploadDir, key)}, uploadDir, key) == Some(JoinPath(uploadDir, key))
      && ServeFile(files - {JoinPath(uploadDir, key)}, uploadDir, key) == None
  {
  }

  /** The media collection and the upload directory. */
  class MediaLibrary {
    const uploadDir: string
    var records: seq<Media>
    /** The paths of the files present on disk. */
    var files: set<string>

    constructor(uploadDir: string)
      ensures this.uploadDir == uploadDir && records == [] && files == {}
    {
      this.uploadDir := uploadDir;
      records := [];
      files := {};
    }

    /**
     * `POST /upload`: the file is written under its disk name and a record
     * is created, typed by its MIME type and owned by the caller.
     */
    method Upload(userId: string, body: Value, file: Option<Incoming>, newId: string, now: nat, random: nat)
      returns (reply: UploadReply)
      modifies this
      ensures file.None? || !UploadAllowed(file.value.mimetype) ==>
        reply == NoFile && records == old(records) && files == old(files)
      ensures file.Some? && UploadAllowed(file.value.mimetype) && file.value.size > MaxUploadSize ==>
        reply == TooLarge && records == old(records) && files == old(files)
      ensures file.Some? && UploadAllowed(file.value.mimetype) && file.value.size <= MaxUploadSize ==>
        var f := file.value;
        var key := DiskName(now, random, f.originalname);
        reply == Created(Media(newId, ProjectIdOf(body), userId, TypeMap(f.mimetype), f.originalname,
                               key, f.mimetype, f.size, now))
        && records == old(records) + [reply.media]
        && files == old(files) + {JoinPath(uploadDir, key)}
    {
      if file.None? || !UploadAllowed(file.value.mimetype) {
        return NoFile;
      }
      var f := file.value;
      if f.size > MaxUploadSize {
        return TooLarge;
      }
      var key := DiskName(now, random, f.originalname);
      files := files + {JoinPath(uploadDir, key)};
      var media := Media(newId, ProjectIdOf(body), userId, TypeMap(f.mimetype), f.originalname,
                         key, f.mimetype, f.size, now);
      records := records + [media];
      reply := Created(media);
    }

    /** `GET /`: the caller's newest hundred records. */
    function List(userId: string): (r: seq<Media>)
      reads this
      ensures r == ListMedia(records, userId)
    {
      ListMedia(records, userId)
    }

    /**
     * `GET /file/:key` on this directory, CORRECTED: only a key that is one
     * plain segment is served. The route as written is `ServeFileAsWritten`,
     * which also follows `..` segments out of the directory.
     */
    function Serve(key: string): (r: Option<string>)
      reads this
      ensures r == ServeFile(files, uploadDir, key)
    {
      ServeFile(files, uploadDir, key)
    }

    /**
     * `DELETE /:id`: only the caller's own record is removed, with its file
     * when the file exists; otherwise 404 `Media not found` and nothing changes.
     */
    method Delete(userId: string, id: string) returns (found: bool)
      modifies this
      ensures found <==> FindOwned(old(records), id, userId).Some?
      ensures !found ==> records == old(records) && files == old(files)
      ensures found ==>
        var k := FindOwned(old(records), id, userId).value;
        records == old(records)[..k] + old(records)[k + 1..]
        && files == old(files) - {JoinPath(uploadDir, old(records)[k].storageKey)}
    {
      var k := FindOwned(records, id, userId);
      if k.None? {
        return false;
      }
      var media := records[k.value];
      records := records[..k.value] + records[k.value + 1..];
      var path := JoinPath(uploadDir, media.storageKey);
      if path in files {
        files := files - {path};
      }
      found := true;
    }
  }

  /** A delete by someone other than the uploader finds nothing to remove. */
  lemma OthersCannotDelete(records: seq<Media>, id: string, userId: string)
    requires forall i :: 0 <= i < |records| && records[i].id == id ==> records[i].uploadedBy != userId
    ensures FindOwned(records, id, userId).None?
  {
  }
}
