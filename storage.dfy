/**
 * packages/backend-storage: the upload rules of local storage (the MIME
 * whitelist, the size limit and the stored file name) and the file
 * operations on the upload directory. The directory's contents are a set of
 * paths, each `path.join` of the directory and a storage key; the clock and
 * `generateId(8)` are parameters.
 */
module Storage {
  import opened Common
  import opened Strs
  import opened Errors
  import opened NodePath

  /** 100 MB. */
  const MaxFileSize: nat := 100 * 1024 * 1024

  lemma MaxFileSizeValue()
    ensures MaxFileSize == 104857600
  {
  }

  const AllowedMimes: seq<string> := [
    "image/jpeg", "image/png", "image/gif", "image/webp",
    "video/mp4", "video/quicktime", "video/webm",
    "audio/mpeg", "audio/wav", "audio/ogg"
  ]

  /** The `fileFilter` callback: exactly the listed types are accepted; any other is refused with an error naming it. */
  function FileFilter(mimetype: string): (r: Result<bool, Error>)
    ensures r.Ok? <==> mimetype in AllowedMimes
    ensures r.Ok? ==> r.value
    ensures r.Err? ==> r.error == PlainErr("Unsupported file type: " + mimetype)
  {
    if mimetype in AllowedMimes then Ok(true) else Err(PlainErr("Unsupported file type: " + mimetype))
  }

  /** Every accepted type is an image, video or audio type; the whitelist has ten entries. */
  lemma AcceptedAreMedia(mimetype: string)
    ensures FileFilter(mimetype).Ok? ==>
      StartsWith(mimetype, "image/") || StartsWith(mimetype, "video/") || StartsWith(mimetype, "audio/")
    ensures |AllowedMimes| == 10
  {
  }

  /**
   * `${Date.now()}-${generateId(8)}${extname(originalname)}`: it begins with
   * the time's digits and `-`, and for an id without `/` it is one plain path
   * segment, so `getFilePath` keeps it inside the upload directory.
   */
  function StoredName(now: nat, id: string, originalname: string): (r: string)
    ensures StartsWith(r, NatToString(now) + "-")
    ensures '/' !in id ==> IsPlainSegment(r)
  {
    var t := NatToString(now);
    var r := t + "-" + id + Extname(originalname);
    assert r[..|t| + 1] == t + "-";
    assert IsDigit(r[0]);
    assert '/' !in id ==> '/' !in r by {
      if '/' !in id {
        forall i | 0 <= i < |r| ensures r[i] != '/' {
          if i < |t| { assert IsDigit(r[i]); }
          else if i == |t| { }
          else if i < |t| + 1 + |id| { assert r[i] == id[i - |t| - 1]; }
          else { assert r[i] == Extname(originalname)[i - |t| - 1 - |id|]; }
        }
      }
    }
    r
  }

  /**
   * A stored name starts with the upload time in decimal, followed by `-`,
   * and keeps the original's extension, for ids without `.` or `/` (the id
   * alphabet has neither).
   */
  lemma StoredNameShape(now: nat, id: string, originalname: string)
    requires '.' !in id && '/' !in id
    ensures var name := StoredName(now, id, originalname);
      DigitPrefix(name) == NatToString(now) && name[|NatToString(now)|] == '-'
      && Extname(name) == Extname(originalname)
  {
    var t := NatToString(now);
    var name := StoredName(now, id, originalname);
    var prefix := t + "-" + id;
    assert name == prefix + Extname(originalname);
    assert name == t + ("-" + id + Extname(originalname));
    DigitPrefixStops(t, "-" + id + Extname(originalname));
    assert '.' !in prefix && '/' !in prefix by {
      forall i | 0 <= i < |prefix| ensures prefix[i] != '.' && prefix[i] != '/' {
        if i < |t| { assert IsDigit(prefix[i]); }
        else if i > |t| { assert prefix[i] == id[i - |t| - 1]; }
      }
    }
    ExtnameOfSuffix(prefix, Extname(originalname));
  }

  /** The upload directory. */
  class LocalStorage {
    const uploadDir: string
    /** The paths of the files present on disk. */
    var files: set<string>

    constructor(uploadDir: string, files: set<string>)
      ensures this.uploadDir == uploadDir && this.files == files
    {
      this.uploadDir := uploadDir;
      this.files := files;
    }

    /**
     * `getFilePath(storageKey)`: `path.join` of the upload directory and the
     * key. For a normalised absolute directory (`path.join(process.cwd(),
     * 'uploads')`) and a plain key it is the directory, `/` and the key.
     */
    function GetFilePath(storageKey: string): (r: string)
      reads this
      ensures IsNormalizedAbsolute(uploadDir) && IsPlainSegment(storageKey) ==>
        r == Join(uploadDir, storageKey)
        && r[..|uploadDir|] == uploadDir && r[|uploadDir|] == '/' && r[|uploadDir| + 1..] == storageKey
    {
      var path := JoinPath(uploadDir, storageKey);
      if IsNormalizedAbsolute(uploadDir) && IsPlainSegment(storageKey) then
        JoinPathPlain(uploadDir, storageKey);
        path
      else
        path
    }

    /** Different plain keys name different files, so deleting one such key never touches another's file. */
    lemma GetFilePathInjective(a: string, b: string)
      requires IsNormalizedAbsolute(uploadDir) && IsPlainSegment(a) && IsPlainSegment(b)
      ensures GetFilePath(a) == GetFilePath(b) ==> a == b
    {
      if GetFilePath(a) == GetFilePath(b) {
        assert a == GetFilePath(a)[|uploadDir| + 1..];
      }
    }

    /** A key that is not one plain segment can name another key's file: `x/../k` is the file of `k`. */
    lemma DotDotKeyAliases(x: string, k: string)
      requires IsNormalizedAbsolute(uploadDir) && IsPlainSegment(x) && IsPlainSegment(k)
      ensures x + "/../" + k != k
      ensures GetFilePath(x + "/../" + k) == GetFilePath(k)
    {
      JoinPathDotDot(uploadDir, x, k);
      assert |x + "/../" + k| > |k|;
    }

    /** `deleteFile(storageKey)`: removes the file when it exists; otherwise nothing happens. */
    method DeleteFile(storageKey: string)
      modifies this
      ensures files == old(files) - {GetFilePath(storageKey)}
      ensures GetFilePath(storageKey) !in old(files) ==> files == old(files)
    {
      var path := GetFilePath(storageKey);
      if path in files {
        files := files - {path};
      }
    }
  }
}
