/**
 * apps/worker/src/processors/media.processor.js: the handler of media jobs.
 * It transcodes the input, optionally renders a thumbnail next to the
 * output, and reports the elapsed time. `transcodeVideo` and
 * `generateThumbnail` (ffmpeg) are oracles given as their outcomes; the
 * clock is read twice, as `start` and `end`.
 */
module MediaProcessor {
  import opened Common
  import opened Strs
  import opened Errors
  import opened NodePath

  /** `job.data` as the handler destructures it; `options` and `generateThumb` may be missing. */
  datatype MediaJobData = MediaJobData(inputPath: string, outputPath: string, options: Value, generateThumb: Value)

  /** A destructuring default: it replaces `undefined` only (a `null` is kept). */
  function Default(v: Value, d: Value): (r: Value)
    ensures v.Undefined? ==> r == d
    ensures !v.Undefined? ==> r == v
  {
    if v.Undefined? then d else v
  }

  /** `options = {}`. */
  function OptionsOf(data: MediaJobData): Value {
    Default(data.options, EmptyObject)
  }

  /** `generateThumb = false`, read by `if (generateThumb)`. */
  predicate WantsThumb(data: MediaJobData) {
    Truthy(Default(data.generateThumb, Bool(false)))
  }

  /** A missing `generateThumb` means no thumbnail; a missing `options` means `{}`. */
  lemma DefaultsApply(data: MediaJobData)
    ensures data.generateThumb.Undefined? ==> !WantsThumb(data)
    ensures data.options.Undefined? ==> OptionsOf(data) == Obj([])
    ensures !data.generateThumb.Undefined? ==> (WantsThumb(data) <==> Truthy(data.generateThumb))
  {
  }

  /**
   * `outputPath.substring(0, outputPath.lastIndexOf('/'))`: the prefix before
   * the last `/`; `substring` turns the `-1` of a path without `/` into 0, so
   * such a path gives the empty directory.
   */
  function ThumbDir(outputPath: string): (r: string)
    ensures r <= outputPath
    ensures '/' !in outputPath ==> r == []
    ensures '/' in outputPath ==> |r| < |outputPath| && outputPath[|r|] == '/' && '/' !in outputPath[|r| + 1..]
  {
    var k := LastIndexOf(outputPath, '/');
    if k < 0 then [] else outputPath[..k]
  }

  /** The thumbnail directory of `dir/file` is `dir`, for a file name without `/`. */
  lemma ThumbDirOfJoin(dir: string, file: string)
    requires '/' !in file
    ensures ThumbDir(Join(dir, file)) == dir
  {
    var p := Join(dir, file);
    forall i | |dir| < i < |p| ensures p[i] != '/' {
      assert p[i] == file[i - |dir| - 1];
    }
    LastIndexAt(p, '/', |dir|);
  }

  /** The ffmpeg calls the handler makes, in order. */
  datatype MediaCall =
    | Transcode(inputPath: string, outputPath: string, options: Value)
    | Thumbnail(inputPath: string, outputDir: string)

  /** `{ outputPath, thumbnailPath, duration }`; a missing thumbnail is `null`. */
  datatype MediaResult = MediaResult(outputPath: string, thumbnailPath: Option<string>, duration: int)

  /**
   * `processMediaJob(job)`: transcoding comes first and a failure there is
   * rethrown before any thumbnail; the thumbnail is rendered only when asked
   * for, into the output's directory, and its failure is rethrown too.
   */
  method ProcessMediaJob(data: MediaJobData, start: int, end: int,
                         transcode: Result<(), Error>, thumbnail: Result<string, Error>)
    returns (r: Result<MediaResult, Error>, calls: seq<MediaCall>)
    ensures |calls| >= 1 && calls[0] == Transcode(data.inputPath, data.outputPath, OptionsOf(data))
    ensures transcode.Err? ==> r == Err(transcode.error) && |calls| == 1
    ensures transcode.Ok? && !WantsThumb(data) ==>
      r == Ok(MediaResult(data.outputPath, None, end - start)) && |calls| == 1
    ensures transcode.Ok? && WantsThumb(data) ==>
      calls == [calls[0], Thumbnail(data.inputPath, ThumbDir(data.outputPath))]
      && (thumbnail.Err? ==> r == Err(thumbnail.error))
      && (thumbnail.Ok? ==> r == Ok(MediaResult(data.outputPath, Some(thumbnail.value), end - start)))
  {
    calls := [Transcode(data.inputPath, data.outputPath, OptionsOf(data))];
    if transcode.Err? {
      return Err(transcode.error), calls;
    }
    var thumbnailPath: Option<string> := None;
    if WantsThumb(data) {
      var outputDir := ThumbDir(data.outputPath);
      calls := calls + [Thumbnail(data.inputPath, outputDir)];
      if thumbnail.Err? {
        return Err(thumbnail.error), calls;
      }
      thumbnailPath := Some(thumbnail.value);
    }
    var duration := end - start;
    r := Ok(MediaResult(data.outputPath, thumbnailPath, duration));
  }
}
