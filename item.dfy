/**
 * One image: `resize_image` and the `worker` that unpacks a work-list entry for it.
 * Decoding, resampling and saving are left to the image library; a `Job` records
 * what that library is asked to do.
 */
module Item {
  import opened Wrappers
  import opened Paths
  import opened Policy

  /** Read `source`, resize it with `strategy`, save the result at `output`. */
  datatype Job = Job(source: Path, strategy: Strategy, output: Path)

  datatype ItemError =
    | AssertionFailed(policy: PolicyError)  // `assert width or height`
    | ValueError(path: PathError)           // `file.relative_to(indir)`

  /**
   * `resize_image`. The assertion comes before anything else; the output path is
   * computed after the strategy, and fails when `file` is not below `indir`.
   */
  function ResizeImage(file: Path, indir: Path, outdir: Path, width: Dim, height: Dim): (r: Result<Job, ItemError>)
    ensures !Truthy(width) && !Truthy(height) ==> r == Err(AssertionFailed(NoDimension))
    ensures (Truthy(width) || Truthy(height)) && RelativeTo(file, indir).Err? ==> r == Err(ValueError(NotRelative(file, indir)))
    ensures r.Ok? <==> (Truthy(width) || Truthy(height)) && RelativeTo(file, indir).Ok?
    ensures r.Ok? ==> r.value.source == file
                      && Ok(r.value.strategy) == SelectStrategy(width, height)
                      && Ok(r.value.output) == MirrorPath(file, indir, outdir)
  {
    match SelectStrategy(width, height)
    case Err(e) => Err(AssertionFailed(e))
    case Ok(strategy) =>
      match MirrorPath(file, indir, outdir)
      case Err(e) => Err(ValueError(e))
      case Ok(output) => Ok(Job(file, strategy, output))
  }

  /**
   * For a valid file below `indir` and at least one truthy dimension, the job writes
   * at `outdir` followed by the file's components below `indir`.
   */
  lemma ResizeImageWritesUnderOutdir(file: Path, indir: Path, outdir: Path, width: Dim, height: Dim)
    requires ValidPath(file) && RelativeTo(file, indir).Ok?
    requires Truthy(width) || Truthy(height)
    ensures ResizeImage(file, indir, outdir, width, height).Ok?
    ensures ResizeImage(file, indir, outdir, width, height).value.output == outdir + file[|indir|..]
  {
    MirrorUnderOutdir(file, indir, outdir);
  }
}
