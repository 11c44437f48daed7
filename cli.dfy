/**
 * The `__main__` block: argparse's conversions (`open_dir`, `open_file`, the
 * required `--outdir`), the three `parser.error` checks, and the dispatch to
 * `resize_dir` or `resize_image`.
 */
module Cli {
  import opened Wrappers
  import opened Paths
  import opened Policy
  import opened Item
  import opened Batch

  /**
   * What argparse collected: options not given are `None`; `--recursive` is false
   * unless given, and `--ext` is "jpg" unless given.
   */
  datatype Options = Options(
    width: Dim, height: Dim,
    dir: Option<Path>, recursive: bool, file: Option<Path>,
    outdir: Option<Path>, ext: string)

  /** The existence checks `is_dir` and `is_file`, as the sets of paths they accept. */
  datatype FileSystem = FileSystem(dirs: set<Path>, files: set<Path>)

  /** The `argparse.ArgumentTypeError` raised by `open_dir` and `open_file`. */
  datatype ArgumentTypeError = NotADirectory(path: Path) | NotAFile(path: Path)

  /** `open_dir`: the path itself when it names an existing directory. */
  function OpenDir(p: Path, fs: FileSystem): (r: Result<Path, ArgumentTypeError>)
    ensures r.Ok? <==> p in fs.dirs
    ensures r.Ok? ==> r.value == p
    ensures r.Err? ==> r.error == NotADirectory(p)
  {
    if p in fs.dirs then Ok(p) else Err(NotADirectory(p))
  }

  /** `open_file`: the path itself when it names an existing regular file. */
  function OpenFile(p: Path, fs: FileSystem): (r: Result<Path, ArgumentTypeError>)
    ensures r.Ok? <==> p in fs.files
    ensures r.Ok? ==> r.value == p
    ensures r.Err? ==> r.error == NotAFile(p)
  {
    if p in fs.files then Ok(p) else Err(NotAFile(p))
  }

  datatype CliError =
    | BadArgument        // open_dir / open_file raised, or --outdir is missing: argparse exits first
    | DimensionMissing   // neither --width nor --height is truthy
    | NoSource           // neither --dir nor --file
    | BothSources        // both --dir and --file

  datatype Command =
    | RunDir(directory: Path, outdir: Path, recursive: bool, width: Dim, height: Dim, ext: string)
    | RunFile(file: Path, indir: Path, outdir: Path, width: Dim, height: Dim)

  /**
   * Argparse accepts the path options: every `--dir` / `--outdir` converts with
   * `open_dir`, a `--file` with `open_file`, and the required `--outdir` is there.
   */
  predicate ArgumentsConvert(opts: Options, fs: FileSystem): (ok: bool)
    ensures ok <==> && (opts.dir.Some? ==> opts.dir.value in fs.dirs)
                    && (opts.file.Some? ==> opts.file.value in fs.files)
                    && opts.outdir.Some? && opts.outdir.value in fs.dirs
  {
    && (opts.dir.Some? ==> OpenDir(opts.dir.value, fs).Ok?)
    && (opts.file.Some? ==> OpenFile(opts.file.value, fs).Ok?)
    && opts.outdir.Some? && OpenDir(opts.outdir.value, fs).Ok?
  }

  /**
   * Argparse's conversions fail first; then a truthy width or height is
   * demanded, then exactly one of `--dir` and `--file`. A directory goes to
   * `resize_dir` with the parsed options; a file to `resize_image` with `Path('.')`
   * (no components) as its input root.
   */
  function Dispatch(opts: Options, fs: FileSystem): (r: Result<Command, CliError>)
    ensures !ArgumentsConvert(opts, fs) ==> r == Err(BadArgument)
    ensures ArgumentsConvert(opts, fs) && !Truthy(opts.width) && !Truthy(opts.height) ==> r == Err(DimensionMissing)
    ensures r.Err? && r.error == NoSource <==>
              ArgumentsConvert(opts, fs) && (Truthy(opts.width) || Truthy(opts.height)) && opts.dir.None? && opts.file.None?
    ensures r.Err? && r.error == BothSources <==>
              ArgumentsConvert(opts, fs) && (Truthy(opts.width) || Truthy(opts.height)) && opts.dir.Some? && opts.file.Some?
    ensures r.Ok? <==>
              ArgumentsConvert(opts, fs) && (Truthy(opts.width) || Truthy(opts.height)) && (opts.dir.Some? != opts.file.Some?)
    ensures r.Ok? && opts.dir.Some? ==>
              r.value == RunDir(opts.dir.value, opts.outdir.value, opts.recursive, opts.width, opts.height, opts.ext)
    ensures r.Ok? && opts.file.Some? ==>
              r.value == RunFile(opts.file.value, [], opts.outdir.value, opts.width, opts.height)
  {
    if !ArgumentsConvert(opts, fs) then Err(BadArgument)
    else if !(Truthy(opts.width) || Truthy(opts.height)) then Err(DimensionMissing)
    else if !(opts.dir.Some? || opts.file.Some?) then Err(NoSource)
    else if opts.dir.Some? && opts.file.Some? then Err(BothSources)
    else if opts.dir.Some? then Ok(RunDir(opts.dir.value, opts.outdir.value, opts.recursive, opts.width, opts.height, opts.ext))
    else Ok(RunFile(opts.file.value, [], opts.outdir.value, opts.width, opts.height))
  }

  /** Whatever the CLI lets through never trips the assertion of `resize_image`. */
  lemma DispatchSatisfiesAssertion(opts: Options, fs: FileSystem)
    requires Dispatch(opts, fs).Ok?
    ensures SelectStrategy(Dispatch(opts, fs).value.width, Dispatch(opts, fs).value.height).Ok?
  {
  }

  /** How one run of the script ends. */
  datatype RunOutcome =
    | Usage(error: CliError)
    | SingleFile(result: Result<Job, ItemError>)
    | Directory(pattern: string, outcome: DirOutcome)

  /**
   * The whole script: validation and dispatch, then one of the two modes.
   * `glob` and `response` stand for the filesystem enumeration and the prompt's answer.
   */
  method Run(opts: Options, fs: FileSystem, glob: (Path, string) -> seq<Path>, response: string)
    returns (o: RunOutcome)
    ensures Dispatch(opts, fs).Err? <==> o.Usage?
    ensures o.Usage? ==> o.error == Dispatch(opts, fs).error
    ensures o.SingleFile? <==> Dispatch(opts, fs).Ok? && Dispatch(opts, fs).value.RunFile?
    ensures o.SingleFile? ==> o.result == ResizeImage(opts.file.value, [], opts.outdir.value, opts.width, opts.height)
    ensures o.Directory? ==> o.pattern == Pattern.GlobPattern(opts.recursive, opts.ext)
    ensures o.Directory? ==> o.outcome.found == glob(opts.dir.value, o.pattern)
    ensures o.Directory? ==> (o.outcome.Canceled? <==> !Confirm.Proceeds(response))
    ensures o.Directory? && o.outcome.Ran? ==>
              IsWorkList(o.outcome.work, o.outcome.found, opts.dir.value, opts.outdir.value, opts.width, opts.height)
              && o.outcome.result == PoolMap(o.outcome.work)
  {
    var command := Dispatch(opts, fs);
    if command.Err? {
      return Usage(command.error);
    }
    match command.value
    case RunDir(directory, outdir, recursive, width, height, ext) =>
      var pattern, outcome := ResizeDir(directory, outdir, recursive, width, height, ext, glob, response);
      o := Directory(pattern, outcome);
    case RunFile(file, indir, outdir, width, height) =>
      o := SingleFile(ResizeImage(file, indir, outdir, width, height));
  }

  /** In file mode an absolute `--file` is rejected by `relative_to` with `ValueError`. */
  lemma AbsoluteFileFails(opts: Options, fs: FileSystem)
    requires Dispatch(opts, fs).Ok? && opts.file.Some? && Anchored(opts.file.value)
    ensures ResizeImage(opts.file.value, [], opts.outdir.value, opts.width, opts.height)
            == Err(ValueError(NotRelative(opts.file.value, [])))
  {
  }

  /** In file mode a relative, valid `--file` is written at `--outdir` followed by its own components. */
  lemma RelativeFileMirrored(opts: Options, fs: FileSystem)
    requires Dispatch(opts, fs).Ok? && opts.file.Some? && ValidPath(opts.file.value) && !Anchored(opts.file.value)
    ensures ResizeImage(opts.file.value, [], opts.outdir.value, opts.width, opts.height).Ok?
    ensures ResizeImage(opts.file.value, [], opts.outdir.value, opts.width, opts.height).value.output
            == opts.outdir.value + opts.file.value
  {
    ResizeImageWritesUnderOutdir(opts.file.value, [], opts.outdir.value, opts.width, opts.height);
  }

  /**
   * A `--file` starting with ".." passes every check and is written at `outdir`
   * followed by "..": the output is outside `--outdir` on disk, although `outdir`
   * is a component prefix of it.
   */
  lemma ParentFileLeavesOutdir(opts: Options, fs: FileSystem, name: string)
    requires Dispatch(opts, fs).Ok? && opts.file == Some(["..", name]) && ValidName(name)
    ensures ResizeImage(opts.file.value, [], opts.outdir.value, opts.width, opts.height).Ok?
    ensures ResizeImage(opts.file.value, [], opts.outdir.value, opts.width, opts.height).value.output
            == opts.outdir.value + ["..", name]
  {
    RelativeFileMirrored(opts, fs);
  }
}
