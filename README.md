# ImageResizer, modelled in Dafny

`resize.py` resizes one image (`--file`) or every matching image of a directory
(`--dir`, optionally `--recursive`, filtered by `--ext`) to a requested `--width`
and/or `--height`, and writes each result at the same relative place under
`--outdir`. This project models the decisions the script takes around the image
library, the filesystem, the prompt and the process pool, and proves what they
guarantee:

- `Paths` — paths as `pathlib` component sequences (an absolute path starts with
  the anchor "/", `Path('.')` is empty); `relative_to`, `joinpath` and the
  output-path mirroring of `resize_image`.
- `Policy` — Python truthiness of `--width`/`--height` (`None` and `0` are unset)
  and the three-way choice `resize_contain` / `resize_width` / `resize_crop`.
- `Confirm` — the `response.lower() in ["y", "yes"]` gate.
- `Pattern` — the glob pattern of `resize_dir`, including its quirk: flat mode
  always searches `*.jpg`, whatever `--ext` says.
- `Item` — `resize_image` as a function returning the job handed to the image
  library, or the exception it raises.
- `Batch` — `resize_dir` as a method with the two loops of the source (collect
  the paths, build the work list) and `p.map(worker, exp)` as a function.
- `Cli` — argparse's path conversions, the checks of the `__main__` block and the
  dispatch to directory or file mode; `Run` is the whole script.

The filesystem enters as values: the existence checks of `open_dir`/`open_file`
are the sets of directories and files that exist, `directory.glob(pattern)` is a
function parameter, and the answer typed at the prompt is a string parameter.

## Model

| member | source | states |
|---|---|---|
| `Paths.RelativeTo` | resize.py:66 | succeeds exactly when the root is a component prefix of the path (and, for the empty root `Path('.')`, the path is not absolute); the root followed by the result gives back the path; otherwise `ValueError` naming both |
| `Paths.JoinPath` | resize.py:67 | the joined path always ends with the right operand; an absolute right operand replaces the base; a relative one is appended after it |
| `Paths.MirrorPath` | resize.py:66-67 | the output path exists exactly when `indir` is a prefix of the file (not absolute when `indir` is `Path('.')`); otherwise the `ValueError` of `relative_to` |
| `Paths.RelativeNotAnchored` | resize.py:66 | what `relative_to` leaves of a well-formed path is never absolute, so `joinpath` keeps the output root in front of it |
| `Paths.MirrorUnderOutdir` | resize.py:66-67 | the output path is `outdir` followed by the file's components below `indir`: `outdir` is a component prefix of it and the sub-directories are kept |
| `Paths.MirrorClimbs` | resize.py:66-67 | the components after `outdir` contain ".." exactly when the file's components after `indir` do, so the output stays inside `outdir` on disk exactly when the file stays inside `indir` |
| `Paths.MirrorRoundTrip` | resize.py:66-67 | making the output path relative to `outdir` gives back the file's path relative to `indir` |
| `Paths.MirrorInjective` | resize.py:66-67 | two different files below the same input root never get the same output path |
| `Paths.MirrorValid` | resize.py:66-67 | re-rooting a well-formed file under a well-formed output directory gives a well-formed path |
| `Paths.AnchoredFileNotRelativeToDot` | resize.py:66 | with `Path('.')` as root an absolute file fails with `ValueError` |
| `Policy.SelectStrategy` | resize.py:57-65 | fails (the assertion) exactly when neither dimension is truthy; otherwise the strategy fixes exactly the truthy dimensions and leaves the others free |
| `Policy.StrategyCases` | resize.py:60-65 | both truthy gives contain with box `[width, height]`; width only gives by-width; height only gives crop with `height` |
| `Policy.HeightOnlyCrops` | resize.py:62-65 | without a truthy width the strategy is always a crop, never a proportional by-height resize |
| `Policy.StrategyRoundTrip` | resize.py:57-65 | a selected strategy has no zero dimension, and selecting again from its own dimensions gives the same strategy |
| `Policy.SelectFromOwnDimensions` | resize.py:60-65 | every strategy without a zero dimension is the one selected from its own dimensions |
| `Confirm.Lower` | resize.py:42 | lower-casing keeps the length and lowers each character in place |
| `Confirm.Proceeds` | resize.py:42-44 | the batch proceeds exactly on "y" or "yes" in any mix of cases; every other answer cancels |
| `Confirm.EmptyCancels` | resize.py:40-43 | the empty answer cancels, although the prompt offers "(Y/n)" |
| `Confirm.LowerIdempotent` | resize.py:42 | lower-casing a lower-cased answer changes nothing |
| `Pattern.GlobPattern` | resize.py:29-32 | the text after "*." in the pattern is `ext` in recursive mode and "jpg" in flat mode, and the pattern descends into sub-directories exactly in recursive mode (an `ext` holding `*`, `?` or `[` matches other suffixes as well) |
| `Pattern.FlatIgnoresExt` | resize.py:31-32 | flat mode yields `*.jpg` for every extension |
| `Pattern.RecursiveInjective` | resize.py:29-30 | different extensions give different recursive patterns |
| `Item.ResizeImage` | resize.py:56-70 | the assertion fails first when no dimension is truthy; then a file outside `indir` raises `ValueError`; otherwise the job reads the file, uses the selected strategy and writes to the mirrored path |
| `Item.ResizeImageWritesUnderOutdir` | resize.py:56-67 | a well-formed file below `indir` with a truthy dimension is written at `outdir` followed by its components below `indir` |
| `Batch.Worker` | resize.py:23-25 | the worker succeeds exactly when `resize_image` does for the entry's fields, and its job reads the entry's path, uses the strategy of the entry's dimensions and writes at the entry's mirrored path |
| `Batch.MapAll` | resize.py:49-50 | mapping a raising function over a list: every result in order exactly when no call raises, otherwise the error of some failing element |
| `Batch.PoolMap` | resize.py:49-50 | all jobs, in work-list order, exactly when no worker raises; otherwise the exception of some failing entry |
| `Batch.ResizeDir` | resize.py:28-50 | the pattern is the glob pattern of the options; the collected paths are the enumeration in order; the run is canceled exactly when the gate refuses; a confirmed run builds one entry per path, in order, with the same directory, output root and dimensions, and maps the worker over it |
| `Batch.DirRunSucceeds` | resize.py:46-50 | with a truthy dimension and enumerated paths below the directory, every worker succeeds with the same strategy, each writes at its mirrored place, and distinct files never share an output |
| `Cli.OpenDir` | resize.py:9-13 | returns the path unchanged exactly when it names an existing directory, otherwise `ArgumentTypeError` naming it |
| `Cli.OpenFile` | resize.py:16-20 | returns the path unchanged exactly when it names an existing file, otherwise `ArgumentTypeError` naming it |
| `Cli.ArgumentsConvert` | resize.py:84-89 | argparse accepts the path options exactly when a given `--dir` is a directory, a given `--file` is a file, and the required `--outdir` is given and is a directory |
| `Cli.Dispatch` | resize.py:84-106 | argparse's path conversions fail first; then no truthy dimension, then neither source, then both sources are errors, in that order; otherwise directory mode with the parsed options or file mode with `Path('.')` as root |
| `Cli.DispatchSatisfiesAssertion` | resize.py:94-95 | everything the CLI lets through satisfies the assertion of `resize_image` |
| `Cli.Run` | resize.py:93-106 | a usage error exactly when dispatch fails; file mode runs `resize_image` with root `Path('.')`; directory mode runs `resize_dir` with the parsed options, the pattern they select, and the gate deciding cancellation |
| `Cli.AbsoluteFileFails` | resize.py:106 | an absolute `--file` passes the CLI checks and then fails with `ValueError` in `relative_to` |
| `Cli.RelativeFileMirrored` | resize.py:106 | a relative `--file` is written at `--outdir` followed by the file's components |
| `Cli.ParentFileLeavesOutdir` | resize.py:66-70 | a `--file` of the form `../name` passes every check and is written at `--outdir` followed by "..", that is, outside `--outdir` on disk |

## Left out

- Image decoding, the three resampling calls of `resizeimage` and `save`: foreign library calls; a `Job` only records the strategy and the paths. A decoding failure, which would come before `relative_to`, is therefore not modelled.
- `mkdir(parents=True)` and the existence test of the output's parent: filesystem effects.
- What `glob` returns: an input of `ResizeDir`; that it yields paths below the directory is a requirement of `DirRunSucceeds`, not proved.
- `multiprocessing.Pool(cpu_count())`: concurrency. `Batch.PoolMap` does not say which exception reaches the caller when several workers raise, because that depends on scheduling.
- The timing print and the "N image(s) to resize", "Canceled." and "Took ... sec." messages: clock, floating-point formatting and output only.
- The text of the messages passed to `parser.error`, and argparse itself (flag syntax, exit status 2); when several path arguments fail to convert, which one argparse reports is not modelled (all are `BadArgument`).
- Confirm.Lower: lowers ASCII capitals only, not full Unicode `str.lower()`; no other character lowercases to "y", "e" or "s", so the accepted answers are the same.
- Paths: POSIX paths only; Windows drives and case-insensitive comparison are not modelled. Paths are compared lexically, as `pathlib` does: ".." is an ordinary component and symbolic links are not followed, so "under `outdir`" in this model means "has `outdir` as a component prefix".
