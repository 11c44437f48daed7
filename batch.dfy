/**
 * `resize_dir`: choose the glob pattern, collect the matching paths, ask for
 * confirmation, build one work-list entry per path and map `worker` over it.
 * The filesystem enumeration and the answer typed at the prompt are inputs;
 * the process pool is replaced by its result.
 */
module Batch {
  import opened Wrappers
  import opened Paths
  import opened Policy
  import opened Pattern
  import opened Confirm
  import opened Item

  /** One entry of `exp`, the argument list `[path, directory, outdir, width, height]`. */
  datatype WorkItem = WorkItem(path: Path, directory: Path, outdir: Path, width: Dim, height: Dim)

  /** How a directory run ends: canceled at the prompt, or every entry handed to the pool. */
  datatype DirOutcome =
    | Canceled(found: seq<Path>)
    | Ran(found: seq<Path>, work: seq<WorkItem>, result: Result<seq<Job>, ItemError>)

  /** `worker`: unpacks an entry, in order, into the arguments of `resize_image`. */
  function Worker(item: WorkItem): (r: Result<Job, ItemError>)
    ensures r.Ok? <==> (Truthy(item.width) || Truthy(item.height)) && RelativeTo(item.path, item.directory).Ok?
    ensures r.Ok? ==> r.value.source == item.path
                      && Ok(r.value.strategy) == SelectStrategy(item.width, item.height)
                      && Ok(r.value.output) == MirrorPath(item.path, item.directory, item.outdir)
  {
    ResizeImage(item.path, item.directory, item.outdir, item.width, item.height)
  }

  /** `work` has one entry per path, in order, sharing the other four fields. */
  predicate IsWorkList(work: seq<WorkItem>, paths: seq<Path>, directory: Path, outdir: Path, width: Dim, height: Dim)
  {
    && |work| == |paths|
    && forall i :: 0 <= i < |work| ==> work[i] == WorkItem(paths[i], directory, outdir, width, height)
  }

  /**
   * Maps a raising function over a list: every result, in order, when no call
   * raises; otherwise the error of some failing element.
   */
  function MapAll<A, B, E>(f: A -> Result<B, E>, xs: seq<A>): (r: Result<seq<B>, E>)
    ensures r.Ok? <==> forall i :: 0 <= i < |xs| ==> f(xs[i]).Ok?
    ensures r.Ok? ==> |r.value| == |xs| && forall i :: 0 <= i < |xs| ==> f(xs[i]) == Ok(r.value[i])
    ensures r.Err? ==> exists i :: 0 <= i < |xs| && f(xs[i]) == Err(r.error)
  {
    if xs == [] then Ok([])
    else
      var head := f(xs[0]);
      var rest := MapAll(f, xs[1..]);
      assert forall k :: 1 <= k < |xs| ==> xs[1..][k - 1] == xs[k];
      match head
      case Err(e) => Err(e)
      case Ok(y) =>
        match rest
        case Err(e) => Err(e)
        case Ok(ys) => Ok([y] + ys)
  }

  /**
   * `p.map(worker, exp)`: all jobs, in the order of `work`, when no worker raises;
   * otherwise the exception of some failing entry (which one reaches the caller
   * depends on scheduling, so the contract does not say).
   */
  function PoolMap(work: seq<WorkItem>): (r: Result<seq<Job>, ItemError>)
    ensures r.Ok? <==> forall i :: 0 <= i < |work| ==> Worker(work[i]).Ok?
    ensures r.Ok? ==> |r.value| == |work| && forall i :: 0 <= i < |work| ==> Worker(work[i]) == Ok(r.value[i])
    ensures r.Err? ==> exists i :: 0 <= i < |work| && Worker(work[i]) == Err(r.error)
  {
    MapAll(Worker, work)
  }

  /**
   * `resize_dir`. `glob(directory, pattern)` stands for `directory.glob(pattern)` and
   * `response` for what `input` returns.
   */
  method ResizeDir(directory: Path, outdir: Path, recursive: bool, width: Dim, height: Dim, ext: string,
                   glob: (Path, string) -> seq<Path>, response: string)
    returns (pattern: string, outcome: DirOutcome)
    ensures pattern == GlobPattern(recursive, ext)
    ensures outcome.found == glob(directory, pattern)
    ensures outcome.Canceled? <==> !Proceeds(response)
    ensures outcome.Ran? ==> IsWorkList(outcome.work, outcome.found, directory, outdir, width, height)
    ensures outcome.Ran? ==> outcome.result == PoolMap(outcome.work)
  {
    pattern := GlobPattern(recursive, ext);
    var generator := glob(directory, pattern);

    var paths: seq<Path> := [];
    for i := 0 to |generator|
      invariant paths == generator[..i]
    {
      paths := paths + [generator[i]];
    }

    if !Proceeds(response) {
      return pattern, Canceled(paths);
    }

    var exp: seq<WorkItem> := [];
    for i := 0 to |paths|
      invariant |exp| == i
      invariant forall k :: 0 <= k < i ==> exp[k] == WorkItem(paths[k], directory, outdir, width, height)
    {
      exp := exp + [WorkItem(paths[i], directory, outdir, width, height)];
    }
    outcome := Ran(paths, exp, PoolMap(exp));
  }

  /**
   * A confirmed run over paths that the enumeration found below `directory`, with a
   * validated width/height: every worker succeeds, all use the same strategy, each
   * writes at `outdir` followed by its file's components below `directory`, and
   * distinct files never share an output.
   */
  lemma DirRunSucceeds(found: seq<Path>, work: seq<WorkItem>, directory: Path, outdir: Path, width: Dim, height: Dim)
    requires IsWorkList(work, found, directory, outdir, width, height)
    requires Truthy(width) || Truthy(height)
    requires forall i :: 0 <= i < |found| ==> ValidPath(found[i]) && RelativeTo(found[i], directory).Ok?
    ensures PoolMap(work).Ok?
    ensures forall i :: 0 <= i < |work| ==>
              PoolMap(work).value[i] == Job(found[i], SelectStrategy(width, height).value, outdir + found[i][|directory|..])
    ensures forall i, j :: 0 <= i < |work| && 0 <= j < |work| && found[i] != found[j] ==>
              PoolMap(work).value[i].output != PoolMap(work).value[j].output
  {
    forall i | 0 <= i < |work|
      ensures Worker(work[i]) == Ok(Job(found[i], SelectStrategy(width, height).value, outdir + found[i][|directory|..]))
    {
      ResizeImageWritesUnderOutdir(found[i], directory, outdir, width, height);
    }
    forall i, j | 0 <= i < |work| && 0 <= j < |work| && found[i] != found[j]
      ensures PoolMap(work).value[i].output != PoolMap(work).value[j].output
    {
      if PoolMap(work).value[i].output == PoolMap(work).value[j].output {
        MirrorInjective(found[i], found[j], directory, outdir);
      }
    }
  }
}
