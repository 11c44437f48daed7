/**
 * POSIX paths as `pathlib` sees them: the sequence of their components
 * (`PurePath.parts`). An absolute path starts with the anchor component "/";
 * `Path('.')` has no components at all.
 */
module Paths {
  import opened Wrappers

  type Path = seq<string>

  const Anchor: string := "/"

  /**
   * A component `pathlib` keeps after normalisation: not empty, not ".", no separator.
   * ".." is kept as it is: `pathlib` does not resolve it.
   */
  predicate ValidName(c: string)
  {
    c != "" && c != "." && '/' !in c
  }

  /** What `pathlib` can produce: the anchor may only come first, every other component is a name. */
  predicate ValidPath(p: Path)
  {
    forall i :: 0 <= i < |p| ==> ValidName(p[i]) || (i == 0 && p[i] == Anchor)
  }

  predicate Anchored(p: Path)
  {
    |p| > 0 && p[0] == Anchor
  }

  /** The `ValueError` raised by `relative_to`. */
  datatype PathError = NotRelative(path: Path, root: Path)

  /**
   * `p.relative_to(root)`: a lexical prefix strip. With the empty root (`Path('.')`)
   * pathlib accepts exactly the paths without an anchor.
   */
  function RelativeTo(p: Path, root: Path): (r: Result<Path, PathError>)
    ensures r.Ok? <==> root <= p && !(root == [] && Anchored(p))
    ensures r.Ok? ==> root + r.value == p
    ensures r.Err? ==> r.error == NotRelative(p, root)
  {
    if root <= p && !(root == [] && Anchored(p)) then Ok(p[|root|..]) else Err(NotRelative(p, root))
  }

  /** `base.joinpath(q)`: an anchored `q` replaces `base`, anything else is appended to it. */
  function JoinPath(base: Path, q: Path): (r: Path)
    ensures |q| <= |r| && r[|r| - |q|..] == q
    ensures Anchored(q) ==> r == q
    ensures !Anchored(q) ==> base <= r && |r| == |base| + |q|
  {
    if Anchored(q) then q else base + q
  }

  /** The output path of `resize_image`: `outdir.joinpath(file.relative_to(indir))`. */
  function MirrorPath(file: Path, indir: Path, outdir: Path): (r: Result<Path, PathError>)
    ensures r.Ok? <==> indir <= file && !(indir == [] && Anchored(file))
    ensures r.Err? ==> r.error == NotRelative(file, indir)
  {
    match RelativeTo(file, indir)
    case Ok(rel) => Ok(JoinPath(outdir, rel))
    case Err(e) => Err(e)
  }

  /**
   * What is left of a valid path after a successful `relative_to` never carries the
   * anchor, so `joinpath` keeps `outdir` in front of it.
   */
  lemma RelativeNotAnchored(p: Path, root: Path)
    requires ValidPath(p) && RelativeTo(p, root).Ok?
    ensures !Anchored(RelativeTo(p, root).value)
  {
    var rel := RelativeTo(p, root).value;
    if |rel| > 0 {
      assert rel[0] == p[|root|];
      if root == [] {
        assert !Anchored(p);
      } else {
        assert ValidName(p[|root|]);
      }
    }
  }

  /**
   * The output path is `outdir` followed by the components of `file` below `indir`:
   * `outdir` is a component prefix of it, and the file's sub-directories are kept.
   * The prefix is lexical: a ".." among the kept components leads out of `outdir`.
   */
  lemma MirrorUnderOutdir(file: Path, indir: Path, outdir: Path)
    requires ValidPath(file) && indir <= file && !(indir == [] && Anchored(file))
    ensures MirrorPath(file, indir, outdir) == Ok(outdir + file[|indir|..])
    ensures outdir <= MirrorPath(file, indir, outdir).value
  {
    RelativeNotAnchored(file, indir);
  }

  /** Stripping `outdir` from the output gives back the file's place below `indir`. */
  lemma MirrorRoundTrip(file: Path, indir: Path, outdir: Path)
    requires ValidPath(file) && MirrorPath(file, indir, outdir).Ok?
    ensures RelativeTo(MirrorPath(file, indir, outdir).value, outdir) == RelativeTo(file, indir)
  {
    RelativeNotAnchored(file, indir);
    var rel := RelativeTo(file, indir).value;
    assert MirrorPath(file, indir, outdir).value == outdir + rel;
    assert (outdir + rel)[|outdir|..] == rel;
  }

  /** Two different files below the same input root never share an output path. */
  lemma MirrorInjective(f: Path, g: Path, indir: Path, outdir: Path)
    requires ValidPath(f) && ValidPath(g)
    requires MirrorPath(f, indir, outdir).Ok? && MirrorPath(g, indir, outdir).Ok?
    requires MirrorPath(f, indir, outdir) == MirrorPath(g, indir, outdir)
    ensures f == g
  {
    MirrorRoundTrip(f, indir, outdir);
    MirrorRoundTrip(g, indir, outdir);
    assert RelativeTo(f, indir) == RelativeTo(g, indir);
    assert f == indir + RelativeTo(f, indir).value;
  }

  /** Re-rooting a valid file under a valid output directory gives a valid path. */
  lemma MirrorValid(file: Path, indir: Path, outdir: Path)
    requires ValidPath(file) && ValidPath(outdir) && MirrorPath(file, indir, outdir).Ok?
    ensures ValidPath(MirrorPath(file, indir, outdir).value)
  {
    MirrorUnderOutdir(file, indir, outdir);
    var out := MirrorPath(file, indir, outdir).value;
    forall i | 0 <= i < |out|
      ensures ValidName(out[i]) || (i == 0 && out[i] == Anchor)
    {
      if i >= |outdir| {
        assert out[i] == file[|indir| + i - |outdir|];
        if |indir| + i - |outdir| == 0 {
          assert indir == [] && !Anchored(file);
        }
      }
    }
  }

  /** With `Path('.')` as the input root, an absolute file name is refused with `ValueError`. */
  lemma AnchoredFileNotRelativeToDot(file: Path, outdir: Path)
    requires Anchored(file)
    ensures MirrorPath(file, [], outdir) == Err(NotRelative(file, []))
  {
  }

  /** No ".." component: the path never climbs to a parent directory. */
  predicate Descending(p: Path)
  {
    forall i :: 0 <= i < |p| ==> p[i] != ".."
  }

  /**
   * The output leaves `outdir` exactly as the file leaves `indir`: the components
   * after `outdir` hold a ".." exactly when the components after `indir` do.
   */
  lemma MirrorClimbs(file: Path, indir: Path, outdir: Path)
    requires ValidPath(file) && MirrorPath(file, indir, outdir).Ok?
    ensures Descending(MirrorPath(file, indir, outdir).value[|outdir|..]) <==> Descending(file[|indir|..])
  {
    MirrorUnderOutdir(file, indir, outdir);
    assert MirrorPath(file, indir, outdir).value[|outdir|..] == file[|indir|..];
  }
}
