/** The glob pattern `resize_dir` hands to `directory.glob`. */
module Pattern {
  import opened Wrappers

  const RecursivePrefix: string := "**/*."
  const FlatPattern: string := "*.jpg"

  /**
   * Reads back the text after the "*." of a pattern of either shape. This is the
   * extension the pattern selects only when that text has no glob metacharacter
   * ('*', '?', '['); otherwise `glob` matches other suffixes too.
   */
  function PatternExt(pattern: string): Option<string>
  {
    if RecursivePrefix <= pattern then Some(pattern[|RecursivePrefix|..])
    else if "*." <= pattern then Some(pattern[2..])
    else None
  }

  /** Whether a pattern descends into sub-directories. */
  predicate Descends(pattern: string)
  {
    "**/" <= pattern
  }

  /**
   * The pattern chosen by `resize_dir`: recursive mode honours `ext` and descends
   * into sub-directories; flat mode stays in the directory and always names "jpg",
   * whatever `ext` is.
   */
  function GlobPattern(recursive: bool, ext: string): (r: string)
    ensures PatternExt(r) == Some(if recursive then ext else "jpg")
    ensures Descends(r) <==> recursive
  {
    if recursive then
      var r := RecursivePrefix + ext;
      assert r[..|RecursivePrefix|] == RecursivePrefix;
      assert r[..3] == "**/";
      r
    else
      assert FlatPattern[1] != RecursivePrefix[1] && FlatPattern[1] != '*';
      assert FlatPattern[..2] == "*.";
      FlatPattern
  }

  /** Flat mode ignores `--ext`: every extension gives the same pattern. */
  lemma FlatIgnoresExt(ext1: string, ext2: string)
    ensures GlobPattern(false, ext1) == GlobPattern(false, ext2) == "*.jpg"
  {
  }

  /** Recursive mode distinguishes extensions: different `ext` values give different patterns. */
  lemma RecursiveInjective(ext1: string, ext2: string)
    requires GlobPattern(true, ext1) == GlobPattern(true, ext2)
    ensures ext1 == ext2
  {
    assert PatternExt(GlobPattern(true, ext1)) == Some(ext1);
  }
}
