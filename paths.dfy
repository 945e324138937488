/** The paths and URLs the handler builds (src/index.ts lines 27, 36-37,
    51, 59, 65 and 68). `path.join` is modelled as concatenation with "/"
    of segments that are already normalised: the output directory has no
    trailing "/" and no "." or ".." segments. */
module Paths {
  import opened Wrappers

  type Path = string

  /** `path.join(dir, name)` on normalised segments. */
  function Join(dir: Path, name: string): (p: Path)
    ensures InSubtree(p, dir) && p != dir
    ensures |p| == |dir| + 1 + |name|
  {
    dir + "/" + name
  }

  /** The per-request workspace, `temp-{renderId}` in the output directory. */
  function TempDir(outputDir: Path, renderId: string): Path {
    Join(outputDir, "temp-" + renderId)
  }

  /** The rendered artifact, `{renderId}.mp4` in the output directory. */
  function OutputPath(outputDir: Path, renderId: string): Path {
    Join(outputDir, renderId + ".mp4")
  }

  const ComponentFileName: string := "Component.tsx"
  const EntryFileName: string := "index.tsx"
  const ManifestFileName: string := "package.json"

  /** The request's protocol, "://", then its Host header; a request
      without a Host header puts the text "undefined" in its place. */
  function BaseUrl(protocol: string, host: Option<string>): string {
    protocol + "://" + host.GetOr("undefined")
  }

  /** The public address of the video: the base URL, the "/renders" prefix
      under which the static route serves the output directory, and the
      artifact's file name. */
  function VideoUrl(baseUrl: string, renderId: string): string {
    baseUrl + "/renders/" + renderId + ".mp4"
  }

  /** `p` is `d` itself or lies below it: what a recursive `rmSync(d)`
      removes. */
  predicate InSubtree(p: Path, d: Path) {
    p == d || d + "/" <= p
  }

  /** The proper ancestors of a path: its prefixes that end just before a
      "/" (not counting a leading "/"). */
  function Ancestors(p: Path): set<Path> {
    set i | 0 < i < |p| && p[i] == '/' :: p[..i]
  }

  predicate IsHexDigit(c: char) {
    '0' <= c <= '9' || 'a' <= c <= 'f'
  }

  /** The shape of a `uuidv4()` result: 8-4-4-4-12 lower-case hexadecimal
      digits, version digit 4, variant digit 8, 9, a or b. */
  predicate IsUuid(id: string) {
    && |id| == 36
    && (forall i :: 0 <= i < 36 && (i == 8 || i == 13 || i == 18 || i == 23) ==> id[i] == '-')
    && (forall i :: 0 <= i < 36 && i != 8 && i != 13 && i != 18 && i != 23 ==> IsHexDigit(id[i]))
    && id[14] == '4'
    && id[19] in "89ab"
  }

  /** A uuid contains no path separator. */
  lemma UuidHasNoSeparator(id: string)
    requires IsUuid(id)
    ensures '/' !in id
  {
    forall i | 0 <= i < |id| ensures id[i] != '/' {
      if i == 8 || i == 13 || i == 18 || i == 23 {
        assert id[i] == '-';
      } else {
        assert IsHexDigit(id[i]);
      }
    }
  }

  /** Two renders get the same workspace only if they have the same id. */
  lemma TempDirInjective(outputDir: Path, a: string, b: string)
    requires TempDir(outputDir, a) == TempDir(outputDir, b)
    ensures a == b
  {
    var k := |outputDir| + 6;
    assert a == TempDir(outputDir, a)[k..];
    assert b == TempDir(outputDir, b)[k..];
  }

  /** Two renders write the same artifact only if they have the same id. */
  lemma OutputPathInjective(outputDir: Path, a: string, b: string)
    requires OutputPath(outputDir, a) == OutputPath(outputDir, b)
    ensures a == b
  {
    var k := |outputDir| + 1;
    var pa, pb := OutputPath(outputDir, a), OutputPath(outputDir, b);
    assert a == pa[k..|pa| - 4];
    assert b == pb[k..|pb| - 4];
  }

  /** Two renders report the same URL only if they have the same id. */
  lemma VideoUrlInjective(baseUrl: string, a: string, b: string)
    requires VideoUrl(baseUrl, a) == VideoUrl(baseUrl, b)
    ensures a == b
  {
    var k := |baseUrl| + 9;
    var ua, ub := VideoUrl(baseUrl, a), VideoUrl(baseUrl, b);
    assert a == ua[k..|ua| - 4];
    assert b == ub[k..|ub| - 4];
  }

  /** The workspaces of two renders with distinct uuids share no path, so
      removing one never removes anything of the other. */
  lemma TempDirsDisjoint(outputDir: Path, a: string, b: string, p: Path)
    requires IsUuid(a) && IsUuid(b) && a != b
    ensures !(InSubtree(p, TempDir(outputDir, a)) && InSubtree(p, TempDir(outputDir, b)))
  {
    var ta, tb := TempDir(outputDir, a), TempDir(outputDir, b);
    if InSubtree(p, ta) && InSubtree(p, tb) {
      assert |ta| == |tb|;
      assert ta == p[..|ta|];
      assert tb == p[..|tb|];
      TempDirInjective(outputDir, a, b);
      assert false;
    }
  }

  /** No artifact, of this render or of any other, lies inside a workspace:
      the artifact name is one character shorter than the workspace name. */
  lemma OutputOutsideTempDirs(outputDir: Path, a: string, b: string)
    requires |a| == |b|
    ensures !InSubtree(OutputPath(outputDir, b), TempDir(outputDir, a))
  {
    assert |OutputPath(outputDir, b)| < |TempDir(outputDir, a)|;
  }

  /** The directories that the recursive `mkdirSync` of the workspace may have
      to create above the workspace all lie at or above the output
      directory, so none of them is a path another render owns. */
  lemma TempDirAncestorsAboveOutput(outputDir: Path, renderId: string, q: Path)
    requires '/' !in renderId
    requires q in Ancestors(TempDir(outputDir, renderId))
    ensures |q| <= |outputDir|
  {
    var t := TempDir(outputDir, renderId);
    forall j | |outputDir| < j < |t|
      ensures t[j] != '/'
    {
      if j >= |outputDir| + 6 {
        assert t[j] == renderId[j - |outputDir| - 6];
      }
    }
    var i :| 0 < i < |t| && t[i] == '/' && q == t[..i];
  }
}
