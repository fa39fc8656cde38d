/** The two POSIX path operations the bot and the pipelines use to find the
    results directory: `os.path.dirname` and `os.path.join` (as
    `posixpath` defines them). */
module Paths {

  /** Whether every character of `s` is a slash. */
  predicate AllSlashes(s: string) {
    forall i :: 0 <= i < |s| ==> s[i] == '/'
  }

  /** The length of `p` up to and including its last slash; 0 when it has none. */
  function LastSlashEnd(p: string): (i: nat)
    ensures i <= |p|
    ensures i > 0 ==> p[i - 1] == '/'
    ensures forall k :: i <= k < |p| ==> p[k] != '/'
  {
    if p == [] then 0
    else if p[|p| - 1] == '/' then |p|
    else LastSlashEnd(p[..|p| - 1])
  }

  /** `head.rstrip('/')` */
  function TrimSlashes(head: string): (r: string)
    ensures |r| <= |head| && r == head[..|r|]
    ensures r == [] || r[|r| - 1] != '/'
    ensures forall k :: |r| <= k < |head| ==> head[k] == '/'
  {
    if head != [] && head[|head| - 1] == '/' then TrimSlashes(head[..|head| - 1]) else head
  }

  /** `os.path.dirname(p)`: everything before the last slash, with the
      trailing slashes removed unless the head is nothing but slashes. */
  function Dirname(p: string): string {
    var head := p[..LastSlashEnd(p)];
    if head != "" && !AllSlashes(head) then TrimSlashes(head) else head
  }

  /** `os.path.join(a, b)` */
  function JoinPath(a: string, b: string): (r: string)
    ensures |b| > 0 && b[0] == '/' ==> r == b
  {
    if |b| > 0 && b[0] == '/' then b
    else if a == "" || a[|a| - 1] == '/' then a + b
    else a + "/" + b
  }

  /** A name joined under a directory that does not end in a slash. */
  lemma JoinUnder(dir: string, name: string)
    requires dir != "" && dir[|dir| - 1] != '/'
    requires name == [] || name[0] != '/'
    ensures JoinPath(dir, name) == dir + "/" + name
  {
  }

  /** The directory of an entry directly inside `dir` is `dir` again. */
  lemma DirnameOfChild(dir: string, name: string)
    requires dir != "" && dir[|dir| - 1] != '/'
    requires '/' !in name
    ensures Dirname(dir + "/" + name) == dir
  {
    var p := dir + "/" + name;
    assert LastSlashEnd(p) == |dir| + 1 by {
      var i := LastSlashEnd(p);
      assert p[|dir|] == '/';
      if i < |dir| + 1 {
        assert false;
      }
    }
    var head := p[..|dir| + 1];
    assert head == dir + "/";
    assert !AllSlashes(head) by {
      assert head[|dir| - 1] == dir[|dir| - 1];
    }
    assert TrimSlashes(head) == dir by {
      assert head[..|head| - 1] == dir;
    }
  }

  /** `os.path.join(os.path.dirname(json_dir), "results")` for
      `json_dir = os.path.dirname(json_path)`: the `results` directory
      beside the directory that holds the JSON file. */
  function ResultsDirFor(jsonPath: string): string {
    JoinPath(Dirname(Dirname(jsonPath)), "results")
  }

  /** For `base/sub/file.json` the results go to `base/results`. */
  lemma ResultsBesideData(base: string, sub: string, file: string)
    requires base != "" && base[|base| - 1] != '/'
    requires sub != "" && '/' !in sub && '/' !in file
    ensures ResultsDirFor(base + "/" + sub + "/" + file) == base + "/results"
  {
    var dir := base + "/" + sub;
    assert dir[|dir| - 1] == sub[|sub| - 1];
    assert sub[|sub| - 1] != '/';
    DirnameOfChild(dir, file);
    assert dir + "/" + file == base + "/" + sub + "/" + file;
    DirnameOfChild(base, sub);
    JoinUnder(base, "results");
  }
}
