/** The few path computations the synchroniser does on strings: `PurePath.stem`,
    `os.path.basename`, `os.path.dirname` and joining a directory with a name. */
module Paths {
  import opened Common
  import opened Text

  /** `PurePath(name).stem` for a final path component: the name without its last suffix. A dot
      at index 0 does not start a suffix, and neither does a dot that ends the name. */
  function Stem(name: string): (r: string)
    ensures r <= name
  {
    match LastIndexOf(name, '.')
    case Some(i) => if 0 < i < |name| - 1 then name[..i] else name
    case None => name
  }

  /** A name that the glob `*.md` matches. */
  predicate IsMarkdownName(name: string) {
    |name| >= 3 && name[|name| - 3..] == ".md"
  }

  /** The stem of a `*.md` name is the name without its final ".md", except for the name ".md"
      itself, whose only dot is a leading one. */
  lemma StemOfMarkdown(name: string)
    requires IsMarkdownName(name)
    ensures Stem(name) == if |name| > 3 then name[..|name| - 3] else name
  {
    var n := |name|;
    assert name[n - 3] == '.' && name[n - 2] == 'm' && name[n - 1] == 'd' by {
      assert name[n - 3..][0] == '.' && name[n - 3..][1] == 'm' && name[n - 3..][2] == 'd';
    }
    var r := LastIndexOf(name, '.');
    assert r.Some?;
    assert r.value == n - 3;
  }

  /** `os.path.basename`: what follows the last '/'. */
  function BaseName(p: string): (r: string)
    ensures '/' !in r
    ensures '/' !in p ==> r == p
  {
    match LastIndexOf(p, '/')
    case Some(i) => p[i + 1..]
    case None => p
  }

  /** s without its trailing '/' characters (`s.rstrip('/')`). */
  function StripTrailingSlashes(s: string): (r: string)
    ensures r <= s && (r == [] || r[|r| - 1] != '/')
    ensures forall i :: |r| <= i < |s| ==> s[i] == '/'
  {
    if s != [] && s[|s| - 1] == '/' then StripTrailingSlashes(s[..|s| - 1]) else s
  }

  /** `os.path.dirname`: everything up to the last '/', without the trailing slashes unless it
      consists of slashes only. */
  function DirName(p: string): string {
    match LastIndexOf(p, '/')
    case None => ""
    case Some(i) =>
      var head := p[..i + 1];
      if forall k :: 0 <= k < |head| ==> head[k] == '/' then head else StripTrailingSlashes(head)
  }

  /** `str(Path(dir) / name)`, without pathlib's normalisation of repeated or trailing slashes. */
  function Join(dir: string, name: string): string {
    dir + "/" + name
  }

  /** The stem of the file `<dir>/<name>.md` is name again: the skill generator's default name for
      the command file the orchestrator passes it. */
  lemma StemOfCommandFile(dir: string, name: string)
    requires name != [] && '/' !in name
    ensures Stem(BaseName(Join(dir, name + ".md"))) == name
  {
    var p := Join(dir, name + ".md");
    var i := |dir|;
    assert p[i] == '/';
    assert p[i + 1..] == name + ".md";
    var r := LastIndexOf(p, '/');
    assert r.Some?;
    assert BaseName(p) == name + ".md";
    StemOfMarkdown(name + ".md");
    assert (name + ".md")[..|name|] == name;
  }

  /** The name of the directory holding `<dir>/<name>/SKILL.md` is name again: the command
      generator's default name for the skill file the orchestrator passes it. */
  lemma ParentOfSkillFile(dir: string, name: string)
    requires name != [] && '/' !in name
    ensures BaseName(DirName(Join(Join(dir, name), "SKILL.md"))) == name
  {
    var p := Join(Join(dir, name), "SKILL.md");
    var slash := |dir| + 1 + |name|;
    assert p[slash] == '/';
    assert p[slash + 1..] == "SKILL.md";
    var r := LastIndexOf(p, '/');
    assert r.Some?;
    var head := p[..slash + 1];
    assert head[|head| - 2] == name[|name| - 1] != '/';
    var stripped := StripTrailingSlashes(head);
    assert stripped == p[..slash] by {
      assert head[..|head| - 1] == p[..slash];
      assert StripTrailingSlashes(head) == StripTrailingSlashes(head[..|head| - 1]);
    }
    assert p[..slash] == dir + "/" + name;
    assert DirName(p) == dir + "/" + name;
    var q := dir + "/" + name;
    var s := LastIndexOf(q, '/');
    assert q[|dir|] == '/';
    assert s.Some?;
    assert q[|dir| + 1..] == name;
  }
}
