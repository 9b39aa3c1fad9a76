/** The POSIX path-name operations the engine and the worker rely on,
    as pure string functions: `os.path.join` (two arguments),
    `os.path.split`, `os.path.splitext` and pathlib's `stem`.
    No file system is consulted. */
module PathNames {
  import opened Text

  /** `s.rfind(c)`: the last index holding `c`, or -1. */
  function LastIndexOf(s: string, c: char): (i: int)
    ensures -1 <= i < |s|
    ensures i >= 0 ==> s[i] == c
    ensures forall j :: i < j < |s| ==> s[j] != c
  {
    if s == [] then -1
    else if s[|s| - 1] == c then |s| - 1
    else LastIndexOf(s[..|s| - 1], c)
  }

  lemma LastIndexOfAbsent(s: string, c: char)
    requires forall j :: 0 <= j < |s| ==> s[j] != c
    ensures LastIndexOf(s, c) == -1
  {
  }

  lemma LastIndexOfAt(s: string, c: char, k: nat)
    requires k < |s| && s[k] == c
    requires forall j :: k < j < |s| ==> s[j] != c
    ensures LastIndexOf(s, c) == k
  {
  }

  predicate AllSlashes(s: string) {
    forall i :: 0 <= i < |s| ==> s[i] == '/'
  }

  function RStripSlashes(s: string): (r: string)
    ensures |r| <= |s| && r == s[..|r|]
    ensures r == [] || r[|r| - 1] != '/'
    ensures forall i :: |r| <= i < |s| ==> s[i] == '/'
  {
    if s != [] && s[|s| - 1] == '/' then RStripSlashes(s[..|s| - 1]) else s
  }

  /** `os.path.join(a, b)`: an absolute `b` replaces `a`; otherwise `b` is
      appended to `a` behind exactly one separator. */
  function Join(a: string, b: string): (r: string)
    ensures EndsWith(r, b)
    ensures !StartsWith(b, "/") ==> StartsWith(r, a)
  {
    if StartsWith(b, "/") then b
    else if a == "" || EndsWith(a, "/") then a + b
    else a + "/" + b
  }

  /** A name that does not start with a slash is relative. */
  lemma Relative(x: string)
    requires x != [] && x[0] != '/'
    ensures !StartsWith(x, "/")
  {
    assert x[..1] == [x[0]];
  }

  /** A relative name joined to a directory without a trailing slash is
      appended behind one separator. */
  lemma JoinRelative(a: string, b: string)
    requires a != "" && !EndsWith(a, "/") && !StartsWith(b, "/")
    ensures Join(a, b) == a + "/" + b
  {
  }

  /** Joining a relative name keeps every prefix of the directory. */
  lemma JoinKeepsPrefix(a: string, b: string, root: string)
    requires StartsWith(a, root) && !StartsWith(b, "/")
    ensures StartsWith(Join(a, b), root)
  {
    StartsWithTransitive(Join(a, b), a, root);
  }

  /** Joining different relative names to the same directory gives
      different paths. */
  lemma JoinDistinct(a: string, b1: string, b2: string)
    requires !StartsWith(b1, "/") && !StartsWith(b2, "/") && b1 != b2
    ensures Join(a, b1) != Join(a, b2)
  {
    var c := if a == "" || EndsWith(a, "/") then a else a + "/";
    assert Join(a, b1) == c + b1 && Join(a, b2) == c + b2;
    assert (c + b1)[|c|..] == b1 && (c + b2)[|c|..] == b2;
  }

  /** `os.path.split(p)`: everything after the last slash is the tail; the
      head loses its trailing slashes unless it consists of slashes only. */
  function Split(p: string): (parts: (string, string))
    ensures parts.1 == p[LastIndexOf(p, '/') + 1..]
    ensures forall j :: 0 <= j < |parts.1| ==> parts.1[j] != '/'
  {
    var i := LastIndexOf(p, '/') + 1;
    var head, tail := p[..i], p[i..];
    if head != "" && !AllSlashes(head) then (RStripSlashes(head), tail) else (head, tail)
  }

  /** `os.path.splitext(p)`: the extension starts at the last dot after the
      last slash, provided some character other than a dot precedes it in
      the final component (so ".bashrc" has no extension). */
  function SplitExt(p: string): (parts: (string, string))
    ensures parts.0 + parts.1 == p
    ensures parts.1 == "" || parts.1[0] == '.'
  {
    var sep := LastIndexOf(p, '/');
    var dot := LastIndexOf(p, '.');
    if dot > sep && exists j | sep + 1 <= j < dot :: p[j] != '.' then
      (p[..dot], p[dot..])
    else
      (p, "")
  }

  /** pathlib's `PurePath.stem` of a final component `name`. */
  function Stem(name: string): (r: string)
    ensures |r| <= |name| && r == name[..|r|]
  {
    var i := LastIndexOf(name, '.');
    if 0 < i < |name| - 1 then name[..i] else name
  }

  /** A file name with neither a slash nor a dot. */
  predicate PlainStem(s: string) {
    s != [] && forall i :: 0 <= i < |s| ==> s[i] != '/' && s[i] != '.'
  }

  /** An extension as `splitext` returns it: a dot, then no dot or slash. */
  predicate PlainExt(e: string) {
    |e| >= 1 && e[0] == '.' && forall i :: 1 <= i < |e| ==> e[i] != '/' && e[i] != '.'
  }

  /** A directory name that `split` hands back unchanged. */
  predicate PlainDir(d: string) {
    d != [] && d[|d| - 1] != '/' && !AllSlashes(d)
  }

  /** A plain directory is one `join` appends to behind a separator. */
  lemma PlainDirNoTrailingSlash(dir: string)
    requires PlainDir(dir)
    ensures dir != "" && !EndsWith(dir, "/")
  {
    assert dir[|dir| - 1..] == [dir[|dir| - 1]];
  }

  lemma {:induction false} SplitOfJoined(d: string, f: string)
    requires PlainDir(d)
    requires forall i :: 0 <= i < |f| ==> f[i] != '/'
    ensures Split(d + "/" + f) == (d, f)
  {
    var p := d + "/" + f;
    LastIndexOfAt(p, '/', |d|);
    assert p[..|d| + 1] == d + "/";
    assert p[|d| + 1..] == f;
    var head := d + "/";
    assert !AllSlashes(head) by {
      var k :| 0 <= k < |d| && d[k] != '/';
      assert head[k] == d[k];
    }
    assert RStripSlashes(head) == RStripSlashes(d);
  }

  lemma {:induction false} SplitExtOfJoined(name: string, ext: string)
    requires PlainStem(name) && PlainExt(ext)
    ensures SplitExt(name + ext) == (name, ext)
  {
    var p := name + ext;
    LastIndexOfAbsent(p, '/');
    LastIndexOfAt(p, '.', |name|);
    assert p[0] != '.';
    assert p[..|name|] == name && p[|name|..] == ext;
  }

  lemma {:induction false} StemOfJoined(name: string, ext: string)
    requires PlainStem(name) && PlainExt(ext) && |ext| >= 2
    ensures Stem(name + ext) == name
  {
    var p := name + ext;
    LastIndexOfAt(p, '.', |name|);
    assert p[..|name|] == name;
  }
}
