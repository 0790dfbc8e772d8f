/** Slash-separated paths and object keys: Go's `path` and `path/filepath`
    (`Join`, `Ext`, `Base`, `Dir`) on forward-slash paths. */
module Paths {
  import opened Strings

  /** A single path element: non-empty, no separator, not a dot element. */
  predicate Segment(s: string) { |s| > 0 && '/' !in s && s != "." && s != ".." }

  /** `path.Join(a, b)` for components that are already clean and non-empty,
      where Go's `Join` reduces to inserting one separator. */
  function Join(a: string, b: string): (p: string)
    ensures |p| == |a| + 1 + |b| && p[|a|] == '/'
    ensures p[..|a|] == a && p[|a| + 1..] == b
  {
    a + "/" + b
  }

  /** Joining is associative. */
  lemma JoinAssoc(a: string, b: string, c: string)
    ensures Join(a, Join(b, c)) == Join(Join(a, b), c)
  {
    assert a + "/" + (b + "/" + c) == a + "/" + b + "/" + c;
  }

  /** Index of the last '/' in `p`, or -1 when there is none. */
  function LastSlash(p: string): (i: int)
    ensures -1 <= i < |p|
    ensures i >= 0 ==> p[i] == '/'
    ensures forall k :: i < k < |p| ==> p[k] != '/'
  {
    if |p| == 0 then -1 else if p[|p| - 1] == '/' then |p| - 1 else LastSlash(p[..|p| - 1])
  }

  /** The last separator of a join is the one `Join` inserted, when `b` has none. */
  lemma LastSlashJoin(a: string, b: string)
    requires '/' !in b
    ensures LastSlash(Join(a, b)) == |a|
  {
  }

  /** `filepath.Ext`: the suffix of the final element from its last '.', or "". */
  function Ext(p: string): (e: string)
    ensures e == "" || (e[0] == '.' && HasSuffix(p, e) && '/' !in e && '.' !in e[1..])
    decreases |p|
  {
    if |p| == 0 || p[|p| - 1] == '/' then ""
    else if p[|p| - 1] == '.' then "."
    else
      var e := Ext(p[..|p| - 1]);
      if e == "" then "" else e + [p[|p| - 1]]
  }

  /** The extension of a joined path is that of its last component. */
  lemma {:induction false} ExtJoin(a: string, b: string)
    requires '/' !in b
    ensures Ext(Join(a, b)) == Ext(b)
    decreases |b|
  {
    if |b| > 0 && b[|b| - 1] != '.' {
      var b' := b[..|b| - 1];
      assert '/' !in b' by {
        assert forall k :: 0 <= k < |b'| ==> b'[k] == b[k];
      }
      ExtJoin(a, b');
      assert Join(a, b)[..|Join(a, b)| - 1] == Join(a, b');
    }
  }

  /** A name with a dot-extension free of further dots and separators has exactly that extension. */
  lemma {:induction false} ExtOfSuffix(name: string, e: string)
    requires '.' !in e && '/' !in e
    ensures Ext(name + "." + e) == "." + e
    decreases |e|
  {
    if |e| > 0 {
      var e' := e[..|e| - 1];
      assert '.' !in e' && '/' !in e' by {
        assert forall k :: 0 <= k < |e'| ==> e'[k] == e[k];
      }
      ExtOfSuffix(name, e');
      assert (name + "." + e)[..|name + "." + e| - 1] == name + "." + e';
    }
  }

  /** A file `<stem>.<e>` joined under a directory keeps the extension `.<e>`. */
  lemma ExtOfJoinedName(dir: string, stem: string, e: string)
    requires '/' !in stem && '.' !in e && '/' !in e
    ensures Ext(Join(dir, stem + "." + e)) == "." + e
  {
    NotInAppend(stem, ".", '/');
    NotInAppend(stem + ".", e, '/');
    ExtJoin(dir, stem + "." + e);
    ExtOfSuffix(stem, e);
  }

  /** The path with all trailing separators removed. */
  function StripTrailingSlashes(p: string): (q: string)
    ensures |q| <= |p| && q == p[..|q|]
    ensures |q| > 0 ==> q[|q| - 1] != '/'
    ensures forall k :: |q| <= k < |p| ==> p[k] == '/'
  {
    if |p| > 0 && p[|p| - 1] == '/' then StripTrailingSlashes(p[..|p| - 1]) else p
  }

  /** `filepath.Base`: the last element, "." for the empty path, "/" for all separators. */
  function Base(p: string): (b: string)
    ensures p == "" ==> b == "."
    ensures p != "" && b != "/" ==> |b| > 0 && '/' !in b
  {
    if p == "" then "."
    else
      var q := StripTrailingSlashes(p);
      if q == "" then "/" else q[LastSlash(q) + 1..]
  }

  /** `filepath.Dir`: everything before the last separator ("." if none, "/" at the root),
      for paths whose prefix is already clean. */
  function Dir(p: string): (d: string)
    ensures LastSlash(p) < 0 ==> d == "."
  {
    var i := LastSlash(p);
    if i < 0 then "." else if i == 0 then "/" else p[..i]
  }

  /** The base name of the directory of `t/id/f` is `id`. */
  lemma BaseDirJoin(t: string, id: string, f: string)
    requires Segment(id) && '/' !in f
    ensures Base(Dir(Join(Join(t, id), f))) == id
  {
    LastSlashJoin(Join(t, id), f);
    assert Dir(Join(Join(t, id), f)) == Join(t, id);
    LastSlashJoin(t, id);
  }

  /** The base name of a joined path is its final component. */
  lemma BaseJoin(a: string, b: string)
    requires Segment(b)
    ensures Base(Join(a, b)) == b
  {
    LastSlashJoin(a, b);
  }
}
