/** The parts of `std::path` semantics the runtime and the transfer code rely
    on, for POSIX paths written as strings with '/' as the only separator. */
module Paths {
  import opened Wrappers

  type Path = string

  /** Index of the last '/' in `s`, or -1 when `s` has none. */
  function LastSlash(s: string): (i: int)
    ensures -1 <= i < |s|
    ensures i >= 0 ==> s[i] == '/'
    ensures forall j :: i < j < |s| ==> s[j] != '/'
  {
    if |s| == 0 then -1
    else if s[|s| - 1] == '/' then |s| - 1
    else LastSlash(s[..|s| - 1])
  }

  /** The pieces of `s` between '/' separators, in order (empty pieces kept). */
  function Segments(s: string): (r: seq<string>)
    ensures |r| >= 1
    ensures forall k :: 0 <= k < |r| ==> '/' !in r[k]
    decreases |s|
  {
    var i := LastSlash(s);
    if i < 0 then [s]
    else
      var last := s[i + 1..];
      assert forall j :: 0 <= j < |last| ==> last[j] == s[i + 1 + j];
      assert '/' !in last;
      var init := Segments(s[..i]);
      assert forall k :: 0 <= k < |init| ==> (init + [last])[k] == init[k];
      init + [last]
  }

  /** A single normal path component: non-empty, no separator, not `.` or `..`. */
  predicate IsNormalName(n: string) {
    n != "" && n != "." && n != ".." && '/' !in n
  }

  /** The last component of a segment list, ignoring empty and `.` segments
      (which `Path::components` normalises away); `None` when nothing is
      left or the last component is `..`. */
  function LastNormal(segs: seq<string>): (r: Option<string>)
    requires forall k :: 0 <= k < |segs| ==> '/' !in segs[k]
    ensures r.Some? ==> IsNormalName(r.value) && r.value in segs
  {
    if |segs| == 0 then None
    else
      var last := segs[|segs| - 1];
      if last == "" || last == "." then LastNormal(segs[..|segs| - 1])
      else if last == ".." then None
      else Some(last)
  }

  /** `Path::file_name`: the final normal component of `p`, if any. */
  function FileName(p: Path): (r: Option<string>)
    ensures r.Some? ==> IsNormalName(r.value)
  {
    LastNormal(Segments(p))
  }

  /** `PathBuf::join` with a relative right-hand side. */
  function JoinPath(dir: Path, rel: Path): Path {
    if dir == "" then rel
    else if dir[|dir| - 1] == '/' then dir + rel
    else dir + "/" + rel
  }

  lemma {:induction false} LastSlashOfAppend(a: string, n: string)
    requires '/' !in n
    ensures LastSlash(a + "/" + n) == |a|
    decreases |n|
  {
    var s := a + "/" + n;
    if n == [] {
      assert s[|s| - 1] == '/';
    } else {
      assert s[|s| - 1] == n[|n| - 1];
      assert s[..|s| - 1] == a + "/" + n[..|n| - 1];
      LastSlashOfAppend(a, n[..|n| - 1]);
    }
  }

  /** Appending "/" and a separator-free piece adds exactly one segment. */
  lemma SegmentsOfAppend(a: string, n: string)
    requires '/' !in n
    ensures Segments(a + "/" + n) == Segments(a) + [n]
  {
    var s := a + "/" + n;
    LastSlashOfAppend(a, n);
    assert s[..|a|] == a;
    assert s[|a| + 1..] == n;
  }

  /** A string without separators is a single segment. */
  lemma SegmentsOfName(n: string)
    requires '/' !in n
    ensures Segments(n) == [n]
  {
  }

  /** The file name of `dir/name` is `name`, whatever `dir` is; this is what
      lets `/x/y/build` select the build phase. */
  lemma FileNameOfChild(dir: Path, name: string)
    requires IsNormalName(name)
    ensures FileName(dir + "/" + name) == Some(name)
  {
    SegmentsOfAppend(dir, name);
  }

  /** A bare name is its own file name. */
  lemma FileNameOfName(name: string)
    requires IsNormalName(name)
    ensures FileName(name) == Some(name)
  {
  }

  /** A trailing separator does not change the file name. */
  lemma FileNameIgnoresTrailingSlash(p: Path)
    ensures FileName(p + "/") == FileName(p)
  {
  }

  /** Joining a normal name onto any directory yields a path whose file name
      is that name. */
  lemma FileNameOfJoin(dir: Path, name: string)
    requires IsNormalName(name)
    ensures FileName(JoinPath(dir, name)) == Some(name)
  {
    if dir == "" {
      FileNameOfName(name);
    } else if dir[|dir| - 1] == '/' {
      var d := dir[..|dir| - 1];
      assert dir == d + "/";
      assert dir + name == d + "/" + name;
      FileNameOfChild(d, name);
    } else {
      FileNameOfChild(dir, name);
    }
  }
}
