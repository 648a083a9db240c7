/** String helpers standing for the Python string operations the plugins use:
    `str.startswith`, the substring test `sub in s`, and `os.path.join`. */
module Text {

  /** `s.startswith(prefix)` */
  predicate StartsWith(s: string, prefix: string) {
    |prefix| <= |s| && s[..|prefix|] == prefix
  }

  /** `sub in s`: some suffix of `s` starts with `sub` (the empty string occurs everywhere). */
  predicate Contains(s: string, sub: string)
    decreases |s|
  {
    StartsWith(s, sub) || (|s| > 0 && Contains(s[1..], sub))
  }

  /** `sub` occurs in `s` at index `i`. */
  ghost predicate OccursAt(s: string, sub: string, i: int) {
    0 <= i && i + |sub| <= |s| && s[i..i + |sub|] == sub
  }

  /** The recursive search finds `sub` exactly when it occurs at some index. */
  lemma {:induction false} ContainsIffOccurs(s: string, sub: string)
    ensures Contains(s, sub) <==> exists i :: OccursAt(s, sub, i)
    decreases |s|
  {
    if StartsWith(s, sub) {
      assert OccursAt(s, sub, 0);
    } else if |s| > 0 {
      ContainsIffOccurs(s[1..], sub);
      if Contains(s[1..], sub) {
        var i :| OccursAt(s[1..], sub, i);
        assert s[i + 1..i + 1 + |sub|] == s[1..][i..i + |sub|];
        assert OccursAt(s, sub, i + 1);
      }
      if exists i :: OccursAt(s, sub, i) {
        var i :| OccursAt(s, sub, i);
        assert i != 0;
        assert s[1..][i - 1..i - 1 + |sub|] == s[i..i + |sub|];
        assert OccursAt(s[1..], sub, i - 1);
      }
    }
  }

  /** `os.path.join(dir, name)`: an absolute `name` replaces `dir`; otherwise a `/`
      separates the two unless `dir` is empty or already ends with one. */
  function Join(dir: string, name: string): (p: string)
    ensures |name| <= |p| && p[|p| - |name|..] == name
  {
    if StartsWith(name, "/") then name
    else if dir == [] || dir[|dir| - 1] == '/' then dir + name
    else dir + "/" + name
  }

  /** The joined path is `name` alone when `name` is absolute; otherwise it starts with `dir`
      and adds at most one separator. */
  lemma JoinShape(dir: string, name: string)
    ensures StartsWith(name, "/") ==> Join(dir, name) == name
    ensures !StartsWith(name, "/") ==> StartsWith(Join(dir, name), dir)
    ensures !StartsWith(name, "/") ==> |Join(dir, name)| <= |dir| + 1 + |name|
    ensures !StartsWith(name, "/") && dir != [] && dir[|dir| - 1] != '/' ==> Join(dir, name) == dir + "/" + name
  {
    if !StartsWith(name, "/") {
      var p := Join(dir, name);
      if dir == [] || dir[|dir| - 1] == '/' {
        assert p == dir + name;
      } else {
        assert p == dir + "/" + name;
      }
      assert p[..|dir|] == dir;
    }
  }
}
