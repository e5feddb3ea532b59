/**
 * The two path checks the skill tool applies to each command-line path: the
 * `.json` extension test and the resolution against the working directory.
 */
module PathChecks {

  /** `s.lastIndexOf(c)`: the index of the last occurrence of `c`, or -1. */
  function LastIndexOf(s: string, c: char): (r: int)
    ensures -1 <= r < |s|
    ensures r == -1 <==> c !in s
    ensures r >= 0 ==> s[r] == c && c !in s[r + 1..]
  {
    if |s| == 0 then -1
    else if s[|s| - 1] == c then |s| - 1
    else
      var r := LastIndexOf(s[..|s| - 1], c);
      assert s[..|s| - 1] + [s[|s| - 1]] == s;
      assert r >= 0 ==> s[r + 1..] == s[..|s| - 1][r + 1..] + [s[|s| - 1]];
      r
  }

  /** `p.substring(p.lastIndexOf('.') + 1)`: what follows the last dot, or the
      whole path when it has no dot. */
  function Extension(p: string): string
  {
    p[LastIndexOf(p, '.') + 1..]
  }

  /** The tool's test that a path argument names a JSON file (case-sensitive). */
  predicate HasJsonExtension(p: string)
  {
    Extension(p) == "json"
  }

  /** A path that ends in ".json" passes the extension test: its last dot is
      the one before "json". */
  lemma EndsWithJsonPasses(p: string)
    requires |p| >= 5 && p[|p| - 5..] == ".json"
    ensures HasJsonExtension(p)
  {
    var i := LastIndexOf(p, '.');
    var k := |p| - 5;
    assert p[k] == '.' by { assert p[k] == p[k..][0]; }
    assert i == k;
    assert p[i + 1..] == p[k..][1..];
  }

  /** A path that passes the extension test is "json" itself or ends in ".json". */
  lemma PassingPathEndsWithJson(p: string)
    requires HasJsonExtension(p)
    ensures p == "json" || (|p| >= 5 && p[|p| - 5..] == ".json")
  {
    var i := LastIndexOf(p, '.');
    if i >= 0 {
      assert p[i + 1..] == "json";
      assert p[|p| - 5..] == [p[i]] + p[i + 1..];
    }
  }

  /** The extension test accepts exactly the paths that end in ".json", and
      the single dot-free path "json" (compared whole, since `lastIndexOf`
      gives -1). */
  lemma JsonExtensionIff(p: string)
    ensures HasJsonExtension(p) <==> p == "json" || (|p| >= 5 && p[|p| - 5..] == ".json")
  {
    if HasJsonExtension(p) {
      PassingPathEndsWithJson(p);
    } else if |p| >= 5 && p[|p| - 5..] == ".json" {
      EndsWithJsonPasses(p);
    }
  }

  /** The platform operations the tool relies on, left uninterpreted:
      `path.isAbsolute`, `path.join` and the working directory `resolve('./')`. */
  datatype PathOps = PathOps(cwd: string, isAbsolute: string -> bool, join: (string, string) -> string)

  /** `isAbsolute(p) ? p : join(resolve('./'), p)`. */
  function Resolve(ops: PathOps, p: string): string
  {
    if ops.isAbsolute(p) then p else ops.join(ops.cwd, p)
  }

  /** An absolute path is kept as given. */
  lemma ResolveKeepsAbsolute(ops: PathOps, p: string)
    requires ops.isAbsolute(p)
    ensures Resolve(ops, p) == p
  {
  }

  /** A relative path is joined onto the working directory; whenever that join
      yields an absolute path (as it does on every real platform), resolving
      the result again changes nothing. */
  lemma ResolveIdempotent(ops: PathOps, p: string)
    requires !ops.isAbsolute(p) ==> ops.isAbsolute(ops.join(ops.cwd, p))
    ensures ops.isAbsolute(Resolve(ops, p))
    ensures Resolve(ops, Resolve(ops, p)) == Resolve(ops, p)
  {
  }
}
