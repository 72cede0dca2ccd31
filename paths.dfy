/**
 * The string and path operations the session workflow relies on, with the
 * behaviour Python gives them on a POSIX system: `str.lower`, `str.endswith`,
 * `str.rfind`, `os.path.splitext`, `os.path.join` and the names that
 * `tempfile` draws.
 */
module Paths {

  /** `str.lower` on one character, for the ASCII letters. */
  function LowerChar(c: char): char
  {
    if 'A' <= c <= 'Z' then (c as int - 'A' as int + 'a' as int) as char else c
  }

  /** `str.lower`: every character lowered on its own, the length unchanged. */
  function Lower(s: string): (r: string)
    ensures |r| == |s|
    ensures forall i {:trigger r[i]} :: 0 <= i < |s| ==> r[i] == LowerChar(s[i])
  {
    if s == [] then [] else [LowerChar(s[0])] + Lower(s[1..])
  }

  lemma LowerAppend(a: string, b: string)
    ensures Lower(a + b) == Lower(a) + Lower(b)
  {
    assert forall i | 0 <= i < |a + b| :: Lower(a + b)[i] == (Lower(a) + Lower(b))[i];
  }

  lemma LowerIdempotent(s: string)
    ensures Lower(Lower(s)) == Lower(s)
  {
    assert forall i | 0 <= i < |s| :: Lower(Lower(s))[i] == Lower(s)[i];
  }

  /** `s.endswith(suffix)`. */
  predicate EndsWith(s: string, suffix: string)
  {
    |suffix| <= |s| && s[|s| - |suffix|..] == suffix
  }

  /** `s.rfind(c)` for one character: the last index holding `c`, or -1 when there is none. */
  function RFind(s: string, c: char): (r: int)
    ensures -1 <= r < |s|
    ensures 0 <= r ==> s[r] == c
    ensures forall j :: r < j < |s| ==> s[j] != c
  {
    if s == [] then -1
    else if s[|s| - 1] == c then |s| - 1
    else RFind(s[..|s| - 1], c)
  }

  /** Searching a concatenation finds the last `c` of the right part if it has one, else that of the left part. */
  lemma RFindAppend(a: string, b: string, c: char)
    ensures RFind(a + b, c) == if c in b then |a| + RFind(b, c) else RFind(a, c)
  {
    var r := RFind(a + b, c);
    if c in b {
      var k := RFind(b, c);
      var i :| 0 <= i < |b| && b[i] == c;
      assert (a + b)[|a| + i] == c;
      assert k >= 0;
      assert (a + b)[|a| + k] == c;
    } else {
      var k := RFind(a, c);
      if k >= 0 {
        assert (a + b)[k] == c;
      }
      if r >= 0 {
        assert a[r] == c;
      }
    }
  }

  /** What `os.path.splitext` returns as a non-empty extension: a dot, then neither dots nor separators. */
  predicate IsExtension(e: string)
  {
    |e| > 0 && e[0] == '.' && forall i :: 0 < i < |e| ==> e[i] != '.' && e[i] != '/'
  }

  predicate AllDots(s: string)
  {
    forall i :: 0 <= i < |s| ==> s[i] == '.'
  }

  /**
   * `os.path.splitext` (posixpath): the root and the extension of a path. The
   * extension starts at the last dot of the base name, unless only dots come
   * before that dot in the base name (".bashrc", "..pdf"); then it is empty.
   */
  function SplitExt(p: string): (r: (string, string))
    ensures r.0 + r.1 == p
    ensures r.1 == "" || IsExtension(r.1)
  {
    var sepIndex := RFind(p, '/');
    var dotIndex := RFind(p, '.');
    if dotIndex > sepIndex && !AllDots(p[sepIndex + 1..dotIndex]) then
      LastDotStartsExtension(p);
      (p[..dotIndex], p[dotIndex..])
    else
      (p, "")
  }

  /** From the last dot of a path that comes after its last separator, only an extension follows. */
  lemma LastDotStartsExtension(p: string)
    requires RFind(p, '.') > RFind(p, '/')
    ensures IsExtension(p[RFind(p, '.')..])
    ensures p[..RFind(p, '.')] + p[RFind(p, '.')..] == p
  {
    var d := RFind(p, '.');
    var e := p[d..];
    forall i | 0 < i < |e|
      ensures e[i] != '.' && e[i] != '/'
    {
      assert e[i] == p[d + i];
    }
  }

  /** Appending an extension to a root whose base name has a non-dot character splits back into the two. */
  lemma SplitExtAppend(root: string, e: string)
    requires IsExtension(e)
    requires !AllDots(root[RFind(root, '/') + 1..])
    ensures SplitExt(root + e) == (root, e)
  {
    var p := root + e;
    RFindAppend(root, e, '/');
    RFindAppend(root, e, '.');
    assert RFind(e, '.') == 0;
    var sepIndex := RFind(root, '/');
    assert p[sepIndex + 1..|root|] == root[sepIndex + 1..];
    assert p[..|root|] == root;
    assert p[|root|..] == e;
  }

  /**
   * Leading dots of the last component do not start an extension: when every
   * character between the last separator and the last dot is a dot (as in
   * ".pdf" or "a/..pdf"), the extension is empty.
   */
  lemma SplitExtLeadingDots(p: string)
    requires RFind(p, '.') > RFind(p, '/')
    requires AllDots(p[RFind(p, '/') + 1..RFind(p, '.')])
    ensures SplitExt(p) == (p, "")
  {
  }

  /** A path with no dot after its last separator has an empty extension. */
  lemma SplitExtNoDot(p: string)
    requires forall i :: RFind(p, '/') < i < |p| ==> p[i] != '.'
    ensures SplitExt(p) == (p, "")
  {
    var dotIndex := RFind(p, '.');
    if dotIndex >= 0 {
      assert p[dotIndex] == '.';
    }
  }

  /** `os.path.join(dir, name)` in posixpath, for a name that does not start with a separator. */
  function Join(dir: string, name: string): string
    requires name == [] || name[0] != '/'
  {
    if dir == "" || EndsWith(dir, "/") then dir + name else dir + "/" + name
  }

  /** The joined path is a prefix followed by the name. */
  lemma JoinEndsWith(dir: string, name: string)
    requires name == [] || name[0] != '/'
    ensures |Join(dir, name)| >= |name|
    ensures Join(dir, name) == Join(dir, name)[..|Join(dir, name)| - |name|] + name
  {
    var p := Join(dir, name);
    if dir == "" || EndsWith(dir, "/") {
      assert p[..|dir|] == dir;
    } else {
      assert p[..|dir| + 1] == dir + "/";
    }
  }

  lemma JoinAppend(dir: string, name: string, suffix: string)
    requires name != [] && name[0] != '/'
    ensures Join(dir, name + suffix) == Join(dir, name) + suffix
  {
    assert (name + suffix)[0] == name[0];
  }

  /** The last separator of a join of a separator-free name is the one just before that name. */
  lemma RFindJoin(dir: string, name: string)
    requires forall i :: 0 <= i < |name| ==> name[i] != '/'
    ensures RFind(Join(dir, name), '/') == |Join(dir, name)| - |name| - 1
  {
    assert '/' !in name;
    if dir == "" {
      assert Join(dir, name) == name;
    } else if EndsWith(dir, "/") {
      RFindAppend(dir, name, '/');
      assert dir[|dir| - 1] == '/';
    } else {
      RFindAppend(dir + "/", name, '/');
      RFindAppend(dir, "/", '/');
      assert Join(dir, name) == (dir + "/") + name;
    }
  }

  /** A name `tempfile` draws: eight characters from "abcdefghijklmnopqrstuvwxyz0123456789_". */
  predicate IsTempToken(t: string)
  {
    |t| == 8 && forall i :: 0 <= i < |t| ==> 'a' <= t[i] <= 'z' || '0' <= t[i] <= '9' || t[i] == '_'
  }

  /** The path `tempfile.NamedTemporaryFile(suffix=suffix)` creates in `dir`: "tmp", the drawn name and the suffix, joined to `dir`. */
  function TempFilePath(dir: string, token: string, suffix: string): string
  {
    Join(dir, "tmp" + token + suffix)
  }

  /** A temp path is never empty and ends with the suffix it was created with. */
  lemma TempFileSuffix(dir: string, token: string, suffix: string)
    ensures var p := TempFilePath(dir, token, suffix);
      |p| >= 3 + |token| + |suffix| && EndsWith(p, suffix)
  {
    var name := "tmp" + token + suffix;
    JoinEndsWith(dir, name);
    var p := TempFilePath(dir, token, suffix);
    assert p[|p| - |suffix|..] == name[|name| - |suffix|..];
  }

  /** The extension `os.path.splitext` reads back from a temp path is exactly the suffix it was created with. */
  lemma TempFileExtension(dir: string, token: string, suffix: string)
    requires IsTempToken(token)
    requires suffix == "" || IsExtension(suffix)
    ensures SplitExt(TempFilePath(dir, token, suffix)).1 == suffix
  {
    var name := "tmp" + token;
    TempNameChars(token);
    var root := Join(dir, name);
    JoinAppend(dir, name, suffix);
    RFindJoin(dir, name);
    JoinEndsWith(dir, name);
    var sepIndex := RFind(root, '/');
    assert root[sepIndex + 1..] == name;
    if suffix == "" {
      assert root + suffix == root;
      SplitExtNoDot(root);
    } else {
      assert !AllDots(name) by {
        assert name[0] == 't';
      }
      SplitExtAppend(root, suffix);
    }
  }

  /** The name part of a temp file holds neither a separator nor a dot. */
  lemma TempNameChars(token: string)
    requires IsTempToken(token)
    ensures forall i :: 0 <= i < |"tmp" + token| ==> ("tmp" + token)[i] != '/' && ("tmp" + token)[i] != '.'
  {
    var name := "tmp" + token;
    forall i | 0 <= i < |name|
      ensures name[i] != '/' && name[i] != '.'
    {
      if i >= 3 {
        assert name[i] == token[i - 3];
      }
    }
  }

  // Facts used to decide which of two extensions a lowered path ends with.

  lemma LowerKeepsExtension(e: string)
    requires IsExtension(e)
    ensures IsExtension(Lower(e))
  {
  }

  lemma LowerKeepsDotless(s: string)
    requires forall i :: 0 <= i < |s| ==> s[i] != '.'
    ensures forall i :: 0 <= i < |Lower(s)| ==> Lower(s)[i] != '.'
  {
  }

  /** A string that ends in an extension ends with another extension exactly when the two are equal. */
  lemma ExtensionDecidesSuffix(a: string, e: string, s: string)
    requires IsExtension(e) && IsExtension(s)
    ensures EndsWith(a + e, s) <==> e == s
  {
    var x := a + e;
    if e == s {
      assert x[|a|..] == e;
    }
    if EndsWith(x, s) {
      if |e| >= |s| {
        assert x[|x| - |s|] == s[0];
        assert x[|x| - |s|] == e[|e| - |s|];
        assert |e| == |s|;
        assert e == x[|x| - |s|..];
      } else {
        ShortExtensionNotSuffix(a, e, s);
      }
    }
  }

  /** A string ending in an extension shorter than `s` does not end with `s`: the dot would fall inside `s`. */
  lemma ShortExtensionNotSuffix(a: string, e: string, s: string)
    requires IsExtension(e) && IsExtension(s) && |e| < |s|
    ensures !EndsWith(a + e, s)
  {
    var x := a + e;
    if |s| <= |x| {
      assert x[|x| - |s|..][|s| - |e|] == x[|a|];
    }
  }

  /** A string whose last `|s|` characters hold no dot does not end with an extension `s`. */
  lemma DotlessTailLacksExtension(a: string, b: string, s: string)
    requires |s| <= |b| && IsExtension(s)
    requires forall i :: 0 <= i < |b| ==> b[i] != '.'
    ensures !EndsWith(a + b, s)
  {
    var x := a + b;
    assert x[|x| - |s|] == b[|b| - |s|];
  }
}
