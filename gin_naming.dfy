/** Name and path helpers of the gateway: the camel-case to underscore conversion that names
    default routes, the method name at the end of a request path, and the join of a route
    prefix with a rule's pattern. */
module GinNaming {
  import opened Wrappers
  import opened Strings

  /** What ToUnderLine appends for one rune: '_' and the lower-case letter for an ASCII capital,
      otherwise the rune converted to a byte (only its low 8 bits survive). */
  function Piece(c: char): string
  {
    if 'A' <= c <= 'Z' then ['_', (c as int + 32) as char] else [(c as int % 256) as char]
  }

  /** The `dest` buffer after the loop has consumed `s`. */
  function Expand(s: string): (r: string)
    ensures |r| >= |s|
  {
    if |s| == 0 then [] else Expand(s[..|s| - 1]) + Piece(s[|s| - 1])
  }

  /** ToUnderLine: None stands for the panic on `dest[0]` when the input is empty. */
  function UnderLine(src: string): Option<string>
  {
    if |src| == 0 then None
    else
      var dest := Expand(src);
      if dest[0] == '_' then Some(dest[1..]) else Some(dest)
  }

  /** ToUnderLine as the loop that appends to `dest`, then drops one leading '_'. */
  method ToUnderLine(src: string) returns (r: Option<string>)
    ensures r == UnderLine(src)
  {
    var dest: string := [];
    var i := 0;
    while i < |src|
      invariant 0 <= i <= |src|
      invariant dest == Expand(src[..i])
    {
      var s := src[i];
      if 'A' <= s <= 'Z' {
        dest := dest + ['_', (s as int + 32) as char];
      } else {
        dest := dest + [(s as int % 256) as char];
      }
      assert src[..i + 1][..i] == src[..i];
      i := i + 1;
    }
    assert src[..i] == src;
    if |dest| == 0 {
      return None;
    }
    if dest[0] == '_' {
      dest := dest[1..];
    }
    return Some(dest);
  }

  predicate IsAscii(s: string)
  {
    forall i :: 0 <= i < |s| ==> s[i] as int < 128
  }

  lemma {:induction false} ExpandNoCapitals(s: string)
    requires IsAscii(s)
    ensures forall i :: 0 <= i < |Expand(s)| ==> !IsUpper(Expand(s)[i])
  {
    if |s| > 0 {
      var init := s[..|s| - 1];
      assert IsAscii(init) by {
        forall i | 0 <= i < |init| ensures init[i] as int < 128 {
          assert init[i] == s[i];
        }
      }
      ExpandNoCapitals(init);
    }
  }

  /** On ASCII input the result holds no capital letter. */
  lemma UnderLineNoCapitals(src: string)
    requires IsAscii(src) && |src| > 0
    ensures UnderLine(src).Some?
    ensures forall i :: 0 <= i < |UnderLine(src).value| ==> !IsUpper(UnderLine(src).value[i])
  {
    ExpandNoCapitals(src);
  }

  lemma {:induction false} ExpandIdentity(s: string)
    requires IsAscii(s)
    requires forall i :: 0 <= i < |s| ==> !IsUpper(s[i])
    ensures Expand(s) == s
  {
    if |s| > 0 {
      var init := s[..|s| - 1];
      ExpandIdentity(init);
      assert s == init + [s[|s| - 1]];
    }
  }

  /** ASCII input without capitals that does not start with '_' comes back unchanged. */
  lemma UnderLineIdentity(src: string)
    requires IsAscii(src) && |src| > 0 && src[0] != '_'
    requires forall i :: 0 <= i < |src| ==> !IsUpper(src[i])
    ensures UnderLine(src) == Some(src)
  {
    ExpandIdentity(src);
  }

  /** The empty name has no conversion: ToUnderLine panics. */
  lemma UnderLineEmpty()
    ensures UnderLine("") == None
  {
  }

  /** "GetUser" becomes "get_user": each capital turns into '_' and its lower case, and the
      leading '_' that the first capital produced is dropped. */
  lemma UnderLineGetUser()
    ensures UnderLine("GetUser") == Some("get_user")
  {
    var s := "GetUser";
    assert s[..0] == "";
    assert Expand(s[..1]) == "_g" by { assert s[..1][..0] == s[..0]; }
    assert Expand(s[..2]) == "_ge" by { assert s[..2][..1] == s[..1]; }
    assert Expand(s[..3]) == "_get" by { assert s[..3][..2] == s[..2]; }
    assert Expand(s[..4]) == "_get_u" by { assert s[..4][..3] == s[..3]; }
    assert Expand(s[..5]) == "_get_us" by { assert s[..5][..4] == s[..4]; }
    assert Expand(s[..6]) == "_get_use" by { assert s[..6][..5] == s[..5]; }
    assert Expand(s) == "_get_user" by { assert s[..6] == s[..|s| - 1]; }
  }

  /** getMethodName: the text after the last '/', or the whole path when it has none. */
  function GetMethodName(path: string): (name: string)
    ensures '/' !in name
    ensures |name| <= |path| && path[|path| - |name|..] == name
    ensures '/' in path ==> path[|path| - |name| - 1] == '/'
    ensures '/' !in path ==> name == path
  {
    path[LastIndexOf(path, '/') + 1..]
  }

  function TrimSlashRight(s: string): (r: string)
    ensures |r| <= |s| && r == s[..|r|]
    ensures |r| == 0 || r[|r| - 1] != '/'
  {
    if |s| > 0 && s[|s| - 1] == '/' then TrimSlashRight(s[..|s| - 1]) else s
  }

  function TrimSlashLeft(s: string): (r: string)
    ensures |r| <= |s| && r == s[|s| - |r|..]
    ensures |r| == 0 || r[0] != '/'
  {
    if |s| > 0 && s[0] == '/' then TrimSlashLeft(s[1..]) else s
  }

  /** path.Join(prefix, pattern), reduced to the joint: the slashes where the two meet become
      exactly one (no other cleaning). */
  function JoinPath(prefix: string, pattern: string): string
  {
    TrimSlashRight(prefix) + "/" + TrimSlashLeft(pattern)
  }

  /** The joint of JoinPath is one slash: the prefix without its trailing slashes, then '/', then
      the pattern without its leading slashes. */
  lemma JoinPathJoint(prefix: string, pattern: string)
    ensures exists a, b :: JoinPath(prefix, pattern) == a + "/" + b &&
                           |a| <= |prefix| && a == prefix[..|a|] && (|a| == 0 || a[|a| - 1] != '/') &&
                           |b| <= |pattern| && b == pattern[|pattern| - |b|..] && (|b| == 0 || b[0] != '/')
  {
    var a := TrimSlashRight(prefix);
    var b := TrimSlashLeft(pattern);
    assert JoinPath(prefix, pattern) == a + "/" + b;
  }

  /** The default prefix "/Svc/" and the pattern "get_user" join to "/Svc/get_user". */
  lemma JoinDefaultPrefix(svc: string, pattern: string)
    requires |svc| > 0 && svc[|svc| - 1] != '/'
    requires |pattern| > 0 && pattern[0] != '/'
    ensures JoinPath("/" + svc + "/", pattern) == "/" + svc + "/" + pattern
  {
    var p := "/" + svc + "/";
    var q := "/" + svc;
    assert p[..|p| - 1] == q;
    assert q[|q| - 1] == svc[|svc| - 1];
    assert TrimSlashRight(q) == q;
    assert TrimSlashRight(p) == q;
    assert TrimSlashLeft(pattern) == pattern;
  }
}
