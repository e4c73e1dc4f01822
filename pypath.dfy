/** The few Python string and `os.path` operations the bridges rely on, on
    POSIX paths: `str.rfind`, `os.path.basename`, the extension part of
    `os.path.splitext`, `str.lower`, `str.isspace` and `str.strip`. */
module PyPath {
  import opened Wrappers

  /** `str(e)` of the TypeError that `os.fspath` raises when a path is `None`;
      `os.path.basename(None)` and `os.path.splitext(None)` both raise it. */
  const PathTypeError: string := "expected str, bytes or os.PathLike object, not NoneType"

  /** `s.rfind(c)`: the index of the last occurrence of `c`, or -1. */
  function RFind(s: string, c: char): (i: int)
    ensures -1 <= i < |s|
    ensures i >= 0 ==> s[i] == c
    ensures forall j :: i < j < |s| ==> s[j] != c
  {
    if s == [] then -1
    else if s[|s| - 1] == c then |s| - 1
    else RFind(s[..|s| - 1], c)
  }

  /** `os.path.basename(p)`: everything after the last '/'. */
  function Basename(p: string): (b: string)
    ensures '/' !in b
    ensures |b| <= |p| && p[|p| - |b|..] == b
    ensures |b| < |p| ==> p[|p| - |b| - 1] == '/'
  {
    p[RFind(p, '/') + 1..]
  }

  predicate HasNonDot(p: string, lo: int, hi: int)
    requires 0 <= lo && hi <= |p|
  {
    exists k :: lo <= k < hi && p[k] != '.'
  }

  /** The suffix from the last '.' is an extension when that dot follows the
      last '/' and something other than dots lies between them. */
  lemma ExtensionFacts(p: string, sep: int, dot: int)
    requires -1 <= sep < dot < |p| && p[dot] == '.'
    requires forall j :: sep < j < |p| ==> p[j] != '/'
    requires forall j :: dot < j < |p| ==> p[j] != '.'
    requires HasNonDot(p, sep + 1, dot)
    ensures var e := p[dot..];
      && e[0] == '.' && |e| < |p| - sep - 1
      && (forall j :: 0 < j < |e| ==> e[j] != '.' && e[j] != '/')
  {
    var k :| sep + 1 <= k < dot && p[k] != '.';
    var e := p[dot..];
    forall j | 0 < j < |e| ensures e[j] != '.' && e[j] != '/' {
      assert e[j] == p[dot + j];
    }
  }

  /** The extension returned by `os.path.splitext(p)`: from the last '.' to the
      end, provided that dot lies in the last path component and is preceded
      there by something other than dots (so ".bashrc" has no extension). */
  function Extension(p: string): (e: string)
    ensures e != [] ==> e[0] == '.' && |e| < |Basename(p)|
    ensures forall j :: 0 < j < |e| ==> e[j] != '.' && e[j] != '/'
    ensures |e| <= |p| && p[|p| - |e|..] == e
  {
    var sep := RFind(p, '/');
    var dot := RFind(p, '.');
    if sep < dot && HasNonDot(p, sep + 1, dot) then
      ExtensionFacts(p, sep, dot);
      var e := p[dot..];
      assert |p| - |e| == dot;
      assert |Basename(p)| == |p| - sep - 1;
      e
    else []
  }

  /** `b` holds a dot with something other than a dot before it. */
  predicate DotAfterNonDot(b: string) {
    exists k, i :: 0 <= k < i < |b| && b[k] != '.' && b[i] == '.'
  }

  /** A dot after a non-dot in the last component lies at or before the last
      '.', and after the last '/'. */
  lemma DotInBasename(p: string, k: int, i: int)
    requires var b := p[RFind(p, '/') + 1..]; 0 <= k < i < |b| && b[k] != '.' && b[i] == '.'
    ensures var sep := RFind(p, '/'); var dot := RFind(p, '.');
      sep < dot && HasNonDot(p, sep + 1, dot)
  {
    var sep := RFind(p, '/');
    var b := p[sep + 1..];
    assert p[sep + 1 + i] == b[i] && p[sep + 1 + k] == b[k];
  }

  /** Conversely, a non-dot before the last '.', both after the last '/',
      is such a pair in the last component. */
  lemma NonDotBeforeLastDot(p: string, k: int)
    requires var sep := RFind(p, '/'); var dot := RFind(p, '.');
      sep < dot && sep + 1 <= k < dot && p[k] != '.'
    ensures DotAfterNonDot(p[RFind(p, '/') + 1..])
  {
    var sep := RFind(p, '/');
    var dot := RFind(p, '.');
    var b := p[sep + 1..];
    assert b[k - sep - 1] == p[k] && b[dot - sep - 1] == p[dot];
  }

  /** The last component holds a dot preceded there by a non-dot exactly
      when the last '.' follows the last '/' with a non-dot between them. */
  lemma BasenameDots(p: string)
    ensures var sep := RFind(p, '/'); var dot := RFind(p, '.');
      DotAfterNonDot(Basename(p)) <==> sep < dot && HasNonDot(p, sep + 1, dot)
  {
    var sep := RFind(p, '/');
    var dot := RFind(p, '.');
    var b := p[sep + 1..];
    if DotAfterNonDot(b) {
      var k, i :| 0 <= k < i < |b| && b[k] != '.' && b[i] == '.';
      DotInBasename(p, k, i);
    }
    if sep < dot && HasNonDot(p, sep + 1, dot) {
      var k :| sep + 1 <= k < dot && p[k] != '.';
      NonDotBeforeLastDot(p, k);
    }
  }

  /** With the shape `Extension` guarantees, this pins it to what
      `os.path.splitext` returns: an extension exists exactly when the last
      component holds a dot with something other than a dot before it, and
      it is then the suffix from that component's last dot. */
  lemma ExtensionIsSplitext(p: string)
    ensures Extension(p) != [] <==> DotAfterNonDot(Basename(p))
    ensures Extension(p) != [] ==> Extension(p) == p[RFind(p, '.')..]
  {
    BasenameDots(p);
  }

  /** `c.lower()` for ASCII letters; every other character is unchanged. */
  function LowerChar(c: char): char {
    if 'A' <= c <= 'Z' then (c as int + 32) as char else c
  }

  /** `s.lower()`, character by character. */
  function Lower(s: string): (r: string)
    ensures |r| == |s|
    ensures forall i :: 0 <= i < |s| ==> r[i] == LowerChar(s[i])
  {
    if s == [] then [] else [LowerChar(s[0])] + Lower(s[1..])
  }

  /** Lower-casing never creates or removes a character that is not a letter. */
  lemma LowerCharFixesNonLetters(x: char, c: char)
    requires !('A' <= c <= 'Z') && !('a' <= c <= 'z')
    ensures LowerChar(x) == c <==> x == c
  {
  }

  lemma {:induction false} RFindLower(s: string, c: char)
    requires !('A' <= c <= 'Z') && !('a' <= c <= 'z')
    ensures RFind(Lower(s), c) == RFind(s, c)
  {
    if s != [] {
      var n := |s| - 1;
      LowerCharFixesNonLetters(s[n], c);
      assert Lower(s)[..n] == Lower(s[..n]);
      RFindLower(s[..n], c);
    }
  }

  lemma HasNonDotLower(p: string, lo: int, hi: int)
    requires 0 <= lo && hi <= |p|
    ensures HasNonDot(Lower(p), lo, hi) == HasNonDot(p, lo, hi)
  {
    if HasNonDot(p, lo, hi) {
      var k :| lo <= k < hi && p[k] != '.';
      LowerCharFixesNonLetters(p[k], '.');
      assert Lower(p)[k] != '.';
    }
    if HasNonDot(Lower(p), lo, hi) {
      var k :| lo <= k < hi && Lower(p)[k] != '.';
      LowerCharFixesNonLetters(p[k], '.');
    }
  }

  lemma LowerSuffix(p: string, k: nat)
    requires k <= |p|
    ensures Lower(p)[k..] == Lower(p[k..])
  {
  }

  /** Taking the extension commutes with lower-casing, since neither '/' nor
      '.' is a letter. */
  lemma ExtensionOfLower(p: string)
    ensures Extension(Lower(p)) == Lower(Extension(p))
  {
    RFindLower(p, '/');
    RFindLower(p, '.');
    var sep := RFind(p, '/');
    var dot := RFind(p, '.');
    if sep < dot {
      HasNonDotLower(p, sep + 1, dot);
      LowerSuffix(p, dot);
    }
  }

  /** Python's `str.isspace` for one character (the characters `str.strip()`
      removes by default). */
  predicate IsSpace(c: char) {
    c == ' ' || '\t' <= c <= '\r' || '\U{1c}' <= c <= '\U{1f}' || c == '\U{85}'
    || c == '\U{a0}' || c == '\U{1680}' || '\U{2000}' <= c <= '\U{200a}'
    || c == '\U{2028}' || c == '\U{2029}' || c == '\U{202f}' || c == '\U{205f}'
    || c == '\U{3000}'
  }

  /** `s.lstrip()`. */
  function TrimStart(s: string): (r: string)
    ensures |r| <= |s| && r == s[|s| - |r|..]
    ensures forall i :: 0 <= i < |s| - |r| ==> IsSpace(s[i])
    ensures r == [] || !IsSpace(r[0])
  {
    if s != [] && IsSpace(s[0]) then TrimStart(s[1..]) else s
  }

  /** `s.rstrip()`. */
  function TrimEnd(s: string): (r: string)
    ensures |r| <= |s| && r == s[..|r|]
    ensures forall i :: |r| <= i < |s| ==> IsSpace(s[i])
    ensures r == [] || !IsSpace(r[|r| - 1])
  {
    if s != [] && IsSpace(s[|s| - 1]) then TrimEnd(s[..|s| - 1]) else s
  }

  /** `r` is the slice of `s` from `i`, with only whitespace around it. */
  predicate SpaceAround(s: string, i: int, r: string) {
    0 <= i && i + |r| <= |s| && r == s[i..i + |r|]
    && (forall k :: 0 <= k < i ==> IsSpace(s[k]))
    && (forall k :: i + |r| <= k < |s| ==> IsSpace(s[k]))
  }

  /** `s.strip()`: `s` without its leading and trailing whitespace. It is
      empty exactly when `s` is all whitespace. */
  function Strip(s: string): (r: string)
    ensures r == [] <==> forall i :: 0 <= i < |s| ==> IsSpace(s[i])
    ensures r != [] ==> !IsSpace(r[0]) && !IsSpace(r[|r| - 1])
  {
    var t := TrimStart(s);
    var r := TrimEnd(t);
    r
  }

  /** `s.strip()` is a slice of `s` with only whitespace around it. */
  lemma StripIsMiddle(s: string)
    ensures exists i :: SpaceAround(s, i, Strip(s))
  {
    var t := TrimStart(s);
    StrippedEnds(s, t, TrimEnd(t));
    assert SpaceAround(s, |s| - |t|, Strip(s));
  }

  /** A whitespace suffix cut from a suffix left after cutting a whitespace
      prefix leaves a slice with only whitespace around it. */
  lemma StrippedEnds(s: string, t: string, r: string)
    requires |t| <= |s| && t == s[|s| - |t|..]
    requires forall k :: 0 <= k < |s| - |t| ==> IsSpace(s[k])
    requires |r| <= |t| && r == t[..|r|]
    requires forall k :: |r| <= k < |t| ==> IsSpace(t[k])
    ensures SpaceAround(s, |s| - |t|, r)
  {
    var i := |s| - |t|;
    assert r == s[i..i + |r|];
    forall k | i + |r| <= k < |s| ensures IsSpace(s[k]) {
      assert s[k] == t[k - i];
    }
  }

  /** `model_id or os.path.basename(model_path)`: a missing or empty id
      defaults to the basename of the path, which raises when the path is
      `None`. */
  function IdOrBasename(modelId: Option<string>, path: Option<string>): (r: Attempt<string>)
    ensures r.Raised? <==> (modelId.None? || modelId.value == "") && path.None?
    ensures r.Raised? ==> r.message == PathTypeError
    ensures r.Returned? && (modelId.None? || modelId.value == "") ==> r.value == Basename(path.value)
    ensures modelId.Some? && modelId.value != "" ==> r == Returned(modelId.value)
  {
    if modelId.Some? && modelId.value != "" then Returned(modelId.value)
    else if path.None? then Raised(PathTypeError)
    else Returned(Basename(path.value))
  }
}
