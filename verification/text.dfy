/**
 * The two pieces of JavaScript string handling the wizard relies on:
 * `String.prototype.trim` (used before a skill or interest is added) and
 * `name.split('.').pop()` (used to pick the extension of the uploaded picture).
 */
module Text {

  /**
   * JavaScript's white space for `trim`: the WhiteSpace code points (TAB, VT,
   * FF, ZWNBSP and every code point of category Zs) and the LineTerminator code
   * points (LF, CR, LINE SEPARATOR, PARAGRAPH SEPARATOR).
   */
  predicate IsSpace(c: char) {
    || c == '\t' || c == '\U{000B}' || c == '\U{000C}' || c == '\U{FEFF}'
    || c == ' ' || c == '\U{00A0}' || c == '\U{1680}'
    || ('\U{2000}' <= c <= '\U{200A}')
    || c == '\U{202F}' || c == '\U{205F}' || c == '\U{3000}'
    || c == '\n' || c == '\r' || c == '\U{2028}' || c == '\U{2029}'
  }

  predicate AllSpace(s: string) {
    forall i :: 0 <= i < |s| ==> IsSpace(s[i])
  }

  /** The number of white-space characters `s` starts with. */
  function LeadingSpaces(s: string): (n: nat)
    ensures n <= |s| && AllSpace(s[..n])
    ensures n == |s| || !IsSpace(s[n])
    decreases |s|
  {
    if |s| > 0 && IsSpace(s[0]) then
      var m := LeadingSpaces(s[1..]);
      assert s[..m + 1] == [s[0]] + s[1..][..m];
      m + 1
    else 0
  }

  /** The number of white-space characters `s` ends with. */
  function TrailingSpaces(s: string): (n: nat)
    ensures n <= |s| && AllSpace(s[|s| - n..])
    ensures n == |s| || !IsSpace(s[|s| - n - 1])
    decreases |s|
  {
    if |s| > 0 && IsSpace(s[|s| - 1]) then
      var init := s[..|s| - 1];
      var m := TrailingSpaces(init);
      assert s[|s| - (m + 1)..] == init[|init| - m..] + [s[|s| - 1]];
      m + 1
    else 0
  }

  /**
   * `s.trim()`: the slice of `s` that starts right after its leading white
   * space and is followed by white space only. The result neither starts nor
   * ends with white space.
   */
  function Trim(s: string): (r: string)
    ensures var a := LeadingSpaces(s);
            a + |r| <= |s| && r == s[a..a + |r|] && AllSpace(s[a + |r|..])
    ensures |r| == 0 || (!IsSpace(r[0]) && !IsSpace(r[|r| - 1]))
  {
    var a := LeadingSpaces(s);
    var t := s[a..];
    var b := TrailingSpaces(t);
    var r := s[a..|s| - b];
    assert s[a + |r|..] == t[|t| - b..];
    assert |r| > 0 ==> r[|r| - 1] == t[|t| - b - 1];
    r
  }

  /** A string cut into two white-space pieces is white space. */
  lemma AllSpaceSplit(s: string, a: nat)
    requires a <= |s| && AllSpace(s[..a]) && AllSpace(s[a..])
    ensures AllSpace(s)
  {
    forall i | 0 <= i < |s|
      ensures IsSpace(s[i])
    {
      if i < a {
        assert s[..a][i] == s[i];
      } else {
        assert s[a..][i - a] == s[i];
      }
    }
  }

  /** `s.trim()` is empty exactly when `s` is made of white space only. */
  lemma TrimEmptyIffAllSpace(s: string)
    ensures Trim(s) == "" <==> AllSpace(s)
  {
    if Trim(s) == "" {
      AllSpaceSplit(s, LeadingSpaces(s));
    }
  }

  /** Trimming twice is trimming once. */
  lemma TrimIdempotent(s: string)
    ensures Trim(Trim(s)) == Trim(s)
  {
    var r := Trim(s);
    assert LeadingSpaces(r) == 0;
    assert r[0..] == r;
    assert TrailingSpaces(r) == 0;
  }

  /** The pieces of `s` between the occurrences of `sep`: `s.split(sep)` for a one-character separator. */
  function Split(s: string, sep: char): (parts: seq<string>)
    ensures |parts| >= 1
    ensures forall i :: 0 <= i < |parts| ==> sep !in parts[i]
    ensures Join(parts, sep) == s
    decreases |s|
  {
    if |s| == 0 then [""]
    else
      var rest := Split(s[1..], sep);
      if s[0] == sep then [""] + rest
      else [[s[0]] + rest[0]] + rest[1..]
  }

  /** The inverse of `Split`: the parts glued together with `sep` between neighbours. */
  function Join(parts: seq<string>, sep: char): string
    requires |parts| >= 1
  {
    if |parts| == 1 then parts[0] else parts[0] + [sep] + Join(parts[1..], sep)
  }

  /** The last joined part is a suffix, preceded by the separator when there is more than one part. */
  lemma {:induction false} JoinEndsWithLast(parts: seq<string>, sep: char)
    requires |parts| >= 1
    ensures var s, last := Join(parts, sep), parts[|parts| - 1];
            |last| <= |s| && s[|s| - |last|..] == last
            && (|parts| > 1 ==> |last| < |s| && s[|s| - |last| - 1] == sep)
  {
    if |parts| > 1 {
      JoinEndsWithLast(parts[1..], sep);
      var tail := Join(parts[1..], sep);
      assert Join(parts, sep) == parts[0] + [sep] + tail;
    }
  }

  /**
   * The characterisation of an extension: a suffix of `name` free of `.`
   * that is either the whole name or directly preceded by a `.`.
   */
  predicate IsExtensionOf(ext: string, name: string) {
    && '.' !in ext
    && |ext| <= |name| && name[|name| - |ext|..] == ext
    && (|ext| == |name| || name[|name| - |ext| - 1] == '.')
  }

  /** The length of the longest `.`-free suffix of `name`. */
  function DotFreeSuffixLength(name: string): nat
    decreases |name|
  {
    if |name| == 0 || name[|name| - 1] == '.' then 0
    else 1 + DotFreeSuffixLength(name[..|name| - 1])
  }

  /** An extension is exactly the longest `.`-free suffix. */
  lemma {:induction false} ExtensionLength(ext: string, name: string)
    requires IsExtensionOf(ext, name)
    ensures |ext| == DotFreeSuffixLength(name)
    decreases |name|
  {
    if |ext| > 0 {
      var init, last := name[..|name| - 1], |ext| - 1;
      assert name[|name| - 1] == ext[last];
      assert init[|init| - |ext[..last]|..] == ext[..last];
      ExtensionLength(ext[..last], init);
    }
  }

  /** At most one string is the extension of a name. */
  lemma ExtensionUnique(e1: string, e2: string, name: string)
    requires IsExtensionOf(e1, name) && IsExtensionOf(e2, name)
    ensures e1 == e2
  {
    ExtensionLength(e1, name);
    ExtensionLength(e2, name);
  }

  /** `name.split('.').pop()`: the text after the last `.`, or all of `name` when it has none. */
  function Extension(name: string): (ext: string)
    ensures IsExtensionOf(ext, name)
  {
    var parts := Split(name, '.');
    JoinEndsWithLast(parts, '.');
    parts[|parts| - 1]
  }

  /** The name the picture is stored under: `<id>.<ext>`. */
  function StoredName(id: string, name: string): (stored: string)
    ensures |stored| == |id| + 1 + |Extension(name)|
    ensures stored[..|id|] == id && stored[|id|] == '.'
    ensures stored[|id| + 1..] == Extension(name)
  {
    id + "." + Extension(name)
  }

  /**
   * The stored object keeps the extension of the uploaded file, whatever the
   * generated id is: the extension never contains a `.`, so the last `.` of
   * `<id>.<ext>` is the one put in front of it.
   */
  lemma StoredNameKeepsExtension(id: string, name: string)
    ensures Extension(StoredName(id, name)) == Extension(name)
  {
    var stored := StoredName(id, name);
    var ext := Extension(name);
    assert stored[|stored| - |ext|..] == ext;
    ExtensionUnique(Extension(stored), ext, stored);
  }
}
