/** How a file's extension is derived from its name (get_extensions in homework/threading_hw.py):
    the suffix of the name as pathlib computes it, without its dot, upper-cased. */
module Extensions {

  /** ASCII upper-casing of one character; every other character is left alone. */
  function ToUpper(c: char): (u: char)
  {
    if 'a' <= c <= 'z' then (c as int - 32) as char else c
  }

  /** ASCII upper-casing of a string, character by character. */
  function Upper(s: string): (r: string)
    ensures |r| == |s|
  {
    seq(|s|, k requires 0 <= k < |s| => ToUpper(s[k]))
  }

  /** The index of the last occurrence of `c` among the first `n` characters of `s`, or -1
      when there is none. */
  function LastBefore(s: string, c: char, n: nat): (i: int)
    requires n <= |s|
    ensures -1 <= i < n
  {
    if n == 0 then -1
    else if s[n - 1] == c then n - 1
    else LastBefore(s, c, n - 1)
  }

  /** The index of the last occurrence of `c` in `s`, or -1 when there is none (str.rfind). */
  function RFind(s: string, c: char): (i: int)
    ensures -1 <= i < |s|
  {
    LastBefore(s, c, |s|)
  }

  lemma {:induction false} LastBeforeSpec(s: string, c: char, n: nat)
    requires n <= |s|
    ensures var i := LastBefore(s, c, n);
            (0 <= i ==> s[i] == c) && forall j :: i < j < n ==> s[j] != c
    decreases n
  {
    if n > 0 && s[n - 1] != c {
      LastBeforeSpec(s, c, n - 1);
    }
  }

  /** RFind finds the last `c`: there is none after it, and it is one unless it is -1. */
  lemma RFindSpec(s: string, c: char)
    ensures var i := RFind(s, c);
            (0 <= i ==> s[i] == c) && forall j :: i < j < |s| ==> s[j] != c
  {
    LastBeforeSpec(s, c, |s|);
  }

  /** pathlib's suffix of a final path component, by the rule of CPython up to 3.13: the last
      dot and what follows it when that dot is neither the first nor the last character of the
      name, and "" otherwise.  Kept apart from GetExtension so that `suffix[1:].upper()` can be
      stated as written. */
  function Suffix(name: string): (r: string)
  {
    var i := RFind(name, '.');
    if 0 < i < |name| - 1 then name[i..] else ""
  }

  /** get_extensions: the suffix without its leading dot, upper-cased. */
  function GetExtension(name: string): (ext: string)
  {
    var i := RFind(name, '.');
    Upper(if 0 < i < |name| - 1 then name[i + 1..] else "")
  }

  /** The extension is the suffix without its dot, upper-cased. */
  lemma ExtensionIsSuffix(name: string)
    ensures GetExtension(name) == Upper(if Suffix(name) == "" then "" else Suffix(name)[1..])
  {
    var i := RFind(name, '.');
    if 0 < i < |name| - 1 {
      assert Suffix(name)[1..] == name[i + 1..];
    }
  }

  /** The extension is empty exactly for a name without a dot, a dotfile whose only dot comes
      first, and a name ending in a dot; otherwise it is the upper-cased text after the last
      dot.  It never contains a dot. */
  lemma ExtensionCharacterised(name: string)
    ensures GetExtension(name) == "" <==>
              '.' !in name
              || (name[0] == '.' && '.' !in name[1..])
              || name[|name| - 1] == '.'
    ensures GetExtension(name) != "" ==>
              var i := |name| - |GetExtension(name)| - 1;
              0 < i < |name| - 1 && name[i] == '.' && '.' !in name[i + 1..]
              && GetExtension(name) == Upper(name[i + 1..])
    ensures '.' !in GetExtension(name)
  {
    var i := RFind(name, '.');
    var r := GetExtension(name);
    RFindSpec(name, '.');
    assert '.' in name <==> 0 <= i;
    assert 0 <= i ==> ('.' !in name[i + 1..]);
    assert i == 0 && |name| > 0 ==> ('.' !in name[1..]);
    assert |name| > 0 && name[|name| - 1] == '.' ==> i == |name| - 1;
    assert |name| > 0 && name[0] == '.' && '.' !in name[1..] ==> i == 0;
    if 0 < i < |name| - 1 {
      assert |r| == |name| - i - 1;
      UpperKeepsDots(name[i + 1..]);
    } else {
      assert r == "";
    }
  }

  /** Upper-casing neither creates nor removes a dot. */
  lemma UpperKeepsDots(s: string)
    ensures '.' in Upper(s) <==> '.' in s
  {
    if '.' in Upper(s) {
      var k :| 0 <= k < |s| && Upper(s)[k] == '.';
      assert s[k] == '.';
    }
    if '.' in s {
      var k :| 0 <= k < |s| && s[k] == '.';
      assert Upper(s)[k] == '.';
    }
  }

  /** Upper-casing keeps every dot where it is and creates none. */
  lemma {:induction false} LastDotUpper(s: string, n: nat)
    requires n <= |s|
    ensures LastBefore(Upper(s), '.', n) == LastBefore(s, '.', n)
    decreases n
  {
    if n > 0 {
      assert Upper(s)[n - 1] == ToUpper(s[n - 1]);
      LastDotUpper(s, n - 1);
    }
  }

  /** Upper-casing a name does not change its extension. */
  lemma ExtensionOfUpper(name: string)
    ensures GetExtension(Upper(name)) == GetExtension(name)
  {
    var u := Upper(name);
    LastDotUpper(name, |name|);
    var i := RFind(name, '.');
    if 0 < i < |name| - 1 {
      assert Upper(u[i + 1..]) == Upper(name[i + 1..]);
    }
  }

  /** Extension matching is case-insensitive: names that agree once upper-cased, such as
      photo.jpg, photo.JPG and photo.Jpg, have the same extension. */
  lemma ExtensionCaseInsensitive(a: string, b: string)
    requires Upper(a) == Upper(b)
    ensures GetExtension(a) == GetExtension(b)
  {
    ExtensionOfUpper(a);
    ExtensionOfUpper(b);
  }

  /** A multi-part suffix yields only its last part: a.tar.gz has extension GZ. */
  lemma ExtensionOfTarGz()
    ensures GetExtension("a.tar.gz") == "GZ"
  {
    var n := "a.tar.gz";
    assert LastBefore(n, '.', 6) == 5;
    assert LastBefore(n, '.', 8) == 5;
    assert n[6..] == "gz";
    assert Upper("gz") == "GZ";
  }

  /** A dotfile has no extension. */
  lemma ExtensionOfDotfile()
    ensures GetExtension(".bashrc") == ""
  {
    var n := ".bashrc";
    assert LastBefore(n, '.', 1) == 0;
    assert LastBefore(n, '.', 4) == 0;
    assert LastBefore(n, '.', 7) == 0;
  }
}
