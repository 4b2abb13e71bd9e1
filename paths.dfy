/**
 * File-name checks: Go's `filepath.Ext`, `strings.ToLower` on the characters
 * that matter here, and filmtag's `isJPEG`.
 */
module Paths {

  /** The path separator at which `filepath.Ext` stops scanning (Unix). */
  const Separator: char := '/'

  /** No '.' occurs after the last separator of `path`. */
  predicate NoDotInLastElement(path: string) {
    forall i :: 0 <= i < |path| && path[i] == '.' ==> Separator in path[i + 1..]
  }

  /**
   * `filepath.Ext`: the suffix of `path` that starts at the last '.' of its
   * final element, or "" when that element has no '.'. The contract pins the
   * result down completely: it is a suffix that starts with '.', holds no
   * further '.' or separator, and it is empty exactly when there is no dot.
   */
  function Ext(path: string): (ext: string)
    ensures |ext| <= |path| && ext == path[|path| - |ext|..]
    ensures ext != [] ==> ext[0] == '.'
    ensures forall i :: 0 < i < |ext| ==> ext[i] != '.' && ext[i] != Separator
    ensures ext == [] <==> NoDotInLastElement(path)
    decreases |path|
  {
    if path == [] then []
    else
      var last := path[|path| - 1];
      if last == Separator then
        []
      else if last == '.' then [last]
      else
        var init := path[..|path| - 1];
        var e := Ext(init);
        if e == [] then [] else e + [last]
  }

  /** `unicode.ToLower` on one character, exact on ASCII. */
  function LowerChar(c: char): char {
    if 'A' <= c <= 'Z' then (c as int + 32) as char else c
  }

  /** `strings.ToLower`, character by character. */
  function Lower(s: string): (r: string)
    ensures |r| == |s|
    ensures forall i :: 0 <= i < |s| ==> r[i] == LowerChar(s[i])
  {
    seq(|s|, i requires 0 <= i < |s| => LowerChar(s[i]))
  }

  /** `isJPEG`: the lower-cased extension is ".jpg" or ".jpeg". */
  predicate IsJPEG(filename: string) {
    var ext := Lower(Ext(filename));
    ext == ".jpg" || ext == ".jpeg"
  }

  /** `s` ends with `suffix` when the tail of `s` is lower-cased. */
  predicate EndsWithIgnoringCase(s: string, suffix: string) {
    |suffix| <= |s| && Lower(s[|s| - |suffix|..]) == suffix
  }

  /** The extension of a path is fixed by any dot with no dot or separator after it. */
  lemma ExtAtLastDot(path: string, k: nat)
    requires k < |path| && path[k] == '.'
    requires forall j :: k < j < |path| ==> path[j] != '.' && path[j] != Separator
    ensures Ext(path) == path[k..]
  {
  }

  /**
   * `isJPEG` accepts exactly the names that end in ".jpg" or ".jpeg" in any
   * mix of case; nothing before that suffix matters.
   */
  lemma IsJPEGIffSuffix(filename: string)
    ensures IsJPEG(filename) <==>
      EndsWithIgnoringCase(filename, ".jpg") || EndsWithIgnoringCase(filename, ".jpeg")
  {
    var n := |filename|;
    if EndsWithIgnoringCase(filename, ".jpg") {
      var s := filename[n - 4..];
      assert Lower(s)[0] == '.' && Lower(s)[1] == 'j' && Lower(s)[2] == 'p' && Lower(s)[3] == 'g';
      ExtAtLastDot(filename, n - 4);
    } else if EndsWithIgnoringCase(filename, ".jpeg") {
      var s := filename[n - 5..];
      assert Lower(s)[0] == '.' && Lower(s)[1] == 'j' && Lower(s)[2] == 'p'
        && Lower(s)[3] == 'e' && Lower(s)[4] == 'g';
      ExtAtLastDot(filename, n - 5);
    }
  }

  /** An upper-case extension after a directory is accepted. */
  lemma UpperCaseExtensionAccepted()
    ensures IsJPEG("roll-001/IMG_0001.JPG")
  {
    var f := "roll-001/IMG_0001.JPG";
    assert f[|f| - 4..] == ".JPG";
    IsJPEGIffSuffix(f);
  }

  /** Only the last extension counts. */
  lemma DoubleExtensionRejected()
    ensures !IsJPEG("a.jpg.png")
  {
  }

  /** A name with no dot has no extension. */
  lemma NoDotRejected()
    ensures !IsJPEG("jpg")
  {
  }

  /** A dot in a directory name is not an extension of the file. */
  lemma DotInDirectoryRejected()
    ensures !IsJPEG("roll.jpg/notes")
  {
  }
}
