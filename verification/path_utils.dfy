/**
  The Windows drive-letter rewrite inside `_normalize_path`
  (utils/path_utils.py): after URL-unquoting, and only on Windows, a leading
  `/` before a drive prefix is dropped, and a drive prefix not followed by a
  separator gets one inserted. The string is then handed to `Path`.
 */
module PathUtils {

  /** `[a-zA-Z]`: ASCII letters only. */
  predicate IsAsciiLetter(c: char) {
    'a' <= c <= 'z' || 'A' <= c <= 'Z'
  }

  /** `re.match(r"^/[a-zA-Z]:", s)` */
  predicate StartsWithSlashDrive(s: string) {
    |s| >= 3 && s[0] == '/' && IsAsciiLetter(s[1]) && s[2] == ':'
  }

  /** `re.match(r"^[a-zA-Z]:[^\\\\/]", s)`: a drive prefix followed by a character other than `\` or `/`. */
  predicate StartsWithBareDrive(s: string) {
    |s| >= 3 && IsAsciiLetter(s[0]) && s[1] == ':' && s[2] != '\\' && s[2] != '/'
  }

  /** The inserted text: the non-raw literal `"\\\\"`, i.e. two backslash characters. */
  const DriveSeparator: string := "\\\\"

  /** First rule: `/d:...` becomes `d:...`. */
  function StripDriveSlash(s: string): (r: string)
    ensures StartsWithSlashDrive(s) ==> "/" + r == s && |r| == |s| - 1
    ensures !StartsWithSlashDrive(s) ==> r == s
  {
    if StartsWithSlashDrive(s) then s[1..] else s
  }

  /** Second rule: `d:foo` becomes `d:` + two backslashes + `foo`. */
  function InsertDriveSeparator(s: string): (r: string)
    ensures StartsWithBareDrive(s) ==>
      && |r| == |s| + 2
      && r[2..4] == DriveSeparator
      && r[..2] + r[4..] == s
    ensures !StartsWithBareDrive(s) ==> r == s
  {
    if StartsWithBareDrive(s) then s[..2] + DriveSeparator + s[2..] else s
  }

  /**
    Lines 10-19: both rules in order when the platform is Windows, nothing
    otherwise. Afterwards neither rule's pattern matches any more.
   */
  function RewriteDrive(unquoted: string, isWindows: bool): (r: string)
    ensures !isWindows ==> r == unquoted
    ensures isWindows ==> !StartsWithSlashDrive(r) && !StartsWithBareDrive(r)
  {
    if isWindows then InsertDriveSeparator(StripDriveSlash(unquoted)) else unquoted
  }

  /**
    The string `_normalize_path` passes to `Path(...)`; URL-unquoting is the
    library function `unquote`, and `platform.system() == "Windows"` is `isWindows`.
   */
  function PathArgument(pathStr: string, isWindows: bool, unquote: string -> string): (r: string)
    ensures !isWindows ==> r == unquote(pathStr)
  {
    RewriteDrive(unquote(pathStr), isWindows)
  }

  /** Applying the rewrite to its own output changes nothing. */
  lemma RewriteIdempotent(s: string, isWindows: bool)
    ensures RewriteDrive(RewriteDrive(s, isWindows), isWindows) == RewriteDrive(s, isWindows)
  {
  }

  /** A string starting with neither drive pattern reaches `Path` unchanged, on every platform. */
  lemma NoDrivePatternUnchanged(s: string, isWindows: bool)
    requires !StartsWithSlashDrive(s) && !StartsWithBareDrive(s)
    ensures RewriteDrive(s, isWindows) == s
  {
  }

  /**
    Everything after the "/X:" drive prefix, `s[3..]`, is kept unchanged,
    whichever rules fire; only the prefix is rewritten.
   */
  lemma RewriteKeepsRemainder(s: string)
    ensures StartsWithSlashDrive(s) ==> RewriteDrive(s, true)[..2] == s[1..3]
    ensures StartsWithSlashDrive(s) && |s| > 3 && s[3] != '\\' && s[3] != '/' ==>
      RewriteDrive(s, true) == s[1..3] + DriveSeparator + s[3..]
    ensures StartsWithSlashDrive(s) && (|s| == 3 || s[3] == '\\' || s[3] == '/') ==>
      RewriteDrive(s, true) == s[1..]
    ensures !StartsWithSlashDrive(s) ==> RewriteDrive(s, true) == InsertDriveSeparator(s)
  {
    if StartsWithSlashDrive(s) {
      var t := s[1..];
      assert StartsWithBareDrive(t) <==> |s| > 3 && s[3] != '\\' && s[3] != '/';
    }
  }

  /** A separator already after the drive, or a bare `X:`, is left alone by the second rule. */
  lemma SeparatedDriveUnchanged(s: string)
    requires |s| >= 2 && IsAsciiLetter(s[0]) && s[1] == ':'
    requires |s| == 2 || s[2] == '\\' || s[2] == '/'
    ensures InsertDriveSeparator(s) == s
    ensures RewriteDrive(s, true) == s
  {
  }

  /** The worked cases: `/d:foo`, `/d:`, `d:/x`, and non-matching `//d:x`, `1:x`, `é:x`. */
  lemma Examples()
    ensures RewriteDrive("/d:foo", true) == "d:\\\\foo"
    ensures RewriteDrive("/d:", true) == "d:"
    ensures RewriteDrive("d:/x", true) == "d:/x"
    ensures RewriteDrive("//d:x", true) == "//d:x"
    ensures RewriteDrive("1:x", true) == "1:x"
    ensures RewriteDrive("\U{e9}:x", true) == "\U{e9}:x"
    ensures RewriteDrive("/d:foo", false) == "/d:foo"
  {
    assert StartsWithSlashDrive("/d:foo");
    assert "/d:foo"[1..] == "d:foo";
    assert StartsWithBareDrive("d:foo");
    assert "d:foo"[..2] + DriveSeparator + "d:foo"[2..] == "d:\\\\foo";
    assert "/d:"[1..] == "d:";
  }
}
