/**
 * The regular expressions of the root manifest (`DocHubYamlPatterns`) as
 * character-class and length predicates. `.` follows ECMA-262: it matches any
 * character except a line terminator. Lengths count Dafny characters (Unicode
 * scalar values), as a regular expression with the `u` flag does.
 */
module ManifestPatterns {
  import opened Strings

  /** `[a-z0-9_\-]` */
  predicate IsIdChar(c: char)
  {
    ('a' <= c <= 'z') || ('0' <= c <= '9') || c == '_' || c == '-'
  }

  /** `packageID`: `^[a-z0-9_\-]{2,128}$` */
  predicate IsPackageId(s: string)
  {
    2 <= |s| <= 128 && forall i :: 0 <= i < |s| ==> IsIdChar(s[i])
  }

  predicate IsDigit(c: char)
  {
    '0' <= c <= '9'
  }

  /** `[0-9]{1,6}` */
  predicate IsDigitGroup(s: string)
  {
    1 <= |s| <= 6 && forall i :: 0 <= i < |s| ==> IsDigit(s[i])
  }

  /** `packageVer`: `^[0-9]{1,6}\.[0-9]{1,6}\.[0-9]{1,6}$` */
  predicate IsVersion(s: string)
  {
    var groups := Split(s, '.');
    |groups| == 3 && IsDigitGroup(groups[0]) && IsDigitGroup(groups[1]) && IsDigitGroup(groups[2])
  }

  /** The characters ECMA-262 `.` does not match. */
  predicate IsLineTerminator(c: char)
  {
    c == '\n' || c == '\r' || c == '\U{2028}' || c == '\U{2029}'
  }

  /** `^.{lo,hi}$` */
  predicate IsBoundedLine(s: string, lo: nat, hi: nat)
  {
    lo <= |s| <= hi && forall i :: 0 <= i < |s| ==> !IsLineTerminator(s[i])
  }

  /** `packageRequest`: `^.{1,128}$` */
  predicate IsRequest(s: string)
  {
    IsBoundedLine(s, 1, 128)
  }

  /** `packageName`: `^.{2,128}$` */
  predicate IsName(s: string)
  {
    IsBoundedLine(s, 2, 128)
  }

  /** `packageDescription`: `^.{2,512}$` */
  predicate IsDescription(s: string)
  {
    IsBoundedLine(s, 2, 512)
  }

  /** `packageStructPattern`: `^.*$`, a single line of any length. */
  predicate IsStructKey(s: string)
  {
    forall i :: 0 <= i < |s| ==> !IsLineTerminator(s[i])
  }

  /** The negated class `[^\/|^\n|^\r|^\t]`: anything but `/`, `|`, `^`, newline, CR and tab. */
  predicate IsSpaceChar(c: char)
  {
    c != '/' && c != '|' && c != '^' && c != '\n' && c != '\r' && c != '\t'
  }

  /** One repetition of the class: a non-empty run of space characters. */
  predicate IsSpaceSegment(s: string)
  {
    |s| >= 1 && forall i :: 0 <= i < |s| ==> IsSpaceChar(s[i])
  }

  predicate AllSpaceSegments(segs: seq<string>)
  {
    forall i :: 0 <= i < |segs| ==> IsSpaceSegment(segs[i])
  }

  /** `packageStructSpace`: `^(\/[^\/|^\n|^\r|^\t]{1,}){1,}$` */
  predicate IsStructSpace(s: string)
  {
    |s| >= 1 && s[0] == '/' && AllSpaceSegments(Split(s[1..], '/'))
  }

  /** The patterns by name, as the schemas refer to them. */
  datatype Pattern =
    | PackageId | PackageVer | PackageRequest | PackageName
    | PackageDescription | PackageStructSpace | PackageStructPattern

  function Matches(p: Pattern, s: string): bool
  {
    match p
    case PackageId => IsPackageId(s)
    case PackageVer => IsVersion(s)
    case PackageRequest => IsRequest(s)
    case PackageName => IsName(s)
    case PackageDescription => IsDescription(s)
    case PackageStructSpace => IsStructSpace(s)
    case PackageStructPattern => IsStructKey(s)
  }

  // ---------------------------------------------------------------------------

  lemma DigitGroupsFreeOfDot(a: string, b: string, c: string)
    requires IsDigitGroup(a) && IsDigitGroup(b) && IsDigitGroup(c)
    ensures FreeOf([a, b, c], '.')
  {
    forall i, j | 0 <= i < 3 && 0 <= j < |[a, b, c][i]|
      ensures [a, b, c][i][j] != '.'
    {
      assert IsDigit([a, b, c][i][j]);
    }
  }

  /** Three digit groups joined by dots form a version. */
  lemma VersionFromGroups(a: string, b: string, c: string)
    requires IsDigitGroup(a) && IsDigitGroup(b) && IsDigitGroup(c)
    ensures IsVersion(a + "." + b + "." + c)
  {
    DigitGroupsFreeOfDot(a, b, c);
    SplitJoin([a, b, c], '.');
    JoinThree(a, b, c, '.');
  }

  /** Every version is three digit groups joined by dots, and nothing else. */
  lemma VersionHasGroups(s: string)
    requires IsVersion(s)
    ensures exists a, b, c :: IsDigitGroup(a) && IsDigitGroup(b) && IsDigitGroup(c)
                              && s == a + "." + b + "." + c
  {
    var g := Split(s, '.');
    JoinSplit(s, '.');
    assert g == [g[0], g[1], g[2]];
    JoinThree(g[0], g[1], g[2], '.');
  }

  /** A structure location is `/` followed by one or more space segments joined by `/`. */
  lemma StructSpaceFromSegments(segs: seq<string>)
    requires |segs| >= 1 && AllSpaceSegments(segs)
    ensures IsStructSpace("/" + Join(segs, '/'))
  {
    assert FreeOf(segs, '/') by {
      forall i, j | 0 <= i < |segs| && 0 <= j < |segs[i]|
        ensures segs[i][j] != '/'
      {
        assert IsSpaceChar(segs[i][j]);
      }
    }
    SplitJoin(segs, '/');
    assert ("/" + Join(segs, '/'))[1..] == Join(segs, '/');
  }

  /** Conversely, every structure location has that form. */
  lemma StructSpaceHasSegments(s: string)
    requires IsStructSpace(s)
    ensures var segs := Split(s[1..], '/');
            |segs| >= 1 && AllSpaceSegments(segs) && s == "/" + Join(segs, '/')
  {
    JoinSplit(s[1..], '/');
    assert s == [s[0]] + s[1..];
  }

  /** `(\/…){1,}` is closed under concatenation. */
  lemma StructSpaceConcat(a: string, b: string)
    requires IsStructSpace(a) && IsStructSpace(b)
    ensures IsStructSpace(a + b)
  {
    var sa := Split(a[1..], '/');
    var sb := Split(b[1..], '/');
    var ja, jb := Join(sa, '/'), Join(sb, '/');
    assert |sa| >= 1 && AllSpaceSegments(sa) && a == "/" + ja by { StructSpaceHasSegments(a); }
    assert |sb| >= 1 && AllSpaceSegments(sb) && b == "/" + jb by { StructSpaceHasSegments(b); }
    assert AllSpaceSegments(sa + sb) by {
      forall i | 0 <= i < |sa + sb|
        ensures IsSpaceSegment((sa + sb)[i])
      {
        if i < |sa| { assert (sa + sb)[i] == sa[i]; } else { assert (sa + sb)[i] == sb[i - |sa|]; }
      }
    }
    calc {
      a + b;
      == ("/" + ja) + ("/" + jb);
      == "/" + (ja + ['/'] + jb);
      == { JoinAppend(sa, sb, '/'); }
      "/" + Join(sa + sb, '/');
    }
    StructSpaceFromSegments(sa + sb);
  }

  /** A structure location never ends in `/`: its last segment is non-empty. */
  lemma StructSpaceEndsInSegment(s: string)
    requires IsStructSpace(s)
    ensures s[|s| - 1] != '/'
  {
    StructSpaceHasSegments(s);
    var segs := Split(s[1..], '/');
    var last := segs[|segs| - 1];
    if |segs| == 1 {
      assert s == "/" + last;
    } else {
      JoinAppend(segs[..|segs| - 1], [last], '/');
      assert segs[..|segs| - 1] + [last] == segs;
      assert s == "/" + Join(segs[..|segs| - 1], '/') + "/" + last;
    }
    assert IsSpaceChar(last[|last| - 1]);
  }
}
