/**
 * Relative-path computation between two DocHub URIs (`getRelativePath`).
 *
 * A DocHub URI may carry a repository/branch prefix separated by `@`
 * (`repo@branch@/path`). URL parsing is not modelled: the parser is a parameter
 * that yields the protocol, host and pathname of a URL resolved against `null:/`,
 * or `None` where the URL constructor would throw.
 */
module RelativePath {
  import opened Common
  import opened Strings

  /** The parts of a parsed URL the computation reads. */
  datatype UrlParts = UrlParts(protocol: string, host: string, pathname: string)

  datatype PathError =
    | BaseUndefined   // `baseUrl?.split('@')` is undefined, so reading `.length` throws
    | InvalidUrl      // the URL constructor throws
    | OriginMismatch  // protocol or host differ

  type Parser = string -> Option<UrlParts>

  /** The non-empty `/`-separated segments of a pathname. */
  function Segments(pathname: string): (segs: seq<string>)
    ensures forall i :: 0 <= i < |segs| ==> segs[i] != "" && '/' !in segs[i]
  {
    SplitShape(pathname, '/');
    NonEmptyFreeOf(Split(pathname, '/'), '/');
    NonEmpty(Split(pathname, '/'))
  }

  lemma {:induction false} NonEmptyFreeOf(parts: seq<string>, c: char)
    requires FreeOf(parts, c)
    ensures FreeOf(NonEmpty(parts), c)
    decreases |parts|
  {
    if |parts| > 0 {
      NonEmptyFreeOf(parts[1..], c);
    }
  }

  /** `c` is the length of the longest common prefix of `a` and `b`. */
  predicate IsLongestCommonPrefix<T(==)>(a: seq<T>, b: seq<T>, c: nat)
  {
    && c <= |a| && c <= |b|
    && a[..c] == b[..c]
    && (c < |a| && c < |b| ==> a[c] != b[c])
  }

  /** The `commonLength` loop: how many leading segments the two paths share. */
  function CommonPrefixLength<T(==)>(a: seq<T>, b: seq<T>): (c: nat)
    ensures IsLongestCommonPrefix(a, b, c)
  {
    if |a| == 0 || |b| == 0 || a[0] != b[0] then 0
    else
      var c := 1 + CommonPrefixLength(a[1..], b[1..]);
      assert a[..c] == [a[0]] + a[1..][..c - 1];
      assert b[..c] == [b[0]] + b[1..][..c - 1];
      c
  }

  /** `n` copies of `x`. */
  function Repeat(x: string, n: nat): (r: seq<string>)
    ensures |r| == n
    ensures forall i :: 0 <= i < n ==> r[i] == x
  {
    if n == 0 then [] else [x] + Repeat(x, n - 1)
  }

  /** How many `..` the first loop after the common prefix pushes: one per base segment past `c + 1`. */
  function UpCount(baseLength: nat, c: nat): nat
  {
    if c + 1 < baseLength then baseLength - c - 1 else 0
  }

  /** The segments of the relative path, before they are joined with `/`. */
  function RelativeSegments(bs: seq<string>, ts: seq<string>): seq<string>
  {
    var c := CommonPrefixLength(bs, ts);
    Repeat("..", UpCount(|bs|, c)) + ts[c..]
  }

  /** The computation once both URLs are parsed. */
  function Relate(base: UrlParts, target: UrlParts): Result<string, PathError>
  {
    if base.protocol != target.protocol || base.host != target.host then Failure(OriginMismatch)
    else Success(Join(RelativeSegments(Segments(base.pathname), Segments(target.pathname)), '/'))
  }

  /** The `@`-structures agree: same number of parts, and the same first part when there are two. */
  predicate SameStructure(structBase: seq<string>, structTarget: seq<string>)
  {
    && |structBase| == |structTarget|
    && (|structBase| == 2 ==> structBase[0] == structTarget[0])
  }

  /** `structX.pop() || '/'`: the right-most `@`-part, or `/` when it is empty. */
  function Tail(struct: seq<string>): string
    requires |struct| >= 1
  {
    var last := struct[|struct| - 1];
    if last == "" then "/" else last
  }

  /** Parse the right-most `@`-parts of both URIs and relate them. */
  function RelateTails(structBase: seq<string>, structTarget: seq<string>, parse: Parser): (r: Result<string, PathError>)
    requires |structBase| >= 1 && |structTarget| >= 1
    ensures r == Failure(InvalidUrl) <==> parse(Tail(structBase)).None? || parse(Tail(structTarget)).None?
  {
    var base := parse(Tail(structBase));
    var target := parse(Tail(structTarget));
    if base.None? || target.None? then Failure(InvalidUrl)
    else Relate(base.value, target.value)
  }

  /** `getRelativePath(baseUrl, targetUrl)`, with `baseUrl` possibly undefined. */
  function GetRelativePath(baseUrl: Option<string>, targetUrl: string, parse: Parser): (r: Result<string, PathError>)
    ensures r == Failure(BaseUndefined) <==> baseUrl.None?
    ensures r == Failure(InvalidUrl) ==> baseUrl.Some? && SameStructure(Split(baseUrl.value, '@'), Split(targetUrl, '@'))
  {
    if baseUrl.None? then Failure(BaseUndefined)
    else
      var structBase := Split(baseUrl.value, '@');
      var structTarget := Split(targetUrl, '@');
      if !SameStructure(structBase, structTarget) then Success(targetUrl)
      else RelateTails(structBase, structTarget, parse)
  }

  /**
   * The `@`-structures name the same repository and branch: same number of parts,
   * and every part but the right-most one equal.
   */
  predicate SameRepository(structBase: seq<string>, structTarget: seq<string>)
    requires |structBase| >= 1 && |structTarget| >= 1
  {
    && |structBase| == |structTarget|
    && structBase[..|structBase| - 1] == structTarget[..|structTarget| - 1]
  }

  /** `getRelativePath` comparing the whole repository/branch prefix, also in `repo@branch@/path`. */
  function GetRelativePathCorrected(baseUrl: Option<string>, targetUrl: string, parse: Parser): (r: Result<string, PathError>)
    ensures r == Failure(BaseUndefined) <==> baseUrl.None?
    ensures baseUrl.Some? && !SameRepository(Split(baseUrl.value, '@'), Split(targetUrl, '@')) ==> r == Success(targetUrl)
  {
    if baseUrl.None? then Failure(BaseUndefined)
    else
      var structBase := Split(baseUrl.value, '@');
      var structTarget := Split(targetUrl, '@');
      if !SameRepository(structBase, structTarget) then Success(targetUrl)
      else RelateTails(structBase, structTarget, parse)
  }

  // ---------------------------------------------------------------------------
  // Segments

  /** Re-splitting a join of proper segments gives them back. */
  lemma SegmentsOfJoin(segs: seq<string>)
    requires forall i :: 0 <= i < |segs| ==> segs[i] != "" && '/' !in segs[i]
    ensures Segments(Join(segs, '/')) == segs
  {
    if |segs| == 0 {
    } else {
      SplitJoin(segs, '/');
      NonEmptyOfNonEmpty(segs);
    }
  }

  /** A `/` between two pathnames contributes no segment of its own. */
  lemma SegmentsOfConcat(a: string, b: string)
    ensures Segments(a + "/" + b) == Segments(a) + Segments(b)
  {
    SplitConcat(a, b, '/');
    NonEmptyAppend(Split(a, '/'), Split(b, '/'));
  }

  /** Repeated and trailing slashes do not change the segments. */
  lemma SlashesDoNotMatter(a: string, b: string)
    ensures Segments(a + "//" + b) == Segments(a + "/" + b)
    ensures Segments(a + "/") == Segments(a)
    ensures Segments("/" + a) == Segments(a)
  {
    SegmentsOfConcat(a, "/" + b);
    assert a + "/" + ("/" + b) == a + "//" + b;
    SegmentsOfConcat("", b);
    assert "" + "/" + b == "/" + b;
    assert Segments("") == [];
    SegmentsOfConcat(a, b);
    SegmentsOfConcat(a, "");
    assert a + "/" + "" == a + "/";
    SegmentsOfConcat("", a);
    assert "" + "/" + a == "/" + a;
  }

  // ---------------------------------------------------------------------------
  // Early exits

  /** Different numbers of `@` in the two URIs: the target comes back unchanged. */
  lemma ShapeMismatchKeepsTarget(base: string, target: string, parse: Parser)
    requires Count(base, '@') != Count(target, '@')
    ensures GetRelativePath(Some(base), target, parse) == Success(target)
  {
    SplitShape(base, '@');
    SplitShape(target, '@');
  }

  /** One `@` each, different repository/branch parts: the target comes back unchanged. */
  lemma RepoMismatchKeepsTarget(repoB: string, pathB: string, repoT: string, pathT: string, parse: Parser)
    requires '@' !in repoB && '@' !in pathB && '@' !in repoT && '@' !in pathT
    requires repoB != repoT
    ensures GetRelativePath(Some(repoB + "@" + pathB), repoT + "@" + pathT, parse)
         == Success(repoT + "@" + pathT)
  {
    SplitJoin([repoB, pathB], '@');
    SplitJoin([repoT, pathT], '@');
  }

  /** With three or more `@`-parts only their number is compared; the leading parts are ignored. */
  lemma LongStructureComparesLastPartOnly(bp: seq<string>, tp: seq<string>, parse: Parser)
    requires |bp| == |tp| >= 3
    requires FreeOf(bp, '@') && FreeOf(tp, '@')
    ensures GetRelativePath(Some(Join(bp, '@')), Join(tp, '@'), parse)
         == GetRelativePath(Some(bp[|bp| - 1]), tp[|tp| - 1], parse)
  {
    var b, t := bp[|bp| - 1], tp[|tp| - 1];
    calc {
      GetRelativePath(Some(Join(bp, '@')), Join(tp, '@'), parse);
      == { SplitJoin(bp, '@'); SplitJoin(tp, '@'); assert SameStructure(bp, tp); }
      RelateTails(bp, tp, parse);
      == { assert Tail(bp) == Tail([b]) && Tail(tp) == Tail([t]); }
      RelateTails([b], [t], parse);
      == { SplitOfFree(b, '@'); SplitOfFree(t, '@'); assert SameStructure([b], [t]); }
      GetRelativePath(Some(b), t, parse);
    }
  }

  /** Parsed URLs with different protocol or host make the call throw. */
  lemma OriginMismatchFails(base: string, target: string, parse: Parser)
    requires SameStructure(Split(base, '@'), Split(target, '@'))
    requires parse(Tail(Split(base, '@'))).Some? && parse(Tail(Split(target, '@'))).Some?
    requires var b := parse(Tail(Split(base, '@'))).value;
             var t := parse(Tail(Split(target, '@'))).value;
             b.protocol != t.protocol || b.host != t.host
    ensures GetRelativePath(Some(base), target, parse) == Failure(OriginMismatch)
  {
  }

  // ---------------------------------------------------------------------------
  // Shape of the result

  /**
   * The relative path, split again, is the `..` run followed by the target's
   * segments past the common prefix.
   */
  lemma {:induction false} RelateShape(base: UrlParts, target: UrlParts)
    requires base.protocol == target.protocol && base.host == target.host
    ensures Relate(base, target).Success?
    ensures var bs := Segments(base.pathname);
            var ts := Segments(target.pathname);
            exists c: nat :: IsLongestCommonPrefix(bs, ts, c)
              && Segments(Relate(base, target).value)
                 == Repeat("..", if c + 1 < |bs| then |bs| - c - 1 else 0) + ts[c..]
    ensures Relate(base, target).value == Join(Segments(Relate(base, target).value), '/')
  {
    var bs := Segments(base.pathname);
    var ts := Segments(target.pathname);
    var c := CommonPrefixLength(bs, ts);
    var rel := RelativeSegments(bs, ts);
    assert rel == Repeat("..", UpCount(|bs|, c)) + ts[c..];
    forall i | 0 <= i < |rel|
      ensures rel[i] != "" && '/' !in rel[i]
    {
      if i >= UpCount(|bs|, c) {
        assert rel[i] == ts[c + i - UpCount(|bs|, c)];
      }
    }
    SegmentsOfJoin(rel);
  }

  /** Two pathnames with the same segments relate by the empty string. */
  lemma SameSegmentsGiveEmpty(base: UrlParts, target: UrlParts)
    requires base.protocol == target.protocol && base.host == target.host
    requires Segments(base.pathname) == Segments(target.pathname)
    ensures Relate(base, target) == Success("")
  {
    var s := Segments(base.pathname);
    assert s[..|s|] == s;
    var c := CommonPrefixLength(s, s);
    assert c == |s|;
  }

  /** A URI relative to itself is the empty string, once it parses. */
  lemma SelfIsEmpty(uri: string, parse: Parser)
    requires parse(Tail(Split(uri, '@'))).Some?
    ensures GetRelativePath(Some(uri), uri, parse) == Success("")
  {
    var u := parse(Tail(Split(uri, '@'))).value;
    SameSegmentsGiveEmpty(u, u);
  }

  // ---------------------------------------------------------------------------
  // The repository/branch comparison

  /**
   * As written, `repo@branch@/path` URIs of different repositories are related
   * as if they were one: the same path in two repositories is the empty path.
   */
  lemma CrossRepositoryRelatesAsWritten(parse: Parser)
    requires parse("/x").Some?
    ensures GetRelativePath(Some("a@main@/x"), "b@dev@/x", parse) == Success("")
    ensures GetRelativePathCorrected(Some("a@main@/x"), "b@dev@/x", parse) == Success("b@dev@/x")
  {
    assert "a@main@/x" == Join(["a", "main", "/x"], '@');
    assert "b@dev@/x" == Join(["b", "dev", "/x"], '@');
    LongStructureComparesLastPartOnly(["a", "main", "/x"], ["b", "dev", "/x"], parse);
    SplitOfFree("/x", '@');
    SelfIsEmpty("/x", parse);
    SplitJoin(["a", "main", "/x"], '@');
    SplitJoin(["b", "dev", "/x"], '@');
    assert ["a", "main", "/x"][..2] != ["b", "dev", "/x"][..2] by {
      assert ["a", "main", "/x"][..2][0] == "a";
      assert ["b", "dev", "/x"][..2][0] == "b";
    }
  }

  /** With at most one `@`, the corrected comparison is the one as written. */
  lemma CorrectedAgreesUpToOneAt(base: string, target: string, parse: Parser)
    requires Count(base, '@') <= 1 && Count(target, '@') <= 1
    ensures GetRelativePathCorrected(Some(base), target, parse) == GetRelativePath(Some(base), target, parse)
  {
    SplitShape(base, '@');
    SplitShape(target, '@');
    var sb := Split(base, '@');
    var st := Split(target, '@');
    if |sb| == 2 && |st| == 2 {
      assert sb[..1] == [sb[0]] && st[..1] == [st[0]];
    }
  }
}
