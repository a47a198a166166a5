/**
 * Externally addressable URLs of stored items: the fixed prefix `/static`
 * resolved with the item's path relativized against the storage root
 * (`getObjectUrl`).
 */
module ObjectUrls {
  import opened Wrappers
  import opened FileSystem

  /** The service's `rootUrl`. */
  const RootUrl: string := "/static"

  /** Length of the longest common prefix of two paths. */
  function CommonPrefixLength(a: Path, b: Path): (n: nat)
    ensures n <= |a| && n <= |b|
    ensures a[..n] == b[..n]
    ensures n < |a| && n < |b| ==> a[n] != b[n]
  {
    if a == [] || b == [] || a[0] != b[0] then 0
    else
      var n := 1 + CommonPrefixLength(a[1..], b[1..]);
      assert a[..n] == [a[0]] + a[1..][..n - 1];
      assert b[..n] == [b[0]] + b[1..][..n - 1];
      n
  }

  /** `n` parent steps. */
  function Ups(n: nat): (r: Path)
    ensures |r| == n
    ensures forall i :: 0 <= i < n ==> r[i] == ".."
  {
    if n == 0 then [] else Ups(n - 1) + [".."]
  }

  /**
   * `base.relativize(p)`: climb out of `base` to the deepest common ancestor,
   * then descend to `p`.
   */
  function Relativize(base: Path, p: Path): Path
  {
    var k := CommonPrefixLength(base, p);
    Ups(|base| - k) + p[k..]
  }

  /** A relative path rendered with forward slashes, each segment preceded by `/`. */
  function Join(rel: Path): string
  {
    if rel == [] then "" else "/" + rel[0] + Join(rel[1..])
  }

  /** `rootUrl.resolve(rootPath.relativize(p)).toString()`. */
  function ObjectUrl(root: Path, p: Path): (url: string)
    ensures |url| >= |RootUrl| && url[..|RootUrl|] == RootUrl
    ensures url == RootUrl <==> p == root
  {
    RootUrl + Join(Relativize(root, p))
  }

  /** Relativizing a descendant of `base` gives back exactly the part below `base`. */
  lemma RelativizeDescendant(base: Path, rel: Path)
    ensures Relativize(base, base + rel) == rel
  {
  }

  /** A path outside `base` is reached by first climbing out of it. */
  lemma RelativizeOutside(base: Path, p: Path)
    requires |p| < |base| || p[..|base|] != base
    ensures var r := Relativize(base, p); r != [] && r[0] == ".."
  {
  }

  /** Every item under the root is addressed by `/static` followed by its segments. */
  lemma DescendantUrl(root: Path, rel: Path)
    ensures ObjectUrl(root, root + rel) == RootUrl + Join(rel)
  {
    RelativizeDescendant(root, rel);
  }

  lemma {:induction false} JoinAppend(rel: Path, name: string)
    ensures Join(rel + [name]) == Join(rel) + "/" + name
  {
    if rel != [] {
      assert (rel + [name])[1..] == rel[1..] + [name];
      JoinAppend(rel[1..], name);
    }
  }

  /** The URL of an entry of a folder under the root is the folder's URL, `/` and the entry's name. */
  lemma ChildUrl(root: Path, rel: Path, name: string)
    ensures ObjectUrl(root, root + rel + [name]) == ObjectUrl(root, root + rel) + "/" + name
  {
    DescendantUrl(root, rel);
    assert root + rel + [name] == root + (rel + [name]);
    DescendantUrl(root, rel + [name]);
    JoinAppend(rel, name);
  }

  // ----- Reading a URL back -------------------------------------------------

  /** A segment that can be told apart from its neighbours in a URL. */
  predicate NoSeparators(rel: Path)
  {
    forall i :: 0 <= i < |rel| ==> '/' !in rel[i]
  }

  /** Characters before the first `/`. */
  function SegmentLength(s: string): (n: nat)
    ensures n <= |s|
    ensures n < |s| ==> s[n] == '/'
    ensures forall i :: 0 <= i < n ==> s[i] != '/'
  {
    if s == [] || s[0] == '/' then 0 else 1 + SegmentLength(s[1..])
  }

  /** Cuts `/a/b/c` into `["a", "b", "c"]`. */
  function Split(s: string): Path
    decreases |s|
  {
    if s == [] then []
    else
      var n := SegmentLength(s[1..]);
      [s[1..1 + n]] + Split(s[1 + n..])
  }

  /** The item path below the root named by a URL, if it is one of ours. */
  function ParseUrl(url: string): Option<Path>
  {
    var k := |RootUrl|;
    if |url| >= k && url[..k] == RootUrl && (|url| == k || url[k] == '/') then Some(Split(url[k..]))
    else None
  }

  lemma {:induction false} SegmentLengthOfSegment(x: string, t: string)
    requires '/' !in x
    requires t == [] || t[0] == '/'
    ensures SegmentLength(x + t) == |x|
  {
    if x != [] {
      assert (x + t)[0] == x[0];
      assert (x + t)[1..] == x[1..] + t;
      SegmentLengthOfSegment(x[1..], t);
    }
  }

  lemma {:induction false} SplitJoin(rel: Path)
    requires NoSeparators(rel)
    ensures Split(Join(rel)) == rel
  {
    if rel != [] {
      var x, rest := rel[0], rel[1..];
      var s := Join(rel);
      assert s == "/" + x + Join(rest);
      assert s[1..] == x + Join(rest);
      SegmentLengthOfSegment(x, Join(rest));
      assert s[1..1 + |x|] == x;
      assert s[1 + |x|..] == Join(rest);
      assert NoSeparators(rest) by {
        forall i | 0 <= i < |rest| ensures '/' !in rest[i] { assert rest[i] == rel[i + 1]; }
      }
      SplitJoin(rest);
    }
  }

  /** The URL of an item under the root names that item's path below the root. */
  lemma ObjectUrlRoundTrip(root: Path, rel: Path)
    requires NoSeparators(rel)
    ensures ParseUrl(ObjectUrl(root, root + rel)) == Some(rel)
  {
    DescendantUrl(root, rel);
    var url := RootUrl + Join(rel);
    var k := |RootUrl|;
    assert url[..k] == RootUrl;
    assert url[k..] == Join(rel);
    SplitJoin(rel);
  }

  /** Distinct items under the root never share a URL. */
  lemma ObjectUrlInjective(root: Path, a: Path, b: Path)
    requires NoSeparators(a) && NoSeparators(b)
    requires ObjectUrl(root, root + a) == ObjectUrl(root, root + b)
    ensures a == b
  {
    ObjectUrlRoundTrip(root, a);
    ObjectUrlRoundTrip(root, b);
  }
}
