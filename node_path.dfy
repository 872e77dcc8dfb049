/**
 * The two functions of Node's `path` module (POSIX flavour) the core uses:
 * `extname`, and `join` of a directory with one more segment, with the
 * normalisation of `.`, `..` and repeated separators that `join` applies.
 */
module NodePath {
  import opened Strs

  /** The path without its trailing `/` characters. */
  function StripTrailingSlashes(p: string): (r: string)
    ensures r <= p && (r == [] || r[|r| - 1] != '/')
    ensures forall i :: |r| <= i < |p| ==> p[i] == '/'
  {
    if p != [] && p[|p| - 1] == '/' then StripTrailingSlashes(p[..|p| - 1]) else p
  }

  /** The last segment of a path, ignoring trailing separators. */
  function Basename(p: string): (r: string)
    ensures '/' !in r
  {
    var s := StripTrailingSlashes(p);
    var k := LastIndexOf(s, '/');
    var b := s[k + 1..];
    assert forall i :: 0 <= i < |b| ==> b[i] == s[k + 1 + i];
    b
  }

  /**
   * `path.extname(p)`: the last segment from its last `.` on; empty when the
   * segment has no `.`, when its only `.` is the first character (a dot file)
   * and when the segment is `..`.
   */
  function Extname(p: string): (r: string)
    ensures r == [] || r[0] == '.'
    ensures '/' !in r
    ensures forall i :: 0 < i < |r| ==> r[i] != '.'
  {
    var base := Basename(p);
    var k := LastIndexOf(base, '.');
    if k <= 0 || base == ".." then []
    else
      var e := base[k..];
      assert forall i :: 0 <= i < |e| ==> e[i] == base[k + i];
      e
  }

  /** A concatenation of two texts without `/` has no `/`. */
  lemma NoSlashAppend(a: string, b: string)
    requires '/' !in a && '/' !in b
    ensures '/' !in a + b
  {
    forall i | 0 <= i < |a + b| ensures (a + b)[i] != '/' {
      if i < |a| { assert (a + b)[i] == a[i]; } else { assert (a + b)[i] == b[i - |a|]; }
    }
  }

  /** An extension is its own extension, and it survives any prefix without `/`. */
  lemma ExtnameOfSuffix(prefix: string, ext: string)
    requires prefix != [] && '/' !in prefix && '.' !in prefix
    requires ext == [] || ext[0] == '.'
    requires '/' !in ext && forall i :: 0 < i < |ext| ==> ext[i] != '.'
    ensures Extname(prefix + ext) == ext
  {
    var s := prefix + ext;
    NoSlashAppend(prefix, ext);
    BasenameOfPlain(s);
    if ext == [] {
      assert s == prefix;
      assert LastIndexOf(s, '.') == -1;
      ExtnameAt(s, -1);
    } else {
      DotStartsSuffix(prefix, ext);
      LastIndexAt(s, '.', |prefix|);
      ExtnameAt(s, |prefix|);
    }
  }

  /** `Extname` of its own base name, read at the last `.`. */
  lemma ExtnameAt(s: string, k: int)
    requires Basename(s) == s && LastIndexOf(s, '.') == k
    ensures k <= 0 || s == ".." ==> Extname(s) == []
    ensures k > 0 && s != ".." ==> Extname(s) == s[k..]
  {
  }

  /** A non-empty text without `/` is its own base name. */
  lemma BasenameOfPlain(s: string)
    requires s != [] && '/' !in s
    ensures Basename(s) == s
  {
    assert s[|s| - 1] != '/';
    assert StripTrailingSlashes(s) == s;
    assert LastIndexOf(s, '/') == -1;
    assert s[0..] == s;
  }

  /** In `prefix + ext`, the `.` that starts `ext` is the last one, and the whole is not `..`. */
  lemma DotStartsSuffix(prefix: string, ext: string)
    requires prefix != [] && '.' !in prefix
    requires ext != [] && ext[0] == '.' && forall i :: 0 < i < |ext| ==> ext[i] != '.'
    ensures var s := prefix + ext;
      s[|prefix|] == '.' && s[|prefix|..] == ext && s != ".."
      && forall i :: |prefix| < i < |s| ==> s[i] != '.'
  {
    var s := prefix + ext;
    assert s[|prefix|..] == ext;
    assert s[0] == prefix[0];
    forall i | |prefix| < i < |s| ensures s[i] != '.' {
      assert s[i] == ext[i - |prefix|];
    }
  }

  lemma LastIndexAt(s: string, c: char, k: nat)
    requires k < |s| && s[k] == c && forall i :: k < i < |s| ==> s[i] != c
    ensures LastIndexOf(s, c) == k
  {
  }

  /**
   * The directory, `/`, then the segment: what `path.join` gives for a
   * normalised absolute directory and a plain segment (`JoinPathPlain`).
   */
  function Join(dir: string, segment: string): (r: string)
    ensures |r| == |dir| + 1 + |segment|
    ensures r[..|dir|] == dir && r[|dir|] == '/' && r[|dir| + 1..] == segment
  {
    dir + "/" + segment
  }

  // ----- normalisation -----

  /** A segment normalisation leaves alone: not empty, no `/`, and neither `.` nor `..`. */
  predicate IsPlainSegment(s: string) {
    s != [] && '/' !in s && s != "." && s != ".."
  }

  predicate AllPlain(segs: seq<string>) {
    forall i :: 0 <= i < |segs| ==> IsPlainSegment(segs[i])
  }

  /**
   * One segment of Node's `normalizeString`: empty segments and `.` vanish,
   * `..` drops the segment before it, or is kept when nothing is left to drop
   * and the path may climb above its start (a relative path).
   */
  function Step(acc: seq<string>, seg: string, aboveRoot: bool): seq<string> {
    if seg == [] || seg == "." then acc
    else if seg == ".." then
      if acc != [] && acc[|acc| - 1] != ".." then acc[..|acc| - 1]
      else if aboveRoot then acc + [".."] else acc
    else acc + [seg]
  }

  /** The segments `segs` applied in order to `acc`. */
  function Resolve(acc: seq<string>, segs: seq<string>, aboveRoot: bool): seq<string>
    decreases |segs|
  {
    if segs == [] then acc else Resolve(Step(acc, segs[0], aboveRoot), segs[1..], aboveRoot)
  }

  /** The segments with `/` between them. */
  function JoinAll(segs: seq<string>): string {
    if segs == [] then [] else if |segs| == 1 then segs[0] else segs[0] + "/" + JoinAll(segs[1..])
  }

  /**
   * `path.normalize(p)`: the resolved segments, with a leading `/` for an
   * absolute path and a trailing `/` when `p` had one; `.` (or `./`, or `/`)
   * when nothing is left.
   */
  function Normalize(p: string): string {
    if p == [] then "."
    else
      var absolute := p[0] == '/';
      var trailing := p[|p| - 1] == '/';
      var body := JoinAll(Resolve([], Split(p, '/'), !absolute));
      if body == [] then (if absolute then "/" else if trailing then "./" else ".")
      else (if absolute then "/" else "") + body + (if trailing then "/" else "")
  }

  /** `path.join(dir, segment)`: the non-empty arguments joined by `/`, then normalised. */
  function JoinPath(dir: string, segment: string): string {
    if dir == [] && segment == [] then "."
    else Normalize(if dir == [] then segment else if segment == [] then dir else dir + "/" + segment)
  }

  /** A normalised absolute path: `/` followed by plain segments, such as `path.join(process.cwd(), 'uploads')`. */
  predicate IsNormalizedAbsolute(d: string) {
    d != [] && d[0] == '/' && AllPlain(Split(d[1..], '/'))
  }

  /** Splitting at a separator splits the two sides separately. */
  lemma {:induction false} SplitAppend(a: string, b: string)
    ensures Split(a + "/" + b, '/') == Split(a, '/') + Split(b, '/')
    decreases |a|
  {
    if '/' !in a {
      SplitCons(a, b, '/');
    } else {
      var s := a + "/" + b;
      var k := FirstIndex(a, '/');
      FirstIndexAppend(a, "/" + b);
      assert s == a + ("/" + b);
      assert s[..k] == a[..k];
      assert s[k + 1..] == a[k + 1..] + "/" + b;
      SplitAppend(a[k + 1..], b);
    }
  }

  /** Text after the first separator does not move it. */
  lemma {:induction false} FirstIndexAppend(a: string, x: string)
    requires '/' in a
    ensures FirstIndex(a + x, '/') == FirstIndex(a, '/')
  {
    if a[0] != '/' {
      assert (a + x)[1..] == a[1..] + x;
      FirstIndexAppend(a[1..], x);
    }
  }

  /** Joining the pieces of a split gives the text back. */
  lemma {:induction false} JoinAllSplit(s: string)
    ensures JoinAll(Split(s, '/')) == s
    decreases |s|
  {
    if '/' in s {
      var k := FirstIndex(s, '/');
      var head, tail := s[..k], s[k + 1..];
      assert s == head + "/" + tail;
      SplitCons(head, tail, '/');
      JoinAllSplit(tail);
    }
  }

  lemma {:induction false} JoinAllSnoc(segs: seq<string>, last: string)
    requires segs != []
    ensures JoinAll(segs + [last]) == JoinAll(segs) + "/" + last
    decreases |segs|
  {
    if |segs| > 1 {
      assert (segs + [last])[1..] == segs[1..] + [last];
      JoinAllSnoc(segs[1..], last);
    }
  }

  /** Plain segments are appended unchanged. */
  lemma {:induction false} ResolvePlain(acc: seq<string>, segs: seq<string>, aboveRoot: bool)
    requires AllPlain(segs)
    ensures Resolve(acc, segs, aboveRoot) == acc + segs
    decreases |segs|
  {
    if segs != [] {
      assert AllPlain(segs[1..]) by {
        forall i | 0 <= i < |segs[1..]| ensures IsPlainSegment(segs[1..][i]) {
          assert segs[1..][i] == segs[i + 1];
        }
      }
      ResolvePlain(acc + [segs[0]], segs[1..], aboveRoot);
      assert acc + [segs[0]] + segs[1..] == acc + segs;
    }
  }

  /** Resolving two runs of segments is resolving the first, then the second. */
  lemma {:induction false} ResolveAppend(acc: seq<string>, a: seq<string>, b: seq<string>, aboveRoot: bool)
    ensures Resolve(acc, a + b, aboveRoot) == Resolve(Resolve(acc, a, aboveRoot), b, aboveRoot)
    decreases |a|
  {
    if a != [] {
      assert (a + b)[0] == a[0] && (a + b)[1..] == a[1..] + b;
      ResolveAppend(Step(acc, a[0], aboveRoot), a[1..], b, aboveRoot);
    } else {
      assert a + b == b;
    }
  }

  /** The segments of `dir/segment` for a normalised absolute directory. */
  lemma SplitJoined(dir: string, rest: string)
    requires IsNormalizedAbsolute(dir)
    ensures Split(dir + "/" + rest, '/') == [""] + Split(dir[1..], '/') + Split(rest, '/')
  {
    assert dir + "/" + rest == "" + "/" + (dir[1..] + "/" + rest);
    SplitCons("", dir[1..] + "/" + rest, '/');
    SplitAppend(dir[1..], rest);
  }

  /** The segments `path.join` keeps for a normalised absolute directory and a plain segment. */
  lemma ResolveJoined(dir: string, segment: string)
    requires IsNormalizedAbsolute(dir) && IsPlainSegment(segment)
    ensures Resolve([], Split(dir + "/" + segment, '/'), false) == Split(dir[1..], '/') + [segment]
  {
    var segs := Split(dir[1..], '/');
    SplitJoined(dir, segment);
    assert Split(dir + "/" + segment, '/') == [""] + (segs + [segment]);
    assert AllPlain(segs + [segment]) by {
      forall i | 0 <= i < |segs + [segment]| ensures IsPlainSegment((segs + [segment])[i]) {
        if i < |segs| { assert (segs + [segment])[i] == segs[i]; }
      }
    }
    ResolvePlain([], segs + [segment], false);
  }

  /** For a normalised absolute directory and a plain segment, `path.join` is plain concatenation. */
  lemma JoinPathPlain(dir: string, segment: string)
    requires IsNormalizedAbsolute(dir) && IsPlainSegment(segment)
    ensures JoinPath(dir, segment) == Join(dir, segment)
  {
    var p := dir + "/" + segment;
    var body := dir[1..] + "/" + segment;
    assert dir == "/" + dir[1..];
    assert p == "/" + body;
    assert p[|p| - 1] == segment[|segment| - 1];
    var segs := Split(dir[1..], '/');
    ResolveJoined(dir, segment);
    JoinAllSnoc(segs, segment);
    JoinAllSplit(dir[1..]);
    NormalizeAbsolute(p, body);
  }

  /** An absolute path without a trailing `/` normalises to `/` and its resolved segments. */
  lemma NormalizeAbsolute(p: string, body: string)
    requires p != [] && p[0] == '/' && p[|p| - 1] != '/'
    requires JoinAll(Resolve([], Split(p, '/'), false)) == body && body != []
    ensures Normalize(p) == "/" + body
  {
  }

  /** The pieces of `x/../k`. */
  lemma SplitDotDot(x: string, k: string)
    requires IsPlainSegment(x) && IsPlainSegment(k)
    ensures Split(x + "/../" + k, '/') == [x, "..", k]
  {
    var up := "..";
    assert "/../" == "/" + up + "/";
    assert x + "/../" + k == x + "/" + (up + "/" + k);
    SplitCons(x, up + "/" + k, '/');
    SplitCons(up, k, '/');
  }

  /** `x` then `..` then `k` leaves `k` on top of the directory's segments. */
  lemma ResolveDotDot(dir: string, x: string, k: string)
    requires IsNormalizedAbsolute(dir) && IsPlainSegment(x) && IsPlainSegment(k)
    ensures Resolve([], Split(dir + "/" + (x + "/../" + k), '/'), false) == Split(dir[1..], '/') + [k]
  {
    var segs := Split(dir[1..], '/');
    SplitDotDot(x, k);
    SplitJoined(dir, x + "/../" + k);
    ResolveAppend([], [""] + segs, [x, "..", k], false);
    ResolveRoot(segs);
    ResolveThree(segs, x, k);
  }

  /** The empty piece before the leading `/` vanishes and plain segments stay. */
  lemma ResolveRoot(segs: seq<string>)
    requires AllPlain(segs)
    ensures Resolve([], [""] + segs, false) == segs
  {
    assert ([""] + segs)[1..] == segs;
    ResolvePlain([], segs, false);
  }

  lemma ResolveThree(acc: seq<string>, x: string, k: string)
    requires IsPlainSegment(x) && IsPlainSegment(k)
    ensures Resolve(acc, [x, "..", k], false) == acc + [k]
  {
    assert (acc + [x])[..|acc + [x]| - 1] == acc;
    assert [x, "..", k][1..] == ["..", k];
    assert ["..", k][1..] == [k];
    calc {
      Resolve(acc, [x, "..", k], false);
      Resolve(acc + [x], ["..", k], false);
      Resolve(acc, [k], false);
      Resolve(acc + [k], [], false);
    }
  }

  /** A `..` right after a plain segment cancels it: `dir/x/../k` is `dir/k`. */
  lemma JoinPathDotDot(dir: string, x: string, k: string)
    requires IsNormalizedAbsolute(dir) && IsPlainSegment(x) && IsPlainSegment(k)
    ensures JoinPath(dir, x + "/../" + k) == JoinPath(dir, k)
  {
    var segs := Split(dir[1..], '/');
    ResolveDotDot(dir, x, k);
    ResolveJoined(dir, k);
    var p1, p2 := dir + "/" + (x + "/../" + k), dir + "/" + k;
    var body := JoinAll(segs + [k]);
    JoinAllSnoc(segs, k);
    assert p1[|p1| - 1] == k[|k| - 1];
    assert p2[|p2| - 1] == k[|k| - 1];
    NormalizeAbsolute(p1, body);
    NormalizeAbsolute(p2, body);
  }

  /** Two `..` climb out of a two-segment directory: `/a/b` joined with `../../c/d` is `/c/d`. */
  lemma JoinPathClimbsTwo(a: string, b: string, c: string, d: string)
    requires IsPlainSegment(a) && IsPlainSegment(b) && IsPlainSegment(c) && IsPlainSegment(d)
    ensures IsNormalizedAbsolute("/" + a + "/" + b)
    ensures JoinPath("/" + a + "/" + b, "../../" + c + "/" + d) == "/" + c + "/" + d
  {
    var dir, key := "/" + a + "/" + b, "../../" + c + "/" + d;
    var p := dir + "/" + key;
    var body := c + "/" + d;
    assert "/" + body == "/" + c + "/" + d;
    assert dir != [] && key != [] && p[0] == '/';
    assert p[|p| - 1] == d[|d| - 1];
    assert JoinAll([c, d]) == body;
    ResolveClimb(a, b, c, d);
    NormalizeAbsolute(p, body);
    assert JoinPath(dir, key) == Normalize(p);
  }

  lemma ResolveClimb(a: string, b: string, c: string, d: string)
    requires IsPlainSegment(a) && IsPlainSegment(b) && IsPlainSegment(c) && IsPlainSegment(d)
    ensures IsNormalizedAbsolute("/" + a + "/" + b)
    ensures Resolve([], Split("/" + a + "/" + b + "/" + ("../../" + c + "/" + d), '/'), false) == [c, d]
  {
    SplitClimb(a, b, c, d);
    ResolveAppend([], [""] + [a, b], ["..", "..", c, d], false);
    ResolveRoot([a, b]);
    ResolveClimbTwo(a, b, c, d);
  }

  lemma TwoSegmentDir(a: string, b: string)
    requires IsPlainSegment(a) && IsPlainSegment(b)
    ensures Split(("/" + a + "/" + b)[1..], '/') == [a, b]
    ensures IsNormalizedAbsolute("/" + a + "/" + b)
  {
    assert ("/" + a + "/" + b)[1..] == a + "/" + b;
    SplitTwo(a, b, '/');
    assert AllPlain([a, b]);
  }

  lemma SplitClimb(a: string, b: string, c: string, d: string)
    requires IsPlainSegment(a) && IsPlainSegment(b) && IsPlainSegment(c) && IsPlainSegment(d)
    ensures IsNormalizedAbsolute("/" + a + "/" + b)
    ensures Split("/" + a + "/" + b + "/" + ("../../" + c + "/" + d), '/') == ([""] + [a, b]) + ["..", "..", c, d]
  {
    TwoSegmentDir(a, b);
    SplitClimbKey(c, d);
    SplitJoined("/" + a + "/" + b, "../../" + c + "/" + d);
  }

  lemma SplitThree(u: string, v: string, w: string)
    requires '/' !in u && '/' !in v
    ensures Split(u + "/" + (v + "/" + w), '/') == [u, v] + Split(w, '/')
  {
    SplitCons(u, v + "/" + w, '/');
    SplitCons(v, w, '/');
  }

  lemma ClimbKeyShape(c: string, d: string)
    ensures "../../" + c + "/" + d == ".." + "/" + (".." + "/" + (c + "/" + d))
  {
  }

  lemma SplitClimbKey(c: string, d: string)
    requires IsPlainSegment(c) && IsPlainSegment(d)
    ensures Split("../../" + c + "/" + d, '/') == ["..", "..", c, d]
  {
    ClimbKeyShape(c, d);
    SplitThree("..", "..", c + "/" + d);
    SplitTwo(c, d, '/');
  }

  lemma ResolveClimbTwo(a: string, b: string, c: string, d: string)
    requires IsPlainSegment(a) && IsPlainSegment(b) && IsPlainSegment(c) && IsPlainSegment(d)
    ensures Resolve([a, b], ["..", "..", c, d], false) == [c, d]
  {
    var segs := ["..", "..", c, d];
    assert segs[1..] == ["..", c, d] && segs[2..] == [c, d] && segs[3..] == [d];
    assert [a, b][..1] == [a] && [a][..0] == [];
    assert [] + [c] == [c] && [c] + [d] == [c, d];
    calc {
      Resolve([a, b], segs, false);
      Resolve([a], segs[1..], false);
      Resolve([], segs[2..], false);
      Resolve([c], segs[3..], false);
      Resolve([c, d], [], false);
    }
  }

  /** The case `path.join('/app/uploads', '../../etc/passwd')`, which is `/etc/passwd`. */
  lemma JoinPathClimbs(dir: string, key: string)
    requires dir == "/app/uploads" && key == "../../etc/passwd"
    ensures IsNormalizedAbsolute(dir)
    ensures JoinPath(dir, key) == "/etc/passwd"
  {
    var a, b, c, d := "app", "uploads", "etc", "passwd";
    assert IsPlainSegment(a) && IsPlainSegment(b) && IsPlainSegment(c) && IsPlainSegment(d);
    assert dir == "/" + a + "/" + b;
    assert key == "../../" + c + "/" + d;
    assert "/" + c + "/" + d == "/etc/passwd";
    JoinPathClimbsTwo(a, b, c, d);
  }
}
