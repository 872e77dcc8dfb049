/**
 * The helpers of packages/fnd-utils: slugs, truncation, capitalisation,
 * duration and relative-time text, `compact` and `retry` with exponential
 * backoff. The clock, the sleeps and the retried function are parameters.
 */
module Utils {
  import opened Common
  import opened Strs
  import Seqs

  // ----- slugify -----

  /** `\w`: an ASCII letter, a digit or `_`. */
  predicate IsWordChar(c: char) {
    IsUpperAscii(c) || IsLowerAscii(c) || IsDigit(c) || c == '_'
  }

  /** The class `[\w\s-]` that survives the first replacement. */
  predicate KeptInSlug(c: char) {
    IsWordChar(c) || IsSpace(c) || c == '-'
  }

  /** The class `[\s_]` whose runs become one `-`. */
  predicate IsSeparator(c: char) {
    IsSpace(c) || c == '_'
  }

  predicate IsSlugChar(c: char) {
    IsLowerAscii(c) || IsDigit(c) || c == '-'
  }

  /**
   * What `slugify` promises: lower-case letters, digits and hyphens, with no
   * hyphen at either end; inner hyphens may come in runs (`"a - b"` gives
   * `"a---b"`).
   */
  predicate IsSlug(s: string) {
    (forall i :: 0 <= i < |s| ==> IsSlugChar(s[i]))
    && (s == [] || (s[0] != '-' && s[|s| - 1] != '-'))
  }

  /** The longest suffix of `s` that does not start with a separator. */
  function DropSeparators(s: string): (r: string)
    ensures |r| <= |s| && r == s[|s| - |r|..]
    ensures r == [] || !IsSeparator(r[0])
  {
    if s != [] && IsSeparator(s[0]) then DropSeparators(s[1..]) else s
  }

  /** `.replace(/[\s_]+/g, '-')`. */
  function CollapseSeparators(s: string): (r: string)
    ensures forall i :: 0 <= i < |r| ==> !IsSeparator(r[i]) && (r[i] == '-' || r[i] in s)
    decreases |s|
  {
    if s == [] then []
    else if IsSeparator(s[0]) then
      var rest := DropSeparators(s[1..]);
      assert forall c :: c in rest ==> c in s by {
        forall c | c in rest ensures c in s {
          var k :| 0 <= k < |rest| && rest[k] == c;
          assert s[1..][|s[1..]| - |rest| + k] == c;
        }
      }
      "-" + CollapseSeparators(rest)
    else [s[0]] + CollapseSeparators(s[1..])
  }

  function TrimDashStart(s: string): (r: string)
    ensures r == [] || r[0] != '-'
    ensures |r| <= |s| && r == s[|s| - |r|..]
  {
    if s != [] && s[0] == '-' then TrimDashStart(s[1..]) else s
  }

  function TrimDashEnd(s: string): (r: string)
    ensures r == [] || r[|r| - 1] != '-'
    ensures r <= s
  {
    if s != [] && s[|s| - 1] == '-' then TrimDashEnd(s[..|s| - 1]) else s
  }

  /** `.replace(/^-+|-+$/g, '')`. */
  function TrimDashes(s: string): string {
    TrimDashEnd(TrimDashStart(s))
  }

  /**
   * `slugify(str)`: a slug whose letters and digits are exactly those of the
   * lower-cased input, in their order; everything else is dropped or became
   * a hyphen.
   */
  function Slugify(str: string): (r: string)
    ensures IsSlug(r)
    ensures Seqs.Filter(r, NotDash) == Seqs.Filter(Lower(str), IsSlugLetter)
  {
    var lowered := Lower(str);
    var trimmed := Trim(lowered);
    var kept := Seqs.Filter(trimmed, KeptInSlug);
    var collapsed := CollapseSeparators(kept);
    TrimKeepsNoUpper(lowered);
    FilterKeepsNoUpper(trimmed);
    CollapsedAreSlugChars(kept);
    TrimDashesKeepsSlugChars(collapsed);
    SlugLetters(str);
    TrimDashes(collapsed)
  }

  predicate NotDash(c: char) {
    c != '-'
  }

  /** The characters of a slug that are not hyphens. */
  predicate IsSlugLetter(c: char) {
    IsLowerAscii(c) || IsDigit(c)
  }

  /** The characters `.replace(/[\s_]+/g, '-')` leaves as they are. */
  predicate NotDashOrSeparator(c: char) {
    c != '-' && !IsSeparator(c)
  }

  /** Trimming white space removes no letter or digit. */
  lemma {:induction false} FilterTrimStart(s: string)
    ensures Seqs.Filter(TrimStart(s), IsSlugLetter) == Seqs.Filter(s, IsSlugLetter)
  {
    if s != [] && IsSpace(s[0]) {
      FilterTrimStart(s[1..]);
    }
  }

  lemma {:induction false} FilterTrimEnd(s: string)
    ensures Seqs.Filter(TrimEnd(s), IsSlugLetter) == Seqs.Filter(s, IsSlugLetter)
  {
    if s != [] && IsSpace(s[|s| - 1]) {
      var init := s[..|s| - 1];
      FilterTrimEnd(init);
      assert s == init + [s[|s| - 1]];
      Seqs.FilterAppend(init, [s[|s| - 1]], IsSlugLetter);
    }
  }

  /** Dropping leading separators removes nothing `NotDashOrSeparator` keeps. */
  lemma {:induction false} FilterDropSeparators(s: string)
    ensures Seqs.Filter(DropSeparators(s), NotDashOrSeparator) == Seqs.Filter(s, NotDashOrSeparator)
  {
    if s != [] && IsSeparator(s[0]) {
      FilterDropSeparators(s[1..]);
    }
  }

  /** After collapsing, the non-hyphens are the characters that were neither hyphen nor separator. */
  lemma {:induction false} FilterCollapse(s: string)
    ensures Seqs.Filter(CollapseSeparators(s), NotDash) == Seqs.Filter(s, NotDashOrSeparator)
    decreases |s|
  {
    if s != [] {
      if IsSeparator(s[0]) {
        var rest := DropSeparators(s[1..]);
        FilterCollapse(rest);
        FilterDropSeparators(s[1..]);
        assert CollapseSeparators(s) == "-" + CollapseSeparators(rest);
        Seqs.FilterAppend("-", CollapseSeparators(rest), NotDash);
      } else {
        FilterCollapse(s[1..]);
        assert CollapseSeparators(s) == [s[0]] + CollapseSeparators(s[1..]);
        Seqs.FilterAppend([s[0]], CollapseSeparators(s[1..]), NotDash);
      }
    }
  }

  /** Trimming hyphens leaves the non-hyphens alone. */
  lemma {:induction false} FilterTrimDashStart(s: string)
    ensures Seqs.Filter(TrimDashStart(s), NotDash) == Seqs.Filter(s, NotDash)
  {
    if s != [] && s[0] == '-' {
      FilterTrimDashStart(s[1..]);
    }
  }

  lemma {:induction false} FilterTrimDashEnd(s: string)
    ensures Seqs.Filter(TrimDashEnd(s), NotDash) == Seqs.Filter(s, NotDash)
  {
    if s != [] && s[|s| - 1] == '-' {
      var init := s[..|s| - 1];
      FilterTrimDashEnd(init);
      assert s == init + [s[|s| - 1]];
      Seqs.FilterAppend(init, ['-'], NotDash);
    }
  }

  /** Each stage of `slugify` keeps the letters and digits of the lower-cased input in order. */
  lemma SlugLetters(str: string)
    ensures var kept := Seqs.Filter(Trim(Lower(str)), KeptInSlug);
      Seqs.Filter(TrimDashes(CollapseSeparators(kept)), NotDash) == Seqs.Filter(Lower(str), IsSlugLetter)
  {
    var lowered := Lower(str);
    var trimmed := Trim(lowered);
    var kept := Seqs.Filter(trimmed, KeptInSlug);
    var collapsed := CollapseSeparators(kept);
    FilterTrimDashStart(collapsed);
    FilterTrimDashEnd(TrimDashStart(collapsed));
    assert Seqs.Filter(TrimDashes(collapsed), NotDash) == Seqs.Filter(collapsed, NotDash);
    FilterCollapse(kept);
    TrimKeepsNoUpper(lowered);
    forall i | 0 <= i < |trimmed|
      ensures IsSlugLetter(trimmed[i]) <==> KeptInSlug(trimmed[i]) && NotDashOrSeparator(trimmed[i])
    {
      LetterIsKept(trimmed[i]);
    }
    Seqs.FilterFilter(trimmed, KeptInSlug, NotDashOrSeparator, IsSlugLetter);
    assert Seqs.Filter(kept, NotDashOrSeparator) == Seqs.Filter(trimmed, IsSlugLetter);
    FilterTrimStart(lowered);
    FilterTrimEnd(TrimStart(lowered));
  }

  /** Without upper case, a kept character that is neither hyphen nor separator is a letter or digit. */
  lemma LetterIsKept(c: char)
    requires !IsUpperAscii(c)
    ensures IsSlugLetter(c) <==> KeptInSlug(c) && NotDashOrSeparator(c)
  {
  }

  predicate NoUpper(s: string) {
    forall i :: 0 <= i < |s| ==> !IsUpperAscii(s[i])
  }

  lemma TrimKeepsNoUpper(x: string)
    requires NoUpper(x)
    ensures NoUpper(Trim(x))
  {
    var t := TrimStart(x);
    forall i | 0 <= i < |t| ensures !IsUpperAscii(t[i]) {
      assert t[i] == x[|x| - |t| + i];
    }
    var u := TrimEnd(t);
    forall i | 0 <= i < |u| ensures !IsUpperAscii(u[i]) {
      assert u[i] == t[i];
    }
  }

  lemma FilterKeepsNoUpper(x: string)
    requires NoUpper(x)
    ensures var k := Seqs.Filter(x, KeptInSlug);
      forall i :: 0 <= i < |k| ==> KeptInSlug(k[i]) && !IsUpperAscii(k[i])
  {
    var k := Seqs.Filter(x, KeptInSlug);
    forall i | 0 <= i < |k| ensures KeptInSlug(k[i]) && !IsUpperAscii(k[i]) {
      var j :| 0 <= j < |x| && x[j] == k[i];
    }
  }

  /** A kept, non-separator character that is not upper case belongs to a slug. */
  lemma SlugCharOfKept(c: char)
    requires KeptInSlug(c) && !IsSeparator(c) && !IsUpperAscii(c)
    ensures IsSlugChar(c)
  {
  }

  lemma CollapsedAreSlugChars(k: string)
    requires forall i :: 0 <= i < |k| ==> KeptInSlug(k[i]) && !IsUpperAscii(k[i])
    ensures var c := CollapseSeparators(k); forall i :: 0 <= i < |c| ==> IsSlugChar(c[i])
  {
    var c := CollapseSeparators(k);
    forall i | 0 <= i < |c| ensures IsSlugChar(c[i]) {
      if c[i] != '-' {
        var j :| 0 <= j < |k| && k[j] == c[i];
        SlugCharOfKept(c[i]);
      }
    }
  }

  lemma TrimDashesKeepsSlugChars(x: string)
    requires forall i :: 0 <= i < |x| ==> IsSlugChar(x[i])
    ensures IsSlug(TrimDashes(x))
  {
    var t := TrimDashStart(x);
    forall i | 0 <= i < |t| ensures IsSlugChar(t[i]) {
      assert t[i] == x[|x| - |t| + i];
    }
    TrimDashEndKeepsFirst(t);
    var u := TrimDashEnd(t);
    forall i | 0 <= i < |u| ensures IsSlugChar(u[i]) {
      assert u[i] == t[i];
    }
  }

  lemma {:induction false} TrimDashEndKeepsFirst(s: string)
    requires s == [] || s[0] != '-'
    ensures TrimDashEnd(s) == [] || TrimDashEnd(s)[0] != '-'
    decreases |s|
  {
    if s != [] && s[|s| - 1] == '-' && |s| > 1 {
      TrimDashEndKeepsFirst(s[..|s| - 1]);
    }
  }

  lemma {:induction false} CollapseKeepsSeparatorFree(s: string)
    requires forall i :: 0 <= i < |s| ==> !IsSeparator(s[i])
    ensures CollapseSeparators(s) == s
    decreases |s|
  {
    if s != [] {
      CollapseKeepsSeparatorFree(s[1..]);
    }
  }

  /** A slug character passes every stage of `slugify` untouched. */
  lemma SlugCharFacts(c: char)
    requires IsSlugChar(c)
    ensures KeptInSlug(c) && !IsSeparator(c) && !IsSpace(c) && LowerChar(c) == c
  {
  }

  /** A slug is left unchanged by `slugify`. */
  lemma SlugIsFixpoint(t: string)
    requires IsSlug(t)
    ensures Slugify(t) == t
  {
    forall i | 0 <= i < |t|
      ensures KeptInSlug(t[i]) && !IsSeparator(t[i]) && !IsSpace(t[i]) && LowerChar(t[i]) == t[i]
    {
      SlugCharFacts(t[i]);
    }
    assert Lower(t) == t;
    assert TrimStart(t) == t;
    assert TrimEnd(t) == t;
    assert Trim(Lower(t)) == t;
    Seqs.FilterKeepsAll(t, KeptInSlug);
    CollapseKeepsSeparatorFree(t);
    assert TrimDashStart(t) == t;
    assert TrimDashEnd(t) == t;
  }

  /** Slugifying twice gives the same slug as slugifying once. */
  lemma SlugifyIdempotent(s: string)
    ensures Slugify(Slugify(s)) == Slugify(s)
  {
    SlugIsFixpoint(Slugify(s));
  }

  // ----- truncate and capitalize -----

  /**
   * `s.slice(0, end)` on the code units of a string: a negative end counts
   * from the back; both ends are clamped.
   */
  function SliceTo(s: seq<CodeUnit>, end: int): (r: seq<CodeUnit>)
    ensures r <= s
    ensures |r| == if end < 0 then (if |s| + end < 0 then 0 else |s| + end) else if end > |s| then |s| else end
  {
    var e := if end < 0 then (if |s| + end < 0 then 0 else |s| + end) else if end > |s| then |s| else end;
    s[..e]
  }

  /** The code units of `'...'`. */
  const Ellipsis: seq<CodeUnit> := Utf16("...")

  lemma EllipsisUnits()
    ensures Ellipsis == [0x2E, 0x2E, 0x2E]
  {
    assert "..."[1..] == ".." && ".."[1..] == "." && "."[1..] == "";
  }

  /**
   * `truncate(str, maxLength)` on the code units of `str`: `length` and
   * `slice` count UTF-16 code units, so a cut can fall inside a surrogate pair.
   */
  function Truncate(s: seq<CodeUnit>, maxLength: int := 100): (r: seq<CodeUnit>)
    ensures |s| <= maxLength ==> r == s
    ensures |s| > maxLength ==> r == SliceTo(s, maxLength - 3) + Ellipsis
  {
    if |s| <= maxLength then s else SliceTo(s, maxLength - 3) + Ellipsis
  }

  /**
   * With a limit of at least 3, a longer string is cut to exactly the limit:
   * its first `maxLength - 3` characters followed by the ellipsis.
   */
  lemma TruncateLength(s: seq<CodeUnit>, maxLength: int)
    requires maxLength >= 3
    ensures |Truncate(s, maxLength)| <= maxLength
    ensures |s| > maxLength ==>
      Truncate(s, maxLength) == s[..maxLength - 3] + Ellipsis && |Truncate(s, maxLength)| == maxLength
  {
    EllipsisUnits();
  }

  /**
   * On text inside the Basic Multilingual Plane code units are characters,
   * so a long text keeps its first `maxLength - 3` characters and gains `...`.
   */
  lemma TruncateBmp(s: string, maxLength: int)
    requires InBmp(s) && maxLength >= 3 && |s| > maxLength
    ensures Truncate(Utf16(s), maxLength) == Utf16(s[..maxLength - 3] + "...")
  {
    var k := maxLength - 3;
    Utf16Bmp(s);
    assert InBmp(s[..k]);
    Utf16Bmp(s[..k]);
    assert Utf16(s)[..k] == Utf16(s[..k]);
    Utf16Append(s[..k], "...");
  }

  /**
   * Four emoji are eight code units: a limit of 5 keeps the first emoji, and
   * a limit of 4 keeps only the first half of its surrogate pair.
   */
  lemma TruncateAstral()
    ensures Truncate(Utf16("\U{1F600}\U{1F600}\U{1F600}\U{1F600}"), 5) == Utf16("\U{1F600}...")
    ensures Truncate(Utf16("\U{1F600}\U{1F600}\U{1F600}\U{1F600}"), 4) == [0xD83D] + Ellipsis
  {
    var e: string := "\U{1F600}";
    var u := CharUnits('\U{1F600}');
    assert u == [0xD83D, 0xDE00];
    var s := e + e + e + e;
    assert s == "\U{1F600}\U{1F600}\U{1F600}\U{1F600}";
    assert Utf16(e) == u by { assert e[1..] == ""; }
    Utf16Append(e, e);
    Utf16Append(e + e, e);
    Utf16Append(e + e + e, e);
    assert |Utf16(s)| == 8;
    assert Utf16(s)[..2] == u;
    assert Utf16(s)[..1] == [0xD83D];
    Utf16Append(e, "...");
    assert e + "..." == "\U{1F600}...";
  }

  /**
   * Below 3 the slice end is negative and counts from the back, so the result
   * is longer than the limit.
   */
  lemma TruncateSmallLimit(s: seq<CodeUnit>, maxLength: int)
    requires 0 <= maxLength < 3 && |s| > maxLength
    ensures |Truncate(s, maxLength)| > maxLength
  {
    EllipsisUnits();
  }

  /** `capitalize(str)`. */
  function Capitalize(s: string): (r: string)
    ensures |r| == |s|
    ensures s != [] ==> r[0] == UpperChar(s[0]) && r[1..] == s[1..]
  {
    if s == [] then [] else [UpperChar(s[0])] + s[1..]
  }

  /** Capitalising an already capitalised string changes nothing. */
  lemma CapitalizeIdempotent(s: string)
    ensures Capitalize(Capitalize(s)) == Capitalize(s)
  {
  }

  // ----- durations -----

  /**
   * `humanDuration(ms)` for an integral number of milliseconds. The text
   * always ends in `s`, and it ends in `ms` exactly below one second.
   */
  function HumanDuration(ms: int): (r: string)
    ensures |r| >= 2 && r[|r| - 1] == 's'
    ensures r[|r| - 2] == 'm' <==> ms < 1000
  {
    if ms < 1000 then IntToString(ms) + "ms"
    else
      var seconds := ms / 1000;
      if seconds < 60 then
        var d := NatToString(seconds);
        assert IsDigit(d[|d| - 1]);
        d + "s"
      else
        var d := NatToString(seconds % 60);
        assert IsDigit(d[|d| - 1]);
        NatToString(seconds / 60) + "m " + d + "s"
  }

  /**
   * From one minute on, the text is `<m>m <s>s` with `s` below 60, and the
   * two numbers together give the whole seconds of `ms`.
   */
  lemma HumanDurationMinutes(ms: int)
    requires ms >= 60000
    ensures exists m: nat, s: nat ::
      s < 60 && m >= 1 && m * 60000 + s * 1000 <= ms < m * 60000 + s * 1000 + 1000
      && HumanDuration(ms) == NatToString(m) + "m " + NatToString(s) + "s"
  {
    var seconds := ms / 1000;
    var m, s := seconds / 60, seconds % 60;
    assert seconds * 1000 <= ms < seconds * 1000 + 1000;
    assert m * 60 + s == seconds;
    assert m * 60000 + s * 1000 == seconds * 1000;
    assert HumanDuration(ms) == NatToString(m) + "m " + NatToString(s) + "s";
  }

  /** Below one minute the text is a single number with its unit. */
  lemma HumanDurationShort(ms: int)
    requires ms < 60000
    ensures ms < 1000 ==> HumanDuration(ms) == IntToString(ms) + "ms"
    ensures 1000 <= ms ==> exists s: nat ::
      1 <= s < 60 && s * 1000 <= ms < s * 1000 + 1000 && HumanDuration(ms) == NatToString(s) + "s"
  {
    if 1000 <= ms {
      var s := ms / 1000;
      assert s * 1000 <= ms < s * 1000 + 1000;
      assert HumanDuration(ms) == NatToString(s) + "s";
    }
  }

  // ----- timeAgo -----

  datatype Interval = Interval(name: string, seconds: nat)

  const Intervals: seq<Interval> := [
    Interval("year", 31536000),
    Interval("month", 2592000),
    Interval("week", 604800),
    Interval("day", 86400),
    Interval("hour", 3600),
    Interval("minute", 60)
  ]

  /** `${count} ${label}${count > 1 ? 's' : ''} ago`. */
  function Phrase(count: int, unit: string): string {
    IntToString(count) + " " + unit + (if count > 1 then "s" else "") + " ago"
  }

  lemma DivAtLeastOne(a: int, b: int)
    requires b > 0
    ensures a / b >= 1 <==> a >= b
  {
    if a >= b {
      assert a == b * (a / b) + a % b;
    } else if a >= 0 {
      assert a / b == 0;
    }
  }

  /**
   * `timeAgo(date)` with the clock reading `now`; both are milliseconds.
   * The intervals are tried from the largest; the first with a count of at
   * least one gives the phrase.
   */
  method TimeAgo(date: int, now: int) returns (r: string)
    ensures var seconds := (now - date) / 1000;
      (r == "just now" <==> seconds < 60)
      && (r != "just now" ==>
            exists k :: (0 <= k < |Intervals|
              && seconds >= Intervals[k].seconds
              && (forall j :: 0 <= j < k ==> seconds < Intervals[j].seconds)
              && r == Phrase(seconds / Intervals[k].seconds, Intervals[k].name)))
  {
    var seconds := (now - date) / 1000;
    var i := 0;
    while i < |Intervals|
      invariant 0 <= i <= |Intervals|
      invariant forall j :: 0 <= j < i ==> seconds < Intervals[j].seconds
    {
      var s := Intervals[i].seconds;
      var count := seconds / s;
      DivAtLeastOne(seconds, s);
      if count >= 1 {
        r := Phrase(count, Intervals[i].name);
        assert r[0] != 'j';
        return;
      }
      i := i + 1;
    }
    assert Intervals[5].seconds == 60;
    r := "just now";
  }

  /** A count of one is singular, any larger count takes the plural `s`. */
  lemma PhrasePlural(count: nat, unit: string)
    requires count >= 1
    ensures count == 1 ==> Phrase(count, unit) == "1 " + unit + " ago"
    ensures count > 1 ==> Phrase(count, unit) == NatToString(count) + " " + unit + "s ago"
  {
  }

  // ----- compact -----

  predicate IsPresent(e: (string, Value)) {
    !Nullish(e.1)
  }

  /** `compact(obj)` on the entries of `obj`. */
  function Compact(entries: seq<(string, Value)>): (r: seq<(string, Value)>)
    ensures forall i :: 0 <= i < |r| ==> r[i] in entries && !Nullish(r[i].1)
    ensures forall i :: 0 <= i < |entries| && !Nullish(entries[i].1) ==> entries[i] in r
  {
    Seqs.Filter(entries, IsPresent)
  }

  predicate UniqueKeys(entries: seq<(string, Value)>) {
    forall i, j :: 0 <= i < j < |entries| ==> entries[i].0 != entries[j].0
  }

  /**
   * On an object (whose keys are distinct) `compact` turns every null or
   * undefined property into an absent one and keeps every other property.
   */
  lemma {:induction false} CompactLookup(entries: seq<(string, Value)>, key: string)
    requires UniqueKeys(entries)
    ensures Lookup(Compact(entries), key) ==
      if Nullish(Lookup(entries, key)) then Undefined else Lookup(entries, key)
  {
    if entries != [] {
      CompactLookup(entries[1..], key);
      if entries[0].0 == key {
        LookupAbsent(entries[1..], key);
        LookupAbsent(Compact(entries[1..]), key);
      }
    }
  }

  lemma LookupAbsent(entries: seq<(string, Value)>, key: string)
    requires forall i :: 0 <= i < |entries| ==> entries[i].0 != key
    ensures Lookup(entries, key) == Undefined
  {
  }

  // ----- retry -----

  function Pow2(k: nat): (r: nat)
    ensures r >= 1
  {
    if k == 0 then 1 else 2 * Pow2(k - 1)
  }

  /**
   * `retry(fn, { maxRetries, baseDelay })`. `fn(attempt)` is the outcome of
   * the awaited call for that attempt. The method also returns the attempt
   * indices it called `fn` with and the delays it slept. When every attempt
   * fails the last error is thrown; with a negative `maxRetries` nothing is
   * called and `undefined` (here `None`) is thrown.
   */
  method Retry<T, E>(fn: nat -> Result<T, E>, maxRetries: int := 3, baseDelay: int := 1000)
    returns (r: Result<T, Option<E>>, calls: seq<nat>, sleeps: seq<int>)
    ensures forall i :: 0 <= i < |calls| ==> calls[i] == i
    ensures |calls| <= if maxRetries < 0 then 0 else maxRetries + 1
    ensures forall i :: 0 <= i < |calls| - 1 ==> fn(i).Err?
    ensures r.Ok? ==> |calls| >= 1 && fn(|calls| - 1) == Ok(r.value)
    ensures r.Err? ==>
      |calls| == (if maxRetries < 0 then 0 else maxRetries + 1)
      && (|calls| == 0 ==> r.error == None)
      && (|calls| >= 1 ==> fn(|calls| - 1).Err? && r.error == Some(fn(|calls| - 1).error))
    ensures |sleeps| == if |calls| == 0 then 0 else |calls| - 1
    ensures forall k :: 0 <= k < |sleeps| ==> sleeps[k] == baseDelay * Pow2(k)
  {
    var lastError: Option<E> := None;
    calls, sleeps := [], [];
    var attempt := 0;
    while attempt <= maxRetries
      invariant 0 <= attempt && |calls| == attempt
      invariant maxRetries >= 0 ==> attempt <= maxRetries + 1
      invariant maxRetries < 0 ==> attempt == 0
      invariant |sleeps| == if attempt > maxRetries && attempt > 0 then attempt - 1 else attempt
      invariant forall i :: 0 <= i < |calls| ==> calls[i] == i && fn(i).Err?
      invariant forall k :: 0 <= k < |sleeps| ==> sleeps[k] == baseDelay * Pow2(k)
      invariant attempt == 0 ==> lastError == None
      invariant attempt >= 1 ==> lastError == Some(fn(attempt - 1).error)
      decreases maxRetries + 1 - attempt
    {
      calls := calls + [attempt];
      var outcome := fn(attempt);
      if outcome.Ok? {
        r := Ok(outcome.value);
        return;
      }
      lastError := Some(outcome.error);
      if attempt < maxRetries {
        sleeps := sleeps + [baseDelay * Pow2(attempt)];
      }
      attempt := attempt + 1;
    }
    r := Err(lastError);
  }
}
