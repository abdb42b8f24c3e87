/** The scan of an Elasticsearch `-Vv` banner for its version: Python's
    `re.search` with the pattern `Version: (\d)\.(\d+)\.(\d+)` (current
    executor) or `Version: (\d)\.(\d)\.(\d+)` (older executor), restricted to
    ASCII digits. The first position where the pattern matches wins. */
module Banner {
  import opened Wrappers
  import opened Decimal
  import opened Versions

  const Tag: string := "Version: "

  /** The two patterns differ only in whether the minor component may have
      more than one digit; the major is one digit in both. */
  datatype Pattern = Pattern(multiDigitMinor: bool)

  predicate TagAt(s: string, i: nat)
  {
    i + |Tag| <= |s| && s[i..i + |Tag|] == Tag
  }

  /** Length of the longest run of digits at the start of `t`: what a
      greedy `\d+` (or `\d*`) consumes there. */
  function DigitRun(t: string): (n: nat)
    ensures n <= |t|
    ensures forall k :: 0 <= k < n ==> IsDigit(t[k])
    ensures n == |t| || !IsDigit(t[n])
  {
    if |t| > 0 && IsDigit(t[0]) then 1 + DigitRun(t[1..]) else 0
  }

  /** What the minor group consumes at the start of `t`: a greedy digit run,
      or a single digit for the older pattern. */
  function MinorRun(p: Pattern, t: string): (n: nat)
    ensures n <= |t|
    ensures forall k :: 0 <= k < n ==> IsDigit(t[k])
    ensures !p.multiDigitMinor ==> n <= 1
  {
    if p.multiDigitMinor then DigitRun(t)
    else if |t| > 0 && IsDigit(t[0]) then 1 else 0
  }

  /** At most one digit denotes a number below ten. */
  lemma OneDigitValue(d: string)
    requires AllDigits(d) && |d| <= 1
    ensures ValueOf(d) < 10
  {
    if |d| == 1 {
      assert d[..0] == [];
    }
  }

  /** The version the pattern matches at the start of `t`, the text right
      after the tag: one digit and '.', then the rest as `AfterMajor` reads
      it. */
  function VersionPrefix(p: Pattern, t: string): (r: Option<Version>)
    ensures r.Some? ==> r.value.major < 10
    ensures r.Some? && !p.multiDigitMinor ==> r.value.minor < 10
  {
    if |t| >= 2 && IsDigit(t[0]) && t[1] == '.' then AfterMajor(p, DigitValue(t[0]), t[2..]) else None
  }

  /** The minor group, then '.', then the rest as `AfterMinor` reads it. A
      greedy run followed by a literal '.' can only end where the run ends,
      so no backtracking alternative exists. */
  function AfterMajor(p: Pattern, major: nat, u: string): (r: Option<Version>)
    ensures r.Some? ==> r.value.major == major
    ensures r.Some? && !p.multiDigitMinor ==> r.value.minor < 10
  {
    var nb := MinorRun(p, u);
    if nb == 0 || nb >= |u| || u[nb] != '.' then None
    else
      var minor := u[..nb];
      assert !p.multiDigitMinor ==> ValueOf(minor) < 10 by {
        if !p.multiDigitMinor {
          OneDigitValue(minor);
        }
      }
      AfterMinor(major, ValueOf(minor), u[nb + 1..])
  }

  /** The patch group: a greedy digit run, at least one digit. */
  function AfterMinor(major: nat, minor: nat, w: string): (r: Option<Version>)
    ensures r.Some? ==> r.value.major == major && r.value.minor == minor
  {
    var nc := DigitRun(w);
    if nc == 0 then None else Some(Version(major, minor, ValueOf(w[..nc])))
  }

  /** The version the pattern matches when anchored at position `i`, if any. */
  function MatchAt(p: Pattern, s: string, i: nat): (r: Option<Version>)
    requires i <= |s|
    ensures r.Some? ==> TagAt(s, i)
    ensures r.Some? ==> r.value.major < 10
    ensures r.Some? && !p.multiDigitMinor ==> r.value.minor < 10
  {
    if TagAt(s, i) then VersionPrefix(p, s[i + |Tag|..]) else None
  }

  datatype Occurrence = Occurrence(at: nat, version: Version)

  /** The outcome of anchoring the pattern at each position 0..|s|. */
  function Attempts(p: Pattern, s: string): (ms: seq<Option<Version>>)
    ensures |ms| == |s| + 1
    ensures forall j :: 0 <= j <= |s| ==> ms[j] == MatchAt(p, s, j)
  {
    seq(|s| + 1, j requires 0 <= j <= |s| => MatchAt(p, s, j))
  }

  /** The first successful attempt at or after position `i`. */
  function FirstFrom(ms: seq<Option<Version>>, i: nat): Option<Occurrence>
    requires i <= |ms|
    decreases |ms| - i
  {
    if i == |ms| then None
    else match ms[i]
      case Some(v) => Some(Occurrence(i, v))
      case None => FirstFrom(ms, i + 1)
  }

  /** A reported attempt succeeded, and every attempt before it, from `i`
      on, failed. */
  lemma {:induction false} FirstFromFound(ms: seq<Option<Version>>, i: nat)
    requires i <= |ms|
    ensures var r := FirstFrom(ms, i);
      r.Some? ==> && i <= r.value.at < |ms| && ms[r.value.at] == Some(r.value.version)
                  && forall j :: i <= j < r.value.at ==> ms[j].None?
    decreases |ms| - i
  {
    if i < |ms| && ms[i].None? {
      FirstFromFound(ms, i + 1);
    }
  }

  /** Nothing is reported only when every attempt from `i` on failed. */
  lemma {:induction false} FirstFromMissing(ms: seq<Option<Version>>, i: nat)
    requires i <= |ms|
    ensures FirstFrom(ms, i).None? ==> forall j :: i <= j < |ms| ==> ms[j].None?
    decreases |ms| - i
  {
    if i < |ms| && ms[i].None? {
      FirstFromMissing(ms, i + 1);
    }
  }

  /** `re.search` over the whole banner: the leftmost position where the
      pattern matches. */
  function FirstMatch(p: Pattern, s: string): Option<Occurrence>
  {
    FirstFrom(Attempts(p, s), 0)
  }

  /** The version of the first occurrence, or None when the banner holds no
      occurrence of the pattern at all. */
  function ParseBanner(p: Pattern, s: string): Option<Version>
  {
    match FirstMatch(p, s)
    case Some(o) => Some(o.version)
    case None => None
  }

  /** What the scan reports, in terms of the attempts at each position. */
  lemma FirstMatchSpec(p: Pattern, s: string)
    ensures var r := FirstMatch(p, s);
      && (r.Some? ==> && r.value.at <= |s| && MatchAt(p, s, r.value.at) == Some(r.value.version)
                      && forall j :: 0 <= j < r.value.at ==> MatchAt(p, s, j).None?)
      && (r.None? ==> forall j :: 0 <= j <= |s| ==> MatchAt(p, s, j).None?)
  {
    var ms := Attempts(p, s);
    FirstFromFound(ms, 0);
    FirstFromMissing(ms, 0);
  }

  /** A version is found exactly when the pattern matches somewhere; it is
      the one of the leftmost match, and its major (and, for the older
      pattern, its minor) has a single digit. */
  lemma ParseBannerSpec(p: Pattern, s: string)
    ensures ParseBanner(p, s).Some? <==> exists j :: 0 <= j <= |s| && MatchAt(p, s, j).Some?
    ensures ParseBanner(p, s).Some? ==>
              exists j :: 0 <= j <= |s| && MatchAt(p, s, j) == ParseBanner(p, s)
                          && forall k :: 0 <= k < j ==> MatchAt(p, s, k).None?
    ensures ParseBanner(p, s).Some? ==> ParseBanner(p, s).value.major < 10
    ensures ParseBanner(p, s).Some? && !p.multiDigitMinor ==> ParseBanner(p, s).value.minor < 10
  {
    FirstMatchSpec(p, s);
    var r := FirstMatch(p, s);
    if r.Some? {
      assert MatchAt(p, s, r.value.at) == ParseBanner(p, s);
    }
  }

  /** No version is found when the pattern matches at no position. */
  lemma NoMatchNoVersion(p: Pattern, s: string)
    requires forall j :: 0 <= j <= |s| ==> MatchAt(p, s, j).None?
    ensures ParseBanner(p, s) == None
  {
    FirstMatchSpec(p, s);
  }

  /** A text whose only capital 'V' starts "VM" holds no tag: the JVM's
      warning line printed before the banner is an example. */
  lemma NoTagAroundVM(a: string, b: string)
    requires 'V' !in a && 'V' !in b
    ensures forall k :: 0 <= k < |a + "VM" + b| ==> !TagAt(a + "VM" + b, k)
  {
    var s := a + "VM" + b;
    forall k | 0 <= k < |s| ensures !TagAt(s, k) {
      if k + |Tag| <= |s| {
        var w := s[k..k + |Tag|];
        if k < |a| {
          assert w[0] == a[k] != 'V';
        } else if k == |a| {
          assert w[1] == s[k + 1] == 'M';
        } else if k == |a| + 1 {
          assert w[0] == 'M';
        } else {
          assert w[0] == b[k - |a| - 2] != 'V';
        }
      }
    }
  }

  /** A greedy digit run over digits `d` stops where `d` ends when a
      non-digit (or the end) follows. */
  lemma {:induction false} DigitRunOver(d: string, rest: string)
    requires AllDigits(d)
    requires |rest| == 0 || !IsDigit(rest[0])
    ensures DigitRun(d + rest) == |d|
    decreases |d|
  {
    if |d| > 0 {
      assert (d + rest)[1..] == d[1..] + rest;
      DigitRunOver(d[1..], rest);
    } else {
      assert d + rest == rest;
    }
  }

  /** The tag cannot start inside `pre` when `pre` does not contain it and
      the tag follows `pre`: the tag's only 'V' is its first character. */
  lemma NoTagInside(pre: string, rest: string, j: nat)
    requires forall k :: 0 <= k < |pre| ==> !TagAt(pre, k)
    requires |rest| > 0 && rest[0] == 'V'
    requires j < |pre|
    ensures !TagAt(pre + rest, j)
  {
    var s := pre + rest;
    if j + |Tag| <= |pre| {
      assert s[j..j + |Tag|] == pre[j..j + |Tag|];
      assert !TagAt(pre, j);
    } else if j + |Tag| <= |s| {
      var o := |pre| - j;
      assert s[j..j + |Tag|][o] == s[|pre|] == 'V';
      assert Tag[o] != 'V';
    }
  }

  lemma MinorRunOver(p: Pattern, m: string, rest: string)
    requires IsDecimal(m) && (p.multiDigitMinor || |m| == 1)
    requires |rest| > 0 && rest[0] == '.'
    ensures MinorRun(p, m + rest) == |m|
  {
    if p.multiDigitMinor {
      DigitRunOver(m, rest);
    }
  }

  lemma AfterMinorOf(major: nat, minor: nat, q: string, post: string)
    requires IsDecimal(q)
    requires |post| == 0 || !IsDigit(post[0])
    ensures AfterMinor(major, minor, q + post) == Some(Version(major, minor, ValueOf(q)))
  {
    DigitRunOver(q, post);
    assert (q + post)[..|q|] == q;
  }

  lemma AfterMajorOf(p: Pattern, major: nat, m: string, rest: string)
    requires IsDecimal(m) && (p.multiDigitMinor || |m| == 1)
    requires |rest| > 0 && rest[0] == '.'
    ensures AfterMajor(p, major, m + rest) == AfterMinor(major, ValueOf(m), rest[1..])
  {
    var u := m + rest;
    MinorRunOver(p, m, rest);
    assert u[|m|] == '.';
    assert u[..|m|] == m;
    assert u[|m| + 1..] == rest[1..];
  }

  lemma VersionPrefixOf(p: Pattern, d: char, u: string)
    requires IsDigit(d)
    ensures VersionPrefix(p, [d, '.'] + u) == AfterMajor(p, DigitValue(d), u)
  {
    assert ([d, '.'] + u)[2..] == u;
  }

  /** The first match is at `i` when the pattern matches there and the tag
      occurs nowhere before. */
  lemma FirstMatchAt(p: Pattern, s: string, i: nat, v: Version)
    requires i <= |s| && MatchAt(p, s, i) == Some(v)
    requires forall j :: 0 <= j < i ==> !TagAt(s, j)
    ensures FirstMatch(p, s) == Some(Occurrence(i, v))
  {
    FirstMatchSpec(p, s);
  }

  lemma Regroup(M: string, m: string, q: string, post: string)
    requires |M| == 1
    ensures M + "." + m + "." + q + post == [M[0], '.'] + (m + ("." + (q + post)))
  {
    assert M == [M[0]];
  }

  lemma TagThen(pre: string, x: string, post: string)
    ensures TagAt(pre + Tag + x + post, |pre|)
    ensures (pre + Tag + x + post)[|pre| + |Tag|..] == x + post
  {
    var s := pre + Tag + x + post;
    assert s[|pre|..|pre| + |Tag|] == Tag;
  }

  /** The version text right after the tag, followed by a non-digit, is
      matched at the tag's position. */
  lemma MatchRendered(p: Pattern, pre: string, v: Version, post: string)
    requires v.major < 10 && (p.multiDigitMinor || v.minor < 10)
    requires |post| == 0 || !IsDigit(post[0])
    ensures MatchAt(p, pre + Tag + Show(v) + post, |pre|) == Some(v)
  {
    var M, m, q := NatToString(v.major), NatToString(v.minor), NatToString(v.patch);
    var rest := "." + (q + post);
    Regroup(M, m, q, post);
    AfterMinorOf(v.major, v.minor, q, post);
    assert rest[1..] == q + post;
    AfterMajorOf(p, v.major, m, rest);
    assert ValueOf(M) == DigitValue(M[0]) by {
      assert M[..0] == [];
    }
    VersionPrefixOf(p, M[0], m + rest);
    TagThen(pre, Show(v), post);
  }

  /** Round trip: a banner made of text without the tag, then
      `Version: M.m.p`, then anything not starting with a digit (", Build:
      ..." for instance) is parsed to exactly that version, provided the
      version fits the pattern (major one digit, minor one digit too for the
      older pattern). */
  lemma {:induction false} ParseRendered(p: Pattern, pre: string, v: Version, post: string)
    requires v.major < 10 && (p.multiDigitMinor || v.minor < 10)
    requires forall k :: 0 <= k < |pre| ==> !TagAt(pre, k)
    requires |post| == 0 || !IsDigit(post[0])
    ensures FirstMatch(p, pre + Tag + Show(v) + post) == Some(Occurrence(|pre|, v))
    ensures ParseBanner(p, pre + Tag + Show(v) + post) == Some(v)
  {
    var rest := Tag + Show(v) + post;
    var s := pre + rest;
    assert s == pre + Tag + Show(v) + post;
    forall j | 0 <= j < |pre| ensures !TagAt(s, j) {
      NoTagInside(pre, rest, j);
    }
    MatchRendered(p, pre, v, post);
    FirstMatchAt(p, s, |pre|, v);
  }
}
