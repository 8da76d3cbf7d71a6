/** Release comparison of the updater (crates/omni-core/src/updater.rs:605-648). */
module Version {
  import opened Common

  datatype Version = Version(major: U32, minor: U32, patch: U32, pre: Option<string>)

  // ---- parsing

  function TrimV(s: string): string { if s != "" && s[0] == 'v' then TrimV(s[1..]) else s }

  /** The text before the first c and, if there is a c, the text after it. */
  function Cut(s: string, c: char): (string, Option<string>) {
    if s == "" then ("", None)
    else if s[0] == c then ("", Some(s[1..]))
    else
      var (a, b) := Cut(s[1..], c);
      ([s[0]] + a, b)
  }

  predicate IsDigit(c: char) { '0' <= c <= '9' }
  predicate AllDigits(s: string) { forall i :: 0 <= i < |s| ==> IsDigit(s[i]) }

  function Value(s: string): nat
    requires AllDigits(s)
  {
    if s == "" then 0 else 10 * Value(s[..|s| - 1]) + (s[|s| - 1] as int - '0' as int)
  }

  /** `str::parse::<u32>`: one leading plus sign is allowed, overflow is an error. */
  function ParseU32(s: string): Option<U32> {
    var d := if |s| > 1 && s[0] == '+' then s[1..] else s;
    if d != "" && AllDigits(d) && Value(d) < 0x1_0000_0000 then Some(Value(d)) else None
  }

  /** A missing or unreadable component counts as 0. */
  function Component(s: Option<string>): U32 {
    if s.None? then 0 else match ParseU32(s.value) case None => 0 case Some(n) => n
  }

  function ParseNumbers(numbers: string, pre: Option<string>): Version {
    var (major, r1) := Cut(numbers, '.');
    var (minor, r2) := if r1.Some? then (var (a, b) := Cut(r1.value, '.'); (Some(a), b)) else (None, None);
    var patch := if r2.Some? then Some(Cut(r2.value, '.').0) else None;
    Version(Component(Some(major)), Component(minor), Component(patch), pre)
  }

  function Parse(v: string): Version {
    var (numbers, pre) := Cut(TrimV(v), '-');
    ParseNumbers(numbers, pre)
  }

  function IsNewer(latest: string, current: string): bool {
    var l, c := Parse(latest), Parse(current);
    if l.major > c.major then true
    else if l.major < c.major then false
    else if l.minor > c.minor then true
    else if l.minor < c.minor then false
    else if l.patch > c.patch then true
    else if l.patch < c.patch then false
    else l.pre.None? && c.pre.Some?
  }

  // ---- the order

  /** Precedence as a tuple: numbers, then release above pre-release. */
  function Rank(v: Version): seq<nat> { [v.major, v.minor, v.patch, if v.pre.None? then 1 else 0] }

  predicate LexLess(a: seq<nat>, b: seq<nat>)
    requires |a| == |b|
  {
    a != [] && (a[0] < b[0] || (a[0] == b[0] && LexLess(a[1..], b[1..])))
  }

  lemma {:induction false} LexIsStrictWeak(a: seq<nat>, b: seq<nat>, c: seq<nat>)
    requires |a| == |b| == |c|
    ensures !LexLess(a, a)
    ensures LexLess(a, b) && LexLess(b, c) ==> LexLess(a, c)
    ensures LexLess(a, c) ==> LexLess(a, b) || LexLess(b, c)
    ensures !LexLess(a, b) && !LexLess(b, a) ==> a == b
  {
    if a != [] {
      LexIsStrictWeak(a[1..], b[1..], c[1..]);
      if a[0] == b[0] && a[1..] == b[1..] {
        assert a == [a[0]] + a[1..] && b == [b[0]] + b[1..];
      }
    }
  }

  lemma NewerIsLex(a: string, b: string)
    ensures IsNewer(a, b) <==> LexLess(Rank(Parse(b)), Rank(Parse(a)))
  {
    var x, y := Rank(Parse(b)), Rank(Parse(a));
    assert x[1..][0] == x[1] && x[1..][1..][0] == x[2] && x[1..][1..][1..][0] == x[3];
    assert y[1..][0] == y[1] && y[1..][1..][0] == y[2] && y[1..][1..][1..][0] == y[3];
    assert |x[1..][1..][1..][1..]| == 0;
    assert LexLess(x[1..][1..][1..], y[1..][1..][1..]) <==> x[3] < y[3];
    assert LexLess(x[1..][1..], y[1..][1..]) <==> x[2] < y[2] || (x[2] == y[2] && x[3] < y[3]);
  }

  /** On all strings whatsoever, "newer" is a strict weak order: irreflexive, transitive, and versions that
      are not ordered are interchangeable because they have the same rank. */
  lemma NewerIsStrictWeak(a: string, b: string, c: string)
    ensures !IsNewer(a, a)
    ensures IsNewer(a, b) && IsNewer(b, c) ==> IsNewer(a, c)
    ensures !IsNewer(a, b) && !IsNewer(b, a) <==> Rank(Parse(a)) == Rank(Parse(b))
    ensures IsNewer(a, c) ==> IsNewer(a, b) || IsNewer(b, c)
  {
    NewerIsLex(a, a);
    NewerIsLex(a, b);
    NewerIsLex(b, a);
    NewerIsLex(b, c);
    NewerIsLex(a, c);
    LexIsStrictWeak(Rank(Parse(c)), Rank(Parse(b)), Rank(Parse(a)));
    LexIsStrictWeak(Rank(Parse(a)), Rank(Parse(b)), Rank(Parse(a)));
  }

  function Vs(n: nat): string { if n == 0 then "" else "v" + Vs(n - 1) }

  lemma {:induction false} TrimVs(n: nat, s: string)
    ensures TrimV(Vs(n) + s) == TrimV(s)
  {
    if n == 0 {
      assert Vs(n) + s == s;
    } else {
      assert (Vs(n) + s)[1..] == Vs(n - 1) + s;
      TrimVs(n - 1, s);
    }
  }

  /** The comparison ignores any number of leading v's on either side. */
  lemma LeadingVsDoNotMatter(a: string, b: string, m: nat, n: nat)
    ensures IsNewer(Vs(m) + a, Vs(n) + b) <==> IsNewer(a, b)
  {
    TrimVs(m, a);
    TrimVs(n, b);
  }

  // ---- rendering

  function Decimal(n: nat): string {
    (if n < 10 then "" else Decimal(n / 10)) + [(n % 10 + '0' as int) as char]
  }

  function Render(major: nat, minor: nat, patch: nat, pre: Option<string>): string {
    Decimal(major) + "." + (Decimal(minor) + "." + Decimal(patch)) + if pre.Some? then "-" + pre.value else ""
  }

  lemma {:induction false} DecimalReads(n: nat)
    ensures AllDigits(Decimal(n)) && Decimal(n) != "" && Value(Decimal(n)) == n
  {
    var d := Decimal(n);
    if n >= 10 {
      DecimalReads(n / 10);
    }
    assert d[..|d| - 1] == if n < 10 then "" else Decimal(n / 10);
  }

  lemma {:induction false} CutAt(a: string, c: char, b: string)
    requires forall i :: 0 <= i < |a| ==> a[i] != c
    ensures Cut(a + [c] + b, c) == (a, Some(b))
    ensures Cut(a, c) == (a, None)
  {
    var s := a + [c] + b;
    if a == "" {
      assert s[1..] == b;
    } else {
      CutAt(a[1..], c, b);
      assert s[1..] == a[1..] + [c] + b && s[0] == a[0];
      assert a == [a[0]] + a[1..];
    }
  }

  /** A component that fits 32 bits reads back; a larger one reads as 0. */
  lemma ComponentReads(n: nat)
    ensures Component(Some(Decimal(n))) == if n < 0x1_0000_0000 then n else 0
  {
    DecimalReads(n);
    assert IsDigit(Decimal(n)[0]);
  }

  ghost predicate Lacks(s: string, c: char) { forall i :: 0 <= i < |s| ==> s[i] != c }

  lemma NumbersParse(a: string, b: string, c: string, pre: Option<string>)
    requires Lacks(a, '.') && Lacks(b, '.') && Lacks(c, '.')
    ensures ParseNumbers(a + "." + (b + "." + c), pre) ==
            Version(Component(Some(a)), Component(Some(b)), Component(Some(c)), pre)
  {
    CutAt(a, '.', b + "." + c);
    CutAt(b, '.', c);
    CutAt(c, '.', "");
  }

  lemma VersionCuts(numbers: string, pre: Option<string>)
    requires Lacks(numbers, '-') && numbers != "" && numbers[0] != 'v'
    ensures Cut(TrimV(numbers + if pre.Some? then "-" + pre.value else ""), '-') == (numbers, pre)
  {
    CutAt(numbers, '-', if pre.Some? then pre.value else "");
    if pre.Some? {
      assert numbers + ("-" + pre.value) == numbers + ['-'] + pre.value;
    } else {
      assert numbers + "" == numbers;
    }
  }

  lemma DecimalLacks(n: nat)
    ensures Decimal(n) != "" && IsDigit(Decimal(n)[0]) && Lacks(Decimal(n), '.') && Lacks(Decimal(n), '-')
  {
    DecimalReads(n);
  }

  lemma RenderParses(major: nat, minor: nat, patch: nat, pre: Option<string>)
    ensures Parse(Render(major, minor, patch, pre)) ==
            Version(Component(Some(Decimal(major))), Component(Some(Decimal(minor))),
                    Component(Some(Decimal(patch))), pre)
  {
    DecimalLacks(major);
    DecimalLacks(minor);
    DecimalLacks(patch);
    var a, b, c := Decimal(major), Decimal(minor), Decimal(patch);
    ParsePieces(a, b, c, pre);
  }

  lemma ParsePieces(a: string, b: string, c: string, pre: Option<string>)
    requires a != "" && IsDigit(a[0])
    requires Lacks(a, '.') && Lacks(b, '.') && Lacks(c, '.') && Lacks(a, '-') && Lacks(b, '-') && Lacks(c, '-')
    ensures Parse(a + "." + (b + "." + c) + if pre.Some? then "-" + pre.value else "") ==
            Version(Component(Some(a)), Component(Some(b)), Component(Some(c)), pre)
  {
    VersionCuts(a + "." + (b + "." + c), pre);
    NumbersParse(a, b, c, pre);
  }

  /** Parsing undoes rendering exactly on 32-bit triples. */
  lemma RoundTripIff(major: nat, minor: nat, patch: nat, pre: Option<string>)
    ensures var v := Parse(Render(major, minor, patch, pre));
            v.pre == pre &&
            (v.major == major && v.minor == minor && v.patch == patch <==>
               major < 0x1_0000_0000 && minor < 0x1_0000_0000 && patch < 0x1_0000_0000)
  {
    RenderParses(major, minor, patch, pre);
    ComponentReads(major);
    ComponentReads(minor);
    ComponentReads(patch);
  }

  /** Semantic Versioning 2.0.0, section 11, items 1 to 3, for rendered 32-bit versions; two pre-releases
      of one version are never newer than each other, so item 4 is not implemented. */
  lemma NewerOnRendered(a: Version, b: Version)
    ensures var x := Render(a.major, a.minor, a.patch, a.pre);
            var y := Render(b.major, b.minor, b.patch, b.pre);
            IsNewer(x, y) <==>
              || a.major > b.major
              || (a.major == b.major && a.minor > b.minor)
              || (a.major == b.major && a.minor == b.minor && a.patch > b.patch)
              || (a.major == b.major && a.minor == b.minor && a.patch == b.patch && a.pre.None? && b.pre.Some?)
  {
    RoundTripIff(a.major, a.minor, a.patch, a.pre);
    RoundTripIff(b.major, b.minor, b.patch, b.pre);
  }

  // ---- incomplete and unreadable versions

  /** A number is read exactly from digits that fit 32 bits, with at most one plus sign before them. */
  lemma ParseU32Iff(s: string, n: U32)
    ensures ParseU32(s) == Some(n) <==>
            exists d :: (s == d || s == "+" + d) && d != "" && AllDigits(d) && Value(d) == n
  {
    if ParseU32(s) == Some(n) {
      var d := if |s| > 1 && s[0] == '+' then s[1..] else s;
      assert s == d || s == "+" + d;
    }
    if d :| (s == d || s == "+" + d) && d != "" && AllDigits(d) && Value(d) == n {
      assert IsDigit(d[0]);
      if s == "+" + d {
        assert s[0] == '+' && s[1..] == d;
      }
    }
  }

  ghost predicate Unreadable(s: string) { forall n: U32 :: ParseU32(s) != Some(n) }

  /** Whatever cannot be read counts as 0. */
  lemma UnreadableIsZero(s: string)
    ensures Unreadable(s) ==> Component(Some(s)) == 0
    ensures !Unreadable(s) ==> ParseU32(s) == Some(Component(Some(s)))
  {
  }

  /** Missing components count as 0, and components after the third are ignored. */
  lemma OtherLengths(a: string, b: string, c: string, rest: string, pre: Option<string>)
    requires Lacks(a, '.') && Lacks(b, '.') && Lacks(c, '.')
    ensures ParseNumbers(a, pre) == Version(Component(Some(a)), 0, 0, pre)
    ensures ParseNumbers(a + "." + b, pre) == Version(Component(Some(a)), Component(Some(b)), 0, pre)
    ensures ParseNumbers(a + "." + (b + "." + (c + "." + rest)), pre) ==
            Version(Component(Some(a)), Component(Some(b)), Component(Some(c)), pre)
  {
    CutAt(a, '.', b);
    CutAt(b, '.', c);
    CutAt(a, '.', b + "." + (c + "." + rest));
    CutAt(b, '.', c + "." + rest);
    CutAt(c, '.', rest);
  }

  /** The same on whole version strings without a pre-release. */
  lemma OneNumber(major: nat)
    ensures Parse(Decimal(major)) == Version(Component(Some(Decimal(major))), 0, 0, None)
    ensures Parse("") == Version(0, 0, 0, None)
  {
    DecimalLacks(major);
    VersionCuts(Decimal(major), None);
    assert Decimal(major) + "" == Decimal(major);
    OtherLengths(Decimal(major), "", "", "", None);
  }

  lemma TwoNumbers(major: nat, minor: nat)
    ensures Parse(Decimal(major) + "." + Decimal(minor)) ==
            Version(Component(Some(Decimal(major))), Component(Some(Decimal(minor))), 0, None)
  {
    DecimalLacks(major);
    DecimalLacks(minor);
    TwoPieces(Decimal(major), Decimal(minor));
  }

  lemma TwoPieces(a: string, b: string)
    requires a != "" && IsDigit(a[0])
    requires Lacks(a, '.') && Lacks(b, '.') && Lacks(a, '-') && Lacks(b, '-')
    ensures Parse(a + "." + b) == Version(Component(Some(a)), Component(Some(b)), 0, None)
  {
    var two := a + "." + b;
    VersionCuts(two, None);
    assert two + "" == two;
    OtherLengths(a, b, "", "", None);
  }
}
