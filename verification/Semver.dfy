/** Version strings: parsing up to three dotted numbers, and the order the updater compares with. */
module Semver {
  import opened Wrappers
  import opened Words

  // ----- The library functions the parser uses

  predicate IsDigit(c: char) {
    '0' <= c <= '9'
  }

  predicate AllDigits(s: string) {
    forall i :: 0 <= i < |s| ==> IsDigit(s[i])
  }

  function DigitsValue(s: string): nat
    requires AllDigits(s)
  {
    if s == "" then 0 else DigitsValue(s[..|s| - 1]) * 10 + (s[|s| - 1] as int - '0' as int)
  }

  /** The value strconv.Atoi leaves behind: 0 on a syntax error, the nearest int64 out of range. */
  function Atoi(s: string): int64 {
    var negative := s != "" && s[0] == '-';
    var digits := if s != "" && (s[0] == '-' || s[0] == '+') then s[1..] else s;
    if digits == "" || !AllDigits(digits) then 0
    else
      var value: int := DigitsValue(digits);
      if negative then (if value > TWO_63 then -TWO_63 else -value)
      else if value >= TWO_63 then TWO_63 - 1
      else value
  }

  /** strings.Cut: what stands before the first separator. */
  function BeforeFirst(s: string, sep: char): (r: string)
    ensures r <= s && sep !in r && (r == s || s[|r|] == sep)
  {
    if s == "" || s[0] == sep then "" else [s[0]] + BeforeFirst(s[1..], sep)
  }

  function AfterFirst(s: string, sep: char): Option<string> {
    var before := BeforeFirst(s, sep);
    if before == s then None else Some(s[|before| + 1..])
  }

  /** strings.SplitN: at most `n` parts, the last one with whatever separators are left. */
  function SplitN(s: string, sep: char, n: nat): (parts: seq<string>)
    requires n > 0
    ensures 1 <= |parts| <= n
  {
    var rest := AfterFirst(s, sep);
    if n == 1 || rest.None? then [s] else [BeforeFirst(s, sep)] + SplitN(rest.value, sep, n - 1)
  }

  // ----- parseSemver and isNewerVersion

  datatype Version = Version(major: int64, minor: int64, patch: int64)

  /** The number of the i-th part, without any "-suffix"; 0 when there is no such part. */
  function PartNumber(parts: seq<string>, i: nat): int64 {
    if i < |parts| then Atoi(BeforeFirst(parts[i], '-')) else 0
  }

  function Component(v: string, i: nat): int64 {
    PartNumber(SplitN(v, '.', 3), i)
  }

  function Parse(v: string): Version {
    Version(Component(v, 0), Component(v, 1), Component(v, 2))
  }

  method ParseSemver(v: string) returns (out: array<int64>)
    ensures fresh(out) && out.Length == 3 && Version(out[0], out[1], out[2]) == Parse(v)
  {
    hide SplitN, Atoi, BeforeFirst;
    var parts := SplitN(v, '.', 3);
    out := new int64[3](_ => 0);
    for i := 0 to |parts|
      invariant forall k :: 0 <= k < i ==> out[k] == PartNumber(parts, k)
      invariant forall k :: i <= k < 3 ==> out[k] == 0
    {
      out[i] := Atoi(BeforeFirst(parts[i], '-'));
    }
  }

  /** Lexicographic on the triple. */
  predicate Newer(n: Version, c: Version) {
    n.major > c.major || (n.major == c.major && (n.minor > c.minor || (n.minor == c.minor && n.patch > c.patch)))
  }

  method IsNewerVersion(current: string, candidate: string) returns (newer: bool)
    ensures newer == Newer(Parse(candidate), Parse(current))
    ensures var n, c := Parse(candidate), Parse(current);
            && (n.major != c.major ==> newer == (n.major > c.major))
            && (n.major == c.major && n.minor != c.minor ==> newer == (n.minor > c.minor))
            && (n.major == c.major && n.minor == c.minor ==> newer == (n.patch > c.patch))
  {
    hide Component;
    var c := ParseSemver(current);
    var n := ParseSemver(candidate);
    for i := 0 to 3
      invariant forall k :: 0 <= k < i ==> n[k] == c[k]
    {
      if n[i] > c[i] {
        return true;
      }
      if n[i] < c[i] {
        return false;
      }
    }
    newer := false;
  }

  /** A strict weak order on version strings: irreflexive, transitive, and being neither newer nor
      older is an equivalence, namely having the same triple. */
  lemma StrictWeakOrder(a: string, b: string, c: string)
    ensures !Newer(Parse(a), Parse(a))
    ensures Newer(Parse(a), Parse(b)) && Newer(Parse(b), Parse(c)) ==> Newer(Parse(a), Parse(c))
    ensures !Newer(Parse(a), Parse(b)) && !Newer(Parse(b), Parse(a)) <==> Parse(a) == Parse(b)
  {
    hide Parse;
  }

  // ----- Round trip

  function Digit(d: nat): char
    requires d < 10
  {
    '0' + d as char
  }

  function Print(n: nat): (s: string)
    ensures s != "" && AllDigits(s)
  {
    if n < 10 then [Digit(n)] else Print(n / 10) + [Digit(n % 10)]
  }

  lemma {:induction false} PrintedValue(n: nat)
    ensures DigitsValue(Print(n)) == n
  {
    if n >= 10 {
      PrintedValue(n / 10);
      assert Print(n)[..|Print(n)| - 1] == Print(n / 10);
    } else {
      assert Print(n)[..0] == "";
    }
  }

  lemma PrintedParses(n: nat)
    requires n < TWO_63
    ensures Atoi(Print(n)) == n
  {
    PrintedValue(n);
    assert IsDigit(Print(n)[0]);
  }

  /** A printed number, with a sign or without, reads as the number, or as the nearest int64. */
  lemma NumbersRead(n: nat)
    ensures n < TWO_63 ==> Atoi(Print(n)) == n && Atoi("+" + Print(n)) == n && Atoi("-" + Print(n)) == 0 - n
    ensures n >= TWO_63 ==>
              Atoi(Print(n)) == TWO_63 - 1 && Atoi("+" + Print(n)) == TWO_63 - 1 && Atoi("-" + Print(n)) == -TWO_63
  {
    PrintedValue(n);
    assert IsDigit(Print(n)[0]);
    assert ("+" + Print(n))[1..] == Print(n) && ("-" + Print(n))[1..] == Print(n);
  }

  /** Anything with another character in it reads as 0, and so does nothing at all. */
  lemma OthersReadAsZero(s: string, i: nat)
    ensures i < |s| && !('0' <= s[i] <= '9') && (i > 0 || (s[0] != '-' && s[0] != '+')) ==> Atoi(s) == 0
    ensures Atoi("") == 0 && Atoi("+") == 0 && Atoi("-") == 0
  {
    if 0 < i < |s| && !IsDigit(s[i]) && (s[0] == '-' || s[0] == '+') {
      assert !IsDigit(s[1..][i - 1]);
    }
  }

  lemma {:induction false} CutAt(before: string, sep: char, after: string)
    requires sep !in before
    ensures BeforeFirst(before + [sep] + after, sep) == before && AfterFirst(before + [sep] + after, sep) == Some(after)
    ensures BeforeFirst(before, sep) == before && AfterFirst(before, sep) == None
  {
    var s := before + [sep] + after;
    if before != "" {
      CutAt(before[1..], sep, after);
      assert s[1..] == before[1..] + [sep] + after;
    }
    assert s[|before| + 1..] == after;
  }

  lemma SplitThree(a: string, b: string, c: string)
    requires '.' !in a && '.' !in b
    ensures SplitN(a + "." + b + "." + c, '.', 3) == [a, b, c]
  {
    var rest := b + ['.'] + c;
    var v := a + "." + b + "." + c;
    assert v == a + ['.'] + rest;
    CutAt(a, '.', rest);
    CutAt(b, '.', c);
    hide BeforeFirst, AfterFirst;
    assert SplitN(c, '.', 1) == [c];
    assert SplitN(rest, '.', 2) == [b] + [c];
  }

  lemma PrintedCut(n: nat, suffix: string)
    requires suffix == "" || suffix[0] == '-'
    ensures BeforeFirst(Print(n) + suffix, '-') == Print(n)
  {
    NoDot(n);
    if suffix == "" {
      assert Print(n) + suffix == Print(n);
      CutAt(Print(n), '-', "");
    } else {
      assert Print(n) + suffix == Print(n) + ['-'] + suffix[1..];
      CutAt(Print(n), '-', suffix[1..]);
    }
  }

  /** major.minor.patch and what may follow it. */
  function PrintTriple(major: nat, minor: nat, patch: nat, suffix: string): string {
    Print(major) + "." + Print(minor) + "." + (Print(patch) + suffix)
  }

  /** Parsing a printed major.minor.patch gives the triple back, with or without a "-suffix". */
  lemma PrintedTripleParses(major: nat, minor: nat, patch: nat, suffix: string)
    requires major < TWO_63 && minor < TWO_63 && patch < TWO_63
    requires suffix == "" || suffix[0] == '-'
    ensures Parse(PrintTriple(major, minor, patch, suffix)) == Version(major, minor, patch)
  {
    hide Atoi, SplitN, BeforeFirst, Print;
    NoDot(major);
    NoDot(minor);
    SplitThree(Print(major), Print(minor), Print(patch) + suffix);
    PrintedCut(major, "");
    PrintedCut(minor, "");
    PrintedCut(patch, suffix);
    assert Print(major) + "" == Print(major) && Print(minor) + "" == Print(minor);
    PrintedParses(major);
    PrintedParses(minor);
    PrintedParses(patch);
  }

  /** Of two printed versions the one with the larger major number is newer, at equal major numbers the one
      with the larger minor number, and then the one with the larger patch number; suffixes do not count. */
  lemma PrintedOrder(
      major: nat, minor: nat, patch: nat, suffix: string, major': nat, minor': nat, patch': nat, suffix': string)
    requires major < TWO_63 && minor < TWO_63 && patch < TWO_63 && (suffix == "" || suffix[0] == '-')
    requires major' < TWO_63 && minor' < TWO_63 && patch' < TWO_63 && (suffix' == "" || suffix'[0] == '-')
    ensures var n := Parse(PrintTriple(major, minor, patch, suffix));
            var c := Parse(PrintTriple(major', minor', patch', suffix'));
            Newer(n, c) <==>
              major > major' || (major == major' && (minor > minor' || (minor == minor' && patch > patch')))
  {
    hide Parse, PrintTriple;
    PrintedTripleParses(major, minor, patch, suffix);
    PrintedTripleParses(major', minor', patch', suffix');
  }

  lemma NoDot(n: nat)
    ensures '.' !in Print(n) && '-' !in Print(n)
  {
    assert AllDigits(Print(n));
  }
}
