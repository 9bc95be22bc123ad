/** The names of storage categories: "<base>", "<base> 2", "<base> 3" and so on. Letters are
    ASCII as far as case goes. */
module PoolNames {
  import opened Wrappers
  import opened Text

  function Lower(c: char): char {
    if 'A' <= c <= 'Z' then c - 'A' + 'a' else c
  }

  /** strings.ToLower */
  function ToLower(s: string): (r: string)
    ensures |r| == |s| && forall i :: 0 <= i < |s| ==> r[i] == Lower(s[i])
  {
    if s == [] then [] else [Lower(s[0])] + ToLower(s[1..])
  }

  /** strings.EqualFold */
  predicate EqualFold(a: string, b: string) {
    ToLower(a) == ToLower(b)
  }

  /** N for "<base> N" with N >= 2, 1 for the base's own name, else 0. */
  function OverflowIndex(baseName: string, name: string): nat {
    var lowerBase, lowerName := ToLower(TrimSpace(baseName)), ToLower(TrimSpace(name));
    if lowerName == lowerBase then 1
    else if !HasPrefix(lowerName, lowerBase + " ") then 0
    else
      var n := ParseInt(TrimSpace(lowerName[|lowerBase| + 1..]));
      if n.None? || n.value < 2 then 0 else n.value
  }

  /** fmt's %d */
  function FormatInt(n: int): string {
    if n < 0 then "-" + Decimal(-n) else Decimal(n)
  }

  /** nextOverflowOrder++ on 64 bits. */
  function Increment(n: int): int {
    if n == MAX_INT64 then -(MAX_INT64 + 1) else n + 1
  }

  function OverflowName(baseName: string, order: int): string {
    baseName + " " + FormatInt(order)
  }

  lemma {:induction false} TrimLeftOfSum(a: string, b: string)
    requires TrimLeft(a) != []
    ensures TrimLeft(a + b) == TrimLeft(a) + b
  {
    if a != [] && IsSpace(a[0]) {
      assert (a + b)[1..] == a[1..] + b;
      TrimLeftOfSum(a[1..], b);
    }
  }

  lemma {:induction false} TrimLeftBlank(a: string, b: string)
    requires TrimLeft(a) == []
    ensures TrimLeft(a + b) == TrimLeft(b)
  {
    if a == [] {
      assert a + b == b;
    } else {
      assert (a + b)[1..] == a[1..] + b;
      TrimLeftBlank(a[1..], b);
    }
  }

  predicate AllSpace(s: string) {
    forall i :: 0 <= i < |s| ==> IsSpace(s[i])
  }

  lemma {:induction false} TrimRightIs(s: string)
    ensures TrimRight(s) <= s && AllSpace(s[|TrimRight(s)|..])
    ensures TrimRight(s) != [] ==> !IsSpace(TrimRight(s)[|TrimRight(s)| - 1])
  {
    if s != [] && IsSpace(s[|s| - 1]) {
      var front, t := s[..|s| - 1], TrimRight(s);
      TrimRightIs(front);
      assert t == TrimRight(front) && t == s[..|t|];
      forall i | |t| <= i < |s| ensures IsSpace(s[i]) {
        assert i < |s| - 1 ==> front[|t|..][i - |t|] == s[i];
      }
    }
  }

  lemma {:induction false} TrimLeftIs(s: string)
    ensures TrimLeft(s) != [] ==> !IsSpace(TrimLeft(s)[0])
    ensures AllSpace(s) ==> TrimLeft(s) == []
  {
    if s != [] && IsSpace(s[0]) {
      TrimLeftIs(s[1..]);
    }
  }

  lemma LowerSame(s: string)
    requires forall i :: 0 <= i < |s| ==> Lower(s[i]) == s[i]
    ensures ToLower(s) == s
  {
  }

  /** The white space that ends a category's name. */
  function Trail(s: string): string {
    TrimRightIs(TrimLeft(s));
    TrimLeft(s)[|TrimSpace(s)|..]
  }

  /** A number as formatted: no white space, no letters, a digit last. */
  lemma NumberText(n: int)
    ensures var s := FormatInt(n);
            && s != [] && !IsSpace(s[0]) && !IsSpace(s[|s| - 1]) && (forall i :: 0 <= i < |s| ==> Lower(s[i]) == s[i])
            && ParseInt(s) == if -(MAX_INT64 + 1) <= n <= MAX_INT64 then Some(n) else None
  {
    if n < 0 {
      NegativeText(-n);
    } else {
      DecimalText(n);
      ParseDecimal(n);
      hide Decimal, ParseInt;
    }
  }

  lemma NegativeText(n: int)
    requires n > 0
    ensures var s := "-" + Decimal(n);
            && !IsSpace(s[|s| - 1]) && (forall i :: 0 <= i < |s| ==> Lower(s[i]) == s[i])
            && ParseInt(s) == if n <= MAX_INT64 + 1 then Some(-n) else None
  {
    var s := "-" + Decimal(n);
    DecimalText(n);
    DecimalRoundTrip(n);
    assert s[1..] == Decimal(n) && s[0] == '-';
    hide Decimal, DigitsValue, AllDigits;
  }

  lemma DecimalText(n: nat)
    ensures forall i :: 0 <= i < |Decimal(n)| ==> IsDigit(Decimal(n)[i])
  {
    forall i | 0 <= i < |Decimal(n)| ensures IsDigit(Decimal(n)[i]) {
      assert Decimal(n)[i] in Decimal(n);
    }
  }

  lemma TrimNumber(space: string, n: int)
    requires AllSpace(space)
    ensures TrimSpace(space + FormatInt(n)) == FormatInt(n)
  {
    NumberText(n);
    TrimLeftIs(space);
    TrimLeftBlank(space, FormatInt(n));
  }

  lemma TrimRightOfNumber(s: string, n: int)
    ensures TrimRight(s + FormatInt(n)) == s + FormatInt(n)
  {
    NumberText(n);
  }

  lemma TrimOverflowName(baseName: string, n: int)
    ensures TrimSpace(OverflowName(baseName, n))
         == (if TrimLeft(baseName) == [] then [] else TrimLeft(baseName) + " ") + FormatInt(n)
  {
    var left, number := TrimLeft(baseName), FormatInt(n);
    hide TrimLeft, TrimRight, FormatInt;
    TrimLeftOverflowName(baseName, n);
    TrimRightOfNumber([], n);
    TrimRightOfNumber(left + " ", n);
  }

  lemma TrimLeftOverflowName(baseName: string, n: int)
    ensures TrimLeft(OverflowName(baseName, n))
         == (if TrimLeft(baseName) == [] then [] else TrimLeft(baseName) + " ") + FormatInt(n)
  {
    var left, number := TrimLeft(baseName), FormatInt(n);
    if left == [] {
      TrimLeftBlank(baseName, " ");
      assert TrimLeft(" ") == [];
      NumberText(n);
      hide FormatInt;
      TrimLeftBlank(baseName + " ", number);
      assert [] + number == number;
    } else {
      hide TrimLeft, FormatInt;
      assert baseName + " " + number == baseName + (" " + number);
      assert left + (" " + number) == left + " " + number;
      TrimLeftOfSum(baseName, " " + number);
    }
  }

  /** The name of the next overflow category reads back as its number exactly when the base
      name is not blank, its trailing white space, if any, begins with a blank, and the
      counter did not wrap round. */
  predicate ReadsBack(baseName: string, n: int) {
    TrimSpace(baseName) != [] && (Trail(baseName) == [] || Trail(baseName)[0] == ' ') && n > 0
  }

  lemma OverflowNameReadsBack(baseName: string, last: nat)
    requires 1 <= last <= MAX_INT64
    ensures var n := Increment(last);
            OverflowIndex(baseName, OverflowName(baseName, n)) == if ReadsBack(baseName, n) then n else 0
  {
    var n := Increment(last);
    assert -(MAX_INT64 + 1) <= n <= MAX_INT64 && (n >= 2 || n < 0);
    if TrimLeft(baseName) == [] {
      BlankBase(baseName, n);
    } else {
      LoweredName(baseName, n);
      var core, trail := TrimSpace(baseName), Trail(baseName);
      assert ReadsBack(baseName, n) <==> core != [] && (trail == [] || trail[0] == ' ') && n > 0;
      hide *;
      PrefixAfterCore(ToLower(core), trail, FormatInt(n), n);
      IndexOfLowered(baseName, OverflowName(baseName, n), ToLower(core), ToLower(core) + trail + " " + FormatInt(n), n);
    }
  }

  lemma BlankBase(baseName: string, n: int)
    requires TrimLeft(baseName) == []
    ensures OverflowIndex(baseName, OverflowName(baseName, n)) == 0 && TrimSpace(baseName) == []
  {
    TrimOverflowName(baseName, n);
    NumberText(n);
    LowerSame(FormatInt(n));
    assert [] + FormatInt(n) == FormatInt(n);
    assert TrimSpace(OverflowName(baseName, n)) == FormatInt(n);
    hide FormatInt, OverflowName, ParseInt;
    assert [] + " " == " ";
  }

  /** A name that is not blank is white space, a core and white space. */
  lemma BaseParts(baseName: string)
    requires TrimLeft(baseName) != []
    ensures var core, trail := TrimSpace(baseName), Trail(baseName);
            && core != [] && AllSpace(trail) && TrimLeft(baseName) == core + trail
            && ToLower(core) != [] && ToLower(trail) == trail
  {
    TrimRightIs(TrimLeft(baseName));
    TrimLeftIs(baseName);
    CoreNotEmpty(TrimLeft(baseName));
    LowerSame(Trail(baseName));
  }

  lemma LowerNumber(n: int)
    ensures ToLower(FormatInt(n)) == FormatInt(n)
  {
    NumberText(n);
    LowerSame(FormatInt(n));
  }

  lemma LoweredName(baseName: string, n: int)
    requires TrimLeft(baseName) != []
    ensures var core, trail := TrimSpace(baseName), Trail(baseName);
            && core != [] && ToLower(core) != [] && AllSpace(trail)
            && ToLower(TrimSpace(OverflowName(baseName, n))) == ToLower(core) + trail + " " + FormatInt(n)
  {
    hide *;
    BaseParts(baseName);
    TrimOverflowName(baseName, n);
    LowerNumber(n);
    LowerName(TrimSpace(baseName), Trail(baseName), FormatInt(n));
  }

  lemma IndexOfLowered(baseName: string, name: string, lowerBase: string, lowerName: string, n: int)
    requires lowerBase == ToLower(TrimSpace(baseName)) && lowerName == ToLower(TrimSpace(name)) &&
             lowerName != lowerBase
    requires -(MAX_INT64 + 1) <= n <= MAX_INT64 && (n >= 2 || n < 0)
    requires HasPrefix(lowerName, lowerBase + " ") ==> TrimSpace(lowerName[|lowerBase| + 1..]) == FormatInt(n)
    ensures OverflowIndex(baseName, name) == if HasPrefix(lowerName, lowerBase + " ") && n > 0 then n else 0
  {
    NumberText(n);
  }

  lemma CoreNotEmpty(left: string)
    requires left != [] && !IsSpace(left[0])
    ensures TrimRight(left) != []
  {
    TrimRightIs(left);
  }

  lemma LowerSum(a: string, b: string)
    ensures ToLower(a + b) == ToLower(a) + ToLower(b)
  {
    var x, y := ToLower(a + b), ToLower(a) + ToLower(b);
    assert |x| == |y|;
    forall i | 0 <= i < |x| ensures x[i] == y[i] {
    }
  }

  lemma LowerName(core: string, trail: string, number: string)
    requires ToLower(trail) == trail && ToLower(number) == number
    ensures ToLower(core + trail + " " + number) == ToLower(core) + trail + " " + number
  {
    LowerSame(" ");
    hide ToLower;
    LowerSum(core + trail + " ", number);
    LowerSum(core + trail, " ");
    LowerSum(core, trail);
  }

  lemma PrefixAfterCore(base: string, trail: string, number: string, n: int)
    requires base != [] && AllSpace(trail) && number == FormatInt(n)
    ensures var name := base + trail + " " + number;
            && name != base && (HasPrefix(name, base + " ") <==> trail == [] || trail[0] == ' ')
            && (HasPrefix(name, base + " ") ==> TrimSpace(name[|base| + 1..]) == number)
  {
    var name := base + trail + " " + number;
    var after := trail + " " + number;
    assert name == base + after;
    assert name[..|base| + 1] == base + [after[0]];
    assert after[0] == if trail == [] then ' ' else trail[0];
    assert name[|base| + 1..] == after[1..];
    assert (base + " ")[|base|] == ' ' && name[..|base| + 1][|base|] == after[0];
    assert after[0] == ' ' ==> [after[0]] == " ";
    assert |name| > |base|;
    if trail == [] {
      assert after[1..] == [] + number;
      TrimNumber([], n);
    } else {
      assert after[1..] == (trail[1..] + " ") + number;
      TrimNumber(trail[1..] + " ", n);
    }
  }

  // ----- names on the server -----

  const MAX_NAME: nat := 90

  /** The category a name leads to: names are trimmed and cut to 90 bytes first. */
  function CutName(name: string): string {
    var t := TrimSpace(name);
    if |t| > MAX_NAME then t[..MAX_NAME] else t
  }

  /** An overflow name that the server takes uncut and that reads back. */
  predicate GoodName(baseName: string, order: int) {
    1 < order <= MAX_INT64 && ReadsBack(baseName, order) && |TrimSpace(OverflowName(baseName, order))| <= MAX_NAME
  }

  lemma {:induction false} LowerTrimLeft(s: string)
    ensures TrimLeft(ToLower(s)) == ToLower(TrimLeft(s))
  {
    if s != [] && IsSpace(s[0]) {
      LowerTrimLeft(s[1..]);
      assert ToLower(s)[1..] == ToLower(s[1..]);
    }
  }

  lemma {:induction false} LowerTrimRight(s: string)
    ensures TrimRight(ToLower(s)) == ToLower(TrimRight(s))
  {
    if s != [] && IsSpace(s[|s| - 1]) {
      LowerTrimRight(s[..|s| - 1]);
      LowerFront(s);
      hide ToLower;
    }
  }

  lemma LowerFront(s: string)
    requires s != []
    ensures ToLower(s)[..|s| - 1] == ToLower(s[..|s| - 1])
  {
  }

  lemma LowerTrim(s: string)
    ensures TrimSpace(ToLower(s)) == ToLower(TrimSpace(s))
  {
    LowerTrimLeft(s);
    LowerTrimRight(TrimLeft(s));
  }

  lemma TrimTwice(s: string)
    ensures TrimSpace(TrimSpace(s)) == TrimSpace(s)
  {
    TrimLeftIs(s);
    TrimRightIs(TrimLeft(s));
  }

  /** A category found under a trimmed name has the number the name has. */
  lemma SameNameSameIndex(baseName: string, found: string, name: string)
    requires EqualFold(found, TrimSpace(name))
    ensures OverflowIndex(baseName, found) == OverflowIndex(baseName, name)
  {
    LowerTrim(found);
    LowerTrim(TrimSpace(name));
    TrimTwice(name);
    hide TrimSpace, ToLower;
  }

  lemma CutIsBase(base: string, order: int)
    requires |base| == MAX_NAME && TrimSpace(base) == base
    ensures CutName(OverflowName(base, order)) == base
  {
    TrimOverflowName(base, order);
    LeftOfTrimmed(base);
    hide TrimSpace, TrimLeft, OverflowName, FormatInt;
    PrefixIsBase(base, FormatInt(order));
  }

  lemma PrefixIsBase(base: string, number: string)
    ensures var name := base + " " + number; |name| > |base| && name[..|base|] == base
  {
    assert base + " " + number == base + (" " + number);
  }

  lemma LeftOfTrimmed(s: string)
    requires s != [] && TrimSpace(s) == s
    ensures TrimLeft(s) == s
  {
    TrimRightIs(TrimLeft(s));
    TrimLeftShorter(s);
  }

  lemma {:induction false} TrimLeftShorter(s: string)
    ensures |TrimLeft(s)| <= |s| && (|TrimLeft(s)| == |s| ==> TrimLeft(s) == s)
  {
    if s != [] && IsSpace(s[0]) {
      TrimLeftShorter(s[1..]);
    }
  }

  /** Cutting digits off a positive number leaves less. */
  lemma {:induction false} FewerDigitsAreLess(n: nat, k: nat)
    requires n > 0 && k < |Decimal(n)|
    ensures AllDigits(Decimal(n)[..k]) && DigitsValue(Decimal(n)[..k]) < n
  {
    var s := Decimal(n);
    if n >= 10 {
      var front := Decimal(n / 10);
      assert s[..k] == front[..k];
      if k < |front| {
        FewerDigitsAreLess(n / 10, k);
      } else {
        assert front[..k] == front;
        DecimalRoundTrip(n / 10);
      }
    }
  }

  /** White space and then some digits of n, but not all, do not parse as n. */
  lemma CutNumber(space: string, n: nat, m: nat)
    requires AllSpace(space) && 0 < n && m < |space + Decimal(n)|
    ensures ParseInt(TrimSpace((space + Decimal(n))[..m])) != Some(n)
  {
    var s := (space + Decimal(n))[..m];
    if m <= |space| {
      assert AllSpace(s);
      TrimLeftIs(s);
    } else {
      var k := m - |space|;
      var digits := Decimal(n)[..k];
      assert s == space + digits;
      DecimalText(n);
      FewerDigitsAreLess(n, k);
      TrimLeftIs(space);
      TrimLeftBlank(space, digits);
      assert TrimSpace(s) == digits;
      assert IsDigit(digits[0]);
    }
  }

  /** What follows the base name and one character in an overflow name that was cut. */
  lemma AfterCore(core: string, trail: string, number: string, m: nat)
    requires AllSpace(trail) && |core| + 1 <= m <= |core + trail + " " + number|
    ensures (core + trail + " " + number)[|core| + 1..m] == ((trail + " ")[1..] + number)[..m - |core| - 1]
    ensures AllSpace((trail + " ")[1..])
  {
    var after := (trail + " ")[1..] + number;
    assert core + trail + " " + number == core + (trail + " ") + number;
    assert (core + (trail + " ") + number)[|core| + 1..] == after;
  }

  lemma LowerSlice(s: string, i: nat, m: nat)
    requires i <= m <= |s|
    ensures ToLower(s[..m])[i..] == ToLower(s[i..m])
  {
  }

  /** A proper prefix of an overflow name does not have its number. */
  lemma PrefixLosesNumber(baseName: string, trail: string, n: nat, m: nat, name: string)
    requires TrimSpace(baseName) != [] && AllSpace(trail) && 1 < n
    requires var t := TrimSpace(baseName) + trail + " " + FormatInt(n); m < |t| && TrimSpace(name) == t[..m]
    ensures OverflowIndex(baseName, name) != n
  {
    var core := TrimSpace(baseName);
    var lowerBase, lowerName := ToLower(core), ToLower(TrimSpace(name));
    hide TrimSpace, ParseInt, FormatInt, ToLower;
    if HasPrefix(lowerName, lowerBase + " ") {
      RestLosesNumber(core, trail, n, m);
    }
  }

  lemma RestLosesNumber(core: string, trail: string, n: nat, m: nat)
    requires AllSpace(trail) && 1 < n && |core| < m < |core + trail + " " + FormatInt(n)|
    ensures var lowerName := ToLower((core + trail + " " + FormatInt(n))[..m]);
            |lowerName| > |core| && ParseInt(TrimSpace(lowerName[|core| + 1..])) != Some(n)
  {
    var t, i, space := core + trail + " " + FormatInt(n), |core| + 1, (trail + " ")[1..];
    var rest := (space + FormatInt(n))[..m - i];
    AfterCore(core, trail, FormatInt(n), m);
    NumberText(n);
    LowerSlice(t, i, m);
    LowerSame(rest);
    hide *;
    SpaceNumber(space, n, m - i);
  }

  lemma SpaceNumber(space: string, n: nat, m: nat)
    requires AllSpace(space) && 1 < n && m < |space + FormatInt(n)|
    ensures ParseInt(TrimSpace((space + FormatInt(n))[..m])) != Some(n)
  {
    hide ParseInt, TrimSpace, Decimal, AllSpace;
    CutNumber(space, n, m);
  }

  lemma CutLosesNumber(baseName: string, n: nat)
    requires 1 < n && |TrimSpace(OverflowName(baseName, n))| > MAX_NAME
    ensures OverflowIndex(baseName, CutName(OverflowName(baseName, n))) != n
  {
    var left := TrimLeft(baseName);
    var t := TrimSpace(OverflowName(baseName, n));
    var cut := t[..MAX_NAME];
    TrimOverflowName(baseName, n);
    TrimLeftIs(baseName);
    NumberText(n);
    assert !IsSpace(t[0]) && cut[0] == t[0];
    TrimRightIs(cut);
    if left == [] {
      BlankHasNoNumber(baseName, cut);
    } else {
      TrimRightIs(left);
      CoreNotEmpty(left);
      assert left == TrimSpace(baseName) + Trail(baseName);
      PrefixLosesNumber(baseName, Trail(baseName), n, |TrimSpace(cut)|, cut);
    }
  }

  lemma BlankHasNoNumber(baseName: string, name: string)
    requires TrimLeft(baseName) == [] && name != [] && !IsSpace(name[0])
    ensures OverflowIndex(baseName, name) <= 1
  {
    TrimRightIs(name);
    assert [] + " " == " ";
  }

  /** The category that is opened for a number reads back as that number exactly when the
      name was good: the server holds the name trimmed and cut to 90 bytes. */
  lemma CutNameReadsBack(baseName: string, n: nat)
    requires 1 < n <= MAX_INT64
    ensures OverflowIndex(baseName, CutName(OverflowName(baseName, n))) == n <==> GoodName(baseName, n)
  {
    var name := OverflowName(baseName, n);
    if |TrimSpace(name)| <= MAX_NAME {
      OverflowNameReadsBack(baseName, n - 1);
      SameNameSameIndex(baseName, TrimSpace(name), name);
    } else {
      CutLosesNumber(baseName, n);
    }
  }

  function Letters(k: nat): (s: string)
    ensures |s| == k && forall i :: 0 <= i < k ==> s[i] == 'a'
  {
    if k == 0 then [] else Letters(k - 1) + ['a']
  }

  lemma LettersAreTrimmed(k: nat)
    ensures TrimSpace(Letters(k)) == Letters(k) && Trail(Letters(k)) == [] && ToLower(Letters(k)) == Letters(k)
  {
    TrimRightIs(TrimLeft(Letters(k)));
  }

  /** A base name of 88 letters: its tenth category is called "<base> 10", which reads back,
      but is opened as "<base> 1", which does not. */
  lemma TenthCategoryIsCut()
    ensures var base := Letters(88);
            && ReadsBack(base, 10) && !GoodName(base, 10)
            && CutName(OverflowName(base, 10)) == base + " 1" && OverflowIndex(base, base + " 1") == 0
  {
    var base := Letters(88);
    LettersAreTrimmed(88);
    LeftOfTrimmed(base);
    TrimOverflowName(base, 10);
    FormatTen();
    assert TrimSpace(OverflowName(base, 10)) == base + " " + "10";
    hide TrimSpace, OverflowName, TrimLeft, FormatInt, Letters, Trail;
    CutTen(base);
    OneIsNoNumber(base);
  }

  lemma FormatTen()
    ensures FormatInt(10) == "10"
  {
  }

  lemma CutTen(base: string)
    requires |base| == 88
    ensures |base + " " + "10"| > MAX_NAME && (base + " " + "10")[..MAX_NAME] == base + " 1"
  {
    assert " 1" == " " + "1" && "10"[..1] == "1";
  }

  lemma OneIsOne()
    ensures ParseInt(TrimSpace("1")) == Some(1)
  {
    assert TrimSpace("1") == "1" && "1"[..0] == [];
  }

  lemma OneIsLow(base: string, name: string)
    requires base == Letters(88) && name == base + " 1"
    ensures ToLower(TrimSpace(name)) == name
  {
    assert TrimLeft(name) == name && TrimRight(name) == name;
    LowerSame(name);
  }

  lemma OneIsNoNumber(base: string)
    requires base == Letters(88)
    ensures OverflowIndex(base, base + " 1") == 0
  {
    var name := base + " 1";
    LettersAreTrimmed(88);
    OneIsLow(base, name);
    OneIsOne();
    assert name[..89] == base + " " && name[89..] == "1";
    hide TrimSpace, ToLower, ParseInt, Letters;
  }
}
