/** An optional value: a Go reference, map or slice that may be nil, a missing key, a missing file. */
module Options {
  datatype Option<+T> = None | Some(value: T)
}

/** The text operations the operator, the `zu` tool and the pod scripts share: decimal numerals as
    `strconv` prints and reads them, separators, and substring search. */
module Text {

  const MAX_INT64: int := 0x7fff_ffff_ffff_ffff
  const MIN_INT64: int := -0x8000_0000_0000_0000

  predicate IsDigit(c: char) { '0' <= c <= '9' }

  predicate AllDigits(s: string) { forall i | 0 <= i < |s| :: IsDigit(s[i]) }

  /** The decimal numeral of `n`, without leading zeros. */
  function Digits(n: nat): (s: string)
    ensures |s| > 0 && AllDigits(s)
  {
    if n < 10 then [('0' as int + n) as char] else Digits(n / 10) + [('0' as int + n % 10) as char]
  }

  /** The number a string of decimal digits denotes. */
  function Value(s: string): nat
    requires AllDigits(s)
  {
    if s == "" then 0 else 10 * Value(s[..|s| - 1]) + (s[|s| - 1] as int - '0' as int)
  }

  lemma {:induction false} ValueOfDigits(n: nat)
    ensures Value(Digits(n)) == n
  {
    if n >= 10 {
      ValueOfDigits(n / 10);
      assert Digits(n)[..|Digits(n)| - 1] == Digits(n / 10);
    }
  }

  /** `strconv.Itoa` and `fmt.Sprint` on an integer. */
  function Itoa(i: int): (s: string)
    ensures |s| > 0
    ensures i >= 0 ==> AllDigits(s)
  {
    if i < 0 then "-" + Digits(-i) else Digits(i)
  }

  /** What `strconv.Atoi` returns: the value is meaningful to its callers even when it failed. */
  datatype Parsed = Parsed(value: int, failed: bool)

  /** `strconv.Atoi` on a 64-bit platform: 0 on a syntax error, the nearest bound on overflow. */
  function Atoi(s: string): Parsed {
    var negative := s != "" && s[0] == '-';
    var body := if s != "" && (s[0] == '-' || s[0] == '+') then s[1..] else s;
    if body == "" || !AllDigits(body) then Parsed(0, true)
    else
      var v: int := if negative then -(Value(body) as int) else Value(body);
      if v > MAX_INT64 then Parsed(MAX_INT64, true)
      else if v < MIN_INT64 then Parsed(MIN_INT64, true)
      else Parsed(v, false)
  }

  /** Printing and reading back a 64-bit integer is the identity. */
  lemma {:induction false} AtoiItoa(i: int)
    requires MIN_INT64 <= i <= MAX_INT64
    ensures Atoi(Itoa(i)) == Parsed(i, false)
  {
    var n := if i < 0 then -i else i;
    ValueOfDigits(n);
    assert IsDigit(Digits(n)[0]);
    if i < 0 {
      assert ("-" + Digits(n))[1..] == Digits(n);
    }
  }

  lemma {:induction false} ItoaInjective(i: int, j: int)
    requires Itoa(i) == Itoa(j)
    ensures i == j
  {
    var m, n := if i < 0 then -i else i, if j < 0 then -j else j;
    ValueOfDigits(m);
    ValueOfDigits(n);
    assert IsDigit(Digits(m)[0]) && IsDigit(Digits(n)[0]);
    if i < 0 && j < 0 {
      assert ("-" + Digits(m))[1..] == Digits(m) && ("-" + Digits(n))[1..] == Digits(n);
    }
  }

  /** The first position of `c`, or the length of `s`. */
  function IndexOf(s: string, c: char): (k: nat)
    ensures k <= |s|
    ensures forall i | 0 <= i < k :: s[i] != c
    ensures k < |s| ==> s[k] == c
  {
    if s == "" || s[0] == c then 0 else 1 + IndexOf(s[1..], c)
  }

  /** `strings.LastIndex` of a one-character string: -1 when it is absent. */
  function LastIndexOf(s: string, c: char): (k: int)
    ensures -1 <= k < |s|
    ensures k >= 0 ==> s[k] == c
    ensures forall i | k < i < |s| :: s[i] != c
  {
    if s == "" then -1 else if s[|s| - 1] == c then |s| - 1 else LastIndexOf(s[..|s| - 1], c)
  }

  lemma {:induction false} LastIndexOfSeparator(a: string, c: char, b: string)
    requires c !in b
    ensures LastIndexOf(a + [c] + b, c) == |a|
  {
    var s := a + [c] + b;
    assert s[|a|] == c;
    assert forall i | |a| < i < |s| :: s[i] == b[i - |a| - 1];
  }

  /** `strings.Split` on a one-character separator. */
  function Split(s: string, c: char): (parts: seq<string>)
    ensures |parts| >= 1
    ensures forall p | p in parts :: c !in p
    decreases |s|
  {
    var k := IndexOf(s, c);
    if k == |s| then [s] else [s[..k]] + Split(s[k + 1..], c)
  }

  lemma {:induction false} IndexOfSeparator(a: string, c: char, b: string)
    requires c !in a
    ensures IndexOf(a + [c] + b, c) == |a|
  {
    var s := a + [c] + b;
    assert s[|a|] == c;
    assert forall i | 0 <= i < |a| :: s[i] == a[i];
  }

  lemma {:induction false} SplitSeparator(a: string, c: char, b: string)
    requires c !in a
    ensures Split(a + [c] + b, c) == [a] + Split(b, c)
  {
    IndexOfSeparator(a, c, b);
    var s := a + [c] + b;
    assert s[..|a|] == a && s[|a| + 1..] == b;
  }

  lemma {:induction false} SplitWhole(a: string, c: char)
    requires c !in a
    ensures Split(a, c) == [a]
  {
    assert forall i | 0 <= i < |a| :: a[i] in a;
  }

  /** Whether `pat` occurs in `s` at position `i`. */
  predicate OccursAt(s: string, pat: string, i: int) {
    0 <= i && i + |pat| <= |s| && s[i..i + |pat|] == pat
  }

  predicate Contains(s: string, pat: string) {
    exists i | 0 <= i <= |s| :: OccursAt(s, pat, i)
  }

  lemma OccursInConcat(a: string, b: string, pat: string, i: nat)
    ensures i + |pat| <= |a| ==> (OccursAt(a + b, pat, i) <==> OccursAt(a, pat, i))
    ensures i >= |a| ==> (OccursAt(a + b, pat, i) <==> OccursAt(b, pat, i - |a|))
  {
    if i + |pat| <= |a| {
      assert (a + b)[i..i + |pat|] == a[i..i + |pat|];
    }
    if |a| <= i && i + |pat| <= |a + b| {
      var j := i - |a|;
      assert (a + b)[i..i + |pat|] == b[j..j + |pat|];
    }
  }

  /** A pattern without the separator lies on one side of it. */
  lemma {:induction false} ContainsAcrossSeparator(a: string, c: char, b: string, pat: string)
    requires c !in pat
    ensures Contains(a + [c] + b, pat) <==> Contains(a, pat) || Contains(b, pat)
  {
    var left := a + [c];
    var s := left + b;
    assert s[|a|] == c;
    if Contains(s, pat) {
      var i :| 0 <= i <= |s| && OccursAt(s, pat, i);
      assert forall j | i <= j < i + |pat| :: s[j] == pat[j - i];
      assert i + |pat| <= |a| || i > |a|;
      OccursInConcat(left, b, pat, i);
      OccursInConcat(a, [c], pat, i);
      assert OccursAt(a, pat, i) || OccursAt(b, pat, i - |left|);
    }
    if Contains(a, pat) {
      var i :| 0 <= i <= |a| && OccursAt(a, pat, i);
      OccursInConcat(a, [c], pat, i);
      OccursInConcat(left, b, pat, i);
    }
    if Contains(b, pat) {
      var j :| 0 <= j <= |b| && OccursAt(b, pat, j);
      OccursInConcat(left, b, pat, |left| + j);
    }
  }
}
