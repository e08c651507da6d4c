/** Segment file names: 20 decimal digits, so that sorting names sorts base offsets. */
module SegmentNames {
  import opened Bytes

  const NAME_DIGITS: nat := 20

  function Pow10(k: nat): (p: nat)
    ensures p > 0
  {
    if k == 0 then 1 else 10 * Pow10(k - 1)
  }

  function Digit(d: nat): char
    requires d < 10
  {
    (48 + d) as char
  }

  predicate IsDigit(c: char) {
    '0' <= c <= '9'
  }

  predicate Numeric(s: string) {
    forall i :: 0 <= i < |s| ==> IsDigit(s[i])
  }

  /** `k` digits of `n`, padded with zeros on the left. */
  function Digits(k: nat, n: nat): (s: string)
    ensures |s| == k && Numeric(s)
  {
    if k == 0 then [] else Digits(k - 1, n / 10) + [Digit(n % 10)]
  }

  function Name(base: nat): string {
    Digits(NAME_DIGITS, base)
  }

  function Value(s: string): nat
    requires Numeric(s)
  {
    if s == [] then 0 else Value(s[..|s| - 1]) * 10 + (s[|s| - 1] as int - 48)
  }

  lemma TwentyDigits()
    ensures U64 < Pow10(NAME_DIGITS)
  {
    assert Pow10(4) == 10000;
    assert Pow10(8) == 10000 * Pow10(4) by { assert Pow10(6) == 100 * Pow10(4); }
    assert Pow10(12) == 10000 * Pow10(8) by { assert Pow10(10) == 100 * Pow10(8); }
    assert Pow10(16) == 10000 * Pow10(12) by { assert Pow10(14) == 100 * Pow10(12); }
    assert Pow10(20) == 10000 * Pow10(16) by { assert Pow10(18) == 100 * Pow10(16); }
  }

  lemma {:induction false} ValueOfDigits(k: nat, n: nat)
    requires n < Pow10(k)
    ensures Value(Digits(k, n)) == n
  {
    if k > 0 {
      ValueOfDigits(k - 1, n / 10);
      assert Digits(k, n)[..k - 1] == Digits(k - 1, n / 10);
    }
  }

  /** Reading a segment's name gives back its base offset. */
  lemma ValueOfName(base: nat)
    requires base <= U64
    ensures Value(Name(base)) == base
  {
    TwentyDigits();
    ValueOfDigits(NAME_DIGITS, base);
  }

  /** The order in which names sort. */
  predicate Less(a: string, b: string) {
    b != [] && (a == [] || a[0] < b[0] || (a[0] == b[0] && Less(a[1..], b[1..])))
  }

  lemma {:induction false} LessLast(a: string, b: string, x: char, y: char)
    requires |a| == |b|
    ensures Less(a + [x], b + [y]) <==> Less(a, b) || (a == b && x < y)
  {
    if a == [] {
      assert a + [x] == [x] && b + [y] == [y];
      assert !Less([x][1..], [y][1..]);
    } else {
      assert (a + [x])[1..] == a[1..] + [x] && (b + [y])[1..] == b[1..] + [y];
      LessLast(a[1..], b[1..], x, y);
      assert a == b <==> a[0] == b[0] && a[1..] == b[1..] by {
        assert a == [a[0]] + a[1..] && b == [b[0]] + b[1..];
      }
    }
  }

  lemma {:induction false} LessIsNumeric(k: nat, m: nat, n: nat)
    requires m < Pow10(k) && n < Pow10(k)
    ensures Less(Digits(k, m), Digits(k, n)) <==> m < n
    ensures Digits(k, m) == Digits(k, n) <==> m == n
  {
    ValueOfDigits(k, m);
    ValueOfDigits(k, n);
    if k > 0 {
      LessIsNumeric(k - 1, m / 10, n / 10);
      LessLast(Digits(k - 1, m / 10), Digits(k - 1, n / 10), Digit(m % 10), Digit(n % 10));
    }
  }

  lemma NameOrder(m: nat, n: nat)
    requires m <= U64 && n <= U64
    ensures Less(Name(m), Name(n)) <==> m < n
    ensures Name(m) == Name(n) <==> m == n
  {
    TwentyDigits();
    LessIsNumeric(NAME_DIGITS, m, n);
  }

  // ------------------------------------------------------- sorting a listing

  function Insert(x: string, s: seq<string>): seq<string> {
    if s == [] || !Less(s[0], x) then [x] + s else [s[0]] + Insert(x, s[1..])
  }

  function Sort(s: seq<string>): (r: seq<string>)
  {
    if s == [] then [] else Insert(s[0], Sort(s[1..]))
  }

  function Names(bases: seq<nat>): (s: seq<string>)
    ensures |s| == |bases| && forall i :: 0 <= i < |bases| ==> s[i] == Name(bases[i])
  {
    if bases == [] then [] else [Name(bases[0])] + Names(bases[1..])
  }

  predicate Small(bases: seq<nat>) {
    forall i :: 0 <= i < |bases| ==> bases[i] <= U64
  }

  predicate Increasing(bases: seq<nat>) {
    forall i, j :: 0 <= i < j < |bases| ==> bases[i] < bases[j]
  }

  predicate Distinct(bases: seq<nat>) {
    forall i, j :: 0 <= i < j < |bases| ==> bases[i] != bases[j]
  }

  lemma PutFirst(x: nat, bases: seq<nat>)
    requires Increasing(bases) && (bases == [] || x < bases[0])
    ensures Increasing([x] + bases)
    ensures forall y :: y in [x] + bases <==> y == x || y in bases
    ensures Names([x] + bases) == [Name(x)] + Names(bases)
  {
    hide Name;
    assert ([x] + bases)[1..] == bases;
  }

  lemma HeadTail(bases: seq<nat>)
    requires Increasing(bases) && bases != []
    ensures Increasing(bases[1..]) && forall y :: y in bases[1..] ==> bases[0] < y
    ensures forall y :: y in bases <==> y == bases[0] || y in bases[1..]
    ensures Names(bases) == [Name(bases[0])] + Names(bases[1..])
  {
    hide Name;
  }

  lemma InsertStep(x: string, head: string, rest: seq<string>)
    ensures Insert(x, [head] + rest)
         == if Less(head, x) then [head] + Insert(x, rest) else [x] + ([head] + rest)
  {
    hide Less;
    assert ([head] + rest)[1..] == rest;
  }

  /** Putting one more base into an increasing list, by the order of the names. */
  lemma {:induction false} InsertName(x: nat, bases: seq<nat>) returns (r: seq<nat>)
    requires x <= U64 && Small(bases) && Increasing(bases) && x !in bases
    ensures Insert(Name(x), Names(bases)) == Names(r)
    ensures Increasing(r) && forall y :: y in r <==> y == x || y in bases
  {
    if bases == [] {
      r := [x];
    } else {
      hide Name, Less, Insert, Names, Increasing;
      HeadTail(bases);
      NameOrder(bases[0], x);
      InsertStep(Name(x), Name(bases[0]), Names(bases[1..]));
      if x < bases[0] {
        r := [x] + bases;
        PutFirst(x, bases);
      } else {
        var rest := InsertName(x, bases[1..]);
        r := [bases[0]] + rest;
        assert rest != [] ==> rest[0] in rest;
        PutFirst(bases[0], rest);
      }
    }
  }

  lemma {:induction false} SortNames(bases: seq<nat>) returns (r: seq<nat>)
    requires Small(bases) && Distinct(bases)
    ensures Sort(Names(bases)) == Names(r)
    ensures Increasing(r) && forall y :: y in r <==> y in bases
  {
    hide Name, Insert, Increasing;
    if bases == [] {
      r := [];
      assert Increasing(r) by { Trivially(); }
    } else {
      var rest := SortNames(bases[1..]);
      assert Names(bases)[1..] == Names(bases[1..]);
      assert forall y :: y in bases <==> y == bases[0] || y in bases[1..];
      assert Small(rest) by { AllSmall(bases, rest); }
      r := InsertName(bases[0], rest);
    }
  }

  lemma Trivially()
    ensures Increasing([])
  {
  }

  lemma AllSmall(bases: seq<nat>, part: seq<nat>)
    requires Small(bases) && forall y :: y in part ==> y in bases
    ensures Small(part)
  {
    forall i | 0 <= i < |part| ensures part[i] <= U64 { assert part[i] in part; }
  }

  lemma Inhabited(a: seq<nat>)
    ensures a != [] ==> a[0] in a
  {
  }

  lemma {:induction false} IncreasingUnique(a: seq<nat>, b: seq<nat>)
    requires Increasing(a) && Increasing(b) && forall y :: y in a <==> y in b
    ensures a == b
  {
    Inhabited(a);
    Inhabited(b);
    if a != [] && b != [] {
      hide Increasing, Names, Name;
      HeadTail(a);
      HeadTail(b);
      assert a[0] == b[0];
      IncreasingUnique(a[1..], b[1..]);
    }
  }

  /** A directory lists every segment once, in no particular order. */
  ghost predicate Lists(listing: seq<nat>, bases: seq<nat>) {
    Distinct(listing) && forall y :: y in listing <==> y in bases
  }

  /** Whatever the order of the listing, sorting the names orders the segments by base. */
  lemma SortedListing(bases: seq<nat>, listing: seq<nat>)
    requires Small(bases) && Increasing(bases) && Lists(listing, bases)
    ensures Sort(Names(listing)) == Names(bases)
  {
    hide Name, Sort, Names;
    AllSmall(bases, listing);
    var r := SortNames(listing);
    IncreasingUnique(r, bases);
  }
}
