/** Outcomes of operations that can fail. */
module Outcomes {
  datatype Option<+T> = None | Some(value: T)

  datatype Result<+T, +E> = Success(value: T) | Failure(error: E)
}

/**
 Go strings and the few library operations the gateway applies to them. A Go string is a
 sequence of bytes; it is modelled as a Dafny string in which every char is one byte.
 */
module Text {
  import opened Outcomes

  // ---- strings.TrimSpace: white space is the UTF-8 encoding of a Unicode space ----

  predicate Space1(a: char) {
    a == '\t' || a == '\n' || a == '\U{0B}' || a == '\U{0C}' || a == '\r' || a == ' '
  }

  predicate Space2(a: char, b: char) {
    a == '\U{C2}' && (b == '\U{85}' || b == '\U{A0}')
  }

  predicate Space3(a: char, b: char, c: char) {
    || (a == '\U{E1}' && b == '\U{9A}' && c == '\U{80}')
    || (a == '\U{E2}' && b == '\U{80}' &&
        ('\U{80}' <= c <= '\U{8A}' || c == '\U{A8}' || c == '\U{A9}' || c == '\U{AF}'))
    || (a == '\U{E2}' && b == '\U{81}' && c == '\U{9F}')
    || (a == '\U{E3}' && b == '\U{80}' && c == '\U{80}')
  }

  /** The number of bytes of the white-space character at the front of s, 0 when there is none. */
  function SpaceAtFront(s: string): (n: nat)
    ensures n <= |s|
  {
    if |s| >= 1 && Space1(s[0]) then 1
    else if |s| >= 2 && Space2(s[0], s[1]) then 2
    else if |s| >= 3 && Space3(s[0], s[1], s[2]) then 3
    else 0
  }

  function SpaceAtBack(s: string): (n: nat)
    ensures n <= |s|
  {
    var k := |s|;
    if k >= 1 && Space1(s[k - 1]) then 1
    else if k >= 2 && Space2(s[k - 2], s[k - 1]) then 2
    else if k >= 3 && Space3(s[k - 3], s[k - 2], s[k - 1]) then 3
    else 0
  }

  function TrimFront(s: string): string
    decreases |s|
  {
    var n := SpaceAtFront(s);
    if n == 0 then s else TrimFront(s[n..])
  }

  function TrimBack(s: string): string
    decreases |s|
  {
    var n := SpaceAtBack(s);
    if n == 0 then s else TrimBack(s[..|s| - n])
  }

  function TrimSpace(s: string): string {
    TrimBack(TrimFront(s))
  }

  /** strings.TrimRight(s, "/"). */
  function TrimSlashes(s: string): string {
    if s != "" && s[|s| - 1] == '/' then TrimSlashes(s[..|s| - 1]) else s
  }

  /** Nothing but white-space characters. */
  predicate Blank(s: string)
    decreases |s|
  {
    s == "" || (SpaceAtFront(s) > 0 && Blank(s[SpaceAtFront(s)..]))
  }

  /** A white-space character in UTF-8, by its code point. */
  ghost predicate IsSpace(s: string) {
    || s == "\t" || s == "\n" || s == "\U{0B}" || s == "\U{0C}" || s == "\r" || s == " "
    || s == "\U{C2}\U{85}" || s == "\U{C2}\U{A0}"                     // U+0085, U+00A0
    || s == "\U{E1}\U{9A}\U{80}"                                      // U+1680
    || (|s| == 3 && s[..2] == "\U{E2}\U{80}" && '\U{80}' <= s[2] <= '\U{8A}')  // U+2000 to U+200A
    || s == "\U{E2}\U{80}\U{A8}" || s == "\U{E2}\U{80}\U{A9}"         // U+2028, U+2029
    || s == "\U{E2}\U{80}\U{AF}" || s == "\U{E2}\U{81}\U{9F}"         // U+202F, U+205F
    || s == "\U{E3}\U{80}\U{80}"                                      // U+3000
  }

  lemma SpacesAreSpaces(s: string)
    ensures SpaceAtFront(s) > 0 <==> exists n :: 0 < n <= |s| && IsSpace(s[..n])
    ensures SpaceAtFront(s) > 0 ==> IsSpace(s[..SpaceAtFront(s)])
  {
  }

  lemma SpacesAtBack(s: string)
    ensures SpaceAtBack(s) > 0 <==> exists m :: 0 <= m < |s| && IsSpace(s[m..])
    ensures SpaceAtBack(s) > 0 ==> IsSpace(s[|s| - SpaceAtBack(s)..])
  {
    SpaceTaken(s);
    forall m | 0 <= m < |s| && IsSpace(s[m..]) ensures SpaceAtBack(s) > 0 {
      SpaceFound(s[..m], s[m..]);
      assert s == s[..m] + s[m..];
    }
  }

  lemma SpaceTaken(s: string)
    ensures SpaceAtBack(s) > 0 ==> IsSpace(s[|s| - SpaceAtBack(s)..])
  {
  }

  lemma SpaceFound(a: string, c: string)
    requires IsSpace(c)
    ensures SpaceAtBack(a + c) > 0
  {
    var s := a + c;
    assert c == s[|a|..];
    assert |c| == 1 ==> s[|s| - 1] == c[0];
    assert |c| == 2 ==> s[|s| - 2] == c[0] && s[|s| - 1] == c[1];
    assert |c| == 3 ==> s[|s| - 3] == c[0] && s[|s| - 2] == c[1] && s[|s| - 1] == c[2];
    assert |c| == 3 ==> c[..2] == [c[0], c[1]];
  }

  lemma SpaceInFront(c: string, s: string)
    requires SpaceAtBack(c) == |c| > 0
    ensures SpaceAtFront(c + s) == |c| && (c + s)[|c|..] == s
  {
  }

  lemma DropTwice(s: string, n: nat, k: nat)
    requires n <= k <= |s|
    ensures s[n..][k - n..] == s[k..] && s[..k][n..] == s[n..][..k - n]
  {
  }

  lemma BlankStep(s: string, k: nat)
    requires 0 < SpaceAtFront(s) <= k <= |s| && Blank(s[SpaceAtFront(s)..][..k - SpaceAtFront(s)])
    ensures Blank(s[..k])
  {
    FrontOfPrefix(s, k);
    DropTwice(s, SpaceAtFront(s), k);
  }

  lemma {:induction false} TrimFrontTrims(s: string) returns (k: nat)
    ensures k <= |s| && s[k..] == TrimFront(s) && Blank(s[..k]) && SpaceAtFront(TrimFront(s)) == 0
    decreases |s|
  {
    var n := SpaceAtFront(s);
    if n == 0 {
      k := 0;
    } else {
      var j := TrimFrontTrims(s[n..]);
      k := n + j;
      DropTwice(s, n, k);
      BlankStep(s, k);
    }
  }

  /** White space at the front of a text is at the front of every prefix long enough, and of no shorter text otherwise. */
  lemma FrontOfPrefix(s: string, k: nat)
    requires k <= |s|
    ensures SpaceAtFront(s) == 0 ==> SpaceAtFront(s[..k]) == 0
    ensures SpaceAtFront(s) <= k ==> SpaceAtFront(s[..k]) == SpaceAtFront(s)
  {
  }

  lemma {:induction false} TrimBackTrims(s: string) returns (k: nat)
    ensures k <= |s| && s[..k] == TrimBack(s) && Blank(s[k..]) && SpaceAtBack(TrimBack(s)) == 0
    decreases |s|
  {
    var n := SpaceAtBack(s);
    if n == 0 {
      k := |s|;
    } else {
      k := TrimBackTrims(s[..|s| - n]);
      BackStep(s, k);
    }
  }

  lemma BackStep(s: string, k: nat)
    requires 0 < SpaceAtBack(s) && k <= |s| - SpaceAtBack(s) && Blank(s[..|s| - SpaceAtBack(s)][k..])
    ensures s[..|s| - SpaceAtBack(s)][..k] == s[..k] && Blank(s[k..])
  {
    var m := |s| - SpaceAtBack(s);
    BackOfSuffix(s, m);
    BlankWith(s[..m][k..], s[m..]);
    TakeTwice(s, k, m);
  }

  lemma TakeTwice(s: string, k: nat, m: nat)
    requires k <= m <= |s|
    ensures s[..m][..k] == s[..k] && s[k..] == s[..m][k..] + s[m..]
  {
  }

  lemma BackOfSuffix(s: string, m: nat)
    requires SpaceAtBack(s) > 0 && m == |s| - SpaceAtBack(s)
    ensures SpaceAtBack(s[m..]) == |s[m..]|
  {
  }

  lemma {:induction false} BlankWith(a: string, c: string)
    requires Blank(a) && SpaceAtBack(c) == |c| > 0
    ensures Blank(a + c)
    decreases |a|
  {
    if a == "" {
      assert a + c == c;
      SpaceInFront(c, "");
      assert c + "" == c;
    } else {
      var n := SpaceAtFront(a);
      BlankWith(a[n..], c);
      assert (a + c)[n..] == a[n..] + c;
      assert (a + c)[..|a|] == a;
      FrontKept(a, c);
    }
  }

  lemma FrontKept(a: string, c: string)
    requires SpaceAtFront(a) > 0
    ensures SpaceAtFront(a + c) == SpaceAtFront(a)
  {
  }

  /** Trimming takes white space off both ends, all of it, and nothing else. */
  lemma TrimSpaceTrims(s: string) returns (i: nat, j: nat)
    ensures i <= j <= |s| && TrimSpace(s) == s[i..j] && Blank(s[..i]) && Blank(s[j..])
    ensures SpaceAtFront(TrimSpace(s)) == 0 && SpaceAtBack(TrimSpace(s)) == 0
  {
    i := TrimFrontTrims(s);
    var k := TrimBackTrims(s[i..]);
    j := i + k;
    FrontOfPrefix(s[i..], k);
    assert s[i..][..k] == s[i..j] && s[i..][k..] == s[j..];
  }

  /** Trailing slashes go, all of them, and nothing else. */
  lemma {:induction false} TrimSlashesTrims(s: string)
    ensures TrimSlashes(s) <= s && (forall i :: |TrimSlashes(s)| <= i < |s| ==> s[i] == '/')
    ensures TrimSlashes(s) != "" ==> TrimSlashes(s)[|TrimSlashes(s)| - 1] != '/'
  {
    if s != "" && s[|s| - 1] == '/' {
      TrimSlashesTrims(s[..|s| - 1]);
    }
  }

  // ---- byte order, and sort.Strings / slices.Sort ----

  predicate Less(a: string, b: string) {
    b != "" && (a == "" || a[0] < b[0] || (a[0] == b[0] && Less(a[1..], b[1..])))
  }

  /** The order of bytes, lexicographic: at the first difference the smaller byte decides, and a proper prefix comes first. */
  lemma {:induction false} LessIsByteOrder(a: string, b: string)
    ensures Less(a, b) <==>
      exists k :: 0 <= k <= |a| && k < |b| && a[..k] == b[..k] && (k < |a| ==> a[k] < b[k])
  {
    if a == "" {
      assert b != "" ==> a[..0] == b[..0];
    } else if b != "" && a[0] == b[0] {
      LessIsByteOrder(a[1..], b[1..]);
      forall k | 0 <= k <= |a[1..]| && k < |b[1..]|
        ensures a[1..][..k] == b[1..][..k] <==> a[..k + 1] == b[..k + 1]
      {
        assert a[..k + 1] == [a[0]] + a[1..][..k] && b[..k + 1] == [b[0]] + b[1..][..k];
      }
      if k :| 0 <= k <= |a[1..]| && k < |b[1..]| && a[1..][..k] == b[1..][..k] && (k < |a[1..]| ==> a[1..][k] < b[1..][k]) {
        assert a[..k + 1] == b[..k + 1] && (k + 1 < |a| ==> a[k + 1] < b[k + 1]);
      }
      if k :| 0 <= k <= |a| && k < |b| && a[..k] == b[..k] && (k < |a| ==> a[k] < b[k]) {
        assert k > 0;
        assert a[..k - 1 + 1] == b[..k - 1 + 1];
        assert a[1..][..k - 1] == b[1..][..k - 1];
      }
    } else if b != "" {
      assert a[..0] == b[..0];
      forall k | 0 < k <= |a| && k < |b| ensures a[..k] != b[..k] {
        assert a[..k][0] == a[0] && b[..k][0] == b[0];
      }
    }
  }

  lemma {:induction false} LessTotal(a: string, b: string)
    ensures Less(a, b) || a == b || Less(b, a)
  {
    if a != "" && b != "" && a[0] == b[0] {
      LessTotal(a[1..], b[1..]);
      assert a == [a[0]] + a[1..] && b == [b[0]] + b[1..];
    }
  }

  lemma {:induction false} LessAsymmetric(a: string, b: string)
    ensures !(Less(a, b) && Less(b, a))
  {
    if a != "" && b != "" && a[0] == b[0] {
      LessAsymmetric(a[1..], b[1..]);
    }
  }

  lemma {:induction false} LessTransitive(a: string, b: string, c: string)
    requires Less(a, b) && Less(b, c)
    ensures Less(a, c)
  {
    if a != "" && a[0] == b[0] == c[0] {
      LessTransitive(a[1..], b[1..], c[1..]);
    }
  }

  lemma NotLessTransitive(a: string, b: string, c: string)
    requires !Less(b, a) && !Less(c, b)
    ensures !Less(c, a)
  {
    if Less(c, a) {
      LessTotal(a, b);
      LessTotal(b, c);
      if a != b && b != c {
        LessTransitive(a, b, c);
        LessAsymmetric(a, c);
      }
    }
  }

  ghost predicate Sorted(s: seq<string>) {
    forall i, j :: 0 <= i < j < |s| ==> !Less(s[j], s[i])
  }

  lemma SortedHead(s: seq<string>, x: string)
    requires Sorted(s) && x in s
    ensures !Less(x, s[0])
  {
    LessAsymmetric(x, x);
  }

  lemma MultisetTail<T>(s: seq<T>)
    requires s != []
    ensures s[0] in multiset(s) && multiset(s[1..]) == multiset(s) - multiset{s[0]}
  {
    assert s == [s[0]] + s[1..];
  }

  /** Two sorted sequences with the same contents are the same sequence. */
  lemma {:induction false} SortedUnique(a: seq<string>, b: seq<string>)
    requires Sorted(a) && Sorted(b) && multiset(a) == multiset(b)
    ensures a == b
  {
    assert |a| == |multiset(a)| == |multiset(b)| == |b|;
    if a != [] {
      MultisetTail(a);
      MultisetTail(b);
      assert a[0] in b && b[0] in a;
      SortedHead(a, b[0]);
      SortedHead(b, a[0]);
      LessTotal(a[0], b[0]);
      SortedUnique(a[1..], b[1..]);
      assert a == [a[0]] + a[1..] && b == [b[0]] + b[1..];
    }
  }

  lemma SortedCons(x: string, s: seq<string>)
    requires Sorted(s) && forall y :: y in s ==> !Less(y, x)
    ensures Sorted([x] + s)
  {
  }

  lemma InsertFront(x: string, s: seq<string>)
    requires Sorted(s) && s != [] && !Less(s[0], x)
    ensures Sorted([x] + s)
  {
    forall y | y in s ensures !Less(y, x) {
      SortedHead(s, y);
      NotLessTransitive(x, s[0], y);
    }
    SortedCons(x, s);
  }

  lemma InsertLater(x: string, s: seq<string>, t: seq<string>)
    requires Sorted(s) && s != [] && Less(s[0], x) && Sorted(t) && multiset(t) == multiset(s[1..]) + multiset{x}
    ensures Sorted([s[0]] + t)
  {
    forall y | y in t ensures !Less(y, s[0]) {
      assert y in multiset(s[1..]) + multiset{x};
      if y == x { LessAsymmetric(s[0], x); } else { SortedHead(s, y); }
    }
    SortedCons(s[0], t);
  }

  function Insert(x: string, s: seq<string>): (r: seq<string>)
    ensures multiset(r) == multiset(s) + multiset{x}
    ensures Sorted(s) ==> Sorted(r)
  {
    if s == [] then [x]
    else if Less(s[0], x) then
      var t := Insert(x, s[1..]);
      assert s == [s[0]] + s[1..];
      assert Sorted(s) ==> Sorted([s[0]] + t) by { if Sorted(s) { InsertLater(x, s, t); } }
      [s[0]] + t
    else
      assert Sorted(s) ==> Sorted([x] + s) by { if Sorted(s) { InsertFront(x, s); } }
      [x] + s
  }

  /** sort.Strings: the sorted rearrangement of s. */
  function Sort(s: seq<string>): (r: seq<string>)
    ensures Sorted(r) && multiset(r) == multiset(s)
  {
    if s == [] then []
    else
      assert s == [s[0]] + s[1..];
      Insert(s[0], Sort(s[1..]))
  }

  ghost predicate NoDuplicates<T>(s: seq<T>) {
    forall i, j :: 0 <= i < j < |s| ==> s[i] != s[j]
  }

  /** r is the sorted listing of the set s, each element once. */
  ghost predicate ListsSorted(r: seq<string>, s: set<string>) {
    Sorted(r) && multiset(r) == multiset(s)
  }

  lemma DistinctElements(s: seq<string>, elements: set<string>)
    requires NoDuplicates(s) && forall x :: x in s <==> x in elements
    ensures multiset(s) == multiset(elements)
  {
    CountsAtMostOnce(s);
    forall x ensures multiset(s)[x] == multiset(elements)[x] {
      assert x in multiset(s) <==> x in s;
    }
  }

  lemma NoDuplicatesAppend<T>(s: seq<T>, x: T)
    ensures NoDuplicates(s + [x]) <==> NoDuplicates(s) && x !in s
  {
    var t := s + [x];
    assert forall i :: 0 <= i < |s| ==> t[i] == s[i];
    assert t[|s|] == x;
    if NoDuplicates(t) {
      forall i, j | 0 <= i < j < |s| ensures s[i] != s[j] {
        assert t[i] != t[j];
      }
    }
  }

  lemma {:induction false} CountsAtMostOnce<T>(s: seq<T>)
    ensures NoDuplicates(s) <==> forall x :: multiset(s)[x] <= 1
  {
    if s != [] {
      var init, last := s[..|s| - 1], s[|s| - 1];
      assert s == init + [last];
      CountsAtMostOnce(init);
      NoDuplicatesAppend(init, last);
      assert multiset(s) == multiset(init)[last := multiset(init)[last] + 1];
      if last in init {
        assert multiset(s)[last] >= 2;
      } else {
        assert multiset(init)[last] == 0;
      }
      if forall x :: multiset(s)[x] <= 1 {
        forall x ensures multiset(init)[x] <= 1 {
          assert multiset(s)[x] <= 1;
        }
      }
    }
  }

  lemma MultisetInit<T>(a: seq<T>)
    requires a != []
    ensures multiset(a) == multiset(a[..|a| - 1]) + multiset{a[|a| - 1]}
  {
    assert a == a[..|a| - 1] + [a[|a| - 1]];
  }

  lemma MultisetWithout<T>(b: seq<T>, i: nat)
    requires i < |b|
    ensures multiset(b) == multiset(b[..i] + b[i + 1..]) + multiset{b[i]}
  {
    assert b == b[..i] + ([b[i]] + b[i + 1..]);
  }

  /** The last element of a sequence can be taken out of any permutation of it. */
  lemma LastElsewhere<T>(a: seq<T>, b: seq<T>) returns (i: nat)
    requires multiset(a) == multiset(b) && a != []
    ensures i < |b| && b[i] == a[|a| - 1]
    ensures multiset(a[..|a| - 1]) == multiset(b[..i] + b[i + 1..])
  {
    var last := a[|a| - 1];
    MultisetInit(a);
    assert last in multiset(b);
    i :| i < |b| && b[i] == last;
    MultisetWithout(b, i);
    assert multiset(a[..|a| - 1]) == multiset(a) - multiset{last};
  }

  /** Sorting keeps the elements, and keeps them distinct. */
  lemma SortKeepsElements(s: seq<string>)
    ensures |Sort(s)| == |s| && forall x :: x in Sort(s) <==> x in s
    ensures NoDuplicates(s) ==> NoDuplicates(Sort(s))
  {
    assert |Sort(s)| == |multiset(Sort(s))| == |multiset(s)|;
    forall x ensures x in Sort(s) <==> x in s {
      assert x in multiset(Sort(s)) <==> x in multiset(s);
    }
    CountsAtMostOnce(s);
    CountsAtMostOnce(Sort(s));
  }

  // ---- fmt's %d, and strings.Join ----

  function Digit(d: nat): char
    requires d < 10
  {
    (d + '0' as int) as char
  }

  function Decimal(n: nat): string {
    if n < 10 then [Digit(n)] else Decimal(n / 10) + [Digit(n % 10)]
  }

  ghost function DecimalValue(s: string): int {
    if s == "" then 0 else DecimalValue(s[..|s| - 1]) * 10 + (s[|s| - 1] as int - '0' as int)
  }

  lemma {:induction false} DecimalReadsBack(n: nat)
    ensures DecimalValue(Decimal(n)) == n
    ensures Decimal(n) != "" && forall c :: c in Decimal(n) ==> '0' <= c <= '9'
  {
    if n < 10 {
      assert Decimal(n)[..0] == "";
    } else {
      DecimalReadsBack(n / 10);
      assert Decimal(n)[..|Decimal(n)| - 1] == Decimal(n / 10);
    }
  }

  // ---- strconv.Itoa and strconv.Atoi, on 64 bits ----

  const MAX_INT64 := 0x7FFF_FFFF_FFFF_FFFF
  const MAX_UINT64 := 0xFFFF_FFFF_FFFF_FFFF

  type Int64 = i: int | -MAX_INT64 - 1 <= i <= MAX_INT64

  function Itoa(i: int): string {
    if i < 0 then "-" + Decimal(-i) else Decimal(i)
  }

  /** The value of n followed by these digits; None at the first other character, the largest value once it is passed. */
  function Digits(s: string, n: nat): (r: Option<nat>)
    ensures r.Some? && n <= MAX_UINT64 ==> r.value <= MAX_UINT64
  {
    if s == "" then Some(n)
    else if !('0' <= s[0] <= '9') then None
    else
      var m := n * 10 + (s[0] as int - '0' as int);
      if m > MAX_UINT64 then Some(MAX_UINT64) else Digits(s[1..], m)
  }

  /** The number a caller gets that ignores the error: 0 when there is none, the nearest when it is too large. */
  function Atoi(s: string): Int64 {
    var negative := s != "" && s[0] == '-';
    var digits := if s != "" && (s[0] == '-' || s[0] == '+') then s[1..] else s;
    if digits == "" then 0
    else
      match Digits(digits, 0)
      case None => 0
      case Some(n) => if negative then -(if n > MAX_INT64 + 1 then MAX_INT64 + 1 else n) else if n > MAX_INT64 then MAX_INT64 else n
  }

  lemma {:induction false} DigitsReadDecimal(n: nat, rest: string)
    requires n <= MAX_UINT64
    ensures Digits(Decimal(n) + rest, 0) == Digits(rest, n)
  {
    var d := [Digit(n % 10)];
    if n < 10 {
      assert (Decimal(n) + rest)[1..] == rest;
    } else {
      DigitsReadDecimal(n / 10, d + rest);
      assert Decimal(n) + rest == Decimal(n / 10) + (d + rest);
      assert (d + rest)[1..] == rest;
    }
  }

  lemma AtoiReadsBack(i: Int64)
    ensures Atoi(Itoa(i)) == i
  {
    var n: nat := if i < 0 then -(i as int) else i as int;
    DecimalReadsBack(n);
    DigitsReadDecimal(n, "");
    assert Decimal(n) + "" == Decimal(n);
    assert Decimal(n)[0] in Decimal(n);
    if i < 0 {
      assert Itoa(i)[1..] == Decimal(n);
    }
  }

  ghost predicate AllDigits(s: string) {
    forall c :: c in s ==> '0' <= c <= '9'
  }

  lemma DigitsInParts(a: string, b: string)
    ensures AllDigits(a + b) <==> AllDigits(a) && AllDigits(b)
  {
    assert forall c :: c in a + b <==> c in a || c in b;
  }

  lemma {:induction false} ValueGrows(p: string, s: string)
    requires AllDigits(p) && AllDigits(s)
    ensures 0 <= DecimalValue(p) <= DecimalValue(p + s)
  {
    if s != "" {
      var init := s[..|s| - 1];
      assert s == init + [s[|s| - 1]] && s[|s| - 1] in s;
      DigitsInParts(init, [s[|s| - 1]]);
      ValueGrows(p, init);
      assert (p + s)[..|p + s| - 1] == p + init;
    } else if p != "" {
      assert p + s == p && p == p[..|p| - 1] + [p[|p| - 1]] && p[|p| - 1] in p;
      DigitsInParts(p[..|p| - 1], [p[|p| - 1]]);
      ValueGrows(p[..|p| - 1], "");
    }
  }

  lemma OneDigit(p: string, c: char, rest: string)
    requires '0' <= c <= '9' && 0 <= DecimalValue(p) && DecimalValue(p + [c]) <= MAX_UINT64
    ensures DecimalValue(p + [c]) >= 0 && Digits([c] + rest, DecimalValue(p)) == Digits(rest, DecimalValue(p + [c]))
  {
    assert (p + [c])[..|p + [c]| - 1] == p && ([c] + rest)[1..] == rest;
  }

  /** Digits are read as the decimal number they write, and up to the first other character, where reading fails. */
  lemma {:induction false} ReadsNumber(p: string, s: string, rest: string)
    requires AllDigits(p) && AllDigits(s) && DecimalValue(p + s) <= MAX_UINT64
    ensures DecimalValue(p) >= 0 && DecimalValue(p + s) >= 0
    ensures Digits(s + rest, DecimalValue(p)) == Digits(rest, DecimalValue(p + s))
    decreases |s|
  {
    ValueGrows(p, s);
    if s == "" {
      assert p + s == p && s + rest == rest;
    } else {
      var c, tail := s[0], s[1..];
      assert c in s && s == [c] + tail;
      DigitsInParts([c], tail);
      DigitsInParts(p, [c]);
      assert (p + [c]) + tail == p + s;
      ValueGrows(p + [c], tail);
      OneDigit(p, c, tail + rest);
      ReadsNumber(p + [c], tail, rest);
      assert [c] + (tail + rest) == s + rest;
    }
  }

  lemma NumeralDigits(s: string, rest: string)
    requires AllDigits(s) && DecimalValue(s) <= MAX_UINT64
    ensures DecimalValue(s) >= 0 && Digits(s, 0) == Some(DecimalValue(s))
    ensures rest != "" && !('0' <= rest[0] <= '9') ==> Digits(s + rest, 0) == None
  {
    assert "" + s == s && s + "" == s;
    ReadsNumber("", s, "");
    ReadsNumber("", s, rest);
  }

  /** A decimal numeral that fits is read as its value, with or without a sign. */
  lemma AtoiOfNumeral(s: string)
    requires s != "" && AllDigits(s) && DecimalValue(s) <= MAX_INT64
    ensures Atoi(s) == Atoi("+" + s) == DecimalValue(s) && Atoi("-" + s) == -DecimalValue(s)
  {
    assert s[0] in s;
    NumeralDigits(s, "");
    assert ("+" + s)[1..] == s && ("-" + s)[1..] == s;
  }

  /** What is no numeral is read as 0. */
  lemma AtoiOfOther(s: string, rest: string)
    requires AllDigits(s) && DecimalValue(s) <= MAX_UINT64
    requires rest != "" && !('0' <= rest[0] <= '9') && (s == "" ==> rest[0] != '+' && rest[0] != '-')
    ensures Atoi(s + rest) == Atoi("-" + s + rest) == Atoi("") == Atoi("-") == 0
  {
    NumeralDigits(s, rest);
    assert s != "" ==> s[0] in s && (s + rest)[0] == s[0];
    assert s == "" ==> s + rest == rest;
    assert ("-" + s + rest)[1..] == s + rest;
  }

  function Join(parts: seq<string>, sep: char): string {
    if parts == [] then ""
    else if |parts| == 1 then parts[0]
    else parts[0] + [sep] + Join(parts[1..], sep)
  }

  ghost function IndexOf(s: string, c: char): nat {
    if s == "" || s[0] == c then 0 else 1 + IndexOf(s[1..], c)
  }

  lemma {:induction false} IndexOfFirst(a: string, sep: char, x: string)
    requires sep !in a
    ensures IndexOf(a + [sep] + x, sep) == |a|
  {
    if a != "" {
      assert (a + [sep] + x)[1..] == a[1..] + [sep] + x;
      IndexOfFirst(a[1..], sep, x);
    }
  }

  /** Splitting at the first separator is unambiguous when the left parts do not contain it. */
  lemma SplitUnique(a: string, x: string, b: string, y: string, sep: char)
    requires sep !in a && sep !in b && a + [sep] + x == b + [sep] + y
    ensures a == b && x == y
  {
    var s := a + [sep] + x;
    IndexOfFirst(a, sep, x);
    IndexOfFirst(b, sep, y);
    assert a == s[..|a|] && b == s[..|b|];
    assert x == s[|a| + 1..] && y == s[|b| + 1..];
  }

  lemma {:induction false} SeparatorInJoin(p: seq<string>, sep: char)
    requires p != [] && forall s :: s in p ==> sep !in s
    ensures sep in Join(p, sep) <==> |p| > 1
  {
    if |p| > 1 {
      assert Join(p, sep)[|p[0]|] == sep;
    }
  }

  lemma {:induction false} JoinInjective(p: seq<string>, q: seq<string>, sep: char)
    requires p != [] && q != []
    requires forall s :: s in p || s in q ==> sep !in s
    requires Join(p, sep) == Join(q, sep)
    ensures p == q
  {
    SeparatorInJoin(p, sep);
    SeparatorInJoin(q, sep);
    if |p| > 1 {
      SplitUnique(p[0], Join(p[1..], sep), q[0], Join(q[1..], sep), sep);
      JoinInjective(p[1..], q[1..], sep);
      assert p == [p[0]] + p[1..] && q == [q[0]] + q[1..];
    }
  }

  predicate HasPrefix(s: string, prefix: string) {
    prefix <= s
  }
}
