/** Building blocks shared by the whole model: optional values, the outcome
    of a remote call, the JavaScript array operations the program leans on
    (filter, map, find), the wall-clock model and JavaScript whitespace. */
module Common {

  datatype Option<+T> = None | Some(value: T) {
    function GetOr(default: T): T {
      match this
      case Some(v) => v
      case None => default
    }
  }

  /** What a remote call (fetch, axios, a database round trip) resolved to.
      The model never performs the call: the outcome is a parameter. */
  datatype Remote<+T> = Ok(value: T) | Fail

  // ---------------------------------------------------------------------
  // Array.prototype.filter / map / find
  // ---------------------------------------------------------------------

  /** The elements of `s` that satisfy `p`, in their original order. */
  function Filter<T>(s: seq<T>, p: T -> bool): (r: seq<T>)
    ensures |r| <= |s|
    ensures forall x :: x in r ==> x in s && p(x)
    ensures forall x :: x in s && p(x) ==> x in r
  {
    if s == [] then [] else (if p(s[0]) then [s[0]] else []) + Filter(s[1..], p)
  }

  /** Filtering distributes over concatenation: this is what "in the original
      order" means, since it pins the result down element by element. */
  lemma {:induction false} FilterConcat<T>(a: seq<T>, b: seq<T>, p: T -> bool)
    ensures Filter(a + b, p) == Filter(a, p) + Filter(b, p)
  {
    if a == [] {
      assert a + b == b;
    } else {
      assert (a + b)[0] == a[0];
      assert (a + b)[1..] == a[1..] + b;
      FilterConcat(a[1..], b, p);
    }
  }

  /** Filtering keeps everything when every element qualifies. */
  lemma {:induction false} FilterKeepsAll<T>(s: seq<T>, p: T -> bool)
    requires forall i :: 0 <= i < |s| ==> p(s[i])
    ensures Filter(s, p) == s
  {
    if s != [] {
      FilterKeepsAll(s[1..], p);
    }
  }

  /** Two filter chains that keep the same elements give the same sequence. */
  lemma {:induction false} FilterFilterSame<T>(s: seq<T>, p1: T -> bool, q1: T -> bool, p2: T -> bool, q2: T -> bool)
    requires forall x :: x in s ==> (p1(x) && q1(x) <==> p2(x) && q2(x))
    ensures Filter(Filter(s, p1), q1) == Filter(Filter(s, p2), q2)
  {
    if s != [] {
      FilterFilterSame(s[1..], p1, q1, p2, q2);
      var x := s[0];
      assert Filter(s, p1) == (if p1(x) then [x] else []) + Filter(s[1..], p1);
      assert Filter(s, p2) == (if p2(x) then [x] else []) + Filter(s[1..], p2);
      FilterConcat(if p1(x) then [x] else [], Filter(s[1..], p1), q1);
      FilterConcat(if p2(x) then [x] else [], Filter(s[1..], p2), q2);
    }
  }

  /** Filtering by a predicate and by its negation splits the sequence: the two
      parts together hold every element exactly as often as the whole. */
  lemma {:induction false} FilterSplit<T>(s: seq<T>, p: T -> bool, q: T -> bool)
    requires forall x :: x in s ==> (q(x) <==> !p(x))
    ensures multiset(Filter(s, p)) + multiset(Filter(s, q)) == multiset(s)
    ensures |Filter(s, p)| + |Filter(s, q)| == |s|
  {
    if s != [] {
      FilterSplit(s[1..], p, q);
      assert s == [s[0]] + s[1..];
    }
  }

  /** Splitting three ways: when every element satisfies exactly one of three
      predicates, the three filtered lengths add up to the whole length. */
  lemma {:induction false} FilterSplit3<T>(s: seq<T>, p: T -> bool, q: T -> bool, r: T -> bool)
    requires forall x :: x in s ==> (p(x) && !q(x) && !r(x)) || (!p(x) && q(x) && !r(x)) || (!p(x) && !q(x) && r(x))
    ensures |Filter(s, p)| + |Filter(s, q)| + |Filter(s, r)| == |s|
  {
    if s != [] {
      FilterSplit3(s[1..], p, q, r);
    }
  }

  /** `f` applied to every element, in order. */
  function MapSeq<T, U>(s: seq<T>, f: T -> U): (r: seq<U>)
    ensures |r| == |s|
    ensures forall i :: 0 <= i < |s| ==> r[i] == f(s[i])
  {
    if s == [] then [] else [f(s[0])] + MapSeq(s[1..], f)
  }

  /** Array.prototype.findIndex: the first position whose element satisfies `p`. */
  function FindIndex<T>(s: seq<T>, p: T -> bool): (r: Option<nat>)
    ensures r.Some? ==> r.value < |s| && p(s[r.value])
    ensures r.Some? ==> forall j :: 0 <= j < r.value ==> !p(s[j])
    ensures r.None? <==> forall j :: 0 <= j < |s| ==> !p(s[j])
  {
    if s == [] then None
    else if p(s[0]) then Some(0)
    else match FindIndex(s[1..], p)
      case None => None
      case Some(k) => Some(k + 1)
  }

  // ---------------------------------------------------------------------
  // Time: timestamps are milliseconds in the user's local time
  // ---------------------------------------------------------------------

  const DAY: int := 86400000

  /** The calendar day a timestamp falls on (floor division). */
  function DayOf(t: int): int {
    t / DAY
  }

  /** `new Date(t)` after `setHours(0, 0, 0, 0)`: midnight of t's day. */
  function StartOfDay(t: int): (r: int)
    ensures r <= t < r + DAY
    ensures DayOf(r) == DayOf(t)
  {
    DayOf(t) * DAY
  }

  /** Comparing against midnight is comparing calendar days. */
  lemma BeforeStartOfDay(t: int, now: int)
    ensures t < StartOfDay(now) <==> DayOf(t) < DayOf(now)
    ensures t >= StartOfDay(now) <==> DayOf(t) >= DayOf(now)
  {
    var s := StartOfDay(now);
    if DayOf(t) < DayOf(now) {
      assert t < (DayOf(t) + 1) * DAY;
      assert (DayOf(t) + 1) * DAY <= DayOf(now) * DAY;
    }
    if t < s {
      assert t / DAY <= (s - 1) / DAY;
    }
  }

  /** A timestamp on the calendar day after now's lies from midnight of today
      on and less than two days after now. */
  lemma NextDayBounds(d: int, now: int)
    requires DayOf(d) == DayOf(now) + 1
    ensures StartOfDay(now) <= d < now + 2 * DAY
  {
    assert StartOfDay(d) == StartOfDay(now) + DAY;
  }

  // ---------------------------------------------------------------------
  // JavaScript whitespace (the set used by String.prototype.trim and \s)
  // ---------------------------------------------------------------------

  predicate IsSpace(c: char) {
    var n := c as int;
    || 0x09 <= n <= 0x0D || n == 0x20 || n == 0xA0 || n == 0x1680
    || 0x2000 <= n <= 0x200A || n == 0x2028 || n == 0x2029 || n == 0x202F
    || n == 0x205F || n == 0x3000 || n == 0xFEFF
  }

  predicate IsBlank(s: string) {
    forall i :: 0 <= i < |s| ==> IsSpace(s[i])
  }

  function TrimStart(s: string): (r: string)
    ensures |r| <= |s| && r == s[|s| - |r|..]
    ensures r != [] ==> !IsSpace(r[0])
    ensures forall i :: 0 <= i < |s| - |r| ==> IsSpace(s[i])
  {
    if s != [] && IsSpace(s[0]) then TrimStart(s[1..]) else s
  }

  function TrimEnd(s: string): (r: string)
    ensures |r| <= |s| && r == s[..|r|]
    ensures r != [] ==> !IsSpace(r[|r| - 1])
    ensures forall i :: |r| <= i < |s| ==> IsSpace(s[i])
  {
    if s != [] && IsSpace(s[|s| - 1]) then TrimEnd(s[..|s| - 1]) else s
  }

  /** String.prototype.trim. */
  function Trim(s: string): string {
    TrimEnd(TrimStart(s))
  }

  /** `!s.trim()` holds exactly for strings made only of whitespace. */
  lemma TrimEmptyIffBlank(s: string)
    ensures Trim(s) == "" <==> IsBlank(s)
  {
    var a := TrimStart(s);
    var k := |s| - |a|;
    if Trim(s) == "" {
      assert a == [];
    } else {
      var r := Trim(s);
      assert r == a[..|r|];
      assert !IsSpace(a[|r| - 1]);
      assert a[|r| - 1] == s[k + |r| - 1];
    }
  }
}
