/** Character and string helpers the clients rely on: ASCII lower-casing
    (String.ToLower on the characters a URL is made of), decimal rendering of
    integers (Int32/Int64.ToString) and comma joining (String.Join), each with
    the inverse that shows nothing is lost. */
module Text {
  import opened Common

  predicate IsUpper(c: char) { 'A' <= c <= 'Z' }

  predicate IsAsciiLetter(c: char) { 'a' <= c <= 'z' || 'A' <= c <= 'Z' }

  predicate IsDigit(c: char) { '0' <= c <= '9' }

  predicate AllDigits(s: string) { forall i :: 0 <= i < |s| ==> IsDigit(s[i]) }

  function LowerChar(c: char): (d: char)
    ensures !IsUpper(d)
    ensures IsUpper(c) ==> d as int == c as int + 32
    ensures !IsUpper(c) ==> d == c
  {
    if IsUpper(c) then (c as int + 32) as char else c
  }

  /** Lower-casing: no upper-case letter is left, every other character stays
      where it was, and an upper-case letter becomes its lower-case partner. */
  function Lower(s: string): (r: string)
    ensures |r| == |s|
    ensures forall i :: 0 <= i < |r| ==> !IsUpper(r[i])
    ensures forall i :: 0 <= i < |s| && !IsUpper(s[i]) ==> r[i] == s[i]
    ensures forall i :: 0 <= i < |s| && IsUpper(s[i]) ==> r[i] as int == s[i] as int + 32
  {
    seq(|s|, i requires 0 <= i < |s| => LowerChar(s[i]))
  }

  /** A string without upper-case letters is its own lower-case form. */
  lemma LowerOfLower(s: string)
    requires forall i :: 0 <= i < |s| ==> !IsUpper(s[i])
    ensures Lower(s) == s
  {
  }

  /** Lower-casing twice is lower-casing once. */
  lemma LowerIdempotent(s: string)
    ensures Lower(Lower(s)) == Lower(s)
  {
    LowerOfLower(Lower(s));
  }

  /** Lower-casing distributes over concatenation and slicing. */
  lemma LowerSlice(s: string, i: int, j: int)
    requires 0 <= i <= j <= |s|
    ensures Lower(s)[i..j] == Lower(s[i..j])
  {
  }

  // ---------------------------------------------------------------- decimal

  function DigitChar(d: int): (c: char)
    requires 0 <= d < 10
    ensures IsDigit(c) && c as int - 48 == d
  {
    (48 + d) as char
  }

  /** The decimal digits of `n`, most significant first, without leading zeros. */
  function NatToString(n: nat): (s: string)
    ensures 1 <= |s|
    ensures AllDigits(s)
    ensures |s| > 1 ==> s[0] != '0'
    decreases n
  {
    if n < 10 then [DigitChar(n)] else NatToString(n / 10) + [DigitChar(n % 10)]
  }

  /** Decimal rendering of a signed integer, as Int32/Int64.ToString with the
      invariant culture: an optional '-' followed by the digits. */
  function IntToString(n: int): (s: string)
    ensures 1 <= |s|
    ensures forall i :: 0 <= i < |s| ==> IsDigit(s[i]) || (i == 0 && s[i] == '-')
  {
    if n < 0 then "-" + NatToString(-n) else NatToString(n)
  }

  /** The value of a string of decimal digits. */
  function DigitsValue(s: string): nat
    requires AllDigits(s)
    decreases |s|
  {
    if |s| == 0 then 0 else DigitsValue(s[..|s| - 1]) * 10 + (s[|s| - 1] as int - 48)
  }

  /** Reads back an optional '-' followed by at least one digit. */
  function ParseInt(s: string): (r: Option<int>)
    ensures r.Some? ==> |s| >= 1
  {
    if |s| > 1 && s[0] == '-' && AllDigits(s[1..]) then Some(0 - DigitsValue(s[1..]) as int)
    else if |s| > 0 && AllDigits(s) then Some(DigitsValue(s))
    else None
  }

  lemma {:induction false} NatToStringValue(n: nat)
    ensures DigitsValue(NatToString(n)) == n
    decreases n
  {
    var s := NatToString(n);
    if n >= 10 {
      NatToStringValue(n / 10);
      assert s[..|s| - 1] == NatToString(n / 10);
    }
  }

  /** Decimal rendering loses nothing: parsing gives the number back. */
  lemma IntToStringRoundTrip(n: int)
    ensures ParseInt(IntToString(n)) == Some(n)
  {
    if n < 0 {
      NatToStringValue(-n);
      assert IntToString(n)[1..] == NatToString(-n);
    } else {
      NatToStringValue(n);
    }
  }

  // ---------------------------------------------------------- join and split

  /** String.Join(sep, parts): the parts with `sep` between neighbours. */
  function Join(parts: seq<string>, sep: char): string
  {
    if |parts| == 0 then ""
    else if |parts| == 1 then parts[0]
    else parts[0] + [sep] + Join(parts[1..], sep)
  }

  /** String.Split(sep): the maximal `sep`-free pieces, in order (an input
      without `sep` is one piece, as in .NET). */
  function Split(s: string, sep: char): (parts: seq<string>)
    ensures 1 <= |parts|
    ensures forall i :: 0 <= i < |parts| ==> sep !in parts[i]
    decreases |s|
  {
    var k := IndexOf(s, sep);
    if k < 0 then [s] else [s[..k]] + Split(s[k + 1..], sep)
  }

  /** Splitting a join of `sep`-free parts gives the parts back. */
  lemma {:induction false} SplitJoin(parts: seq<string>, sep: char)
    requires 1 <= |parts|
    requires forall i :: 0 <= i < |parts| ==> sep !in parts[i]
    ensures Split(Join(parts, sep), sep) == parts
    decreases |parts|
  {
    if |parts| > 1 {
      var s := Join(parts, sep);
      var k := |parts[0]|;
      assert s == parts[0] + [sep] + Join(parts[1..], sep);
      assert s[k] == sep && s[..k] == parts[0];
      assert IndexOf(s, sep) == k by {
        assert sep !in s[..k];
      }
      assert s[k + 1..] == Join(parts[1..], sep);
      SplitJoin(parts[1..], sep);
    }
  }

  lemma JoinCons(head: string, rest: seq<string>, sep: char)
    requires 1 <= |rest|
    ensures Join([head] + rest, sep) == head + [sep] + Join(rest, sep)
  {
    assert ([head] + rest)[1..] == rest;
  }

  /** Joining the pieces of a split gives the string back. */
  lemma {:induction false} JoinSplit(s: string, sep: char)
    ensures Join(Split(s, sep), sep) == s
    decreases |s|
  {
    var k := IndexOf(s, sep);
    if k < 0 {
      JoinSplitWhole(s, sep);
    } else {
      var tail := s[k + 1..];
      JoinSplit(tail, sep);
      JoinSplitStep(s, sep, k, tail);
    }
  }

  lemma JoinSplitWhole(s: string, sep: char)
    requires IndexOf(s, sep) < 0
    ensures Join(Split(s, sep), sep) == s
  {
    var parts := Split(s, sep);
    assert parts == [s];
    assert Join(parts, sep) == parts[0];
  }

  lemma JoinSplitStep(s: string, sep: char, k: int, tail: string)
    requires k == IndexOf(s, sep) && k >= 0 && tail == s[k + 1..]
    requires Join(Split(tail, sep), sep) == tail
    ensures Join(Split(s, sep), sep) == s
  {
    var head := s[..k];
    var rest := Split(tail, sep);
    assert Split(s, sep) == [head] + rest;
    JoinCons(head, rest, sep);
    CutAround(s, k);
  }

  lemma CutAround<T>(s: seq<T>, k: int)
    requires 0 <= k < |s|
    ensures s == s[..k] + [s[k]] + s[k + 1..]
  {
  }

  // ------------------------------------------------------- lists of numbers

  function IdStrings(ids: seq<int>): (parts: seq<string>)
    ensures |parts| == |ids|
    ensures forall i :: 0 <= i < |ids| ==> parts[i] == IntToString(ids[i])
  {
    seq(|ids|, i requires 0 <= i < |ids| => IntToString(ids[i]))
  }

  /** String.Join(",", ids) over a list of numeric identifiers. */
  function JoinIds(ids: seq<int>): (s: string)
    ensures s == "" <==> |ids| == 0
  {
    Join(IdStrings(ids), ',')
  }

  /** Reads every piece of a list of numbers. */
  function ParseAll(parts: seq<string>): (r: Option<seq<int>>)
    ensures r.Some? ==> |r.value| == |parts|
    decreases |parts|
  {
    if |parts| == 0 then Some([])
    else match (ParseInt(parts[0]), ParseAll(parts[1..]))
      case (Some(n), Some(rest)) => Some([n] + rest)
      case _ => None
  }

  /** Reads a comma-joined list of numbers. */
  function ParseIds(s: string): Option<seq<int>>
  {
    ParseAll(Split(s, ','))
  }

  lemma {:induction false} ParseAllIdStrings(ids: seq<int>)
    ensures ParseAll(IdStrings(ids)) == Some(ids)
    decreases |ids|
  {
    if |ids| > 0 {
      IntToStringRoundTrip(ids[0]);
      assert IdStrings(ids)[1..] == IdStrings(ids[1..]);
      ParseAllIdStrings(ids[1..]);
      assert ids == [ids[0]] + ids[1..];
    }
  }

  /** A non-empty comma-joined id list reads back as the same ids, in order. */
  lemma JoinIdsRoundTrip(ids: seq<int>)
    requires 1 <= |ids|
    ensures ParseIds(JoinIds(ids)) == Some(ids)
  {
    var parts := IdStrings(ids);
    forall i | 0 <= i < |parts| ensures ',' !in parts[i] {
      assert parts[i] == IntToString(ids[i]);
    }
    SplitJoin(parts, ',');
    ParseAllIdStrings(ids);
  }

  /** A character that is neither the separator nor in any part is not in the join. */
  lemma {:induction false} JoinAvoids(parts: seq<string>, sep: char, c: char)
    requires c != sep
    requires forall i :: 0 <= i < |parts| ==> c !in parts[i]
    ensures c !in Join(parts, sep)
    decreases |parts|
  {
    if |parts| > 1 {
      JoinAvoids(parts[1..], sep, c);
    }
  }

  /** A comma-joined id list holds only digits, minus signs and commas. */
  lemma JoinIdsAvoids(ids: seq<int>, c: char)
    requires c != ',' && c != '-' && !IsDigit(c)
    ensures c !in JoinIds(ids)
  {
    var parts := IdStrings(ids);
    forall i | 0 <= i < |parts| ensures c !in parts[i] {
      assert parts[i] == IntToString(ids[i]);
    }
    JoinAvoids(parts, ',', c);
  }

  /** A rendered number holds only digits and a minus sign. */
  lemma IntToStringAvoids(n: int, c: char)
    requires c != '-' && !IsDigit(c)
    ensures c !in IntToString(n)
  {
  }

  // ------------------------------------------------------------ cutting

  /** Splits `s` in front of the first `c`: the text before it and the rest
      (which starts with `c`, or is empty when there is no `c`). */
  function CutAt(s: string, c: char): (r: (string, string))
    ensures r.0 + r.1 == s
    ensures c !in r.0
    ensures r.1 == [] || r.1[0] == c
  {
    var k := IndexOf(s, c);
    if k < 0 then (s, []) else (s[..k], s[k..])
  }

  /** Cutting `a + b` at `c` gives `a` back when `a` has no `c` and `b` starts with one. */
  lemma CutAtConcat(a: string, b: string, c: char)
    requires c !in a
    requires |b| > 0 && b[0] == c
    ensures CutAt(a + b, c) == (a, b)
  {
    var s := a + b;
    var k := IndexOf(s, c);
    assert s[|a|] == c;
    assert s[..|a|] == a && s[|a|..] == b;
  }
}
