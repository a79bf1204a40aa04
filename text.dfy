/** The pieces of Go's `strings`, `strconv` and `fmt` packages the client
    relies on, restricted to what it uses them for. */
module Text {
  import opened Common

  /** strings.Join: the parts in order, with sep between neighbours. */
  function Join(sep: string, parts: seq<string>): string
  {
    if |parts| == 0 then ""
    else if |parts| == 1 then parts[0]
    else parts[0] + sep + Join(sep, parts[1..])
  }

  /** Appending a part to the end extends the joined text by sep and that part. */
  lemma {:induction false} JoinSnoc(sep: string, parts: seq<string>, x: string)
    ensures Join(sep, parts + [x]) == if parts == [] then x else Join(sep, parts) + sep + x
  {
    if |parts| == 0 {
      assert parts + [x] == [x];
    } else if |parts| == 1 {
      assert parts + [x] == [parts[0], x];
      assert (parts + [x])[1..] == [x];
    } else {
      var rest := parts[1..];
      assert (parts + [x])[0] == parts[0];
      assert (parts + [x])[1..] == rest + [x];
      JoinSnoc(sep, rest, x);
      assert Join(sep, parts + [x]) == parts[0] + sep + (Join(sep, rest) + sep + x);
    }
  }

  /** Joining parts whose first one is not empty gives a non-empty text. */
  lemma {:induction false} JoinNonEmpty(sep: string, parts: seq<string>)
    requires |parts| > 0 && parts[0] != ""
    ensures Join(sep, parts) != ""
    ensures |Join(sep, parts)| >= |parts[0]|
  {
    if |parts| > 1 {
      assert Join(sep, parts) == parts[0] + sep + Join(sep, parts[1..]);
    }
  }

  /** The position of the first c in s. */
  function FirstIndex(c: char, s: string): (i: nat)
    requires c in s
    ensures i < |s| && s[i] == c && c !in s[..i]
  {
    if s[0] == c then 0
    else
      var j := FirstIndex(c, s[1..]);
      assert s[..j + 1] == [s[0]] + s[1..][..j];
      j + 1
  }

  /** The first c in a text that starts with a c-free head and then c is
      the one right after the head. */
  lemma {:induction false} FirstIndexAfter(c: char, head: string, rest: string)
    requires c !in head
    ensures FirstIndex(c, head + [c] + rest) == |head|
  {
    var s := head + [c] + rest;
    if |head| > 0 {
      assert s[0] == head[0] != c;
      assert s[1..] == head[1..] + [c] + rest;
      FirstIndexAfter(c, head[1..], rest);
    } else {
      assert s[0] == c;
    }
  }

  /** strings.Split with a one-character separator: the pieces between
      the occurrences of sep, in order. */
  function Split(sep: char, s: string): (r: seq<string>)
    ensures |r| > 0
    decreases |s|
  {
    if sep !in s then [s]
    else
      var i := FirstIndex(sep, s);
      [s[..i]] + Split(sep, s[i + 1..])
  }

  /** Splitting a joined text recovers the parts exactly, provided no part
      contains the separator: so the joined form keeps every part and
      their order. */
  lemma {:induction false} SplitJoin(sep: char, parts: seq<string>)
    requires |parts| > 0
    requires forall p :: p in parts ==> sep !in p
    ensures Split(sep, Join([sep], parts)) == parts
  {
    if |parts| > 1 {
      var head, tail := parts[0], Join([sep], parts[1..]);
      assert Join([sep], parts) == head + [sep] + tail;
      assert sep !in head;
      SplitCons(sep, head, tail);
      SplitJoin(sep, parts[1..]);
      assert parts == [head] + parts[1..];
    } else {
      assert Join([sep], parts) == parts[0];
    }
  }

  /** Splitting a separator-free head, a separator and a tail gives the
      head, then the split of the tail. */
  lemma SplitCons(sep: char, head: string, tail: string)
    requires sep !in head
    ensures Split(sep, head + [sep] + tail) == [head] + Split(sep, tail)
  {
    var s := head + [sep] + tail;
    assert s[|head|] == sep;
    FirstIndexAfter(sep, head, tail);
    var i := FirstIndex(sep, s);
    assert s[..i] == head;
    assert s[i + 1..] == tail;
  }

  /** strings.ToLower on the ASCII letters; every other character is kept. */
  function ToLower(s: string): (r: string)
    ensures |r| == |s|
    ensures forall i :: 0 <= i < |r| ==> !('A' <= r[i] <= 'Z')
    ensures forall i :: 0 <= i < |s| && 'A' <= s[i] <= 'Z' ==> r[i] as int == s[i] as int + 32
    ensures forall i :: 0 <= i < |s| && !('A' <= s[i] <= 'Z') ==> r[i] == s[i]
  {
    seq(|s|, i requires 0 <= i < |s| => if 'A' <= s[i] <= 'Z' then (s[i] as int + 32) as char else s[i])
  }

  /** The UTF-8 bytes of a text made of ASCII characters only. */
  function Ascii(s: string): (b: Bytes)
    requires forall i :: 0 <= i < |s| ==> s[i] as int < 0x80
    ensures |b| == |s|
  {
    seq(|s|, i requires 0 <= i < |s| => s[i] as int as byte)
  }

  /** needle occurs in hay at position i. */
  predicate OccursAt<T(==)>(hay: seq<T>, needle: seq<T>, i: int)
  {
    0 <= i && i + |needle| <= |hay| && hay[i..i + |needle|] == needle
  }

  /** strings.Index: the first position at which needle occurs in hay,
      or -1 when it occurs nowhere. */
  function IndexOf<T(==)>(hay: seq<T>, needle: seq<T>): (r: int)
    ensures -1 <= r
    ensures r >= 0 ==> OccursAt(hay, needle, r)
    ensures forall i :: 0 <= i && (r == -1 || i < r) ==> !OccursAt(hay, needle, i)
    decreases |hay|
  {
    if |needle| > |hay| then -1
    else if hay[..|needle|] == needle then 0
    else
      var j := IndexOf(hay[1..], needle);
      assert forall i :: 1 <= i ==> (OccursAt(hay, needle, i) <==> OccursAt(hay[1..], needle, i - 1)) by {
        forall i | 1 <= i
          ensures OccursAt(hay, needle, i) <==> OccursAt(hay[1..], needle, i - 1)
        {
          if i + |needle| <= |hay| {
            assert hay[1..][i - 1..i - 1 + |needle|] == hay[i..i + |needle|];
          }
        }
      }
      if j == -1 then -1 else j + 1
  }

  predicate IsDigit(c: char)
  {
    '0' <= c <= '9'
  }

  predicate AllDigits(s: string)
  {
    forall i :: 0 <= i < |s| ==> IsDigit(s[i])
  }

  function DigitChar(d: nat): (c: char)
    requires d < 10
    ensures IsDigit(c) && c as int - '0' as int == d
  {
    ('0' as int + d) as char
  }

  /** The decimal digits of n, without leading zeros. */
  function NatToString(n: nat): (s: string)
    ensures |s| > 0 && AllDigits(s)
  {
    if n < 10 then [DigitChar(n)] else NatToString(n / 10) + [DigitChar(n % 10)]
  }

  /** fmt's %v (and %d) of an integer: an optional minus sign and the digits. */
  function IntToString(i: int): (s: string)
    ensures |s| > 0 && (s[0] == '-' <==> i < 0)
    ensures AllDigits(Unsigned(s))
  {
    if i < 0 then "-" + NatToString(-i) else NatToString(i)
  }

  /** The number that a run of decimal digits denotes. */
  function DigitsValue(s: string): nat
    requires AllDigits(s)
  {
    if |s| == 0 then 0
    else DigitsValue(s[..|s| - 1]) * 10 + (s[|s| - 1] as int - '0' as int)
  }

  /** Reading back the digits NatToString writes gives the number. */
  lemma {:induction false} DigitsValueOfNatToString(n: nat)
    ensures DigitsValue(NatToString(n)) == n
  {
    if n >= 10 {
      var s := NatToString(n);
      assert s[..|s| - 1] == NatToString(n / 10);
      DigitsValueOfNatToString(n / 10);
    }
  }

  const Uint64Max: int := 0xFFFF_FFFF_FFFF_FFFF

  /** The text after an optional leading '+' or '-'. */
  function Unsigned(s: string): (t: string)
    ensures |s| > 0 && (s[0] == '-' || s[0] == '+') ==> t == s[1..]
    ensures |s| == 0 || (s[0] != '-' && s[0] != '+') ==> t == s
  {
    if |s| > 0 && (s[0] == '-' || s[0] == '+') then s[1..] else s
  }

  /** The end of the run of decimal digits that starts at i. */
  function DigitsEnd(s: string, i: nat): (j: nat)
    requires i <= |s|
    ensures i <= j <= |s|
    ensures forall k :: i <= k < j ==> IsDigit(s[k])
    ensures j < |s| ==> !IsDigit(s[j])
    decreases |s| - i
  {
    if i == |s| || !IsDigit(s[i]) then i else DigitsEnd(s, i + 1)
  }

  /** The longest prefix of t made of decimal digits. */
  function LeadingDigits(t: string): (p: string)
    ensures |p| <= |t| && p == t[..|p|] && AllDigits(p)
    ensures |p| < |t| ==> !IsDigit(t[|p|])
  {
    t[..DigitsEnd(t, 0)]
  }

  /** Text made only of digits is its own leading run. */
  lemma LeadingDigitsOfDigits(t: string)
    requires AllDigits(t)
    ensures LeadingDigits(t) == t
  {
    DigitsEndFrom(t, [], 0);
    assert t + [] == t;
  }

  /** The leading run of digits + rest is digits when rest does not
      start with a digit. */
  lemma LeadingDigitsBefore(digits: string, rest: string)
    requires AllDigits(digits)
    requires |rest| > 0 ==> !IsDigit(rest[0])
    ensures LeadingDigits(digits + rest) == digits
  {
    DigitsEndFrom(digits, rest, 0);
    assert (digits + rest)[..|digits|] == digits;
  }

  /** From any position inside a run of digits followed by a non-digit
      (or the end), the run ends where the digits do. */
  lemma {:induction false} DigitsEndFrom(digits: string, rest: string, i: nat)
    requires AllDigits(digits) && i <= |digits|
    requires |rest| > 0 ==> !IsDigit(rest[0])
    ensures DigitsEnd(digits + rest, i) == |digits|
    decreases |digits| - i
  {
    if i < |digits| {
      assert (digits + rest)[i] == digits[i];
      DigitsEndFrom(digits, rest, i + 1);
    } else if |rest| > 0 {
      assert (digits + rest)[i] == rest[0];
    }
  }

  /** strconv.ParseInt(s, 10, 64) with its error dropped. After an
      optional sign the digits are accumulated one by one: as soon as
      they exceed the uint64 range the result is the int64 bound of the
      sign's direction, whatever follows (a range error). Otherwise text
      with no digits, or with anything after them, gives 0 (a syntax
      error), and a run of digits gives its signed value clamped to the
      int64 range. */
  function ParseInt64(s: string): (r: int64)
    ensures |s| > 0 && AllDigits(s) ==> r as int == if DigitsValue(s) > Int64Max then Int64Max else DigitsValue(s)
    ensures |s| > 0 && !IsDigit(s[0]) && s[0] != '-' && s[0] != '+' ==> r == 0
    ensures DigitsValue(LeadingDigits(Unsigned(s))) > Uint64Max ==>
              r as int == if s[0] == '-' then Int64Min else Int64Max
    ensures (exists i :: 0 < i < |s| && !IsDigit(s[i])) && DigitsValue(LeadingDigits(Unsigned(s))) <= Uint64Max ==> r == 0
  {
    var negative := |s| > 0 && s[0] == '-';
    var digits := Unsigned(s);
    var run := LeadingDigits(digits);
    var value := DigitsValue(run);
    LeadingDigitsOfDigits(if |s| > 0 && AllDigits(s) then s else []);
    if value > Uint64Max then
      if negative then Int64Min as int64 else Int64Max as int64
    else if |run| == 0 || |run| < |digits| then 0
    else
      var v: int := if negative then -(value as int) else value;
      if v < Int64Min then Int64Min as int64
      else if v > Int64Max then Int64Max as int64
      else v as int64
  }

  /** A run of digits too large for uint64 clamps the result by its sign
      even when a fraction or an exponent follows it, as in
      "100000000000000000000.5". */
  lemma OverflowBeforeFraction(digits: string, rest: string)
    requires |digits| > 0 && AllDigits(digits) && DigitsValue(digits) > Uint64Max
    requires |rest| > 0 ==> !IsDigit(rest[0])
    ensures ParseInt64(digits + rest) as int == Int64Max
    ensures ParseInt64("-" + digits + rest) as int == Int64Min
  {
    var s := digits + rest;
    LeadingDigitsBefore(digits, rest);
    assert s[0] == digits[0];
    assert Unsigned(s) == s;
    var t := "-" + digits + rest;
    assert t == "-" + s;
    assert t[1..] == s;
    assert Unsigned(t) == s;
  }

  /** ParseInt64 reads back every int64 that IntToString writes. */
  lemma ParseInt64OfIntToString(n: int64)
    ensures ParseInt64(IntToString(n as int)) == n
  {
    if n < 0 {
      var s := IntToString(n as int);
      assert Unsigned(s) == NatToString(-(n as int));
      LeadingDigitsOfDigits(NatToString(-(n as int)));
      DigitsValueOfNatToString(-(n as int));
    } else {
      DigitsValueOfNatToString(n as int);
    }
  }
}
