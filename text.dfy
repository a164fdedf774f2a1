/** The pieces of Go's `strings` and `fmt` packages that the plugins use:
    `strings.Split` and `strings.Join` on a one-character separator,
    `strings.Index` of a one-character needle, `%d` on an integer, and the
    UTF-8 byte length `len([]byte(s))` of a string. */
module Text {
  import opened Wrappers

  /** Number of occurrences of `c` in `s`. */
  function Occurrences(s: string, c: char): (n: nat)
    ensures n <= |s|
    ensures n == 0 <==> c !in s
  {
    if s == [] then 0
    else (if s[0] == c then 1 else 0) + Occurrences(s[1..], c)
  }

  /** `strings.Split(s, string(sep))`: the pieces between separators; the
      empty string splits into one empty piece. */
  function Split(s: string, sep: char): (parts: seq<string>)
    ensures |parts| == Occurrences(s, sep) + 1
    ensures forall i :: 0 <= i < |parts| ==> sep !in parts[i]
    ensures s == [] || s[0] == sep ==> parts[0] == []
    ensures s != [] && s[0] != sep ==> parts[0] != [] && parts[0][0] == s[0]
    decreases |s|
  {
    if s == [] then [""]
    else
      var rest := Split(s[1..], sep);
      if s[0] == sep then [""] + rest
      else [[s[0]] + rest[0]] + rest[1..]
  }

  /** `strings.Join(parts, sep)`. */
  function Join(parts: seq<string>, sep: string): string
  {
    if |parts| == 0 then ""
    else if |parts| == 1 then parts[0]
    else parts[0] + sep + Join(parts[1..], sep)
  }

  /** `strings.Index(s, string(c))`: the first position of `c`, or -1. */
  function IndexOf(s: string, c: char): (i: int)
    ensures -1 <= i < |s|
    ensures i == -1 <==> c !in s
    ensures 0 <= i ==> s[i] == c && c !in s[..i]
  {
    if s == [] then -1
    else if s[0] == c then 0
    else
      var j := IndexOf(s[1..], c);
      assert s[1..][..if j < 0 then 0 else j] == s[1..1 + (if j < 0 then 0 else j)];
      if j < 0 then -1 else j + 1
  }

  /** `Join` of a list with a first element. */
  lemma JoinCons(head: string, rest: seq<string>, sep: string)
    ensures Join([head] + rest, sep) == if rest == [] then head else head + sep + Join(rest, sep)
  {
    assert ([head] + rest)[1..] == rest;
  }

  /** `Split` of a non-empty string, by its first character. */
  lemma SplitCons(c: char, t: string, sep: char)
    ensures var rest := Split(t, sep);
      Split([c] + t, sep) == if c == sep then [""] + rest else [[c] + rest[0]] + rest[1..]
  {
    assert ([c] + t)[1..] == t;
  }

  /** JoinSplit for a string that starts with the separator. */
  lemma JoinSplitSeparator(t: string, sep: char)
    requires Join(Split(t, sep), [sep]) == t
    ensures Join(Split([sep] + t, sep), [sep]) == [sep] + t
  {
    SplitCons(sep, t, sep);
    JoinCons("", Split(t, sep), [sep]);
  }

  /** JoinSplit for a string that starts with another character. */
  lemma JoinSplitOther(c: char, t: string, sep: char)
    requires c != sep && Join(Split(t, sep), [sep]) == t
    ensures Join(Split([c] + t, sep), [sep]) == [c] + t
  {
    var rest := Split(t, sep);
    assert Split([c] + t, sep) == [[c] + rest[0]] + rest[1..] by {
      SplitCons(c, t, sep);
    }
    JoinExtendFirst(c, rest, [sep]);
  }

  /** Putting `c` in front of the first piece puts it in front of the join. */
  lemma JoinExtendFirst(c: char, parts: seq<string>, sep: string)
    requires |parts| >= 1
    ensures Join([[c] + parts[0]] + parts[1..], sep) == [c] + Join(parts, sep)
  {
    var more := parts[1..];
    var head := [c] + parts[0];
    assert [parts[0]] + more == parts;
    if more == [] {
      JoinCons(head, more, sep);
      JoinCons(parts[0], more, sep);
    } else {
      var j := Join(more, sep);
      assert Join([head] + more, sep) == head + sep + j by {
        JoinCons(head, more, sep);
      }
      assert Join(parts, sep) == parts[0] + sep + j by {
        JoinCons(parts[0], more, sep);
      }
      assert head + sep + j == [c] + (parts[0] + sep + j);
    }
  }

  /** Joining the pieces of a split restores the string. */
  lemma {:induction false} JoinSplit(s: string, sep: char)
    ensures Join(Split(s, sep), [sep]) == s
    decreases |s|
  {
    if s != [] {
      var t := s[1..];
      JoinSplit(t, sep);
      if s[0] == sep {
        JoinSplitSeparator(t, sep);
      } else {
        JoinSplitOther(s[0], t, sep);
      }
      assert [s[0]] + t == s;
    }
  }

  /** Splitting a string whose first piece `a` is free of separators. */
  lemma {:induction false} SplitPrefix(a: string, b: string, sep: char)
    requires sep !in a
    ensures Split(a + b, sep) == [a + Split(b, sep)[0]] + Split(b, sep)[1..]
    decreases |a|
  {
    var parts := Split(b, sep);
    if a != [] {
      var t := a[1..] + b;
      var rest := Split(t, sep);
      assert a + b == [a[0]] + t;
      assert rest == [a[1..] + parts[0]] + parts[1..] by {
        SplitPrefix(a[1..], b, sep);
      }
      assert Split([a[0]] + t, sep) == [[a[0]] + rest[0]] + rest[1..] by {
        SplitCons(a[0], t, sep);
      }
      FirstPieceStep(a, parts, rest, Split([a[0]] + t, sep));
    } else {
      assert a + b == b && a + parts[0] == parts[0];
      assert [parts[0]] + parts[1..] == parts;
    }
  }

  /** The list step of SplitPrefix: the first character of `a` joins the
      first piece. */
  lemma FirstPieceStep(a: string, parts: seq<string>, rest: seq<string>, whole: seq<string>)
    requires a != [] && |parts| >= 1
    requires rest == [a[1..] + parts[0]] + parts[1..]
    requires whole == [[a[0]] + rest[0]] + rest[1..]
    ensures whole == [a + parts[0]] + parts[1..]
  {
    assert rest[0] == a[1..] + parts[0] && rest[1..] == parts[1..];
    assert [a[0]] + (a[1..] + parts[0]) == a + parts[0];
  }

  /** A string free of separators is a single piece. */
  lemma {:induction false} SplitWithoutSeparator(a: string, sep: char)
    requires sep !in a
    ensures Split(a, sep) == [a]
    decreases |a|
  {
    if a != [] {
      SplitWithoutSeparator(a[1..], sep);
      assert [a[0]] + a[1..] == a;
    }
  }

  /** A leading separator opens an empty first piece. */
  lemma SplitAfterSeparator(t: string, sep: char)
    ensures Split([sep] + t, sep) == [""] + Split(t, sep)
  {
    assert ([sep] + t)[1..] == t;
  }

  /** One step of SplitJoin: prepend a separator-free piece. */
  lemma SplitJoinCons(head: string, rest: seq<string>, sep: char)
    requires sep !in head && |rest| >= 1
    requires Split(Join(rest, [sep]), sep) == rest
    ensures Split(Join([head] + rest, [sep]), sep) == [head] + rest
  {
    var tail := Join(rest, [sep]);
    var parts := [head] + rest;
    assert parts[0] == head && parts[1..] == rest;
    assert Join(parts, [sep]) == head + ([sep] + tail);
    SplitAfterSeparator(tail, sep);
    SplitPrefix(head, [sep] + tail, sep);
    assert head + "" == head;
  }

  /** Splitting undoes joining when no piece holds the separator. */
  lemma {:induction false} SplitJoin(parts: seq<string>, sep: char)
    requires |parts| >= 1
    requires forall i :: 0 <= i < |parts| ==> sep !in parts[i]
    ensures Split(Join(parts, [sep]), sep) == parts
    decreases |parts|
  {
    if |parts| == 1 {
      SplitWithoutSeparator(parts[0], sep);
    } else {
      SplitJoin(parts[1..], sep);
      SplitJoinCons(parts[0], parts[1..], sep);
      assert [parts[0]] + parts[1..] == parts;
    }
  }

  predicate IsDigit(c: char) { '0' <= c <= '9' }

  predicate AllDigits(s: string) { forall i :: 0 <= i < |s| ==> IsDigit(s[i]) }

  function DigitChar(d: nat): (c: char)
    requires d < 10
    ensures IsDigit(c)
  {
    ('0' as int + d) as char
  }

  function DigitValue(c: char): (d: nat)
    requires IsDigit(c)
    ensures d < 10 && DigitChar(d) == c
  {
    (c as int - '0' as int) as nat
  }

  /** `%d` of a non-negative integer: decimal digits, no leading zeros. */
  function NatToDec(n: nat): (s: string)
    ensures |s| >= 1 && AllDigits(s)
    ensures s[0] == '0' ==> n == 0
    decreases n
  {
    if n < 10 then [DigitChar(n)] else NatToDec(n / 10) + [DigitChar(n % 10)]
  }

  /** `%d` of an integer: a leading `-` for negative values. */
  function IntToDec(n: int): (s: string)
    ensures |s| >= 1
    ensures forall i :: 0 <= i < |s| ==> IsDigit(s[i]) || s[i] == '-'
  {
    if n < 0 then "-" + NatToDec(-n) else NatToDec(n)
  }

  /** Reads a string of decimal digits back. */
  function DecToNat(s: string): nat
    requires AllDigits(s)
    decreases |s|
  {
    if s == [] then 0 else DecToNat(s[..|s| - 1]) * 10 + DigitValue(s[|s| - 1])
  }

  /** Reads what `%d` prints: an optional `-` and at least one digit. */
  function ParseInt(s: string): Option<int>
  {
    if |s| >= 2 && s[0] == '-' && AllDigits(s[1..]) then Some(0 - DecToNat(s[1..]))
    else if |s| >= 1 && AllDigits(s) then Some(DecToNat(s))
    else None
  }

  lemma {:induction false} NatToDecRoundTrip(n: nat)
    ensures DecToNat(NatToDec(n)) == n
    decreases n
  {
    if n >= 10 {
      NatToDecRoundTrip(n / 10);
      var s := NatToDec(n);
      assert s[..|s| - 1] == NatToDec(n / 10);
    }
  }

  /** `%d` output is read back as the same integer. */
  lemma IntToDecRoundTrip(n: int)
    ensures ParseInt(IntToDec(n)) == Some(n)
  {
    NatToDecRoundTrip(if n < 0 then -n else n);
    if n < 0 {
      assert IntToDec(n)[1..] == NatToDec(-n);
    }
  }

  /** Distinct integers print differently. */
  lemma IntToDecInjective(m: int, n: int)
    ensures IntToDec(m) == IntToDec(n) ==> m == n
  {
    IntToDecRoundTrip(m);
    IntToDecRoundTrip(n);
  }

  /** `%d` output holds only digits and `-`. */
  lemma IntToDecOmits(n: int, c: char)
    requires !IsDigit(c) && c != '-'
    ensures c !in IntToDec(n)
  {
    var s := IntToDec(n);
    assert forall i :: 0 <= i < |s| ==> s[i] != c;
  }

  /** Number of bytes of the UTF-8 encoding of one code point. */
  function Utf8Width(c: char): nat
  {
    if c as int < 0x80 then 1
    else if c as int < 0x800 then 2
    else if c as int < 0x1_0000 then 3
    else 4
  }

  /** `len([]byte(s))`: the UTF-8 byte length of `s`. */
  function Utf8Length(s: string): (n: nat)
    ensures |s| <= n <= 4 * |s|
    ensures (forall i :: 0 <= i < |s| ==> s[i] as int < 0x80) ==> n == |s|
  {
    if s == [] then 0 else Utf8Width(s[0]) + Utf8Length(s[1..])
  }
}
