/** Row and claim identities as strings: their order, and the encodings that build them. */
module LockKeys {
  import opened Types
  import opened ExactMoney

  // ---- The order of keys ----

  /** Strings compared character by character, a proper prefix first. */
  predicate KeyLess(a: string, b: string) {
    if b == "" then false
    else if a == "" then true
    else if a[0] != b[0] then a[0] < b[0]
    else KeyLess(a[1..], b[1..])
  }

  lemma {:induction false} KeyLessTransitive(a: string, b: string, c: string)
    requires KeyLess(a, b) && KeyLess(b, c)
    ensures KeyLess(a, c)
  {
    if a != "" && a[0] == b[0] == c[0] {
      KeyLessTransitive(a[1..], b[1..], c[1..]);
    }
  }

  /** Of two keys exactly one is smaller, unless they are the same. */
  lemma {:induction false} KeyLessTrichotomy(a: string, b: string)
    ensures KeyLess(a, b) ==> !KeyLess(b, a)
    ensures a == b <==> !KeyLess(a, b) && !KeyLess(b, a)
  {
    if a != "" && b != "" && a[0] == b[0] {
      KeyLessTrichotomy(a[1..], b[1..]);
      assert a == [a[0]] + a[1..] && b == [b[0]] + b[1..];
    }
  }

  lemma {:induction false} KeyLessAppend(a: string, b: string, c: char, d: char)
    requires |a| == |b|
    ensures KeyLess(a + [c], b + [d]) <==> KeyLess(a, b) || (a == b && c < d)
  {
    if a == "" {
      assert a + [c] == [c] && b + [d] == [d];
    } else {
      assert (a + [c])[1..] == a[1..] + [c] && (b + [d])[1..] == b[1..] + [d];
      KeyLessAppend(a[1..], b[1..], c, d);
      assert a == [a[0]] + a[1..] && b == [b[0]] + b[1..];
    }
  }

  // ---- Composite keys ----

  function EscapeChar(c: char): string {
    if c == '\\' || c == ':' then ['\\', c] else [c]
  }

  function Escape(part: string): string {
    if part == "" then "" else EscapeChar(part[0]) + Escape(part[1..])
  }

  /** `compositeLockKey`: the escaped parts, joined with a colon. */
  function CompositeKey(parts: seq<string>): string {
    if parts == [] then ""
    else if |parts| == 1 then Escape(parts[0])
    else Escape(parts[0]) + ":" + CompositeKey(parts[1..])
  }

  /** Reads a composite key back. */
  function Parts(key: string): (parts: seq<string>)
    ensures parts != []
    decreases |key|
  {
    if key == "" then [""]
    else if key[0] == ':' then [""] + Parts(key[1..])
    else
      var escaped := key[0] == '\\' && |key| > 1;
      Prepend(key[if escaped then 1 else 0], Parts(key[if escaped then 2 else 1..]))
  }

  function Prepend(c: char, parts: seq<string>): (r: seq<string>)
    requires parts != []
    ensures r != []
  {
    [[c] + parts[0]] + parts[1..]
  }

  lemma CharReadsBack(c: char, tail: string)
    ensures Parts(EscapeChar(c) + tail) == Prepend(c, Parts(tail))
  {
    var key := EscapeChar(c) + tail;
    if c == '\\' || c == ':' {
      assert key[2..] == tail;
    } else {
      assert key[1..] == tail;
    }
  }

  lemma PartsAtEnd(rest: string)
    requires rest == "" || rest[0] == ':'
    ensures Parts(rest) == if rest == "" then [""] else [""] + Parts(rest[1..])
  {
  }

  lemma PrependOnto(c: char, first: string, others: seq<string>)
    ensures Prepend(c, [first] + others) == [[c] + first] + others
  {
  }

  lemma {:induction false} EscapeReadsBack(part: string, rest: string)
    requires rest == "" || rest[0] == ':'
    ensures Parts(Escape(part) + rest) == [part] + if rest == "" then [] else Parts(rest[1..])
  {
    hide Parts, EscapeChar, Prepend;
    if part == "" {
      assert Escape(part) + rest == rest;
      PartsAtEnd(rest);
    } else {
      var c, tail := part[0], Escape(part[1..]) + rest;
      EscapeReadsBack(part[1..], rest);
      CharReadsBack(c, tail);
      PrependOnto(c, part[1..], if rest == "" then [] else Parts(rest[1..]));
      assert Escape(part) + rest == EscapeChar(c) + tail;
      assert part == [c] + part[1..];
    }
  }

  /** A decoder inverts the encoding of every non-empty list of parts. */
  lemma {:induction false} CompositeReadsBack(parts: seq<string>)
    requires parts != []
    ensures Parts(CompositeKey(parts)) == parts
  {
    if |parts| == 1 {
      EscapeReadsBack(parts[0], "");
      assert Escape(parts[0]) + "" == Escape(parts[0]);
    } else {
      CompositeReadsBack(parts[1..]);
      var rest := ":" + CompositeKey(parts[1..]);
      EscapeReadsBack(parts[0], rest);
      assert CompositeKey(parts) == Escape(parts[0]) + rest;
      assert rest[1..] == CompositeKey(parts[1..]);
    }
  }

  /** Different natural keys have different lock keys; only no part at all and one empty part coincide. */
  lemma CompositeInjective(a: seq<string>, b: seq<string>)
    ensures CompositeKey(a) == CompositeKey(b) <==> a == b || {a, b} == {[], [""]}
  {
    if a != [] {
      CompositeReadsBack(a);
    }
    if b != [] {
      CompositeReadsBack(b);
    }
    assert CompositeKey([]) == "" && Parts("") == [""];
    assert CompositeKey([""]) == Escape("") == "";
    if CompositeKey(a) == CompositeKey(b) && a != b {
      assert a == [] || b == [];
      if a == [] {
        assert b == [""];
      } else {
        assert a == [""];
        assert {a, b} == {[], [""]};
      }
    }
    if {a, b} == {[], [""]} {
      assert a in {a, b} && b in {a, b};
    }
  }

  // ---- Sequence keys ----

  const SEQUENCE_KEY_WIDTH := 20

  function Digit(d: nat): char
    requires d < 10
  {
    '0' + d as char
  }

  /** The decimal rendering of a number. */
  function Decimal(n: nat): (s: string)
    ensures s != ""
  {
    if n < 10 then [Digit(n)] else Decimal(n / 10) + [Digit(n % 10)]
  }

  function PadStart(s: string, width: nat): string
    decreases width - |s|
  {
    if |s| < width then PadStart("0" + s, width) else s
  }

  /** `sequenceLockKey`; a negative sequence is refused. */
  function SequenceKey(value: int): Result<string> {
    var _ :- Check(value >= 0, INVARIANT_VIOLATION);
    Ok(PadStart(Decimal(value), SEQUENCE_KEY_WIDTH))
  }

  /** The lowest digits of a number, zeroes in front. */
  function FixedWidth(n: nat, width: nat): (s: string)
    ensures |s| == width
  {
    if width == 0 then "" else FixedWidth(n / 10, width - 1) + [Digit(n % 10)]
  }

  lemma {:induction false} FixedWidthOrdered(a: nat, b: nat, width: nat)
    requires a < Pow10(width) && b < Pow10(width)
    ensures KeyLess(FixedWidth(a, width), FixedWidth(b, width)) <==> a < b
    ensures FixedWidth(a, width) == FixedWidth(b, width) <==> a == b
  {
    if width > 0 {
      FixedWidthOrdered(a / 10, b / 10, width - 1);
      KeyLessAppend(FixedWidth(a / 10, width - 1), FixedWidth(b / 10, width - 1), Digit(a % 10), Digit(b % 10));
      if FixedWidth(a, width) == FixedWidth(b, width) {
        assert FixedWidth(a, width)[..width - 1] == FixedWidth(a / 10, width - 1);
        assert FixedWidth(b, width)[..width - 1] == FixedWidth(b / 10, width - 1);
        assert FixedWidth(a, width)[width - 1] == FixedWidth(b, width)[width - 1];
      }
    }
  }

  lemma {:induction false} DecimalLength(n: nat, width: nat)
    requires width >= 1
    ensures |Decimal(n)| <= width <==> n < Pow10(width)
    decreases width
  {
    if width == 1 {
      assert Pow10(1) == 10;
    } else if n >= 10 {
      DecimalLength(n / 10, width - 1);
    } else {
      assert Pow10(width) >= 10;
    }
  }

  lemma {:induction false} PadAppend(s: string, c: char, width: nat)
    requires |s| <= width
    ensures PadStart(s + [c], width + 1) == PadStart(s, width) + [c]
    decreases width - |s|
  {
    if |s| < width {
      PadAppend("0" + s, c, width);
      assert "0" + (s + [c]) == ("0" + s) + [c];
    }
  }

  lemma {:induction false} PaddedIsFixed(n: nat, width: nat)
    requires width >= 1 && n < Pow10(width)
    ensures PadStart(Decimal(n), width) == FixedWidth(n, width)
    decreases width
  {
    if n < 10 {
      PaddedDigit(n, width);
    } else {
      DecimalLength(n, width);
      DecimalLength(n / 10, width - 1);
      PadAppend(Decimal(n / 10), Digit(n % 10), width - 1);
      PaddedIsFixed(n / 10, width - 1);
    }
  }

  lemma {:induction false} PaddedDigit(n: nat, width: nat)
    requires width >= 1 && n < 10
    ensures PadStart([Digit(n)], width) == FixedWidth(n, width)
    decreases width
  {
    PadAppend("", Digit(n), width - 1);
    assert "" + [Digit(n)] == [Digit(n)];
    PaddedZeroes(width - 1);
    assert n / 10 == 0 && n % 10 == n;
  }

  lemma {:induction false} PaddedZeroes(width: nat)
    ensures PadStart("", width) == FixedWidth(0, width)
  {
    if width > 0 {
      PadAppend("", '0', width - 1);
      assert "" + "0" == "0" + "" == "0";
      PaddedZeroes(width - 1);
      assert Digit(0) == '0';
    }
  }

  /** The keys of sequences order as the sequences do. */
  predicate OrderedBelow(limit: nat) {
    forall a: nat, b: nat | a < limit && b < limit ::
      KeyLess(SequenceKey(a).value, SequenceKey(b).value) <==> a < b
  }

  lemma SequencesOrdered(a: nat, b: nat)
    requires a < Pow10(SEQUENCE_KEY_WIDTH) && b < Pow10(SEQUENCE_KEY_WIDTH)
    ensures KeyLess(SequenceKey(a).value, SequenceKey(b).value) <==> a < b
  {
    PaddedIsFixed(a, SEQUENCE_KEY_WIDTH);
    PaddedIsFixed(b, SEQUENCE_KEY_WIDTH);
    FixedWidthOrdered(a, b, SEQUENCE_KEY_WIDTH);
  }

  /** The rendering of ten to the twentieth sorts below the number before it. */
  lemma TooWideMisorders()
    ensures var top := Pow10(SEQUENCE_KEY_WIDTH);
            KeyLess(SequenceKey(top).value, SequenceKey(top - 1).value)
  {
    var top := Pow10(SEQUENCE_KEY_WIDTH);
    PowerDigits(SEQUENCE_KEY_WIDTH);
    DecimalLength(top, SEQUENCE_KEY_WIDTH);
    NinesDigits(SEQUENCE_KEY_WIDTH);
    PaddedIsFixed(top - 1, SEQUENCE_KEY_WIDTH);
  }

  lemma {:induction false} PowerDigits(n: nat)
    ensures Decimal(Pow10(n))[0] == '1'
  {
    if n > 0 {
      PowerDigits(n - 1);
      assert Pow10(n) / 10 == Pow10(n - 1);
    }
  }

  lemma {:induction false} NinesDigits(n: nat)
    requires n >= 1
    ensures FixedWidth(Pow10(n) - 1, n)[0] == '9'
  {
    if n == 1 {
      assert Pow10(1) == 10;
      assert FixedWidth(9, 1) == FixedWidth(0, 0) + [Digit(9)];
    } else {
      NinesDigits(n - 1);
      assert (Pow10(n) - 1) / 10 == Pow10(n - 1) - 1;
    }
  }

  /** Zero-padding to twenty characters orders every sequence exactly up to ten to the twentieth. */
  lemma OrderedExactlyBelowWidth(limit: nat)
    ensures OrderedBelow(limit) <==> limit <= Pow10(SEQUENCE_KEY_WIDTH)
  {
    var top := Pow10(SEQUENCE_KEY_WIDTH);
    if limit <= top {
      forall a: nat, b: nat | a < limit && b < limit
        ensures KeyLess(SequenceKey(a).value, SequenceKey(b).value) <==> a < b
      {
        SequencesOrdered(a, b);
      }
    } else {
      TooWideMisorders();
      assert top < limit && top - 1 < limit;
    }
  }

  // ---- Winner claims ----

  /** `ocoWinnerClaimKey`. */
  function OcoWinnerKey(group: string): string {
    "oco-winner:" + group
  }

  predicate UuidKey(key: string) {
    forall i | 0 <= i < |key| :: '0' <= key[i] <= '9' || 'a' <= key[i] <= 'f' || key[i] == '-'
  }

  /** The claim of a group's winner slot sorts after every order row, so it is always taken last. */
  lemma WinnerClaimSortsLast(order: string, group: string)
    requires UuidKey(order)
    ensures KeyLess(order, OcoWinnerKey(group))
  {
    assert OcoWinnerKey(group)[0] == 'o';
  }
}
