/**
 * `PriceFormatPipe.transform` of `price.pipe.ts`: the decimal text of the value with a `.` before
 * every complete group of three digits counted from the right, followed by `đ`.
 */
module PricePipe {
  import opened Wrappers
  import opened Text

  const Currency := 'đ'

  /**
   * `replace(/\B(?=(\d{3})+(?!\d))/g, ".")` on a string of digits: a dot goes before position `i`
   * when `i` is not the start (the `\B`) and the digits from `i` to the end are a positive multiple
   * of three (the lookahead). Read left to right, the dot after the first character is decided by
   * the number of characters after it.
   */
  function Dotted(s: string): string {
    if s == [] then []
    else [s[0]] + (if |s| > 1 && (|s| - 1) % 3 == 0 then "." else "") + Dotted(s[1..])
  }

  /** `transform`: `''` for `null`/`undefined`; otherwise the sign, the dotted magnitude and `đ`. */
  function Transform(value: Option<int>): (r: string)
    ensures value.None? <==> r == ""
    ensures value.Some? ==> |r| >= 2 && r[|r| - 1] == Currency
  {
    match value
    case None => ""
    case Some(n) =>
      // The sign is no word character, so `\B` rules out a dot right after it.
      (if n < 0 then "-" else "") + Dotted(NatToString(if n < 0 then -n else n)) + [Currency]
  }

  /** The text with every `.` deleted. */
  function RemoveDots(s: string): (r: string)
    ensures '.' !in r
  {
    if s == [] then [] else (if s[0] == '.' then [] else [s[0]]) + RemoveDots(s[1..])
  }

  function DotCount(s: string): nat {
    if s == [] then 0 else (if s[0] == '.' then 1 else 0) + DotCount(s[1..])
  }

  /** The pieces between the dots, cut from the right: only the first may be shorter than three. */
  function Groups(s: string): (gs: seq<string>)
    requires s != []
    ensures |gs| >= 1 && 1 <= |gs[0]| <= 3
    ensures forall k :: 1 <= k < |gs| ==> |gs[k]| == 3
    ensures forall k :: 0 <= k < |gs| ==> forall c :: c in gs[k] ==> c in s
    decreases |s|
  {
    if |s| <= 3 then [s]
    else
      var init, last := s[..|s| - 3], s[|s| - 3..];
      assert forall c :: c in init || c in last ==> c in s by {
        assert s == init + last;
      }
      Groups(init) + [last]
  }

  /** Deleting the dots gives back the digits. */
  lemma {:induction false} RemoveDotsOfDotted(s: string)
    requires '.' !in s
    ensures RemoveDots(Dotted(s)) == s
    decreases |s|
  {
    if s != [] {
      RemoveDotsOfDotted(s[1..]);
      RemoveDotsAppend([s[0]] + (if |s| > 1 && (|s| - 1) % 3 == 0 then "." else ""), Dotted(s[1..]));
    }
  }

  lemma {:induction false} RemoveDotsAppend(a: string, b: string)
    ensures RemoveDots(a + b) == RemoveDots(a) + RemoveDots(b)
    decreases |a|
  {
    if a == [] {
      assert a + b == b;
    } else {
      assert (a + b)[1..] == a[1..] + b;
      RemoveDotsAppend(a[1..], b);
    }
  }

  /** A text of at most three characters gets no dot. */
  lemma ShortNotDotted(s: string)
    requires |s| <= 3
    ensures Dotted(s) == s
  {
    if |s| >= 1 {
      assert Dotted(s[1..]) == s[1..] by {
        if |s| >= 2 {
          assert Dotted(s[2..]) == s[2..];
        }
      }
    }
  }

  /** The dots of a text of `m` characters number `(m - 1) / 3`. */
  lemma {:induction false} DotCountOfDotted(s: string)
    requires s != [] && '.' !in s
    ensures DotCount(Dotted(s)) == (|s| - 1) / 3
    decreases |s|
  {
    var head := [s[0]] + (if |s| > 1 && (|s| - 1) % 3 == 0 then "." else "");
    DotCountAppend(head, Dotted(s[1..]));
    if |s| > 1 {
      DotCountOfDotted(s[1..]);
      assert DotCount(head) == if (|s| - 1) % 3 == 0 then 1 else 0;
      StepDivision(|s| - 2);
    }
  }

  lemma StepDivision(m: nat)
    ensures (m + 1) / 3 == m / 3 + (if (m + 1) % 3 == 0 then 1 else 0)
  {
  }

  lemma {:induction false} DotCountAppend(a: string, b: string)
    ensures DotCount(a + b) == DotCount(a) + DotCount(b)
    decreases |a|
  {
    if a == [] {
      assert a + b == b;
    } else {
      assert (a + b)[1..] == a[1..] + b;
      DotCountAppend(a[1..], b);
    }
  }

  /** Appending a block whose length is a multiple of three adds one dot before it. */
  lemma {:induction false} DottedAppend(a: string, b: string)
    requires a != [] && b != [] && |b| % 3 == 0
    ensures Dotted(a + b) == Dotted(a) + "." + Dotted(b)
    decreases |a|
  {
    var ab := a + b;
    assert ab[0] == a[0] && ab[1..] == a[1..] + b;
    if |a| == 1 {
      assert a[1..] + b == b && |ab| - 1 == |b|;
      assert Dotted(a) == [a[0]];
      assert Dotted(ab) == [a[0]] + "." + Dotted(b);
    } else {
      DottedAppend(a[1..], b);
      CountShift(|a| - 1, |b|);
      var mark := if (|a| - 1) % 3 == 0 then "." else "";
      assert Dotted(ab) == [a[0]] + mark + Dotted(a[1..] + b);
      assert Dotted(a) == [a[0]] + mark + Dotted(a[1..]);
      assert Dotted(ab) == ([a[0]] + mark + Dotted(a[1..])) + "." + Dotted(b);
    }
  }

  lemma CountShift(x: int, y: int)
    requires y % 3 == 0
    ensures (x + y) % 3 == x % 3
  {
  }

  lemma {:induction false} JoinSnoc(parts: seq<string>, last: string, sep: char)
    requires parts != []
    ensures Join(parts + [last], sep) == Join(parts, sep) + [sep] + last
    decreases |parts|
  {
    if |parts| > 1 {
      assert (parts + [last])[1..] == parts[1..] + [last];
      JoinSnoc(parts[1..], last, sep);
    }
  }

  /** The regular-expression reading and the group reading agree: the dots separate the groups. */
  lemma {:induction false} DottedIsJoinedGroups(s: string)
    requires s != []
    ensures Dotted(s) == Join(Groups(s), '.')
    decreases |s|
  {
    if |s| <= 3 {
      ShortNotDotted(s);
    } else {
      var init, last := s[..|s| - 3], s[|s| - 3..];
      assert s == init + last;
      DottedAppend(init, last);
      ShortNotDotted(last);
      DottedIsJoinedGroups(init);
      JoinSnoc(Groups(init), last, '.');
    }
  }

  /**
   * For a natural number, the dot-separated groups of the output are: a first one of one to three
   * digits, then groups of exactly three.
   */
  lemma GroupSizes(n: nat)
    ensures var parts := Split(Dotted(NatToString(n)), '.');
            |parts| >= 1 && 1 <= |parts[0]| <= 3 && forall k :: 1 <= k < |parts| ==> |parts[k]| == 3
  {
    var s := NatToString(n);
    assert '.' !in s;
    DottedIsJoinedGroups(s);
    SplitJoin(Groups(s), '.');
  }

  /** For a natural number: the output without its dots and currency sign is its decimal text. */
  lemma TransformDigits(n: nat)
    ensures var r := Transform(Some(n)); RemoveDots(r[..|r| - 1]) == NatToString(n)
  {
    var r := Transform(Some(n));
    assert r[..|r| - 1] == Dotted(NatToString(n));
    RemoveDotsOfDotted(NatToString(n));
  }

  /** The number of dots is (number of digits - 1) div 3. */
  lemma TransformDotCount(n: nat)
    ensures DotCount(Transform(Some(n))) == (|NatToString(n)| - 1) / 3
  {
    var s := NatToString(n);
    assert '.' !in s;
    DotCountOfDotted(s);
    assert Transform(Some(n)) == Dotted(s) + [Currency];
    DotCountAppend(Dotted(s), [Currency]);
    assert DotCount([Currency]) == 0;
  }

  /** Below a thousand there is no dot. */
  lemma SmallHasNoDot(n: nat)
    requires n < 1000
    ensures '.' !in Transform(Some(n))
  {
    assert Pow10(3) == 1000;
    NatToStringLength(n, 3);
    ShortNotDotted(NatToString(n));
    assert Transform(Some(n)) == NatToString(n) + [Currency];
  }

  /** A negative value keeps its minus sign in front of the same dotted digits. */
  lemma NegativeIsSigned(n: int)
    requires n > 0
    ensures Transform(Some(-n)) == "-" + Transform(Some(n))
  {
    var digits := Dotted(NatToString(n));
    var tail := digits + [Currency];
    assert "" + digits == digits;
    assert Transform(Some(n)) == tail;
    assert Transform(Some(-n)) == ("-" + digits) + [Currency];
    assert ("-" + digits) + [Currency] == "-" + tail;
  }
}
