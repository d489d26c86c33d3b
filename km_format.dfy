/** The two mileage helpers of the create page: `unformatNumber`, which keeps the digits
    the user typed, and `formatKm`, which shows them grouped in threes with `.` separators
    (the Brazilian thousands separator). */
module KmFormat {
  import opened Basics

  /** `value.replace(/\D/g, '')`: the ASCII digits of `s`, in their original order. */
  function UnformatNumber(s: string): (r: string)
    ensures AllDigits(r)
    ensures |r| <= |s|
  {
    if s == [] then []
    else if IsDigit(s[0]) then [s[0]] + UnformatNumber(s[1..])
    else UnformatNumber(s[1..])
  }

  /** Removes every `.` of `s`. */
  function StripDots(s: string): (r: string)
    ensures '.' !in r
  {
    if s == [] then []
    else if s[0] == '.' then StripDots(s[1..])
    else [s[0]] + StripDots(s[1..])
  }

  /** The second `replace` of `formatKm`, `/\B(?=(\d{3})+(?!\d))/g` with `'.'`, on a digit
      string `d`. Between two digits `\B` holds, and the look-ahead holds exactly when the
      number of digits still to come is a positive multiple of three, so a dot is inserted
      before every inner position `p` with `(|d| - p) % 3 == 0`. The scan goes left to right,
      as the regular expression does. */
  function Dotted(d: string): (r: string)
    ensures |r| >= |d|
  {
    if d == [] then [] else [d[0]] + Separator(|d|) + Dotted(d[1..])
  }

  /** What goes after the first of `n` remaining digits: a dot when a positive multiple of
      three digits follows it. */
  function Separator(n: nat): (r: string)
    ensures r == "" || r == "."
    ensures r == "." ==> n >= 4
  {
    if n > 1 && (n - 1) % 3 == 0 then "." else ""
  }

  /** `n` digits are shown with `(n - 1) / 3` dots: one per complete group of three after
      the first group. */
  lemma {:induction false} DottedLength(d: string)
    ensures |Dotted(d)| == if d == [] then 0 else |d| + (|d| - 1) / 3
    decreases |d|
  {
    if d != [] {
      DottedLength(d[1..]);
    }
  }

  /** `formatKm`: strip the non-digits, then group the digits in threes from the right. */
  function FormatKm(value: string): (r: string)
    ensures r == [] <==> UnformatNumber(value) == []
    ensures |r| >= |UnformatNumber(value)|
  {
    DottedLength(UnformatNumber(value));
    Dotted(UnformatNumber(value))
  }

  /** The displayed shape: one to three digits, then any number of groups of a dot followed by
      exactly three digits. */
  predicate Grouped(r: string)
    decreases |r|
  {
    if |r| <= 3 then 1 <= |r| && AllDigits(r)
    else |r| >= 5 && r[|r| - 4] == '.' && AllDigits(r[|r| - 3..]) && Grouped(r[..|r| - 4])
  }

  // ---------------------------------------------------------------------------------------
  // unformatNumber

  /** Filtering digits distributes over concatenation. */
  lemma {:induction false} UnformatConcat(a: string, b: string)
    ensures UnformatNumber(a + b) == UnformatNumber(a) + UnformatNumber(b)
    decreases |a|
  {
    if a == [] {
      assert a + b == b;
    } else {
      assert (a + b)[0] == a[0];
      assert (a + b)[1..] == a[1..] + b;
      UnformatConcat(a[1..], b);
    }
  }

  /** Character by character from the left: each digit is kept, everything else dropped.
      Together with `UnformatNumber("") == ""` this determines the function completely. */
  lemma UnformatAppend(s: string, c: char)
    ensures UnformatNumber(s + [c]) == UnformatNumber(s) + (if IsDigit(c) then [c] else [])
  {
    UnformatConcat(s, [c]);
    assert UnformatNumber([c]) == (if IsDigit(c) then [c] else []) by {
      assert [c][1..] == [];
    }
  }

  /** A string made only of digits is returned unchanged. */
  lemma {:induction false} UnformatOfDigits(s: string)
    requires AllDigits(s)
    ensures UnformatNumber(s) == s
    decreases |s|
  {
    if s != [] {
      UnformatOfDigits(s[1..]);
    }
  }

  /** Unformatting twice is unformatting once. */
  lemma UnformatIdempotent(s: string)
    ensures UnformatNumber(UnformatNumber(s)) == UnformatNumber(s)
  {
    UnformatOfDigits(UnformatNumber(s));
  }

  // ---------------------------------------------------------------------------------------
  // formatKm

  /** Up to three digits get no dot. */
  lemma {:induction false} DottedShort(d: string)
    requires |d| <= 3
    ensures Dotted(d) == d
    decreases |d|
  {
    if d != [] {
      DottedShort(d[1..]);
      assert Separator(|d|) == "";
    }
  }

  /** Dropping three trailing digits does not change whether the first digit is followed by
      a dot. */
  lemma SeparatorShift(n: nat)
    requires n > 4
    ensures Separator(n - 3) == Separator(n)
  {
    assert (n - 4) % 3 == (n - 1) % 3;
  }

  /** Three more digits at the end become a final group behind a dot. */
  lemma {:induction false} DottedAppend(p: string, t: string)
    requires p != [] && |t| == 3
    ensures Dotted(p + t) == Dotted(p) + "." + t
    decreases |p|
  {
    var rest := p[1..];
    var c := p[0];
    assert p == [c] + rest;
    assert p + t == [c] + (rest + t);
    if rest == [] {
      DottedHead(c, t);
      DottedShort(t);
      assert Separator(4) == ".";
    } else {
      DottedAppend(rest, t);
      DottedAppendStep(c, rest, t);
    }
  }

  /** One more leading digit in front of a text that already ends in a final group. */
  lemma DottedAppendStep(c: char, rest: string, t: string)
    requires rest != [] && |t| == 3
    requires Dotted(rest + t) == Dotted(rest) + "." + t
    ensures Dotted([c] + (rest + t)) == Dotted([c] + rest) + "." + t
  {
    var tail := Dotted(rest);
    DottedHead(c, rest + t);
    DottedHead(c, rest);
    SeparatorShift(|rest| + 4);
    var sep := Separator(|rest| + 1);
    assert Dotted([c] + (rest + t)) == [c] + sep + (tail + "." + t);
    assert [c] + sep + (tail + "." + t) == ([c] + sep + tail) + "." + t;
  }

  /** The scan on a text with a known first digit. */
  lemma DottedHead(c: char, x: string)
    ensures Dotted([c] + x) == [c] + Separator(|x| + 1) + Dotted(x)
  {
    assert ([c] + x)[0] == c;
    assert ([c] + x)[1..] == x;
  }

  /** Grouping from the right: the last three digits form the final group, preceded by a dot
      and by the formatted remaining prefix. */
  lemma DottedSplit(d: string)
    requires |d| > 3
    ensures Dotted(d) == Dotted(d[..|d| - 3]) + "." + d[|d| - 3..]
  {
    assert d == d[..|d| - 3] + d[|d| - 3..];
    DottedAppend(d[..|d| - 3], d[|d| - 3..]);
  }

  /** Removing dots distributes over concatenation. */
  lemma {:induction false} StripDotsConcat(a: string, b: string)
    ensures StripDots(a + b) == StripDots(a) + StripDots(b)
    decreases |a|
  {
    if a == [] {
      assert a + b == b;
    } else {
      assert (a + b)[0] == a[0];
      assert (a + b)[1..] == a[1..] + b;
      StripDotsConcat(a[1..], b);
    }
  }

  /** The digits of a formatted mileage are never lost, added or reordered. */
  lemma {:induction false} StripDotted(d: string)
    requires AllDigits(d)
    ensures StripDots(Dotted(d)) == d
    decreases |d|
  {
    if d != [] {
      StripDotted(d[1..]);
      var sep := Separator(|d|);
      StripDotsConcat([d[0]] + sep, Dotted(d[1..]));
      StripDotsConcat([d[0]], sep);
      assert StripDots([d[0]]) == [d[0]] by {
        assert [d[0]][1..] == [];
      }
      assert StripDots(sep) == [] by {
        if sep == "." {
          assert sep[1..] == [];
        }
      }
      assert d == [d[0]] + d[1..];
    }
  }

  /** Unformatting a formatted digit string removes exactly the inserted dots. */
  lemma {:induction false} UnformatDotted(d: string)
    requires AllDigits(d)
    ensures UnformatNumber(Dotted(d)) == d
    decreases |d|
  {
    if d != [] {
      UnformatDotted(d[1..]);
      var sep := Separator(|d|);
      UnformatConcat([d[0]] + sep, Dotted(d[1..]));
      UnformatConcat([d[0]], sep);
      assert UnformatNumber([d[0]]) == [d[0]] by {
        assert [d[0]][1..] == [];
      }
      assert UnformatNumber(sep) == [] by {
        if sep == "." {
          assert sep[1..] == [];
        }
      }
      assert d == [d[0]] + d[1..];
    }
  }

  /** Removing the dots of `formatKm(v)` gives `unformatNumber(v)`. */
  lemma FormatKmStripsToDigits(value: string)
    ensures StripDots(FormatKm(value)) == UnformatNumber(value)
  {
    StripDotted(UnformatNumber(value));
  }

  /** Unformatting the displayed mileage gives back the stored digits. */
  lemma UnformatFormatKm(value: string)
    ensures UnformatNumber(FormatKm(value)) == UnformatNumber(value)
  {
    UnformatDotted(UnformatNumber(value));
  }

  /** Formatting an already formatted value changes nothing: the inserted dots are stripped
      again before grouping. */
  lemma FormatKmIdempotent(value: string)
    ensures FormatKm(FormatKm(value)) == FormatKm(value)
  {
    UnformatDotted(UnformatNumber(value));
  }

  /** A final group of three digits behind a dot keeps the grouped shape. */
  lemma GroupedAppend(q: string, t: string)
    requires Grouped(q) && |t| == 3 && AllDigits(t)
    ensures Grouped(q + "." + t)
  {
    var r := q + "." + t;
    assert |q| >= 1;
    assert r[..|r| - 4] == q;
    assert r[|r| - 4] == '.';
    assert r[|r| - 3..] == t;
  }

  /** A non-empty digit string is displayed as a first group of one to three digits followed
      by groups of a dot and exactly three digits. */
  lemma {:induction false} DottedGrouped(d: string)
    requires AllDigits(d) && d != []
    ensures Grouped(Dotted(d))
    decreases |d|
  {
    if |d| <= 3 {
      DottedShort(d);
    } else {
      var p := d[..|d| - 3];
      var t := d[|d| - 3..];
      DottedSplit(d);
      DottedGrouped(p);
      GroupedAppend(Dotted(p), t);
    }
  }

  /** The grouped shape has no leading or trailing dot, no two adjacent dots, and only digits
      besides the dots. */
  lemma {:induction false} GroupedShape(r: string)
    requires Grouped(r)
    ensures r != [] && r[0] != '.' && r[|r| - 1] != '.'
    ensures forall i :: 0 <= i < |r| ==> IsDigit(r[i]) || r[i] == '.'
    ensures forall i :: 0 <= i < |r| - 1 ==> !(r[i] == '.' && r[i + 1] == '.')
    decreases |r|
  {
    if |r| > 3 {
      var q := r[..|r| - 4];
      GroupedShape(q);
      assert forall i :: 0 <= i < |q| ==> r[i] == q[i];
      assert forall i :: |r| - 3 <= i < |r| ==> r[i] == r[|r| - 3..][i - (|r| - 3)];
    }
  }

  /** The displayed mileage of any input: empty exactly when the input holds no digit,
      otherwise in the grouped shape. */
  lemma FormatKmShape(value: string)
    ensures UnformatNumber(value) == [] ==> FormatKm(value) == []
    ensures UnformatNumber(value) != [] ==> Grouped(FormatKm(value))
  {
    if UnformatNumber(value) != [] {
      DottedGrouped(UnformatNumber(value));
    }
  }
}
