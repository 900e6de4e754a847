/** The parts of Go's `strings` and `strconv` packages that the modelled code relies on,
    restricted to the cases it uses: single-character separators and replacements,
    base-10 unsigned parsing into 64 bits, and `strings.Title` over ASCII.
 */
module GoStrings {

  import opened Common

  /** `strings.Split(s, string(sep))`: the segments of `s` between occurrences of `sep`.
      Splitting the empty string gives one empty segment, as in Go. */
  function Split(s: string, sep: char): (r: seq<string>)
    ensures |r| >= 1
    ensures forall i :: 0 <= i < |r| ==> sep !in r[i]
    decreases |s|
  {
    if s == [] then [""]
    else if s[0] == sep then [""] + Split(s[1..], sep)
    else
      var rest := Split(s[1..], sep);
      [[s[0]] + rest[0]] + rest[1..]
  }

  /** `strings.Join(parts, string(sep))`. */
  function Join(parts: seq<string>, sep: char): string
    decreases |parts|
  {
    if |parts| == 0 then ""
    else if |parts| == 1 then parts[0]
    else parts[0] + [sep] + Join(parts[1..], sep)
  }

  /** Splitting loses nothing: joining the segments back gives the input. */
  lemma {:induction false} JoinSplit(s: string, sep: char)
    ensures Join(Split(s, sep), sep) == s
    decreases |s|
  {
    if s == [] {
    } else if s[0] == sep {
      JoinSplit(s[1..], sep);
      var rest := Split(s[1..], sep);
      assert Split(s, sep) == [""] + rest;
      assert ([""] + rest)[1..] == rest;
    } else {
      JoinSplit(s[1..], sep);
      var rest := Split(s[1..], sep);
      var r := [[s[0]] + rest[0]] + rest[1..];
      assert Split(s, sep) == r;
      if |rest| == 1 {
        assert Join(r, sep) == [s[0]] + rest[0];
      } else {
        assert r[1..] == rest[1..];
        assert Join(rest, sep) == rest[0] + [sep] + Join(rest[1..], sep);
        assert Join(r, sep) == [s[0]] + rest[0] + [sep] + Join(rest[1..], sep);
      }
    }
  }

  /** Joining segments that do not contain the separator and splitting again gives them back. */
  lemma {:induction false} SplitJoin(parts: seq<string>, sep: char)
    requires |parts| >= 1
    requires forall i :: 0 <= i < |parts| ==> sep !in parts[i]
    ensures Split(Join(parts, sep), sep) == parts
    decreases |parts|, |parts[0]|
  {
    if parts[0] == [] {
      if |parts| == 1 {
      } else {
        SplitJoin(parts[1..], sep);
        assert Join(parts, sep) == [sep] + Join(parts[1..], sep);
        assert ([sep] + Join(parts[1..], sep))[1..] == Join(parts[1..], sep);
        assert [""] + parts[1..] == parts;
      }
    } else {
      var c := parts[0][0];
      var tail := [parts[0][1..]] + parts[1..];
      assert tail[1..] == parts[1..];
      assert Join(tail, sep) == if |parts| == 1 then parts[0][1..] else parts[0][1..] + [sep] + Join(parts[1..], sep);
      assert Join(parts, sep) == [c] + Join(tail, sep);
      assert forall i :: 0 <= i < |tail| ==> sep !in tail[i] by {
        forall i | 0 <= i < |tail| ensures sep !in tail[i] {
          if i == 0 {
            assert forall x :: x in parts[0][1..] ==> x in parts[0];
          } else {
            assert tail[i] == parts[i];
          }
        }
      }
      SplitJoin(tail, sep);
      assert ([c] + Join(tail, sep))[1..] == Join(tail, sep);
      assert c != sep by { assert c in parts[0]; }
      assert [c] + tail[0] == parts[0];
      assert [[c] + tail[0]] + tail[1..] == parts;
    }
  }

  /** A string holds the separator exactly when splitting it gives a second segment. */
  lemma {:induction false} SplitHasSecond(s: string, sep: char)
    ensures sep in s <==> |Split(s, sep)| >= 2
    decreases |s|
  {
    if s != [] && s[0] != sep {
      SplitHasSecond(s[1..], sep);
      assert sep in s <==> sep in s[1..] by {
        assert s == [s[0]] + s[1..];
      }
    }
  }

  /** `strings.ReplaceAll(s, string(from), string(to))` for single characters. */
  function ReplaceAll(s: string, from: char, to: char): (r: string)
    ensures |r| == |s|
    ensures forall i :: 0 <= i < |s| ==> r[i] == (if s[i] == from then to else s[i])
    decreases |s|
  {
    if s == [] then [] else [if s[0] == from then to else s[0]] + ReplaceAll(s[1..], from, to)
  }

  predicate IsDigit(c: char) { '0' <= c <= '9' }

  /** The value of a string of decimal digits, most significant first. */
  function DigitsValue(s: string): nat
    requires forall i :: 0 <= i < |s| ==> IsDigit(s[i])
    decreases |s|
  {
    if s == [] then 0
    else
      assert IsDigit(s[|s| - 1]);
      DigitsValue(s[..|s| - 1]) * 10 + (s[|s| - 1] as int - '0' as int)
  }

  const MaxUint64: nat := 0xFFFF_FFFF_FFFF_FFFF

  /** `strconv.ParseUint(s, 10, 64)`: a non-empty string of decimal digits (no sign, no
      prefix, no underscores) whose value fits in 64 bits; anything else is an error. */
  function ParseUint10(s: string): (r: Option<nat>)
    ensures r.Some? <==> |s| > 0 && (forall i :: 0 <= i < |s| ==> IsDigit(s[i])) && DigitsValue(s) <= MaxUint64
    ensures r.Some? ==> r.value <= MaxUint64
  {
    if |s| > 0 && (forall i :: 0 <= i < |s| ==> IsDigit(s[i])) && DigitsValue(s) <= MaxUint64
    then Some(DigitsValue(s))
    else None
  }

  /** The decimal rendering of `n` (`strconv.FormatUint(n, 10)`), used to state the round trip. */
  function Decimal(n: nat): (r: string)
    ensures |r| > 0
    ensures forall i :: 0 <= i < |r| ==> IsDigit(r[i])
    decreases n
  {
    if n < 10 then [('0' as int + n) as char]
    else Decimal(n / 10) + [('0' as int + n % 10) as char]
  }

  lemma {:induction false} DigitsValueDecimal(n: nat)
    ensures DigitsValue(Decimal(n)) == n
    decreases n
  {
    if n >= 10 {
      DigitsValueDecimal(n / 10);
      var d := Decimal(n);
      assert d[..|d| - 1] == Decimal(n / 10);
    }
  }

  /** Every 64-bit value parses back from its decimal rendering. */
  lemma ParseDecimal(n: nat)
    requires n <= MaxUint64
    ensures ParseUint10(Decimal(n)) == Some(n)
  {
    DigitsValueDecimal(n);
  }

  /** Go's `isSeparator` for ASCII: everything except letters, digits and underscore. */
  predicate IsSeparator(c: char)
  {
    !(('a' <= c <= 'z') || ('A' <= c <= 'Z') || IsDigit(c) || c == '_' || c as int > 0x7F)
  }

  /** `unicode.ToTitle` on ASCII: lower-case letters become upper-case. */
  function ToTitle(c: char): char
  {
    if 'a' <= c <= 'z' then (c as int - 32) as char else c
  }

  function TitleAfter(prev: char, s: string): (r: string)
    ensures |r| == |s|
    decreases |s|
  {
    if s == [] then []
    else [if IsSeparator(prev) then ToTitle(s[0]) else s[0]] + TitleAfter(s[0], s[1..])
  }

  /** `strings.Title(s)`: the first letter of every word is upper-cased, a word starting
      at the beginning of the string or after a separator. */
  function Title(s: string): (r: string)
    ensures |r| == |s|
  {
    TitleAfter(' ', s)
  }

  lemma {:induction false} TitleAfterAt(prev: char, s: string, i: nat)
    requires i < |s|
    ensures TitleAfter(prev, s)[i] ==
      var before := if i == 0 then prev else s[i - 1];
      if IsSeparator(before) then ToTitle(s[i]) else s[i]
    decreases |s|
  {
    if i > 0 {
      TitleAfterAt(s[0], s[1..], i - 1);
    }
  }

  /** Each character is upper-cased exactly when it starts a word, and is otherwise kept. */
  lemma TitleAt(s: string, i: nat)
    requires i < |s|
    ensures Title(s)[i] == if i == 0 || IsSeparator(s[i - 1]) then ToTitle(s[i]) else s[i]
  {
    TitleAfterAt(' ', s, i);
  }

  lemma {:induction false} TitleAfterIdempotent(p: char, q: char, s: string)
    requires IsSeparator(p) == IsSeparator(q)
    ensures TitleAfter(q, TitleAfter(p, s)) == TitleAfter(p, s)
    decreases |s|
  {
    if s != [] {
      var t := TitleAfter(p, s);
      assert t[1..] == TitleAfter(s[0], s[1..]);
      assert IsSeparator(t[0]) == IsSeparator(s[0]);
      TitleAfterIdempotent(s[0], t[0], s[1..]);
    }
  }

  /** `strings.Title` is idempotent: a key it produced is left alone by a second pass. */
  lemma TitleIdempotent(s: string)
    ensures Title(Title(s)) == Title(s)
  {
    TitleAfterIdempotent(' ', ' ', s);
  }
}
