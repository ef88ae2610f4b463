/** The string operations the components apply: `toLowerCase`, `replace(/\s+/g, "-")` (the URL
    slug), `includes`, `Array.prototype.join(",")`, `String.prototype.split(",")`, and the decimal
    rendering and reading of non-negative integers (`toString`, `Number`). */
module Text {

  import opened Common

  /** The characters JavaScript's `\s` class matches. */
  predicate IsSpace(c: char)
  {
    || c == ' ' || c == '\t' || c == '\n' || c == '\r' || c == '\U{B}' || c == '\U{C}'
    || c == '\U{A0}' || c == '\U{1680}' || ('\U{2000}' <= c <= '\U{200A}')
    || c == '\U{2028}' || c == '\U{2029}' || c == '\U{202F}' || c == '\U{205F}'
    || c == '\U{3000}' || c == '\U{FEFF}'
  }

  /** `toLowerCase` on one character (ASCII letters; see README for the rest of Unicode). */
  function Lower(c: char): (r: char)
    ensures 'A' <= c <= 'Z' ==> r != c && 'a' <= r <= 'z'
    ensures !('A' <= c <= 'Z') ==> r == c
  {
    if 'A' <= c <= 'Z' then (c as int - 'A' as int + 'a' as int) as char else c
  }

  predicate IsLowered(c: char)
  {
    !('A' <= c <= 'Z')
  }

  /** `toLowerCase` on a string, character by character. */
  function LowerString(s: string): (r: string)
    ensures |r| == |s|
    ensures forall i :: 0 <= i < |s| ==> r[i] == Lower(s[i])
  {
    seq(|s|, i requires 0 <= i < |s| => Lower(s[i]))
  }

  /** Lower-casing distributes over a first character and the rest. */
  lemma LowerStringCons(s: string)
    requires s != []
    ensures LowerString(s) == [Lower(s[0])] + LowerString(s[1..])
  {
  }

  /** Drops the leading run of whitespace. */
  function DropSpaces(s: string): (r: string)
    ensures |r| <= |s| && r == s[|s| - |r|..]
    ensures r == [] || !IsSpace(r[0])
  {
    if s != [] && IsSpace(s[0]) then DropSpaces(s[1..]) else s
  }

  /** `text.toLowerCase().replace(/\s+/g, "-")`: lower-cases the text and replaces every maximal
      run of whitespace by a single "-". */
  function Slug(s: string): (r: string)
    ensures |r| <= |s|
    decreases |s|
  {
    if s == [] then []
    else if IsSpace(s[0]) then "-" + Slug(DropSpaces(s[1..]))
    else [Lower(s[0])] + Slug(s[1..])
  }

  /** A slug holds no whitespace and no upper-case letter. */
  lemma {:induction false} SlugCharacters(s: string)
    ensures forall i :: 0 <= i < |Slug(s)| ==> !IsSpace(Slug(s)[i]) && IsLowered(Slug(s)[i])
    decreases |s|
  {
    if s != [] {
      if IsSpace(s[0]) {
        SlugCharacters(DropSpaces(s[1..]));
      } else {
        SlugCharacters(s[1..]);
      }
    }
  }

  /** On text without whitespace the slug is just the lower-cased text. */
  lemma {:induction false} SlugOfSpaceFree(s: string)
    requires forall i :: 0 <= i < |s| ==> !IsSpace(s[i])
    ensures Slug(s) == LowerString(s)
  {
    if s != [] {
      SlugOfSpaceFree(s[1..]);
      LowerStringCons(s);
    }
  }

  /** Building a slug from a slug changes nothing. */
  lemma SlugIdempotent(s: string)
    ensures Slug(Slug(s)) == Slug(s)
  {
    var t := Slug(s);
    SlugCharacters(s);
    SlugOfSpaceFree(t);
    LowerStringOfLowered(t);
  }

  lemma {:induction false} LowerStringOfLowered(s: string)
    requires forall i :: 0 <= i < |s| ==> IsLowered(s[i])
    ensures LowerString(s) == s
  {
  }

  /** A whitespace run between two words becomes exactly one "-". */
  lemma SlugOfTwoWords(a: string, gap: string, b: string)
    requires forall i :: 0 <= i < |a| ==> !IsSpace(a[i])
    requires gap != [] && forall i :: 0 <= i < |gap| ==> IsSpace(gap[i])
    requires b == [] || !IsSpace(b[0])
    ensures Slug(a + gap + b) == LowerString(a) + "-" + Slug(b)
  {
    assert a + gap + b == a + (gap + b);
    SlugAfterWord(a, gap + b);
    SlugOfSpaceFree(a);
    SlugOfRun(gap, b);
  }

  lemma SlugOfRun(gap: string, b: string)
    requires gap != [] && forall i :: 0 <= i < |gap| ==> IsSpace(gap[i])
    requires b == [] || !IsSpace(b[0])
    ensures Slug(gap + b) == "-" + Slug(b)
  {
    var rest := gap + b;
    assert IsSpace(rest[0]);
    assert rest[1..] == gap[1..] + b;
    DropSpacesOfRun(gap[1..], b);
  }

  /** The slug of a word followed by anything is the word's slug followed by the slug of the
      rest: a word does not interact with what follows it. */
  lemma {:induction false} SlugAfterWord(a: string, rest: string)
    requires forall i :: 0 <= i < |a| ==> !IsSpace(a[i])
    ensures Slug(a + rest) == Slug(a) + Slug(rest)
  {
    if a == [] {
      assert a + rest == rest;
    } else {
      var c, tail := a[0], a[1..];
      assert !IsSpace(c);
      assert forall i :: 0 <= i < |tail| ==> !IsSpace(tail[i]) by {
        forall i | 0 <= i < |tail| ensures !IsSpace(tail[i]) {
          assert tail[i] == a[i + 1];
        }
      }
      SlugAfterWord(tail, rest);
      var x := tail + rest;
      assert a == [c] + tail;
      ConsAppend(c, tail, rest);
      SlugOfWordStart(c, x);
      SlugOfWordStart(c, tail);
      assert Slug(a + rest) == [Lower(c)] + Slug(x);
      assert Slug(a) == [Lower(c)] + Slug(tail);
      ConsAppend(Lower(c), Slug(tail), Slug(rest));
    }
  }

  /** A character that is not whitespace starts the slug with its lower-case form. */
  lemma SlugOfWordStart(c: char, s: string)
    requires !IsSpace(c)
    ensures Slug([c] + s) == [Lower(c)] + Slug(s)
  {
    assert ([c] + s)[1..] == s;
  }

  lemma {:induction false} DropSpacesOfRun(gap: string, b: string)
    requires forall i :: 0 <= i < |gap| ==> IsSpace(gap[i])
    requires b == [] || !IsSpace(b[0])
    ensures DropSpaces(gap + b) == b
  {
    if gap == [] {
      assert gap + b == b;
    } else {
      assert (gap + b)[1..] == gap[1..] + b;
      DropSpacesOfRun(gap[1..], b);
    }
  }

  /** The needle occurs in the text at position `i`. */
  predicate OccursAt(hay: string, needle: string, i: int)
  {
    0 <= i && i + |needle| <= |hay| && hay[i..i + |needle|] == needle
  }

  /** `hay.includes(needle)`: the needle occurs at some position of the text. */
  predicate Contains(hay: string, needle: string)
  {
    exists i :: 0 <= i <= |hay| && OccursAt(hay, needle, i)
  }

  /** A text that lacks some character of the needle does not contain the needle. */
  lemma NotContainsByChar(hay: string, needle: string, c: char)
    requires c in needle && c !in hay
    ensures !Contains(hay, needle)
  {
  }

  /** Lower-casing both sides keeps an occurrence. */
  lemma ContainsLowered(hay: string, needle: string)
    requires Contains(hay, needle)
    ensures Contains(LowerString(hay), LowerString(needle))
  {
    var i :| 0 <= i <= |hay| && OccursAt(hay, needle, i);
    var lh, ln := LowerString(hay), LowerString(needle);
    assert lh[i..i + |ln|] == ln by {
      forall k | 0 <= k < |ln| ensures lh[i..i + |ln|][k] == ln[k] {
        assert hay[i + k] == needle[k];
      }
    }
    assert OccursAt(lh, ln, i);
  }

  /** A text shorter than the needle does not contain it. */
  lemma NotContainsLonger(hay: string, needle: string)
    requires |needle| > |hay|
    ensures !Contains(hay, needle)
  {
  }

  /** The upper-case form of a lower-case ASCII letter. */
  function Upper(c: char): (r: char)
    requires 'a' <= c <= 'z'
    ensures 'A' <= r <= 'Z' && Lower(r) == c
  {
    (c as int - 'a' as int + 'A' as int) as char
  }

  /** A lower-case letter occurs in the lower-cased text exactly when it or its upper-case form
      occurs in the text. */
  lemma LowerHas(s: string, c: char)
    requires 'a' <= c <= 'z'
    ensures c in LowerString(s) <==> (c in s || Upper(c) in s)
  {
    var l := LowerString(s);
    if c in l {
      var i :| 0 <= i < |l| && l[i] == c;
      assert s[i] == c || s[i] == Upper(c);
    }
    if c in s {
      var i :| 0 <= i < |s| && s[i] == c;
      assert l[i] == c;
    }
    if Upper(c) in s {
      var i :| 0 <= i < |s| && s[i] == Upper(c);
      assert l[i] == c;
    }
  }

  // ---------------------------------------------------------------------------
  // Decimal numerals

  predicate IsDigit(c: char)
  {
    '0' <= c <= '9'
  }

  predicate IsNumeral(s: string)
  {
    forall i :: 0 <= i < |s| ==> IsDigit(s[i])
  }

  function DigitChar(d: nat): (c: char)
    requires d < 10
    ensures IsDigit(c)
  {
    ('0' as int + d) as char
  }

  /** `n.toString()` for a non-negative integer. */
  function NatToString(n: nat): (r: string)
    ensures r != [] && IsNumeral(r)
  {
    if n < 10 then [DigitChar(n)] else NatToString(n / 10) + [DigitChar(n % 10)]
  }

  /** `Number(s)` for a string of decimal digits (the empty string reads as 0, as in JavaScript). */
  function ParseDecimal(s: string): nat
    requires IsNumeral(s)
  {
    if s == [] then 0 else 10 * ParseDecimal(s[..|s| - 1]) + (s[|s| - 1] as int - '0' as int)
  }

  /** Reading back a rendered number gives the number. */
  lemma {:induction false} ParseOfNatToString(n: nat)
    ensures ParseDecimal(NatToString(n)) == n
  {
    if n >= 10 {
      var s := NatToString(n);
      assert s[..|s| - 1] == NatToString(n / 10);
      ParseOfNatToString(n / 10);
    }
  }

  /** `Math.floor(x / y)` is Dafny's `/` for a positive divisor; `x % y` in JavaScript keeps the
      sign of `x`: it is `x - y * q` for the quotient `q` truncated toward zero, which for a
      negative `x` is `-((-x) / y)`. */
  function JsRem(x: int, y: int): (r: int)
    requires y > 0
    ensures x >= 0 ==> r == x % y
    ensures x < 0 ==> -y < r <= 0 && r == x + y * ((-x) / y)
  {
    if x >= 0 then x % y else -((-x) % y)
  }

  /** `String(i)` for an integer. */
  function IntToString(i: int): string
  {
    if i < 0 then "-" + NatToString(-i) else NatToString(i)
  }

  // ---------------------------------------------------------------------------
  // join and split

  /** `pieces.join(sep)`. */
  function Join(pieces: seq<string>, sep: char): (r: string)
  {
    if pieces == [] then ""
    else if |pieces| == 1 then pieces[0]
    else pieces[0] + [sep] + Join(pieces[1..], sep)
  }

  /** `s.split(sep)`: the maximal separator-free pieces, always at least one. */
  function Split(s: string, sep: char): (r: seq<string>)
    ensures |r| >= 1
    ensures forall k :: 0 <= k < |r| ==> sep !in r[k]
    decreases |s|
  {
    match FirstIndexOf(s, sep)
    case None => [s]
    case Some(i) => [s[..i]] + Split(s[i + 1..], sep)
  }

  function FirstIndexOf(s: string, c: char): (r: Option<nat>)
    ensures r.Some? ==> r.value < |s| && s[r.value] == c && c !in s[..r.value]
    ensures r.None? ==> c !in s
  {
    if s == [] then None
    else if s[0] == c then Some(0)
    else match FirstIndexOf(s[1..], c)
      case None => None
      case Some(i) =>
        assert s[..i + 1] == [s[0]] + s[1..][..i];
        Some(i + 1)
  }

  /** Splitting and joining again gives back the text. */
  lemma {:induction false} JoinOfSplit(s: string, sep: char)
    ensures Join(Split(s, sep), sep) == s
    decreases |s|
  {
    var f := FirstIndexOf(s, sep);
    if f.Some? {
      var i := f.value;
      var rest := Split(s[i + 1..], sep);
      assert Split(s, sep) == [s[..i]] + rest;
      JoinOfSplit(s[i + 1..], sep);
      JoinCons(s[..i], rest, sep);
      assert s == s[..i] + [sep] + s[i + 1..];
    }
  }

  lemma JoinCons(x: string, ys: seq<string>, sep: char)
    requires |ys| >= 1
    ensures Join([x] + ys, sep) == x + [sep] + Join(ys, sep)
  {
    assert ([x] + ys)[1..] == ys;
  }

  /** Joining separator-free pieces and splitting again gives back the pieces. */
  lemma {:induction false} SplitOfJoin(pieces: seq<string>, sep: char)
    requires |pieces| >= 1
    requires forall k :: 0 <= k < |pieces| ==> sep !in pieces[k]
    ensures Split(Join(pieces, sep), sep) == pieces
  {
    if |pieces| == 1 {
      NoFirstIndex(pieces[0], sep);
    } else {
      var s := Join(pieces, sep);
      var p := pieces[0];
      assert s == p + [sep] + Join(pieces[1..], sep);
      FirstIndexAfterPiece(p, sep, Join(pieces[1..], sep));
      assert s[..|p|] == p;
      assert s[|p| + 1..] == Join(pieces[1..], sep);
      SplitOfJoin(pieces[1..], sep);
    }
  }

  lemma NoFirstIndex(s: string, c: char)
    requires c !in s
    ensures FirstIndexOf(s, c) == None
  {
  }

  lemma {:induction false} FirstIndexAfterPiece(p: string, c: char, rest: string)
    requires c !in p
    ensures FirstIndexOf(p + [c] + rest, c) == Some(|p|)
  {
    if p != [] {
      assert (p + [c] + rest)[1..] == p[1..] + [c] + rest;
      FirstIndexAfterPiece(p[1..], c, rest);
    }
  }
}
