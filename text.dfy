/** String helpers shared by the four "copy as text" serialisers: JavaScript's
    `Array.prototype.join`, the decimal rendering of a number inside a template
    literal, and the split of a text into its lines, which is how the lemmas of
    the section modules state the exact shape of a copied text. */
module Text {

  /** `xs.join(sep)`: the elements in order, `sep` between neighbours, nothing after the last. */
  function Join<T>(xs: seq<seq<T>>, sep: seq<T>): seq<T>
  {
    if |xs| == 0 then []
    else if |xs| == 1 then xs[0]
    else xs[0] + sep + Join(xs[1..], sep)
  }

  /** The first `k` elements, joined, are a prefix of all of them joined. */
  lemma {:induction false} JoinTakeIsPrefix<T>(xs: seq<seq<T>>, sep: seq<T>, k: nat)
    requires k <= |xs|
    ensures Join(xs[..k], sep) <= Join(xs, sep)
  {
    if k == 0 {
    } else if |xs| == 1 || k == 1 {
      assert xs[..k] == [xs[0]];
    } else {
      JoinTakeIsPrefix(xs[1..], sep, k - 1);
      assert xs[..k][1..] == xs[1..][..k - 1];
      var rest, all := Join(xs[1..][..k - 1], sep), Join(xs[1..], sep);
      assert Join(xs[..k], sep) == xs[0] + sep + rest;
      assert Join(xs, sep) == xs[0] + sep + all;
      assert all == rest + all[|rest|..];
      assert Join(xs, sep) == (xs[0] + sep + rest) + all[|rest|..];
    }
  }

  /** Whether a text is a single line. */
  predicate LineFree(s: string)
  {
    '\n' !in s
  }

  /** The lines of a text: the pieces between consecutive line feeds; a text
      without a line feed is one line, the empty text one empty line. */
  function Lines(s: string): (ls: seq<string>)
    ensures |ls| >= 1
  {
    if |s| == 0 then [""]
    else if s[0] == '\n' then [""] + Lines(s[1..])
    else
      var rest := Lines(s[1..]);
      [[s[0]] + rest[0]] + rest[1..]
  }

  lemma {:induction false} LinesOfLineFree(s: string)
    requires LineFree(s)
    ensures Lines(s) == [s]
  {
    if |s| > 0 {
      LinesOfLineFree(s[1..]);
      assert [s[0]] + s[1..] == s;
    }
  }

  /** A line feed between two texts splits exactly there. */
  lemma {:induction false} LinesAppend(a: string, b: string)
    ensures Lines(a + "\n" + b) == Lines(a) + Lines(b)
  {
    var s := a + "\n" + b;
    if |a| == 0 {
      assert s == "\n" + b && s[1..] == b;
    } else {
      assert s[0] == a[0];
      assert s[1..] == a[1..] + "\n" + b;
      LinesAppend(a[1..], b);
      if a[0] != '\n' {
        var rest := Lines(a[1..]);
        assert Lines(s[1..]) == rest + Lines(b);
        assert (rest + Lines(b))[0] == rest[0];
        assert (rest + Lines(b))[1..] == rest[1..] + Lines(b);
      }
    }
  }

  /** A single line after a line feed adds exactly that line. */
  lemma LinesPush(p: string, x: string)
    requires LineFree(x)
    ensures Lines(p + "\n" + x) == Lines(p) + [x]
  {
    LinesAppend(p, x);
    LinesOfLineFree(x);
  }

  /** A blank line, then any text. */
  lemma LinesOfBlankThen(p: string, rest: string)
    ensures Lines(p + "\n" + "\n" + rest) == Lines(p) + [""] + Lines(rest)
  {
    assert p + "\n" + "\n" + rest == (p + "\n" + "") + "\n" + rest;
    LinesPush(p, "");
    LinesAppend(p + "\n" + "", rest);
  }

  /** A title line, a blank line, then any text. */
  lemma LinesOfTitled(title: string, rest: string)
    requires LineFree(title)
    ensures Lines(title + "\n" + "\n" + rest) == [title, ""] + Lines(rest)
  {
    LinesOfLineFree(title);
    LinesOfBlankThen(title, rest);
  }

  /** Three single lines, then any text. */
  lemma LinesOfThreeThen(a: string, b: string, c: string, rest: string)
    requires LineFree(a) && LineFree(b) && LineFree(c)
    ensures Lines(a + "\n" + b + "\n" + c + "\n" + rest) == [a, b, c] + Lines(rest)
  {
    LinesOfLineFree(a);
    LinesPush(a, b);
    LinesPush(a + "\n" + b, c);
    LinesAppend(a + "\n" + b + "\n" + c, rest);
  }

  /** Four single lines. */
  lemma LinesOfFour(a: string, b: string, c: string, d: string)
    requires LineFree(a) && LineFree(b) && LineFree(c) && LineFree(d)
    ensures Lines(a + "\n" + b + "\n" + c + "\n" + d) == [a, b, c, d]
  {
    LinesOfLineFree(d);
    LinesOfThreeThen(a, b, c, d);
  }

  /** A blank line, then a single line. */
  lemma LinesPushBlank(p: string, x: string)
    requires LineFree(x)
    ensures Lines(p + "\n" + "\n" + x) == Lines(p) + ["", x]
  {
    assert p + "\n" + "\n" + x == (p + "\n" + "") + "\n" + x;
    LinesPush(p, "");
    LinesPush(p + "\n" + "", x);
  }

  /** The layout both analysis cards copy: a title, a blank line, a labelled
      pair of lines, a blank line, a labelled block, a blank line, a labelled
      pair of lines. */
  lemma LinesOfCard(title: string, l1: string, x1: string, x2: string, l2: string, block: string,
                    l3: string, y1: string, y2: string)
    requires LineFree(title) && LineFree(l1) && LineFree(x1) && LineFree(x2)
    requires LineFree(l2) && LineFree(l3) && LineFree(y1) && LineFree(y2)
    ensures Lines(title + "\n" + "\n" + l1 + "\n" + x1 + "\n" + x2 + "\n" + "\n" + l2 + "\n" + block
                  + "\n" + "\n" + l3 + "\n" + y1 + "\n" + y2)
      == [title, "", l1, x1, x2, "", l2] + Lines(block) + ["", l3, y1, y2]
  {
    var head := title + "\n" + "\n" + l1 + "\n" + x1 + "\n" + x2;
    var mid := head + "\n" + "\n" + l2 + "\n" + block;
    var headLines := [title, "", l1, x1, x2];
    assert Lines(mid) == headLines + ["", l2] + Lines(block) by {
      LinesOfCardHead(title, l1, x1, x2);
      LinesOfLabelledBlock(head, l2, block);
    }
    assert headLines + ["", l2] == [title, "", l1, x1, x2, "", l2];
    LinesOfLabelledPair(mid, l3, y1, y2);
  }

  lemma LinesOfCardHead(title: string, l1: string, x1: string, x2: string)
    requires LineFree(title) && LineFree(l1) && LineFree(x1) && LineFree(x2)
    ensures Lines(title + "\n" + "\n" + l1 + "\n" + x1 + "\n" + x2) == [title, "", l1, x1, x2]
  {
    LinesOfLineFree(title);
    LinesPushBlank(title, l1);
    LinesPush(title + "\n" + "\n" + l1, x1);
    LinesPush(title + "\n" + "\n" + l1 + "\n" + x1, x2);
  }

  lemma LinesOfLabelledBlock(p: string, l: string, block: string)
    requires LineFree(l)
    ensures Lines(p + "\n" + "\n" + l + "\n" + block) == Lines(p) + ["", l] + Lines(block)
  {
    LinesPushBlank(p, l);
    LinesAppend(p + "\n" + "\n" + l, block);
  }

  lemma LinesOfLabelledPair(p: string, l: string, y1: string, y2: string)
    requires LineFree(l) && LineFree(y1) && LineFree(y2)
    ensures Lines(p + "\n" + "\n" + l + "\n" + y1 + "\n" + y2) == Lines(p) + ["", l, y1, y2]
  {
    LinesPushBlank(p, l);
    LinesPush(p + "\n" + "\n" + l, y1);
    LinesPush(p + "\n" + "\n" + l + "\n" + y1, y2);
  }

  lemma LineFreeAppend(a: string, b: string)
    requires LineFree(a) && LineFree(b)
    ensures LineFree(a + b)
  {
  }

  /** Joining single lines with a single-line separator gives a single line. */
  lemma {:induction false} JoinLineFree(xs: seq<string>, sep: string)
    requires LineFree(sep)
    requires forall i :: 0 <= i < |xs| ==> LineFree(xs[i])
    ensures LineFree(Join(xs, sep))
  {
    if |xs| > 1 {
      JoinLineFree(xs[1..], sep);
    }
  }

  /** Joining single lines with a line feed gives back exactly those lines;
      joining none gives one empty line. */
  lemma {:induction false} LinesOfJoinedLines(xs: seq<string>)
    requires forall i :: 0 <= i < |xs| ==> LineFree(xs[i])
    ensures Lines(Join(xs, "\n")) == if |xs| == 0 then [""] else xs
  {
    if |xs| == 1 {
      LinesOfLineFree(xs[0]);
    } else if |xs| > 1 {
      LinesOfJoinedLines(xs[1..]);
      LinesOfLineFree(xs[0]);
      LinesAppend(xs[0], Join(xs[1..], "\n"));
      assert [xs[0]] + xs[1..] == xs;
    }
  }

  /** Joining texts with a blank line between them: the lines of the result are
      the lines of each text, with one empty line between consecutive texts. */
  lemma {:induction false} LinesOfJoinedBlocks(es: seq<string>, ls: seq<seq<string>>)
    requires |ls| == |es|
    requires forall i :: 0 <= i < |es| ==> Lines(es[i]) == ls[i]
    ensures Lines(Join(es, "\n\n")) == if |es| == 0 then [""] else Join(ls, [""])
  {
    if |es| > 1 {
      var tail := Join(es[1..], "\n\n");
      LinesOfJoinedBlocks(es[1..], ls[1..]);
      assert es[0] + "\n\n" + tail == es[0] + "\n" + ("" + "\n" + tail);
      LinesAppend(es[0], "" + "\n" + tail);
      LinesAppend("", tail);
    }
  }

  /** The character of a decimal digit. */
  function Digit(d: nat): (c: char)
    requires d < 10
    ensures '0' <= c <= '9'
  {
    (48 + d) as char
  }

  /** A number as a template literal writes it: decimal, no sign, no leading zero. */
  function NatToString(n: nat): (s: string)
    ensures |s| >= 1
    ensures forall i :: 0 <= i < |s| ==> '0' <= s[i] <= '9'
    ensures s[0] == '0' ==> n == 0
  {
    if n < 10 then [Digit(n)] else NatToString(n / 10) + [Digit(n % 10)]
  }

  /** The number a string of decimal digits denotes. */
  function DecimalValue(s: string): nat
    requires forall i :: 0 <= i < |s| ==> '0' <= s[i] <= '9'
  {
    if |s| == 0 then 0
    else 10 * DecimalValue(s[..|s| - 1]) + (s[|s| - 1] as int - 48)
  }

  /** The rendering is faithful: reading the digits back gives the number. */
  lemma {:induction false} DecimalRoundTrip(n: nat)
    ensures DecimalValue(NatToString(n)) == n
  {
    if n >= 10 {
      DecimalRoundTrip(n / 10);
      var s := NatToString(n);
      assert s[..|s| - 1] == NatToString(n / 10);
    }
  }

  lemma NumberIsLineFree(n: nat)
    ensures LineFree(NatToString(n))
  {
    var s := NatToString(n);
    assert forall i :: 0 <= i < |s| ==> s[i] != '\n';
  }
}
