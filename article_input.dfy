/** The article box: its text, the length gate applied on submit, and when the
    submit button is disabled. Length is measured after `String.prototype.trim`,
    which drops leading and trailing JavaScript white space and line terminators,
    and, as JavaScript's `length` does, in UTF-16 code units. */
module ArticleInput {
  import opened Types

  const MinArticleLength: nat := 50

  /** JavaScript's WhiteSpace and LineTerminator characters (the ones `trim` drops). */
  predicate IsJsWhitespace(c: char)
  {
    || c == '\t' || c == '\n' || c == '\U{000B}' || c == '\U{000C}' || c == '\r'
    || c == ' ' || c == '\U{00A0}' || c == '\U{1680}'
    || ('\U{2000}' <= c <= '\U{200A}')
    || c == '\U{2028}' || c == '\U{2029}' || c == '\U{202F}' || c == '\U{205F}'
    || c == '\U{3000}' || c == '\U{FEFF}'
  }

  predicate AllWhitespace(s: string)
  {
    forall i :: 0 <= i < |s| ==> IsJsWhitespace(s[i])
  }

  /** The UTF-16 code units of one character: a character outside the Basic
      Multilingual Plane is a surrogate pair. */
  function CodeUnits(c: char): nat
  {
    if c as int >= 0x1_0000 then 2 else 1
  }

  /** `s.length` in JavaScript: the number of UTF-16 code units. */
  function Utf16Length(s: string): (n: nat)
    ensures |s| <= n <= 2 * |s|
  {
    if s == [] then 0 else CodeUnits(s[0]) + Utf16Length(s[1..])
  }

  lemma {:induction false} Utf16LengthAppend(a: string, b: string)
    ensures Utf16Length(a + b) == Utf16Length(a) + Utf16Length(b)
  {
    if a == [] {
      assert a + b == b;
    } else {
      Utf16LengthAppend(a[1..], b);
      assert (a + b)[1..] == a[1..] + b;
    }
  }

  /** Within the Basic Multilingual Plane, code units and characters agree. */
  lemma {:induction false} BmpLengthIsCharacters(s: string)
    requires forall i :: 0 <= i < |s| ==> s[i] as int < 0x1_0000
    ensures Utf16Length(s) == |s|
  {
    if s != [] {
      BmpLengthIsCharacters(s[1..]);
    }
  }

  /** Outside it, every character counts twice. */
  lemma {:induction false} AstralLengthIsDouble(s: string)
    requires forall i :: 0 <= i < |s| ==> s[i] as int >= 0x1_0000
    ensures Utf16Length(s) == 2 * |s|
  {
    if s != [] {
      AstralLengthIsDouble(s[1..]);
    }
  }

  /** The number of leading white-space characters. */
  function LeadingWhitespace(s: string): (n: nat)
    ensures n <= |s|
    ensures forall i :: 0 <= i < n ==> IsJsWhitespace(s[i])
    ensures n < |s| ==> !IsJsWhitespace(s[n])
  {
    if |s| > 0 && IsJsWhitespace(s[0]) then 1 + LeadingWhitespace(s[1..]) else 0
  }

  /** The number of trailing white-space characters. */
  function TrailingWhitespace(s: string): (n: nat)
    ensures n <= |s|
    ensures forall i :: |s| - n <= i < |s| ==> IsJsWhitespace(s[i])
    ensures n < |s| ==> !IsJsWhitespace(s[|s| - 1 - n])
  {
    if |s| > 0 && IsJsWhitespace(s[|s| - 1]) then 1 + TrailingWhitespace(s[..|s| - 1]) else 0
  }

  /** `s.trim()`. */
  function Trim(s: string): (t: string)
    ensures |t| <= |s|
    ensures t == [] || (!IsJsWhitespace(t[0]) && !IsJsWhitespace(t[|t| - 1]))
  {
    var rest := s[LeadingWhitespace(s)..];
    rest[..|rest| - TrailingWhitespace(rest)]
  }

  /** Trimming never lengthens the text, in code units. */
  lemma TrimShortens(s: string)
    ensures Utf16Length(Trim(s)) <= Utf16Length(s)
  {
    var n := LeadingWhitespace(s);
    var rest := s[n..];
    var m := |rest| - TrailingWhitespace(rest);
    assert s == s[..n] + rest[..m] + rest[m..];
    MiddleShortens(s[..n], rest[..m], rest[m..]);
  }

  lemma MiddleShortens(pre: string, mid: string, post: string)
    ensures Utf16Length(mid) <= Utf16Length(pre + mid + post)
  {
    Utf16LengthAppend(pre, mid);
    Utf16LengthAppend(pre + mid, post);
  }

  /** Trim drops exactly the white space around the text and keeps everything
      between, interior white space included. */
  lemma {:induction false} TrimExact(pre: string, mid: string, post: string)
    requires AllWhitespace(pre) && AllWhitespace(post)
    requires mid == [] || (!IsJsWhitespace(mid[0]) && !IsJsWhitespace(mid[|mid| - 1]))
    ensures Trim(pre + mid + post) == mid
  {
    var s := pre + mid + post;
    if mid == [] {
      assert AllWhitespace(s);
      assert LeadingWhitespace(s) == |s|;
    } else {
      LeadingOfPadded(pre, mid + post);
      assert s == pre + (mid + post);
      var rest := s[|pre|..];
      assert rest == mid + post;
      TrailingOfPadded(mid, post);
    }
  }

  lemma {:induction false} LeadingOfPadded(pre: string, s: string)
    requires AllWhitespace(pre)
    requires s == [] || !IsJsWhitespace(s[0])
    ensures LeadingWhitespace(pre + s) == |pre|
  {
    if |pre| > 0 {
      LeadingOfPadded(pre[1..], s);
      assert (pre + s)[1..] == pre[1..] + s;
    } else {
      assert pre + s == s;
    }
  }

  lemma {:induction false} TrailingOfPadded(mid: string, post: string)
    requires AllWhitespace(post)
    requires mid == [] || !IsJsWhitespace(mid[|mid| - 1])
    ensures TrailingWhitespace(mid + post) == |post|
  {
    if |post| > 0 {
      var s := mid + post;
      TrailingOfPadded(mid, post[..|post| - 1]);
      assert s[..|s| - 1] == mid + post[..|post| - 1];
    } else {
      assert mid + post == mid;
    }
  }

  /** The trimmed text is empty exactly when the text is all white space. */
  lemma TrimEmptyIffBlank(s: string)
    ensures Trim(s) == [] <==> AllWhitespace(s)
  {
    var n := LeadingWhitespace(s);
    if n == |s| {
      assert s[..n] == s;
    } else {
      var rest := s[n..];
      assert rest[0] == s[n];
      var t := TrailingWhitespace(rest);
      assert t < |rest|;
    }
  }

  /** The gate `handleSubmit` applies before passing the text on: at least 50
      UTF-16 code units once trimmed. */
  predicate AcceptsArticle(text: string)
    ensures AcceptsArticle(text) ==> Utf16Length(text) >= MinArticleLength && !AllWhitespace(text)
  {
    TrimEmptyIffBlank(text);
    TrimShortens(text);
    Utf16Length(Trim(text)) >= MinArticleLength
  }

  /** `isLoading || !text.trim()`: the button is disabled exactly while
      loading or when the text is all white space. */
  predicate SubmitDisabled(isLoading: bool, text: string)
    ensures SubmitDisabled(isLoading, text) <==> isLoading || AllWhitespace(text)
  {
    TrimEmptyIffBlank(text);
    isLoading || Trim(text) == ""
  }

  /** A text the gate accepts has the button enabled when not loading ... */
  lemma AcceptedIsEnabled(text: string)
    requires AcceptsArticle(text)
    ensures !SubmitDisabled(false, text)
  {
  }

  /** ... but an enabled button does not mean the gate accepts: a text that is
      not blank yet shorter than the minimum can be submitted and is then
      rejected. */
  lemma EnabledButRejected(text: string)
    requires !AllWhitespace(text) && Utf16Length(text) < MinArticleLength
    ensures !SubmitDisabled(false, text) && !AcceptsArticle(text)
  {
    TrimEmptyIffBlank(text);
  }

  /** The gate counts code units, not characters: 25 characters from outside
      the Basic Multilingual Plane (emoji, say) with no white space around them
      pass it. */
  lemma AstralArticleAccepted(text: string)
    requires |text| == MinArticleLength / 2
    requires forall i :: 0 <= i < |text| ==> text[i] as int >= 0x1_0000
    ensures AcceptsArticle(text)
  {
    assert Trim(text) == text by {
      AstralIsNotWhitespace(text[0]);
      AstralIsNotWhitespace(text[|text| - 1]);
      TrimExact([], text, []);
      assert [] + text + [] == text;
    }
    assert Utf16Length(text) == MinArticleLength by {
      AstralLengthIsDouble(text);
    }
  }

  lemma AstralIsNotWhitespace(c: char)
    requires c as int >= 0x1_0000
    ensures !IsJsWhitespace(c)
  {
  }

  class ArticleInput {
    var text: string

    constructor ()
      ensures text == ""
    {
      text := "";
    }

    /** Typing in the box. */
    method OnChange(value: string)
      modifies this
      ensures text == value
    {
      text := value;
    }

    /** Submit: the text that is passed on to the analysis, if any. A text whose
        trimmed length is below the minimum is refused; otherwise the text is
        passed on as typed, untrimmed. */
    method HandleSubmit() returns (submitted: Option<string>)
      ensures submitted.Some? <==> AcceptsArticle(text)
      ensures submitted.Some? ==> submitted.value == text
    {
      if !AcceptsArticle(text) {
        return None;
      }
      return Some(text);
    }
  }
}
