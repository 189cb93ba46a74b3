/**
 * The part of Python's `int(text)` that the webhook verification relies on:
 * surrounding whitespace is ignored, one optional sign is allowed, and the
 * digits may be grouped by single underscores between digits. Anything else
 * is rejected.
 */
module PythonInt {
  import opened Wrappers

  /** The ASCII characters Python counts as whitespace: space, tab to carriage return, and the four separators. */
  predicate IsSpace(c: char)
  {
    c == ' ' || '\t' <= c <= '\r' || '\U{1C}' <= c <= '\U{1F}'
  }

  predicate IsDigit(c: char)
  {
    '0' <= c <= '9'
  }

  function StripLeft(s: string): (r: string)
    ensures |r| <= |s| && r == s[|s| - |r|..]
    ensures r == [] || !IsSpace(r[0])
    ensures forall i :: 0 <= i < |s| - |r| ==> IsSpace(s[i])
  {
    if s != [] && IsSpace(s[0]) then StripLeft(s[1..]) else s
  }

  function StripRight(s: string): (r: string)
    ensures |r| <= |s| && r == s[..|r|]
    ensures r == [] || !IsSpace(r[|r| - 1])
    ensures forall i :: |r| <= i < |s| ==> IsSpace(s[i])
  {
    if s != [] && IsSpace(s[|s| - 1]) then StripRight(s[..|s| - 1]) else s
  }

  function Strip(s: string): string
  {
    StripRight(StripLeft(s))
  }

  /** Digits, grouped by single underscores that sit between two digits. */
  predicate WellGrouped(ds: string)
  {
    && ds != []
    && IsDigit(ds[0]) && IsDigit(ds[|ds| - 1])
    && (forall i :: 0 <= i < |ds| ==> IsDigit(ds[i]) || ds[i] == '_')
    && (forall i, j :: 0 <= i < |ds| && 0 <= j < |ds| && j == i + 1 ==> ds[i] != '_' || ds[j] != '_')
  }

  /** The decimal value of the digits in `ds`, underscores skipped. */
  function Value(ds: string): nat
  {
    if ds == [] then 0
    else if ds[|ds| - 1] == '_' || !IsDigit(ds[|ds| - 1]) then Value(ds[..|ds| - 1])
    else Value(ds[..|ds| - 1]) * 10 + (ds[|ds| - 1] - '0') as nat
  }

  /** The sign and digits left once surrounding whitespace is stripped. */
  function ParseStripped(t: string): (r: Option<int>)
    ensures r.Some? <==> t != [] && (WellGrouped(t) || ((t[0] == '-' || t[0] == '+') && WellGrouped(t[1..])))
    ensures t != [] && IsDigit(t[0]) && WellGrouped(t) ==> r == Some(Value(t))
    ensures t != [] && t[0] == '+' && WellGrouped(t[1..]) ==> r == Some(Value(t[1..]))
    ensures t != [] && t[0] == '-' && WellGrouped(t[1..]) ==> r == Some(-(Value(t[1..]) as int))
  {
    if t != [] && (t[0] == '-' || t[0] == '+') && WellGrouped(t[1..]) then
      var v: int := Value(t[1..]);
      Some(if t[0] == '-' then -v else v)
    else if WellGrouped(t) then Some(Value(t))
    else None
  }

  /** `int(text)` in base 10: `None` where Python raises `ValueError`. */
  function ParseInt(text: string): (r: Option<int>)
    // Accepted: well-grouped digits, with or without one sign in front.
    ensures var t := Strip(text);
            r.Some? <==> t != [] && (WellGrouped(t) || ((t[0] == '-' || t[0] == '+') && WellGrouped(t[1..])))
    ensures Strip(text) != [] && IsDigit(Strip(text)[0]) && WellGrouped(Strip(text)) ==>
              r == Some(Value(Strip(text)))
    ensures var t := Strip(text);
            t != [] && t[0] == '+' && WellGrouped(t[1..]) ==> r == Some(Value(t[1..]))
    ensures var t := Strip(text);
            t != [] && t[0] == '-' && WellGrouped(t[1..]) ==> r == Some(-(Value(t[1..]) as int))
  {
    ParseStripped(Strip(text))
  }

  function DigitChar(d: nat): char
    requires d < 10
  {
    ('0' as int + d) as char
  }

  /** Python's `str(n)` for an integer: decimal digits, a minus sign for negatives. */
  function ToDecimal(n: int): (s: string)
    ensures s != []
  {
    if n < 0 then "-" + Digits(-n) else Digits(n)
  }

  function Digits(n: nat): (s: string)
    ensures s != [] && forall i :: 0 <= i < |s| ==> IsDigit(s[i])
  {
    if n < 10 then [DigitChar(n)] else Digits(n / 10) + [DigitChar(n % 10)]
  }

  lemma {:induction false} DigitsValue(n: nat)
    ensures Value(Digits(n)) == n
  {
    var s := Digits(n);
    if n < 10 {
      assert s[..0] == [];
    } else {
      assert s[..|s| - 1] == Digits(n / 10);
      DigitsValue(n / 10);
    }
  }

  lemma StripUnpadded(s: string)
    requires s != [] && !IsSpace(s[0]) && !IsSpace(s[|s| - 1])
    ensures Strip(s) == s
  {
  }

  /** Every integer's decimal text parses back to that integer. */
  lemma ParseDecimal(n: int)
    ensures ParseInt(ToDecimal(n)) == Some(n)
  {
    var s := ToDecimal(n);
    var ds := if n < 0 then Digits(-n) else Digits(n);
    StripUnpadded(s);
    assert Strip(s) == s;
    assert WellGrouped(ds);
    if n < 0 {
      assert s[0] == '-' && s[1..] == ds;
      DigitsValue(-n);
      assert Value(s[1..]) == -n;
    } else {
      assert s == ds && IsDigit(s[0]);
      DigitsValue(n);
      assert Value(s) == n;
    }
  }

  /** Surrounding whitespace does not change the result. */
  lemma {:induction false} PaddingIgnored(pre: string, text: string, post: string)
    requires forall i :: 0 <= i < |pre| ==> IsSpace(pre[i])
    requires forall i :: 0 <= i < |post| ==> IsSpace(post[i])
    ensures ParseInt(pre + text + post) == ParseInt(text)
  {
    StripPadding(pre, text, post);
  }

  lemma {:induction false} StripPadding(pre: string, text: string, post: string)
    requires forall i :: 0 <= i < |pre| ==> IsSpace(pre[i])
    requires forall i :: 0 <= i < |post| ==> IsSpace(post[i])
    ensures Strip(pre + text + post) == Strip(text)
  {
    StripLeftPadding(pre, text + post);
    assert pre + text + post == pre + (text + post);
    StripLeftAppend(text, post);
    StripRightPadding(StripLeft(text), post);
  }

  lemma {:induction false} StripLeftPadding(pre: string, s: string)
    requires forall i :: 0 <= i < |pre| ==> IsSpace(pre[i])
    ensures StripLeft(pre + s) == StripLeft(s)
    decreases |pre|
  {
    if pre != [] {
      assert (pre + s)[1..] == pre[1..] + s;
      StripLeftPadding(pre[1..], s);
    } else {
      assert pre + s == s;
    }
  }

  /** Stripping the left of `text + post` where `post` is blank keeps `post` at the end. */
  lemma {:induction false} StripLeftAppend(text: string, post: string)
    requires forall i :: 0 <= i < |post| ==> IsSpace(post[i])
    ensures StripLeft(text + post) == StripLeft(text) + post || (StripLeft(text) == [] && StripLeft(text + post) == [])
    decreases |text|
  {
    if text == [] {
      assert text + post == post;
      StripLeftPadding(post, []);
      assert post + [] == post;
    } else if IsSpace(text[0]) {
      assert (text + post)[1..] == text[1..] + post;
      StripLeftAppend(text[1..], post);
    }
  }

  lemma {:induction false} StripRightPadding(s: string, post: string)
    requires forall i :: 0 <= i < |post| ==> IsSpace(post[i])
    ensures StripRight(s + post) == StripRight(s)
    decreases |post|
  {
    if post != [] {
      assert (s + post)[..|s + post| - 1] == s + post[..|post| - 1];
      StripRightPadding(s, post[..|post| - 1]);
    } else {
      assert s + post == s;
    }
  }

  /** Grouped digits parse, and surrounding blanks are ignored. */
  lemma GroupedDigitsParse()
    ensures ParseInt(" 1_000 ") == Some(1000)
  {
    assert " 1_000 " == " " + "1_000" + " ";
    PaddingIgnored(" ", "1_000", " ");
    ThousandParses();
  }

  lemma ThousandParses()
    ensures ParseInt("1_000") == Some(1000)
  {
    StripUnpadded("1_000");
    ThousandValue();
  }

  lemma ThousandValue()
    ensures WellGrouped("1_000") && IsDigit("1_000"[0])
    ensures Value("1_000") == 1000
  {
    assert "1_000"[..4] == "1_00" && "1_00"[..3] == "1_0" && "1_0"[..2] == "1_" && "1_"[..1] == "1" && "1"[..0] == "";
  }

  /** Digits holding two underscores in a row are not well grouped. */
  lemma DoubledUnderscore(ds: string, i: nat)
    requires i + 1 < |ds| && ds[i] == '_' && ds[i + 1] == '_'
    ensures !WellGrouped(ds)
  {
  }

  /** Two underscores in a row are rejected, signed or not. */
  lemma DoubledUnderscoreRejected(text: string, i: nat)
    requires i + 1 < |Strip(text)| && Strip(text)[i] == '_' && Strip(text)[i + 1] == '_'
    ensures ParseInt(text) == None
  {
    var t := Strip(text);
    DoubledUnderscore(t, i);
    if i >= 1 {
      DoubledUnderscore(t[1..], i - 1);
    }
  }

  /** A trailing underscore is rejected, signed or not. */
  lemma TrailingUnderscoreRejected(text: string)
    requires Strip(text) != [] && Strip(text)[|Strip(text)| - 1] == '_'
    ensures ParseInt(text) == None
  {
    var t := Strip(text);
    if |t| > 1 {
      assert t[1..][|t[1..]| - 1] == '_';
    }
  }

  /** Text made only of whitespace is rejected. */
  lemma BlankRejected(text: string)
    requires forall i :: 0 <= i < |text| ==> IsSpace(text[i])
    ensures ParseInt(text) == None
  {
    assert text == text + "" + "";
    StripPadding(text, "", "");
  }
}
