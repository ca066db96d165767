/** The Python string operations the intake form applies to answer keys and
    values: `str.title()`, `str.replace('_', ' ')`, `startswith`/`endswith`,
    `', '.join(...)` and the decimal and ISO-date renderings of `str()`.
    Only ASCII letters are treated as cased characters. */
module Text {

  predicate IsLower(c: char) { 'a' <= c <= 'z' }
  predicate IsUpper(c: char) { 'A' <= c <= 'Z' }
  predicate IsCased(c: char) { IsLower(c) || IsUpper(c) }

  function ToUpper(c: char): char
  {
    if IsLower(c) then (c as int - 32) as char else c
  }

  function ToLower(c: char): char
  {
    if IsUpper(c) then (c as int + 32) as char else c
  }

  /** How `str.title()` rewrites one character, given whether the character
      before it was cased: a cased character after a cased one is lowered,
      the first cased character of a run is raised, the rest stay. */
  function TitleChar(c: char, prevCased: bool): char
  {
    if IsUpper(c) && prevCased then ToLower(c)
    else if IsLower(c) && !prevCased then ToUpper(c)
    else c
  }

  /** Raising a lower-case letter gives an upper-case one that lowers back. */
  lemma CaseRoundTrip(c: char)
    ensures IsLower(c) ==> IsUpper(ToUpper(c)) && ToLower(ToUpper(c)) == c
    ensures IsUpper(c) ==> IsLower(ToLower(c))
  {
  }

  /** A rewritten character is cased when the original is, upper-case
      exactly when no cased character precedes it, and unchanged when not
      cased. */
  lemma TitleCharCase(c: char, prevCased: bool)
    ensures IsCased(TitleChar(c, prevCased)) == IsCased(c)
    ensures IsCased(c) ==> (IsUpper(TitleChar(c, prevCased)) <==> !prevCased)
    ensures !IsCased(c) ==> TitleChar(c, prevCased) == c
  {
    CaseRoundTrip(c);
  }

  /** `str.title()` as Python scans it: left to right, remembering whether
      the previous character was cased. */
  function TitleFrom(s: string, prevCased: bool): (r: string)
    ensures |r| == |s|
    ensures forall i :: 0 <= i < |s| ==> IsCased(r[i]) == IsCased(s[i])
  {
    if s == [] then []
    else [TitleChar(s[0], prevCased)] + TitleFrom(s[1..], IsCased(s[0]))
  }

  /** Python's `s.title()`, character by character: each character is
      rewritten according to whether the one before it is cased. */
  function Title(s: string): (r: string)
    ensures |r| == |s|
  {
    seq(|s|, i requires 0 <= i < |s| => TitleChar(s[i], i > 0 && IsCased(s[i - 1])))
  }

  /** What `str.title()` promises: the same characters up to case, each
      cased one upper-case exactly when it starts a run of cased
      characters, lower-case otherwise. */
  lemma TitleCasing(s: string)
    ensures forall i :: 0 <= i < |s| ==> IsCased(Title(s)[i]) == IsCased(s[i])
    ensures forall i :: 0 <= i < |s| && IsCased(s[i]) ==> (IsUpper(Title(s)[i]) <==> i == 0 || !IsCased(s[i - 1]))
    ensures forall i :: 0 <= i < |s| && !IsCased(s[i]) ==> Title(s)[i] == s[i]
  {
    forall i | 0 <= i < |s|
      ensures IsCased(Title(s)[i]) == IsCased(s[i])
      ensures IsCased(s[i]) ==> (IsUpper(Title(s)[i]) <==> i == 0 || !IsCased(s[i - 1]))
      ensures !IsCased(s[i]) ==> Title(s)[i] == s[i]
    {
      TitleCharCase(s[i], i > 0 && IsCased(s[i - 1]));
    }
  }

  /** How `replace('_', ' ')` rewrites one character. */
  function SpaceChar(c: char): char
  {
    if c == '_' then ' ' else c
  }

  /** Python's `s.replace('_', ' ')`. */
  function SpaceUnderscores(s: string): (r: string)
    ensures |r| == |s|
  {
    seq(|s|, i requires 0 <= i < |s| => SpaceChar(s[i]))
  }

  /** The display label of an answer key, `key.replace('_', ' ').title()`,
      computed in one pass (`LabelIsTitleOfReplace` shows it is that
      composition). */
  function Label(key: string): (r: string)
    ensures |r| == |key|
  {
    seq(|key|, i requires 0 <= i < |key| =>
      TitleChar(SpaceChar(key[i]), i > 0 && IsCased(SpaceChar(key[i - 1]))))
  }

  lemma LabelIsTitleOfReplace(key: string)
    ensures Label(key) == Title(SpaceUnderscores(key))
  {
  }

  /** Character `i` of the scan depends only on character `i` and on
      whether character `i - 1` is cased. */
  lemma {:induction false} TitleFromAt(s: string, prevCased: bool, i: int)
    requires 0 <= i < |s|
    ensures TitleFrom(s, prevCased)[i] == TitleChar(s[i], if i == 0 then prevCased else IsCased(s[i - 1]))
  {
    if i > 0 {
      TitleFromAt(s[1..], IsCased(s[0]), i - 1);
    }
  }

  /** The character-wise definition agrees with the left-to-right scan. */
  lemma TitleIsScan(s: string)
    ensures Title(s) == TitleFrom(s, false)
  {
    var scan := TitleFrom(s, false);
    forall i | 0 <= i < |s|
      ensures Title(s)[i] == scan[i]
    {
      TitleFromAt(s, false, i);
    }
  }

  /** An answer key: lower-case words joined by underscores. */
  predicate SnakeKey(key: string)
  {
    forall i :: 0 <= i < |key| ==> IsLower(key[i]) || key[i] == '_'
  }

  /** For a snake_case key, the label has a space for every underscore and
      an upper-case letter exactly at the start of each word. */
  lemma LabelOfSnakeKey(key: string)
    requires SnakeKey(key)
    ensures |Label(key)| == |key|
    ensures forall i :: 0 <= i < |key| ==>
      Label(key)[i] == if key[i] == '_' then ' '
                       else if i == 0 || key[i - 1] == '_' then ToUpper(key[i])
                       else key[i]
  {
  }

  /** The label of a snake_case key gives the key back: two keys with the
      same label are the same key, and a label holds only letters and
      spaces. */
  lemma LabelInjective(x: string, y: string)
    requires SnakeKey(x) && SnakeKey(y)
    ensures Label(x) == Label(y) ==> x == y
    ensures forall i :: 0 <= i < |x| ==> Label(x)[i] == ' ' || IsCased(Label(x)[i])
  {
    LabelOfSnakeKey(x);
    LabelOfSnakeKey(y);
    if Label(x) == Label(y) {
      forall i | 0 <= i < |x|
        ensures x[i] == y[i]
      {
        CaseRoundTrip(x[i]);
        CaseRoundTrip(y[i]);
        var l := Label(x)[i];
        assert l == Label(y)[i];
        assert x[i] == if l == ' ' then '_' else ToLower(l);
        assert y[i] == if l == ' ' then '_' else ToLower(l);
      }
    }
    forall i | 0 <= i < |x|
      ensures Label(x)[i] == ' ' || IsCased(Label(x)[i])
    {
      CaseRoundTrip(x[i]);
    }
  }

  /** A key without underscores is labelled by `str.title()` alone. */
  lemma TitleOfWord(key: string)
    requires forall i :: 0 <= i < |key| ==> IsLower(key[i])
    ensures SnakeKey(key) && Title(key) == Label(key)
  {
    LabelIsTitleOfReplace(key);
    assert SpaceUnderscores(key) == key;
  }

  predicate StartsWith(s: string, prefix: string)
  {
    |prefix| <= |s| && s[..|prefix|] == prefix
  }

  predicate EndsWith(s: string, suffix: string)
  {
    |suffix| <= |s| && s[|s| - |suffix|..] == suffix
  }

  /** Python's `sep.join(items)`. */
  function Join(items: seq<string>, sep: string): (r: string)
    ensures items != [] ==> StartsWith(r, items[0])
    ensures items != [] ==> EndsWith(r, items[|items| - 1])
    ensures |items| > 1 ==> |r| >= |items[0]| + |sep| + |items[|items| - 1]|
  {
    if items == [] then ""
    else if |items| == 1 then items[0]
    else items[0] + sep + Join(items[1..], sep)
  }

  /** Joining one more item appends the separator and the item: the
      separator goes between items only. */
  lemma {:induction false} JoinAppend(items: seq<string>, last: string, sep: string)
    requires items != []
    ensures Join(items + [last], sep) == Join(items, sep) + sep + last
    decreases |items|
  {
    if |items| == 1 {
      assert items + [last] == [items[0], last];
      assert [items[0], last][1..] == [last];
    } else {
      assert (items + [last])[1..] == items[1..] + [last];
      JoinAppend(items[1..], last, sep);
    }
  }

  function DigitChar(d: nat): char
    requires d < 10
  {
    ('0' as int + d) as char
  }

  predicate IsDigit(c: char) { '0' <= c <= '9' }

  /** The value of one decimal digit; only ever applied to digits. */
  function DigitValue(c: char): nat
  {
    if IsDigit(c) then c as int - '0' as int else 0
  }

  /** The number a string of decimal digits denotes, read left to right:
      the reference against which the renderings below are stated. */
  function DigitsValue(s: string): nat
  {
    if s == [] then 0 else DigitsValue(s[..|s| - 1]) * 10 + DigitValue(s[|s| - 1])
  }

  function Pow10(k: nat): (r: nat)
    ensures 1 <= r
  {
    if k == 0 then 1 else 10 * Pow10(k - 1)
  }

  /** The decimal rendering of a natural number, without leading zeros. */
  function NatToString(n: nat): (r: string)
    ensures 1 <= |r|
    ensures forall i :: 0 <= i < |r| ==> IsDigit(r[i])
    ensures r[0] == '0' <==> n == 0
    ensures n == 0 ==> r == "0"
  {
    if n < 10 then [DigitChar(n)]
    else NatToString(n / 10) + [DigitChar(n % 10)]
  }

  /** Reading back the rendering of `n` gives `n`. */
  lemma {:induction false} NatToStringValue(n: nat)
    ensures DigitsValue(NatToString(n)) == n
    decreases n
  {
    var s := NatToString(n);
    if n < 10 {
      assert s[..|s| - 1] == [];
    } else {
      assert s[..|s| - 1] == NatToString(n / 10);
      NatToStringValue(n / 10);
    }
  }

  /** A number below `10^k` takes at most `k` digits. */
  lemma {:induction false} NatToStringLength(n: nat, k: nat)
    ensures 1 <= k && n < Pow10(k) ==> |NatToString(n)| <= k
    decreases k
  {
    if 1 <= k && n < Pow10(k) && n >= 10 {
      assert Pow10(1) == 10;
      assert n / 10 < Pow10(k - 1);
      NatToStringLength(n / 10, k - 1);
    }
  }

  function Zeros(k: nat): (r: string)
    ensures |r| == k && forall i :: 0 <= i < k ==> r[i] == '0'
  {
    seq(k, _ => '0')
  }

  /** Leading zeros do not change the value of a digit string. */
  lemma {:induction false} LeadingZeros(k: nat, s: string)
    ensures DigitsValue(Zeros(k) + s) == DigitsValue(s)
    decreases |s| + k
  {
    if s == [] {
      assert Zeros(k) + s == Zeros(k);
      if k > 0 {
        assert Zeros(k)[..k - 1] == Zeros(k - 1);
        LeadingZeros(k - 1, []);
        assert Zeros(k - 1) + [] == Zeros(k - 1);
      }
    } else {
      var t := Zeros(k) + s;
      assert t[..|t| - 1] == Zeros(k) + s[..|s| - 1];
      assert t[|t| - 1] == s[|s| - 1];
      LeadingZeros(k, s[..|s| - 1]);
    }
  }

  /** Python's `str(n)` for an int. */
  function IntToString(n: int): (r: string)
    ensures 1 <= |r|
    ensures r[0] == '-' <==> n < 0
    ensures forall i :: 0 < i < |r| ==> IsDigit(r[i])
    ensures n >= 0 ==> r == NatToString(n) && DigitsValue(r) == n
    ensures n < 0 ==> DigitsValue(r[1..]) == -n && r[1] != '0'
  {
    if n < 0 then
      NatToStringValue(-n);
      assert ("-" + NatToString(-n))[1..] == NatToString(-n);
      "-" + NatToString(-n)
    else
      NatToStringValue(n);
      NatToString(n)
  }

  /** `%0<width>d` for a natural number: the digits of `n`, preceded by as
      many zeros as make up the width. */
  function ZeroPad(n: nat, width: nat): (r: string)
    ensures |r| == if |NatToString(n)| < width then width else |NatToString(n)|
    ensures EndsWith(r, NatToString(n))
    ensures forall i :: 0 <= i < |r| - |NatToString(n)| ==> r[i] == '0'
    ensures forall i :: 0 <= i < |r| ==> IsDigit(r[i])
    ensures DigitsValue(r) == n
    ensures 1 <= width && n < Pow10(width) ==> |r| == width
  {
    var digits := NatToString(n);
    NatToStringValue(n);
    NatToStringLength(n, width);
    if |digits| < width then
      LeadingZeros(width - |digits|, digits);
      Zeros(width - |digits|) + digits
    else
      digits
  }
}
