// Decimal integers and splitting, as Python's str(), int() and str.split do
// them on ASCII text.
module Text {
  import opened Wrappers

  // ---------------------------------------------------------------- decimal

  function DigitChar(d: int): char
    requires 0 <= d < 10
  {
    '0' + d as char
  }

  predicate IsDigit(c: char) {
    '0' <= c <= '9'
  }

  function DigitValue(c: char): (d: int)
    requires IsDigit(c)
    ensures 0 <= d < 10
  {
    c as int - '0' as int
  }

  function Digits(n: nat): string {
    if n < 10 then [DigitChar(n)] else Digits(n / 10) + [DigitChar(n % 10)]
  }

  // str(i)
  function IntToString(i: int): string {
    if i < 0 then ['-'] + Digits(-i) else Digits(i)
  }

  predicate IsSpace(c: char) {
    c == ' ' || '\t' <= c <= '\r' || 28 as char <= c <= 31 as char
  }

  function StripLeft(s: string): string {
    if s != [] && IsSpace(s[0]) then StripLeft(s[1..]) else s
  }

  function StripRight(s: string): string {
    if s != [] && IsSpace(s[|s| - 1]) then StripRight(s[..|s| - 1]) else s
  }

  function Strip(s: string): string {
    StripRight(StripLeft(s))
  }

  function LowerChar(c: char): char {
    if 'A' <= c <= 'Z' then (c as int + 32) as char else c
  }

  // s.strip().lower() on ASCII text; other characters are left alone.
  function Norm(s: string): (r: string)
    ensures r == [] <==> Strip(s) == []
  {
    var t := Strip(s);
    seq(|t|, i requires 0 <= i < |t| => LowerChar(t[i]))
  }

  // The blanks, by code.
  lemma {:induction false} Spaces(c: char)
    ensures IsSpace(c) <==> c as int in {9, 10, 11, 12, 13, 28, 29, 30, 31, 32}
  {
  }

  ghost predicate Blank(s: string) {
    forall i :: 0 <= i < |s| ==> IsSpace(s[i])
  }

  // Blanks around a text that has none at its ends are what is stripped.
  lemma {:induction false} StripMiddle(pre: string, mid: string, post: string)
    requires Blank(pre) && Blank(post) && (mid != [] ==> !IsSpace(mid[0]) && !IsSpace(mid[|mid| - 1]))
    ensures Strip(pre + mid + post) == mid
  {
    StripLeftOf(pre, mid + post);
    assert pre + mid + post == pre + (mid + post);
    if mid == [] {
      StripLeftOf(post, []);
      assert mid + post == post && post + [] == post;
      assert StripLeft(pre + (mid + post)) == StripLeft(post) == [];
    } else {
      StripRightOf(mid, post);
    }
  }

  lemma {:induction false} StripLeftOf(pre: string, s: string)
    requires Blank(pre)
    ensures StripLeft(pre + s) == StripLeft(s)
  {
    if pre == [] {
      assert pre + s == s;
    } else {
      assert (pre + s)[1..] == pre[1..] + s;
      StripLeftOf(pre[1..], s);
    }
  }

  lemma {:induction false} StripRightOf(s: string, post: string)
    requires Blank(post) && s != [] && !IsSpace(s[|s| - 1])
    ensures StripRight(s + post) == s
  {
    if post == [] {
      assert s + post == s;
    } else {
      assert (s + post)[..|s + post| - 1] == s + post[..|post| - 1];
      StripRightOf(s, post[..|post| - 1]);
    }
  }

  // So every text is its strip between blanks.
  lemma {:induction false} StripSplits(s: string) returns (pre: string, post: string)
    ensures Blank(pre) && Blank(post) && s == pre + Strip(s) + post
    ensures Strip(s) != [] ==> !IsSpace(Strip(s)[0]) && !IsSpace(Strip(s)[|Strip(s)| - 1])
  {
    pre := LeftBlanks(s);
    post := RightBlanks(StripLeft(s));
    var mid := Strip(s);
    if mid != [] {
      assert StripLeft(s)[0] == mid[0];
    }
  }

  lemma {:induction false} LeftBlanks(s: string) returns (pre: string)
    ensures Blank(pre) && s == pre + StripLeft(s) && (StripLeft(s) != [] ==> !IsSpace(StripLeft(s)[0]))
  {
    pre := [];
    if s != [] && IsSpace(s[0]) {
      pre := LeftBlanks(s[1..]);
      pre := [s[0]] + pre;
    }
  }

  lemma {:induction false} RightBlanks(s: string) returns (post: string)
    ensures Blank(post) && s == StripRight(s) + post
    ensures StripRight(s) != [] ==> !IsSpace(StripRight(s)[|StripRight(s)| - 1])
  {
    post := [];
    if s != [] && IsSpace(s[|s| - 1]) {
      post := RightBlanks(s[..|s| - 1]);
      post := post + [s[|s| - 1]];
    }
  }

  lemma {:induction false} LowerLetters()
    ensures Norm("ABCDEFGHIJKLMNOPQRSTUVWXYZ") == "abcdefghijklmnopqrstuvwxyz"
    ensures Norm("az09@[_") == "az09@[_"
  {
    StripMiddle("", "ABCDEFGHIJKLMNOPQRSTUVWXYZ", "");
    StripMiddle("", "az09@[_", "");
    assert "" + "ABCDEFGHIJKLMNOPQRSTUVWXYZ" + "" == "ABCDEFGHIJKLMNOPQRSTUVWXYZ";
    assert "" + "az09@[_" + "" == "az09@[_";
  }

  // Digits with single underscores allowed between them.
  predicate Groups(s: string) {
    && s != [] && s[0] != '_' && s[|s| - 1] != '_'
    && (forall i :: 0 <= i < |s| ==> IsDigit(s[i]) || s[i] == '_')
    && (forall i :: 0 <= i < |s| - 1 ==> s[i] != '_' || s[i + 1] != '_')
  }

  function Value(s: string, n: nat): nat
    requires n <= |s| && forall i :: 0 <= i < |s| ==> IsDigit(s[i]) || s[i] == '_'
  {
    if n == 0 then 0
    else if s[n - 1] == '_' then Value(s, n - 1)
    else 10 * Value(s, n - 1) + DigitValue(s[n - 1])
  }

  function CountDigits(s: string, n: nat): nat
    requires n <= |s|
  {
    if n == 0 then 0 else CountDigits(s, n - 1) + if IsDigit(s[n - 1]) then 1 else 0
  }

  // The interpreter refuses to convert longer literals.
  const MAX_STR_DIGITS := 4300

  // int(s); None is ValueError.
  function ParseInt(s: string): Option<int> {
    var t := Strip(s);
    var signed := t != [] && (t[0] == '-' || t[0] == '+');
    var body := if signed then t[1..] else t;
    if !Groups(body) || CountDigits(body, |body|) > MAX_STR_DIGITS then None
    else if signed && t[0] == '-' then Some(0 - Value(body, |body|) as int)
    else Some(Value(body, |body|))
  }

  lemma {:induction false} DigitsAreDigits(n: nat)
    ensures Digits(n) != [] && forall i :: 0 <= i < |Digits(n)| ==> IsDigit(Digits(n)[i])
  {
    if n >= 10 {
      DigitsAreDigits(n / 10);
    }
  }

  lemma {:induction false} ValuePrefix(a: string, b: string, n: nat)
    requires n <= |a| && n <= |b| && forall i :: 0 <= i < n ==> a[i] == b[i]
    requires forall i :: 0 <= i < |a| ==> IsDigit(a[i])
    requires forall i :: 0 <= i < |b| ==> IsDigit(b[i])
    ensures Value(a, n) == Value(b, n) && CountDigits(a, n) == CountDigits(b, n)
  {
    if n > 0 {
      ValuePrefix(a, b, n - 1);
    }
  }

  lemma {:induction false} DigitsValue(n: nat)
    ensures forall i :: 0 <= i < |Digits(n)| ==> IsDigit(Digits(n)[i])
    ensures Value(Digits(n), |Digits(n)|) == n
    ensures CountDigits(Digits(n), |Digits(n)|) == |Digits(n)|
  {
    DigitsAreDigits(n);
    var s := Digits(n);
    if n < 10 {
      assert Value(s, 0) == 0 && CountDigits(s, 0) == 0;
    } else {
      var front := Digits(n / 10);
      DigitsAreDigits(n / 10);
      DigitsValue(n / 10);
      ValuePrefix(s, front, |front|);
    }
  }

  function Pow10(k: nat): nat {
    if k == 0 then 1 else 10 * Pow10(k - 1)
  }

  lemma {:induction false} DigitsLength(n: nat, k: nat)
    requires 1 <= k && n < Pow10(k)
    ensures |Digits(n)| <= k
  {
    if n >= 10 {
      DigitsLength(n / 10, k - 1);
    }
  }

  // int(str(i)) == i, as long as the interpreter converts that many digits.
  lemma {:induction false} IntRoundTrip(i: int)
    requires |Digits(if i < 0 then -i else i)| <= MAX_STR_DIGITS
    ensures ParseInt(IntToString(i)) == Some(i)
  {
    var s := IntToString(i);
    var body := Digits(if i < 0 then -i else i);
    DigitsValue(if i < 0 then -i else i);
    DigitsAreDigits(if i < 0 then -i else i);
    assert forall c :: IsDigit(c) || c == '-' ==> !IsSpace(c);
    assert s[0] == '-' || IsDigit(s[0]);
    assert IsDigit(s[|s| - 1]);
    assert Strip(s) == s;
    if i < 0 {
      assert s[1..] == body;
    } else {
      assert s == body;
    }
    assert Groups(body);
  }

  // ---------------------------------------------------------------- split

  // s.split(sep) for a one-character separator.
  function Split(s: string, sep: char): (parts: seq<string>)
    ensures |parts| >= 1
  {
    if s == [] then [""]
    else
      var rest := Split(s[1..], sep);
      if s[0] == sep then [""] + rest else [[s[0]] + rest[0]] + rest[1..]
  }

  lemma {:induction false} SplitHead(a: string, b: string, sep: char)
    requires sep !in a
    ensures Split(a + [sep] + b, sep) == [a] + Split(b, sep)
  {
    var s := a + [sep] + b;
    if a == [] {
      assert s[1..] == b;
    } else {
      assert s[1..] == a[1..] + [sep] + b;
      SplitHead(a[1..], b, sep);
      assert [a[0]] + a[1..] == a;
    }
  }

  lemma {:induction false} SplitLast(a: string, sep: char)
    requires sep !in a
    ensures Split(a, sep) == [a]
  {
    if a != [] {
      SplitLast(a[1..], sep);
      assert [a[0]] + a[1..] == a;
    }
  }

  function CountChar(s: string, c: char): nat {
    if s == [] then 0 else CountChar(s[1..], c) + if s[0] == c then 1 else 0
  }

  function Join(parts: seq<string>, sep: char): string {
    if |parts| == 0 then [] else if |parts| == 1 then parts[0] else parts[0] + [sep] + Join(parts[1..], sep)
  }

  // One part more than there are separators, none in any part, and joined again
  // the parts are the text.
  lemma {:induction false} SplitCounts(s: string, sep: char)
    ensures |Split(s, sep)| == CountChar(s, sep) + 1
    ensures forall i :: 0 <= i < |Split(s, sep)| ==> sep !in Split(s, sep)[i]
    ensures Join(Split(s, sep), sep) == s
  {
    if s != [] {
      SplitCounts(s[1..], sep);
      var rest := Split(s[1..], sep);
      if s[0] == sep {
        assert [""] + rest == Split(s, sep) && ([""] + rest)[1..] == rest;
        assert s == [] + [sep] + s[1..];
      } else {
        var parts := [[s[0]] + rest[0]] + rest[1..];
        assert parts == Split(s, sep) && parts[1..] == rest[1..];
        assert [s[0]] + Join(rest, sep) == Join(parts, sep);
        assert s == [s[0]] + s[1..];
      }
    }
  }

  // Which texts are integers: between blanks and after a sign, groups of digits
  // with single underscores between them, at most 4300 digits in all.
  lemma {:induction false} GroupsIff(s: string)
    ensures Groups(s) <==> forall i :: 0 <= i < |Split(s, '_')| ==>
              Split(s, '_')[i] != [] && forall j :: 0 <= j < |Split(s, '_')[i]| ==> IsDigit(Split(s, '_')[i][j])
  {
    GroupsSplit(s);
    var parts := Split(s, '_');
    if AllDigits(parts) {
      assert forall i :: 0 <= i < |parts| ==> DigitsOnly(parts[i]);
    }
    assert forall i :: 0 <= i < |parts| ==>
        (DigitsOnly(parts[i]) <==> parts[i] != [] && forall j :: 0 <= j < |parts[i]| ==> IsDigit(parts[i][j]));
  }

  predicate DigitsOnly(s: string) {
    s != [] && forall j :: 0 <= j < |s| ==> IsDigit(s[j])
  }

  ghost predicate AllDigits(parts: seq<string>) {
    forall i :: 0 <= i < |parts| ==> DigitsOnly(parts[i])
  }

  // By the first character; one or no digit is what the rest may begin with.
  lemma {:induction false} GroupsSplit(s: string)
    ensures Groups(s) <==> AllDigits(Split(s, '_'))
    decreases |s|
  {
    if s == [] {
      assert Split(s, '_')[0] == [];
    } else {
      var rest := Split(s[1..], '_');
      var parts := Split(s, '_');
      GroupsSplit(s[1..]);
      if s[0] == '_' {
        assert parts[0] == [];
      } else {
        assert parts == [[s[0]] + rest[0]] + rest[1..];
        assert parts[0][0] == s[0];
        if s[1..] == [] {
          assert rest == [""] && [s[0]] + "" == [s[0]];
          assert parts == [[s[0]]];
        } else if s[1] == '_' {
          GroupsAfter(s[1..]);
          assert rest[0] == [];
          assert Groups(s) <==> IsDigit(s[0]) && Groups(s[2..]) by { GroupsHead(s); }
          assert rest == [""] + Split(s[2..], '_');
          assert parts[1..] == Split(s[2..], '_');
          assert parts == [[s[0]]] + Split(s[2..], '_') by { assert [s[0]] + "" == [s[0]]; }
          GroupsSplit(s[2..]);
          AllDigitsCons([s[0]], Split(s[2..], '_'));
        } else {
          assert Groups(s) <==> IsDigit(s[0]) && Groups(s[1..]) by { GroupsHead(s); }
          assert rest[0] != [];
          AllDigitsCons([s[0]] + rest[0], rest[1..]);
          AllDigitsCons(rest[0], rest[1..]);
          assert [rest[0]] + rest[1..] == rest;
          DigitsCons(s[0], rest[0]);
        }
      }
    }
  }

  lemma {:induction false} DigitsCons(c: char, s: string)
    requires s != []
    ensures DigitsOnly([c] + s) <==> IsDigit(c) && DigitsOnly(s)
  {
    var t := [c] + s;
    assert t[0] == c && t[1..] == s;
    if DigitsOnly(t) {
      forall j | 0 <= j < |s| ensures IsDigit(s[j]) {
        assert s[j] == t[j + 1];
      }
    }
  }

  lemma {:induction false} GroupsAfter(s: string)
    requires s != [] && s[0] == '_'
    ensures Split(s, '_') == [""] + Split(s[1..], '_')
  {
  }

  lemma {:induction false} AllDigitsCons(p: string, rest: seq<string>)
    ensures AllDigits([p] + rest) <==> DigitsOnly(p) && AllDigits(rest)
  {
    if AllDigits([p] + rest) {
      assert ([p] + rest)[0] == p;
      assert forall i :: 0 <= i < |rest| ==> ([p] + rest)[i + 1] == rest[i];
    }
  }

  lemma {:induction false} GroupsHead(s: string)
    requires |s| > 1 && s[0] != '_'
    ensures s[1] != '_' ==> (Groups(s) <==> IsDigit(s[0]) && Groups(s[1..]))
    ensures s[1] == '_' ==> (Groups(s) <==> IsDigit(s[0]) && Groups(s[2..]))
  {
    assert s[|s| - 1] == s[1..][|s| - 2];
    if |s| > 2 {
      assert s[|s| - 1] == s[2..][|s| - 3];
    }
    assert forall i :: 0 <= i < |s| - 1 ==> s[1..][i] == s[i + 1];
    assert forall i :: 0 <= i < |s| - 2 ==> s[2..][i] == s[i + 2];
  }

  lemma {:induction false} DigitsCounted(s: string)
    requires Groups(s)
    ensures CountDigits(s, |s|) + CountUnderscores(s, |s|) == |s|
  {
    DigitsOrNot(s, |s|);
  }

  function CountUnderscores(s: string, n: nat): nat
    requires n <= |s|
  {
    if n == 0 then 0 else CountUnderscores(s, n - 1) + if s[n - 1] == '_' then 1 else 0
  }

  lemma {:induction false} DigitsOrNot(s: string, n: nat)
    requires n <= |s| && forall i :: 0 <= i < |s| ==> IsDigit(s[i]) || s[i] == '_'
    ensures CountDigits(s, n) + CountUnderscores(s, n) == n
  {
    if n > 0 {
      DigitsOrNot(s, n - 1);
    }
  }

  lemma {:induction false} ParseIntIff(pre: string, sign: string, body: string, post: string)
    requires Blank(pre) && Blank(post) && (sign == "" || sign == "+" || sign == "-")
    requires body != [] && !IsSpace(body[0]) && !IsSpace(body[|body| - 1])
    requires sign == "" ==> body[0] != '+' && body[0] != '-'
    ensures var r := ParseInt(pre + (sign + body) + post);
            if AllDigits(Split(body, '_')) && CountDigits(body, |body|) <= 4300
            then Groups(body) && r == Some((if sign == "-" then -1 else 1) * Value(body, |body|))
            else r == None
  {
    GroupsSplit(body);
    var mid := sign + body;
    assert mid[|mid| - 1] == body[|body| - 1];
    assert mid[0] == if sign == "" then body[0] else sign[0];
    StripMiddle(pre, mid, post);
    if sign == "" {
      assert mid == body;
    } else {
      assert mid[1..] == body;
    }
  }

  lemma {:induction false} ParseIntBlank(pre: string)
    requires Blank(pre)
    ensures ParseInt(pre) == None
  {
    StripMiddle(pre, [], []);
    assert pre + [] + [] == pre;
  }

  lemma {:induction false} Underscored()
    ensures Groups("1_250") && Value("1_250", 5) == 1250 && CountDigits("1_250", 5) == 4
  {
    var s := "1_250";
    assert Value(s, 0) == 0 && Value(s, 1) == 1 && Value(s, 2) == 1 && Value(s, 3) == 12 && Value(s, 4) == 125;
    assert CountDigits(s, 1) == 1 && CountDigits(s, 2) == 1 && CountDigits(s, 3) == 2 && CountDigits(s, 4) == 3;
  }

  predicate IsAscii(s: string) {
    forall i :: 0 <= i < |s| ==> s[i] < 128 as char
  }
}
