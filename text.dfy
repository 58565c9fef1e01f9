/** String helpers shared by the whole model: the Qt string operations the
    source relies on (QStringList::join, QString::split, QString::contains,
    QString::number, QFileInfo::fileName), written over `seq<char>`. */
module Text {

  /** QStringList::join: the tokens with `sep` between consecutive ones. */
  function Join(ts: seq<string>, sep: string): string
  {
    if |ts| == 0 then ""
    else if |ts| == 1 then ts[0]
    else ts[0] + sep + Join(ts[1..], sep)
  }

  /** Appending one token adds exactly one separator and the token at the end. */
  lemma {:induction false} JoinSnoc(ts: seq<string>, x: string, sep: string)
    ensures Join(ts + [x], sep) == if ts == [] then x else Join(ts, sep) + sep + x
  {
    if |ts| == 0 {
      assert ts + [x] == [x];
    } else if |ts| == 1 {
      assert (ts + [x])[1..] == [x];
    } else {
      assert (ts + [x])[1..] == ts[1..] + [x];
      JoinSnoc(ts[1..], x, sep);
    }
  }

  /** QString::split on one character: always at least one piece. */
  function Split(s: string, c: char): (r: seq<string>)
    ensures |r| >= 1
    decreases |s|
  {
    if |s| == 0 then [""]
    else
      var rest := Split(s[1..], c);
      if s[0] == c then [""] + rest else [[s[0]] + rest[0]] + rest[1..]
  }

  lemma {:induction false} SplitNoSeparator(w: string, c: char)
    requires c !in w
    ensures Split(w, c) == [w]
    decreases |w|
  {
    if |w| > 0 {
      SplitNoSeparator(w[1..], c);
      assert [w[0]] + w[1..] == w;
    }
  }

  lemma {:induction false} SplitConcat(w: string, rest: string, c: char)
    requires c !in w
    ensures Split(w + [c] + rest, c) == [w] + Split(rest, c)
    decreases |w|
  {
    var s := w + [c] + rest;
    if |w| == 0 {
      assert s[0] == c && s[1..] == rest;
    } else {
      assert s[0] == w[0] && s[1..] == w[1..] + [c] + rest;
      SplitConcat(w[1..], rest, c);
      assert [w[0]] + w[1..] == w;
    }
  }

  /** Splitting a joined list gives the tokens back when no token holds the separator. */
  lemma {:induction false} SplitJoin(ts: seq<string>, c: char)
    requires |ts| >= 1
    requires forall i :: 0 <= i < |ts| ==> c !in ts[i]
    ensures Split(Join(ts, [c]), c) == ts
    decreases |ts|
  {
    if |ts| == 1 {
      SplitNoSeparator(ts[0], c);
    } else {
      SplitJoin(ts[1..], c);
      SplitConcat(ts[0], Join(ts[1..], [c]), c);
      assert ts[0] + [c] + Join(ts[1..], [c]) == Join(ts, [c]);
      assert [ts[0]] + ts[1..] == ts;
    }
  }

  /** A join of non-empty tokens is empty exactly when there are no tokens. */
  lemma JoinEmpty(ts: seq<string>, sep: string)
    requires forall i :: 0 <= i < |ts| ==> ts[i] != ""
    ensures Join(ts, sep) == "" <==> ts == []
  {
    if |ts| > 1 {
      assert Join(ts, sep) == ts[0] + sep + Join(ts[1..], sep);
      assert |Join(ts, sep)| >= |ts[0]| > 0;
    }
  }

  function HasPrefix(s: string, p: string): bool
  {
    |p| <= |s| && s[..|p|] == p
  }

  /** The independent meaning of "w occurs in s": some position where it starts. */
  ghost predicate Occurs(s: string, w: string)
  {
    exists i :: 0 <= i <= |s| - |w| && HasPrefix(s[i..], w)
  }

  /** QString::contains (case-sensitive), as a left-to-right search. */
  function Contains(s: string, w: string): bool
    decreases |s|
  {
    if |w| > |s| then false
    else if HasPrefix(s, w) then true
    else |s| > 0 && Contains(s[1..], w)
  }

  lemma {:induction false} ContainsIsOccurs(s: string, w: string)
    ensures Contains(s, w) <==> Occurs(s, w)
    decreases |s|
  {
    if |w| > |s| {
    } else if HasPrefix(s, w) {
      assert s[0..] == s;
    } else {
      ContainsIsOccurs(s[1..], w);
      if Contains(s[1..], w) {
        var i :| 0 <= i <= |s[1..]| - |w| && HasPrefix(s[1..][i..], w);
        assert s[1..][i..] == s[i + 1..];
      }
      if Occurs(s, w) {
        var i :| 0 <= i <= |s| - |w| && HasPrefix(s[i..], w);
        assert i != 0 by { assert s[0..] == s; }
        assert s[1..][i - 1..] == s[i..];
      }
    }
  }

  /** ASCII lower-casing of one character. */
  function LowerChar(c: char): char
  {
    if 'A' <= c <= 'Z' then (c as int - 'A' as int + 'a' as int) as char else c
  }

  function Lower(s: string): (r: string)
    ensures |r| == |s| && forall i :: 0 <= i < |s| ==> r[i] == LowerChar(s[i])
  {
    seq(|s|, i requires 0 <= i < |s| => LowerChar(s[i]))
  }

  /** QString::contains with Qt::CaseInsensitive (ASCII folding). */
  function ContainsIgnoringCase(s: string, w: string): bool
  {
    Contains(Lower(s), Lower(w))
  }

  // ---------------------------------------------------------------------
  // Decimal rendering (QString::number / QString::arg of an integer)

  predicate IsDigit(c: char)
  {
    '0' <= c <= '9'
  }

  function DigitChar(d: nat): char
    requires d < 10
  {
    ('0' as int + d) as char
  }

  function DigitValue(c: char): nat
    requires IsDigit(c)
  {
    c as int - '0' as int
  }

  /** Decimal digits of n, most significant first, without leading zeros. */
  function Decimal(n: nat): (r: string)
    ensures |r| >= 1
    ensures forall i :: 0 <= i < |r| ==> IsDigit(r[i])
  {
    if n < 10 then [DigitChar(n)] else Decimal(n / 10) + [DigitChar(n % 10)]
  }

  /** Reads a string of decimal digits back as a number. */
  function DecimalValue(s: string): nat
    requires forall i :: 0 <= i < |s| ==> IsDigit(s[i])
  {
    if |s| == 0 then 0 else DecimalValue(s[..|s| - 1]) * 10 + DigitValue(s[|s| - 1])
  }

  lemma {:induction false} DecimalRoundTrip(n: nat)
    ensures DecimalValue(Decimal(n)) == n
  {
    if n >= 10 {
      DecimalRoundTrip(n / 10);
      var r := Decimal(n);
      assert r[..|r| - 1] == Decimal(n / 10);
    }
  }

  // ---------------------------------------------------------------------
  // Paths and lines

  /** QFileInfo::fileName: what follows the last '/' of the path. */
  function FileName(path: string): string
  {
    path[NameStart(path)..]
  }

  /** The index just after the last '/' of the path, or 0 without one. */
  function NameStart(path: string): (k: nat)
    ensures k <= |path|
  {
    if |path| == 0 then 0
    else if path[|path| - 1] == '/' then |path|
    else NameStart(path[..|path| - 1])
  }

  /** The position NameStart finds: after a '/', with none further on. */
  lemma {:induction false} NameStartMeaning(path: string)
    ensures var k := NameStart(path);
      && (k > 0 ==> path[k - 1] == '/')
      && forall i :: k <= i < |path| ==> path[i] != '/'
    decreases |path|
  {
    if |path| > 0 && path[|path| - 1] != '/' {
      var init := path[..|path| - 1];
      NameStartMeaning(init);
      assert forall i :: 0 <= i < |init| ==> init[i] == path[i];
    }
  }

  /** The file name is a final piece of the path without '/', and it is
      preceded by a '/' unless it is the whole path. */
  lemma FileNameMeaning(path: string)
    ensures var r := FileName(path);
      && '/' !in r
      && |r| <= |path| && r == path[|path| - |r|..]
      && (|r| < |path| ==> path[|path| - |r| - 1] == '/')
  {
    NameStartMeaning(path);
  }

  /** The first piece of QString::split('\n'): the text before the first line break. */
  function FirstLine(s: string): (r: string)
    ensures '\n' !in r
    ensures |r| <= |s| && r == s[..|r|]
    ensures |r| < |s| ==> s[|r|] == '\n'
    decreases |s|
  {
    if |s| == 0 then ""
    else if s[0] == '\n' then ""
    else [s[0]] + FirstLine(s[1..])
  }

  lemma {:induction false} FirstLineIsFirstPiece(s: string)
    ensures FirstLine(s) == Split(s, '\n')[0]
    decreases |s|
  {
    if |s| > 0 && s[0] != '\n' {
      FirstLineIsFirstPiece(s[1..]);
    }
  }
}
