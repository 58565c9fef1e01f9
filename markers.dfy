/** QString::arg with one argument, over `seq<char>`. A place marker is
    '%', an optional 'L', then one digit, or two when a second digit
    follows. `arg(a)` finds the lowest marker number in the string and
    replaces every marker with that number by `a`; a string without markers
    comes back unchanged. A chain `.arg(x).arg(y)` therefore scans the text
    `x` brought in as well. */
module Markers {
  import opened Wrappers
  import opened Text

  /** The marker at the start of t, as (number, length). */
  function MarkerAt(t: string): (r: Option<(nat, nat)>)
    ensures r.Some? ==> |t| >= 2 && t[0] == '%' && 2 <= r.value.1 <= |t|
  {
    if |t| > 0 && t[0] == '%' then
      var j := if |t| > 1 && t[1] == 'L' then 2 else 1;
      if j < |t| && IsDigit(t[j]) then
        if j + 1 < |t| && IsDigit(t[j + 1]) then Some((10 * DigitValue(t[j]) + DigitValue(t[j + 1]), j + 2))
        else Some((DigitValue(t[j]), j + 1))
      else None
    else None
  }

  /** The lowest marker number in t, scanning left to right and resuming
      after each marker. */
  function LowestMarker(t: string): Option<nat>
    decreases |t|
  {
    if |t| == 0 then None
    else
      var mk := MarkerAt(t);
      if mk.None? then LowestMarker(t[1..])
      else
        var rest := LowestMarker(t[mk.value.1..]);
        if rest.Some? && rest.value < mk.value.0 then rest else Some(mk.value.0)
  }

  /** t with every marker numbered m replaced by a, in the same scan. */
  function ReplaceMarkers(t: string, m: nat, a: string): string
    decreases |t|
  {
    if |t| == 0 then ""
    else
      var mk := MarkerAt(t);
      if mk.None? then [t[0]] + ReplaceMarkers(t[1..], m, a)
      else
        var (n, len) := mk.value;
        (if n == m then a else t[..len]) + ReplaceMarkers(t[len..], m, a)
  }

  /** QString::arg(a). */
  function Arg(s: string, a: string): string
  {
    match LowestMarker(s)
    case Some(m) => ReplaceMarkers(s, m, a)
    case None => s
  }

  lemma Assoc(x: string, y: string, z: string)
    ensures x + (y + z) == (x + y) + z
  {
  }

  /** Text without '%' holds no marker and is copied as it is, whatever
      follows it. */
  lemma {:induction false} PlainPrefix(p: string, t: string, m: nat, a: string)
    requires '%' !in p
    ensures LowestMarker(p + t) == LowestMarker(t)
    ensures ReplaceMarkers(p + t, m, a) == p + ReplaceMarkers(t, m, a)
    decreases |p|
  {
    if |p| > 0 {
      var x := p + t;
      assert x[0] == p[0];
      assert MarkerAt(x).None?;
      assert x[1..] == p[1..] + t;
      PlainPrefix(p[1..], t, m, a);
      assert ReplaceMarkers(x, m, a) == [p[0]] + (p[1..] + ReplaceMarkers(t, m, a));
      Assoc([p[0]], p[1..], ReplaceMarkers(t, m, a));
      assert [p[0]] + p[1..] == p;
    } else {
      assert p + t == t;
    }
  }

  /** '%' and one digit, not followed by another digit, is a marker of
      length 2: it is counted and replaced, and the scan resumes after it. */
  lemma ShortMarkerStep(c: char, t: string, m: nat, a: string)
    requires IsDigit(c) && (|t| == 0 || !IsDigit(t[0]))
    ensures var v, x := DigitValue(c), ['%', c] + t;
      && MarkerAt(x) == Some((v, 2))
      && LowestMarker(x) == (var rest := LowestMarker(t); if rest.Some? && rest.value < v then rest else Some(v))
      && ReplaceMarkers(x, m, a) == (if v == m then a else ['%', c]) + ReplaceMarkers(t, m, a)
  {
    var x := ['%', c] + t;
    assert x[2..] == t && x[..2] == ['%', c];
  }

  /** A string without '%' is returned unchanged. */
  lemma ArgWithoutMarkers(s: string, a: string)
    requires '%' !in s
    ensures Arg(s, a) == s
  {
    PlainPrefix(s, "", 0, a);
    assert s + "" == s;
  }

  /** Text before the first '%' survives any substitution. */
  lemma ArgKeepsPlainPrefix(p: string, t: string, a: string)
    requires '%' !in p
    ensures HasPrefix(Arg(p + t, a), p)
  {
    var m := LowestMarker(p + t);
    if m.Some? {
      PlainPrefix(p, t, m.value, a);
    }
  }

  /** A single one-digit marker at the end is replaced. */
  lemma ArgOneMarker(p: string, c: char, a: string)
    requires '%' !in p && IsDigit(c)
    ensures Arg(p + ['%', c], a) == p + a
  {
    var v := DigitValue(c);
    ShortMarkerStep(c, "", v, a);
    assert ['%', c] + "" == ['%', c];
    PlainPrefix(p, ['%', c], v, a);
  }

  /** Two one-digit markers, the first followed by text that starts with no
      digit: the lower-numbered one is replaced, and both when they are equal. */
  lemma ArgTwoMarkers(p: string, c1: char, q: string, c2: char, a: string)
    requires '%' !in p && '%' !in q && IsDigit(c1) && IsDigit(c2)
    requires |q| > 0 && !IsDigit(q[0])
    ensures var v1, v2 := DigitValue(c1), DigitValue(c2);
      Arg(p + ['%', c1] + q + ['%', c2], a)
        == p + (if v1 <= v2 then a else ['%', c1]) + q + (if v2 <= v1 then a else ['%', c2])
  {
    var v1, v2 := DigitValue(c1), DigitValue(c2);
    var m := if v1 <= v2 then v1 else v2;
    var first := if v1 <= v2 then a else ['%', c1];
    var second := if v2 <= v1 then a else ['%', c2];
    var tail := ['%', c2];
    ShortMarkerStep(c2, "", m, a);
    assert tail + "" == tail;
    var mid := q + tail;
    PlainPrefix(q, tail, m, a);
    assert mid[0] == q[0];
    var x1 := ['%', c1] + mid;
    ShortMarkerStep(c1, mid, m, a);
    PlainPrefix(p, x1, m, a);
    assert LowestMarker(p + x1) == Some(m);
    assert ReplaceMarkers(p + x1, m, a) == p + (first + (q + second));
    Regroup(p, ['%', c1], q, tail);
    Regroup(p, first, q, second);
  }

  lemma Regroup(w: string, x: string, y: string, z: string)
    ensures w + (x + (y + z)) == w + x + y + z
  {
  }
}
