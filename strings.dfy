/**
 * The three JavaScript string operations the core relies on, over `seq<char>`:
 * String.prototype.trim, String.prototype.split with a one-character separator,
 * and Array.prototype.join.
 */
module Strings {

  /** The WhiteSpace and LineTerminator code points of ECMAScript, which `trim` removes. */
  predicate IsWhitespace(c: char) {
    c == '\t' || c == '\n' || c == '\r' || c == ' '
    || c as int == 0x0B || c as int == 0x0C || c as int == 0xA0 || c as int == 0x1680
    || (0x2000 <= c as int <= 0x200A)
    || c as int == 0x2028 || c as int == 0x2029 || c as int == 0x202F || c as int == 0x205F
    || c as int == 0x3000 || c as int == 0xFEFF
  }

  predicate AllWhitespace(s: string) {
    forall i :: 0 <= i < |s| ==> IsWhitespace(s[i])
  }

  /** Neither end of `s` is whitespace: `trim` leaves it as it is. */
  predicate IsTrimmed(s: string) {
    s == [] || (!IsWhitespace(s[0]) && !IsWhitespace(s[|s| - 1]))
  }

  /** `s` without its leading whitespace: a suffix of `s`, cut off after whitespace only. */
  function TrimStart(s: string): (r: string)
    ensures |r| <= |s| && r == s[|s| - |r|..]
    ensures AllWhitespace(s[..|s| - |r|])
    ensures r == [] || !IsWhitespace(r[0])
  {
    if s == [] || !IsWhitespace(s[0]) then s
    else
      var r := TrimStart(s[1..]);
      TrimStartStep(s, r);
      r
  }

  lemma TrimStartStep(s: string, r: string)
    requires s != [] && IsWhitespace(s[0])
    requires |r| <= |s| - 1 && r == s[1..][|s| - 1 - |r|..] && AllWhitespace(s[1..][..|s| - 1 - |r|])
    ensures r == s[|s| - |r|..] && AllWhitespace(s[..|s| - |r|])
  {
    assert s[1..][|s| - 1 - |r|..] == s[|s| - |r|..];
    assert s[..|s| - |r|] == [s[0]] + s[1..][..|s| - 1 - |r|];
  }

  /** `s` without its trailing whitespace: a prefix of `s`, cut off before whitespace only. */
  function TrimEnd(s: string): (r: string)
    ensures |r| <= |s| && r == s[..|r|]
    ensures AllWhitespace(s[|r|..])
    ensures r == [] || !IsWhitespace(r[|r| - 1])
  {
    if s == [] || !IsWhitespace(s[|s| - 1]) then s
    else
      var r := TrimEnd(s[..|s| - 1]);
      TrimEndStep(s, r);
      r
  }

  lemma TrimEndStep(s: string, r: string)
    requires s != [] && IsWhitespace(s[|s| - 1])
    requires |r| <= |s| - 1 && r == s[..|s| - 1][..|r|] && AllWhitespace(s[..|s| - 1][|r|..])
    ensures r == s[..|r|] && AllWhitespace(s[|r|..])
  {
    assert s[..|s| - 1][..|r|] == s[..|r|];
    assert s[|r|..] == s[..|s| - 1][|r|..] + [s[|s| - 1]];
  }

  /**
   * String.prototype.trim: the part of `s` between its leading and its trailing
   * whitespace. It is empty exactly when `s` is all whitespace.
   */
  function Trim(s: string): (r: string)
    ensures IsTrimmed(r)
    ensures r == [] <==> AllWhitespace(s)
  {
    var t := TrimStart(s);
    var r := TrimEnd(t);
    TrimEmptyOnlyIfWhitespace(s, t, r);
    r
  }

  /** Trimming adds no character: one that is not in `s` is not in `Trim(s)`. */
  lemma TrimAddsNothing(s: string, c: char)
    requires c !in s
    ensures c !in Trim(s)
  {
    TrimKeepsChars(s, TrimStart(s), Trim(s));
  }

  lemma TrimEmptyOnlyIfWhitespace(s: string, t: string, r: string)
    requires t == TrimStart(s) && r == TrimEnd(t)
    ensures r == [] ==> AllWhitespace(s)
  {
    var k := |s| - |t|;
    if r == [] {
      assert |r| == 0;
      assert AllWhitespace(t[0..]);
      assert t[0..] == t;
      assert AllWhitespace(s[..k]);
      forall i | 0 <= i < |s| ensures IsWhitespace(s[i]) {
        if i < k {
          assert s[i] == s[..k][i];
        } else {
          assert s[i] == t[i - k];
        }
      }
    }
  }

  lemma TrimKeepsChars(s: string, t: string, r: string)
    requires t == TrimStart(s) && r == TrimEnd(t)
    ensures forall c :: c in r ==> c in s
  {
    var k := |s| - |t|;
    forall c | c in r ensures c in s {
      var j :| 0 <= j < |r| && r[j] == c;
      assert r[j] == t[j] == s[k + j];
    }
  }

  lemma WhitespaceConcat(a: string, b: string)
    requires AllWhitespace(a) && AllWhitespace(b)
    ensures AllWhitespace(a + b)
  {
    forall i | 0 <= i < |a + b| ensures IsWhitespace((a + b)[i]) {
      if i < |a| {
        assert (a + b)[i] == a[i];
      } else {
        assert (a + b)[i] == b[i - |a|];
      }
    }
  }

  /** Leading whitespace does not change the trimmed text. */
  lemma {:induction false} TrimAfterWhitespace(w: string, s: string)
    requires AllWhitespace(w)
    ensures Trim(w + s) == Trim(s)
  {
    TrimStartAfterWhitespace(w, s);
  }

  lemma {:induction false} TrimStartAfterWhitespace(w: string, s: string)
    requires AllWhitespace(w)
    ensures TrimStart(w + s) == TrimStart(s)
  {
    if w != [] {
      var ws := w + s;
      assert ws[0] == w[0] && ws[1..] == w[1..] + s;
      assert IsWhitespace(ws[0]);
      assert TrimStart(ws) == TrimStart(ws[1..]);
      TrimStartAfterWhitespace(w[1..], s);
    } else {
      assert w + s == s;
    }
  }

  /** Text whose ends are not whitespace comes out of `trim` unchanged. */
  lemma TrimOfTrimmed(s: string)
    requires IsTrimmed(s)
    ensures Trim(s) == s
  {
  }

  /** Trimming twice is trimming once. */
  lemma TrimIdempotent(s: string)
    ensures Trim(Trim(s)) == Trim(s)
  {
    TrimOfTrimmed(Trim(s));
  }

  /** The trimmed form of each element, in order (`xs.map(x => x.trim())`). */
  function MapTrim(xs: seq<string>): (r: seq<string>)
    ensures |r| == |xs|
    ensures forall i :: 0 <= i < |r| ==> IsTrimmed(r[i])
  {
    seq(|xs|, i requires 0 <= i < |xs| => Trim(xs[i]))
  }

  /** Trimming already trimmed elements changes none of them. */
  lemma MapTrimOfTrimmed(xs: seq<string>)
    requires forall i :: 0 <= i < |xs| ==> IsTrimmed(xs[i])
    ensures MapTrim(xs) == xs
  {
    var r := MapTrim(xs);
    forall i | 0 <= i < |xs| ensures r[i] == xs[i] {
      TrimOfTrimmed(xs[i]);
    }
  }

  lemma MapTrimConcat(a: seq<string>, b: seq<string>)
    ensures MapTrim(a + b) == MapTrim(a) + MapTrim(b)
  {
    var l, r := MapTrim(a + b), MapTrim(a) + MapTrim(b);
    forall i | 0 <= i < |l| ensures l[i] == r[i] {
      MapTrimAt(a + b, i);
      if i < |a| {
        MapTrimAt(a, i);
        assert (a + b)[i] == a[i];
      } else {
        MapTrimAt(b, i - |a|);
        assert (a + b)[i] == b[i - |a|];
      }
    }
    assert |l| == |r|;
  }

  lemma MapTrimAt(xs: seq<string>, i: nat)
    requires i < |xs|
    ensures MapTrim(xs)[i] == Trim(xs[i])
  {
  }

  /** The number of occurrences of `d` in `s`. */
  function Count(s: string, d: char): nat
  {
    if s == [] then 0 else (if s[0] == d then 1 else 0) + Count(s[1..], d)
  }

  /** Array.prototype.join: the elements of `xs` with `sep` between neighbours. */
  function Join(xs: seq<string>, sep: string): string
  {
    if xs == [] then []
    else if |xs| == 1 then xs[0]
    else xs[0] + sep + Join(xs[1..], sep)
  }

  /** The combined length of the elements of `xs`. */
  function TotalLength(xs: seq<string>): nat {
    if xs == [] then 0 else |xs[0]| + TotalLength(xs[1..])
  }

  /** The joined string is the elements' characters plus one separator between each two neighbours. */
  lemma {:induction false} JoinLength(xs: seq<string>, sep: string)
    ensures |Join(xs, sep)| == if xs == [] then 0 else TotalLength(xs) + (|xs| - 1) * |sep|
  {
    if |xs| > 1 {
      JoinLength(xs[1..], sep);
      assert (|xs| - 1) * |sep| == |sep| + (|xs| - 2) * |sep|;
    }
  }

  /** Every character of an element appears in the joined string. */
  lemma {:induction false} JoinContainsItems(xs: seq<string>, sep: string, i: nat, c: char)
    requires i < |xs| && c in xs[i]
    ensures c in Join(xs, sep)
    decreases |xs|
  {
    if |xs| > 1 {
      assert Join(xs, sep) == xs[0] + sep + Join(xs[1..], sep);
      if i > 0 {
        assert xs[1..][i - 1] == xs[i];
        JoinContainsItems(xs[1..], sep, i - 1, c);
      }
    }
  }

  /** A character of the joined string that is not in the separator comes from some element. */
  lemma {:induction false} JoinCharSource(xs: seq<string>, sep: string, c: char) returns (i: nat)
    requires c in Join(xs, sep) && c !in sep
    ensures i < |xs| && c in xs[i]
    decreases |xs|
  {
    if |xs| <= 1 {
      i := 0;
    } else {
      assert Join(xs, sep) == xs[0] + sep + Join(xs[1..], sep);
      if c in xs[0] {
        i := 0;
      } else {
        var k := JoinCharSource(xs[1..], sep, c);
        assert xs[1..][k] == xs[k + 1];
        i := k + 1;
      }
    }
  }

  /**
   * String.prototype.split with the one-character separator `d`: the pieces of `s`
   * between occurrences of `d`. There is always one piece more than there are
   * separators (so `""` splits into `[""]`), no piece holds `d`, and joining the
   * pieces with `d` gives `s` back.
   */
  function Split(s: string, d: char): (r: seq<string>)
    ensures |r| == Count(s, d) + 1
    ensures forall i :: 0 <= i < |r| ==> d !in r[i]
    ensures Join(r, [d]) == s
  {
    if s == [] then [[]]
    else
      var rest := Split(s[1..], d);
      if s[0] == d then
        assert s == [d] + s[1..];
        [[]] + rest
      else
        var r := [[s[0]] + rest[0]] + rest[1..];
        assert |rest| > 1 ==> Join(rest, [d]) == rest[0] + [d] + Join(rest[1..], [d]);
        assert r[1..] == rest[1..];
        assert s == [s[0]] + s[1..];
        r
  }

  /** A prefix without separators is glued onto the first piece of what follows. */
  lemma {:induction false} SplitAfterPrefix(p: string, y: string, d: char)
    requires d !in p
    ensures Split(p + y, d) == [p + Split(y, d)[0]] + Split(y, d)[1..]
  {
    if p == [] {
      assert p + y == y && p + Split(y, d)[0] == Split(y, d)[0];
    } else {
      var py := p + y;
      assert py[0] == p[0] && py[1..] == p[1..] + y;
      assert p[0] != d;
      SplitAfterPrefix(p[1..], y, d);
      var rest := Split(py[1..], d);
      assert Split(py, d) == [[py[0]] + rest[0]] + rest[1..];
      assert [p[0]] + (p[1..] + Split(y, d)[0]) == p + Split(y, d)[0];
    }
  }

  /** `pad + x` for every element `x` of `xs`. */
  function Padded(xs: seq<string>, pad: string): (r: seq<string>)
    ensures |r| == |xs|
  {
    seq(|xs|, i requires 0 <= i < |xs| => pad + xs[i])
  }

  /** Trimming does not see the single blank that pads every item after the first. */
  lemma PaddedTrim(items: seq<string>, pieces: seq<string>)
    requires |items| > 0 && pieces == [items[0]] + Padded(items[1..], " ")
    ensures MapTrim(pieces) == MapTrim(items)
  {
    assert AllWhitespace(" ");
    forall i | 0 <= i < |items| ensures MapTrim(pieces)[i] == MapTrim(items)[i] {
      MapTrimAt(pieces, i);
      MapTrimAt(items, i);
      if i > 0 {
        assert pieces[i] == " " + items[i];
        TrimAfterWhitespace(" ", items[i]);
      }
    }
  }

  /** A leading separator yields an empty first piece. */
  lemma SplitAfterSeparator(y: string, d: char)
    ensures Split([d] + y, d) == [[]] + Split(y, d)
  {
    var dy := [d] + y;
    assert dy[0] == d && dy[1..] == y;
  }

  /**
   * Splitting on `d` what was joined with `d + pad` gives back the first element and
   * every later element behind `pad`, provided neither the elements nor `pad` contain `d`.
   */
  lemma {:induction false} SplitJoin(xs: seq<string>, d: char, pad: string)
    requires |xs| > 0
    requires d !in pad
    requires forall i :: 0 <= i < |xs| ==> d !in xs[i]
    ensures Split(Join(xs, [d] + pad), d) == [xs[0]] + Padded(xs[1..], pad)
  {
    var sep := [d] + pad;
    if |xs| == 1 {
      assert Join(xs, sep) == xs[0];
      SplitAfterPrefix(xs[0], [], d);
      assert xs[0] + [] == xs[0];
      assert Split(xs[0], d) == [xs[0] + []];
    } else {
      var tail := Join(xs[1..], sep);
      var rest := [d] + (pad + tail);
      assert Join(xs, sep) == xs[0] + rest;
      SplitJoin(xs[1..], d, pad);
      var st := Split(tail, d);
      assert st == [xs[1]] + Padded(xs[2..], pad) by {
        assert xs[1..][0] == xs[1] && xs[1..][1..] == xs[2..];
      }
      SplitAfterPrefix(pad, tail, d);
      assert Split(pad + tail, d) == Padded(xs[1..], pad) by {
        assert [pad + st[0]] + st[1..] == Padded(xs[1..], pad);
      }
      SplitAfterSeparator(pad + tail, d);
      SplitAfterPrefix(xs[0], rest, d);
      assert xs[0] + [] == xs[0];
    }
  }

  /** Text without the separator splits into one piece, the text itself. */
  lemma {:induction false} SplitWithoutSeparator(s: string, d: char)
    requires d !in s
    ensures Split(s, d) == [s]
  {
    NoSeparatorNoCount(s, d);
    var r := Split(s, d);
    assert |r| == 1 && Join(r, [d]) == r[0];
  }

  lemma {:induction false} NoSeparatorNoCount(s: string, d: char)
    requires d !in s
    ensures Count(s, d) == 0
  {
    if s != [] {
      assert s[0] != d;
      NoSeparatorNoCount(s[1..], d);
    }
  }

  /** With no padding, split undoes join. */
  lemma SplitJoinExact(xs: seq<string>, d: char)
    requires |xs| > 0
    requires forall i :: 0 <= i < |xs| ==> d !in xs[i]
    ensures Split(Join(xs, [d]), d) == xs
  {
    SplitJoin(xs, d, []);
    assert [d] + [] == [d];
    var ps := Padded(xs[1..], []);
    forall i | 0 <= i < |ps| ensures ps[i] == xs[1..][i] {
      assert [] + xs[1..][i] == xs[1..][i];
    }
    assert ps == xs[1..];
    assert [xs[0]] + xs[1..] == xs;
  }
}
