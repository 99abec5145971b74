/**
 * The string built-ins that `parse_input` relies on (`str.strip`, `str.lower`,
 * `str.split` with no argument), restricted to ASCII.
 */
module AsciiText {

  /** The ASCII characters that Python's `str.isspace` accepts: TAB..CR, the four
      information separators 0x1C..0x1F, and the space. */
  predicate IsSpace(c: char) {
    var n := c as int;
    (9 <= n <= 13) || (28 <= n <= 32)
  }

  predicate IsUpper(c: char) {
    'A' <= c <= 'Z'
  }

  predicate AllSpace(s: string) {
    forall i :: 0 <= i < |s| ==> IsSpace(s[i])
  }

  predicate NoSpace(s: string) {
    forall i :: 0 <= i < |s| ==> !IsSpace(s[i])
  }

  /** A non-empty run of non-whitespace characters: what `str.split()` yields. */
  predicate IsToken(t: string) {
    |t| > 0 && NoSpace(t)
  }

  /** No whitespace at either end: what `str.strip()` yields. */
  predicate IsStripped(s: string) {
    s == [] || (!IsSpace(s[0]) && !IsSpace(s[|s| - 1]))
  }

  predicate NoUpper(s: string) {
    forall i :: 0 <= i < |s| ==> !IsUpper(s[i])
  }

  /** The number of whitespace characters `s` starts with. */
  function LeadingSpaces(s: string): (n: nat)
    ensures n <= |s| && AllSpace(s[..n]) && (n == |s| || !IsSpace(s[n]))
  {
    if s == [] || !IsSpace(s[0]) then 0
    else
      var n := LeadingSpaces(s[1..]);
      assert s[..n + 1] == [s[0]] + s[1..][..n];
      n + 1
  }

  /** The number of whitespace characters `s` ends with. */
  function TrailingSpaces(s: string): (n: nat)
    ensures n <= |s| && AllSpace(s[|s| - n..]) && (n == |s| || !IsSpace(s[|s| - n - 1]))
  {
    if s == [] || !IsSpace(s[|s| - 1]) then 0
    else
      var t := s[..|s| - 1];
      var n := TrailingSpaces(t);
      var u := s[|s| - n - 1..];
      assert AllSpace(u) by {
        forall i | 0 <= i < n + 1 ensures IsSpace(u[i]) {
          if i < n {
            assert u[i] == t[|t| - n..][i];
          }
        }
      }
      n + 1
  }

  /** `str.strip()`: a slice of `s` with only whitespace around it in `s` and
      none at its own ends. */
  function Strip(s: string): (r: string)
    ensures IsStripped(r)
    ensures exists i :: 0 <= i <= |s| - |r| && r == s[i..i + |r|]
                        && AllSpace(s[..i]) && AllSpace(s[i + |r|..])
  {
    var a := LeadingSpaces(s);
    if a == |s| then
      assert s[..a] == s && s[a..] == [] && s[a..a] == [];
      []
    else
      var b := |s| - TrailingSpaces(s);
      assert a < b;
      s[a..b]
  }

  /** ASCII lower-casing of one character. */
  function LowerChar(c: char): (d: char)
    ensures !IsUpper(d)
    ensures IsUpper(c) ==> d as int == c as int + 32
    ensures IsUpper(c) || d == c
    ensures IsSpace(d) == IsSpace(c)
  {
    if IsUpper(c) then (c as int + 32) as char else c
  }

  /** `str.lower()` restricted to ASCII: every letter A..Z becomes a..z and
      every other character is kept. */
  function ToLower(s: string): (r: string)
    ensures |r| == |s| && NoUpper(r)
    ensures forall i :: 0 <= i < |s| && IsUpper(s[i]) ==> r[i] as int == s[i] as int + 32
    ensures forall i :: 0 <= i < |s| && !IsUpper(s[i]) ==> r[i] == s[i]
    ensures forall i :: 0 <= i < |s| ==> IsSpace(r[i]) == IsSpace(s[i])
  {
    seq(|s|, i requires 0 <= i < |s| => LowerChar(s[i]))
  }

  /** Lower-casing a string with no upper-case letters changes nothing. */
  lemma LowerOfLower(s: string)
    requires NoUpper(s)
    ensures ToLower(s) == s
  {
  }

  /** The longest whitespace-free prefix of `s`. */
  function TakeWord(s: string): (w: string)
    ensures |w| <= |s| && w == s[..|w|] && NoSpace(w)
    ensures |w| == |s| || IsSpace(s[|w|])
  {
    if s == [] || IsSpace(s[0]) then [] else [s[0]] + TakeWord(s[1..])
  }

  /** `str.split()` with no separator: the maximal whitespace-free runs of `s`,
      in order; leading, trailing and repeated whitespace yields no empty token. */
  function Split(s: string): (r: seq<string>)
    ensures forall k :: 0 <= k < |r| ==> IsToken(r[k])
    decreases |s|
  {
    if s == [] then []
    else if IsSpace(s[0]) then Split(s[1..])
    else
      var w := TakeWord(s);
      [w] + Split(s[|w|..])
  }

  /** The tokens separated by single spaces: the inverse of `Split`. */
  function Join(toks: seq<string>): string {
    if toks == [] then []
    else if |toks| == 1 then toks[0]
    else toks[0] + " " + Join(toks[1..])
  }

  lemma {:induction false} TakeWordOfToken(t: string, rest: string)
    requires NoSpace(t)
    requires rest == [] || IsSpace(rest[0])
    ensures TakeWord(t + rest) == t
  {
    if t != [] {
      assert (t + rest)[1..] == t[1..] + rest;
      TakeWordOfToken(t[1..], rest);
    }
  }

  /** The first word of `a` is not extended by text that starts with
      whitespace. */
  lemma {:induction false} TakeWordPrefix(a: string, rest: string)
    requires rest == [] || IsSpace(rest[0])
    ensures TakeWord(a + rest) == TakeWord(a)
  {
    if a != [] {
      assert (a + rest)[1..] == a[1..] + rest;
      TakeWordPrefix(a[1..], rest);
    }
  }

  /** Leading whitespace does not change the tokens. */
  lemma SplitSkipsSpace(c: char, s: string)
    requires IsSpace(c)
    ensures Split([c] + s) == Split(s)
  {
    assert ([c] + s)[1..] == s;
  }

  /** Any run of leading whitespace does not change the tokens. */
  lemma {:induction false} SplitSkipsSpaces(ws: string, s: string)
    requires AllSpace(ws)
    ensures Split(ws + s) == Split(s)
  {
    if ws != [] {
      SplitSkipsSpace(ws[0], ws[1..] + s);
      assert ws + s == [ws[0]] + (ws[1..] + s);
      SplitSkipsSpaces(ws[1..], s);
    } else {
      assert ws + s == s;
    }
  }

  /** Tokens separated by any non-empty run of whitespace (tabs, several
      spaces, ...) are split apart: with `SplitToken`, this determines
      `Split` on every string. */
  lemma {:induction false} SplitAround(a: string, ws: string, b: string)
    requires ws != [] && AllSpace(ws)
    ensures Split(a + ws + b) == Split(a) + Split(b)
    decreases |a|
  {
    var t := a + ws + b;
    if a == [] {
      assert t == ws + b;
      SplitSkipsSpaces(ws, b);
    } else if IsSpace(a[0]) {
      assert t[1..] == a[1..] + ws + b;
      SplitAround(a[1..], ws, b);
    } else {
      var w := TakeWord(a);
      TakeWordPrefix(a, ws + b);
      assert t == a + (ws + b);
      assert TakeWord(t) == w;
      assert t[|w|..] == a[|w|..] + ws + b;
      SplitAround(a[|w|..], ws, b);
      assert Split(a) == [w] + Split(a[|w|..]);
    }
  }

  /** A whitespace-only string has no tokens, and a string without tokens is
      whitespace only. */
  lemma {:induction false} SplitEmpty(s: string)
    ensures Split(s) == [] <==> AllSpace(s)
  {
    if s != [] && IsSpace(s[0]) {
      SplitEmpty(s[1..]);
    }
  }

  /** The first token starts the joined text and the last token ends it. */
  lemma {:induction false} JoinEnds(toks: seq<string>)
    requires toks != [] && forall k :: 0 <= k < |toks| ==> IsToken(toks[k])
    ensures var j := Join(toks);
      |toks[0]| > 0 && |j| >= |toks[0]| && j[..|toks[0]|] == toks[0] && !IsSpace(j[|j| - 1])
  {
    if |toks| > 1 {
      JoinEnds(toks[1..]);
      var j := Join(toks);
      assert j == toks[0] + (" " + Join(toks[1..]));
      assert j[..|toks[0]|] == toks[0];
    }
  }

  /** Joined tokens are already stripped. */
  lemma JoinStripped(toks: seq<string>)
    requires forall k :: 0 <= k < |toks| ==> IsToken(toks[k])
    ensures IsStripped(Join(toks))
    ensures Strip(Join(toks)) == Join(toks)
  {
    if toks != [] {
      JoinEnds(toks);
      var j := Join(toks);
      assert j[0] == toks[0][0];
    }
  }

  /** Joining lower-case tokens gives lower-case text. */
  lemma {:induction false} JoinNoUpper(toks: seq<string>)
    requires forall k :: 0 <= k < |toks| ==> NoUpper(toks[k])
    ensures NoUpper(Join(toks))
  {
    if |toks| > 1 {
      JoinNoUpper(toks[1..]);
      var rest := Join(toks[1..]);
      var j := toks[0] + " " + rest;
      forall i | 0 <= i < |j| ensures !IsUpper(j[i]) {
        if i > |toks[0]| {
          assert j[i] == rest[i - |toks[0]| - 1];
        }
      }
    }
  }

  /** Round trip: splitting the space-joined tokens gives the tokens back. */
  lemma {:induction false} SplitJoin(toks: seq<string>)
    requires forall k :: 0 <= k < |toks| ==> IsToken(toks[k])
    ensures Split(Join(toks)) == toks
  {
    if toks == [] {
    } else {
      var t := toks[0];
      var j := Join(toks);
      var rest: string := if |toks| == 1 then [] else " " + Join(toks[1..]);
      assert j == t + rest;
      TakeWordOfToken(t, rest);
      assert j[|t|..] == rest;
      if |toks| == 1 {
      } else {
        SplitSkipsSpace(' ', Join(toks[1..]));
        SplitJoin(toks[1..]);
      }
    }
  }

  /** A single token splits into itself. */
  lemma SplitToken(w: string)
    requires IsToken(w)
    ensures Split(w) == [w]
  {
    SplitJoin([w]);
  }

  /** A stripped string with exactly one token is that token. */
  lemma SingleToken(n: string)
    requires IsStripped(n) && |Split(n)| == 1
    ensures n == Split(n)[0]
  {
    var w := TakeWord(n);
    var rest := n[|w|..];
    assert Split(n) == [w] + Split(rest);
    SplitEmpty(rest);
  }
}
