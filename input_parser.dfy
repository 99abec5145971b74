/**
 * `parse_input` of calculator.py: classifies one input line into an action.
 *
 * The line is stripped and lower-cased, compared with the keywords, and
 * otherwise split into tokens; two or three tokens make a calculation when
 * the tokens in number positions parse. The number parser (`float` in the
 * source) is a parameter: any partial function from text to a real.
 */
module InputParser {
  import opened Wrappers
  import opened AsciiText

  /** The classified line. The source returns a 4-tuple whose first element is
      the tag; the unused positions hold `None`. */
  datatype Action =
    | Quit
    | Reset
    | History
    | Continue(operator: string, num: real)
    | New(operator: string, num1: real, num2: real)
    | Error

  /** The words that end the session: `['quit', 'q', 'exit']`. */
  predicate IsQuitWord(n: string) {
    n == "quit" || n == "q" || n == "exit"
  }

  /** The whole-line keywords `parse_input` checks before splitting. */
  predicate IsKeyword(n: string) {
    IsQuitWord(n) || n == "reset" || n == "history"
  }

  /** `user_input.strip().lower()`: the lower-cased slice of `line` left
      after removing the whitespace around it. */
  function Normalize(line: string): (n: string)
    ensures IsStripped(n) && NoUpper(n)
    ensures exists i :: 0 <= i <= |line| - |n| && n == ToLower(line[i..i + |n|])
                        && AllSpace(line[..i]) && AllSpace(line[i + |n|..])
  {
    ToLower(Strip(line))
  }

  /** Every token of a string without upper-case letters has none either. */
  lemma {:induction false} SplitNoUpper(s: string)
    requires NoUpper(s)
    ensures forall k :: 0 <= k < |Split(s)| ==> NoUpper(Split(s)[k])
    decreases |s|
  {
    if s != [] {
      if IsSpace(s[0]) {
        SplitNoUpper(s[1..]);
      } else {
        var w := TakeWord(s);
        SplitNoUpper(s[|w|..]);
        assert Split(s) == [w] + Split(s[|w|..]);
      }
    }
  }

  /** `parse_input(line)`, with `parseNum` standing for `float`. */
  function ParseInput(line: string, parseNum: string -> Option<real>): (r: Action)
    ensures r.Continue? || r.New? ==> IsToken(r.operator)
  {
    Classify(Normalize(line), parseNum)
  }

  /** The decision tree of `parse_input` on the normalised line `n`: the
      whole-line keywords first, then the token count. */
  function Classify(n: string, parseNum: string -> Option<real>): (r: Action)
    ensures r.Continue? || r.New? ==> IsToken(r.operator)
  {
    if IsQuitWord(n) then Quit
    else if n == "reset" then Reset
    else if n == "history" then History
    else
      var parts := Split(n);
      if |parts| == 2 then
        match parseNum(parts[1])
        case Some(num) => Continue(parts[0], num)
        case None => Error
      else if |parts| == 3 then
        match (parseNum(parts[0]), parseNum(parts[2]))
        case (Some(num1), Some(num2)) => New(parts[1], num1, num2)
        case _ => Error
      else
        Error
  }

  /** The operator token of a parsed calculation is lower-case. */
  lemma OperatorLowerCase(line: string, p: string -> Option<real>)
    ensures var r := ParseInput(line, p);
      r.Continue? || r.New? ==> NoUpper(r.operator)
  {
    SplitNoUpper(Normalize(line));
  }

  /** Each keyword is a single token. */
  lemma KeywordSingleToken(w: string)
    requires IsKeyword(w)
    ensures Split(w) == [w]
  {
    if w == "quit" {
      assert IsToken("quit");
    } else if w == "q" {
      assert IsToken("q");
    } else if w == "exit" {
      assert IsToken("exit");
    } else if w == "reset" {
      assert IsToken("reset");
    } else {
      assert IsToken("history");
    }
    SplitToken(w);
  }

  /** On a stripped string, being a keyword is the same as having that keyword
      as its one and only token. */
  lemma KeywordIffSingleToken(n: string, w: string)
    requires IsStripped(n) && IsKeyword(w)
    ensures n == w <==> Split(n) == [w]
  {
    KeywordSingleToken(w);
    if Split(n) == [w] {
      SingleToken(n);
    }
  }

  /** A string with other than one token is no keyword. */
  lemma NoKeywordUnlessSingle(n: string)
    requires |Split(n)| != 1
    ensures !IsKeyword(n)
  {
    if IsKeyword(n) {
      KeywordSingleToken(n);
    }
  }

  /** The keyword branches: each keyword counts only as the line's single
      token. */
  lemma ClassifyKeywords(n: string, p: string -> Option<real>)
    requires IsStripped(n)
    ensures var toks := Split(n); var r := Classify(n, p);
      && (r == Quit <==> toks == ["quit"] || toks == ["q"] || toks == ["exit"])
      && (r == Reset <==> toks == ["reset"])
      && (r == History <==> toks == ["history"])
  {
    KeywordIffSingleToken(n, "quit");
    KeywordIffSingleToken(n, "q");
    KeywordIffSingleToken(n, "exit");
    KeywordIffSingleToken(n, "reset");
    KeywordIffSingleToken(n, "history");
  }

  /** The calculation branches: two tokens whose second is a number continue
      from the result, three tokens whose first and third are numbers start
      anew; the operator token is taken as it is. */
  lemma ClassifyCalculations(n: string, p: string -> Option<real>)
    ensures var toks := Split(n); var r := Classify(n, p);
      && (r.Continue? <==> |toks| == 2 && p(toks[1]).Some?)
      && (r.Continue? ==> r == Continue(toks[0], p(toks[1]).value))
      && (r.New? <==> |toks| == 3 && p(toks[0]).Some? && p(toks[2]).Some?)
      && (r.New? ==> r == New(toks[1], p(toks[0]).value, p(toks[2]).value))
  {
    if |Split(n)| != 1 {
      NoKeywordUnlessSingle(n);
    }
  }

  /** The whole decision tree of `parse_input` in terms of the tokens of the
      normalised line: a keyword only as the single token, a continuation for
      two tokens whose second is a number, a new calculation for three tokens
      whose first and third are numbers, and malformed input in every other
      case (a failed number parse, any other token count). */
  lemma ParseByTokens(line: string, p: string -> Option<real>)
    ensures var toks := Split(Normalize(line)); var r := ParseInput(line, p);
      && (r == Quit <==> toks == ["quit"] || toks == ["q"] || toks == ["exit"])
      && (r == Reset <==> toks == ["reset"])
      && (r == History <==> toks == ["history"])
      && (r.Continue? <==> |toks| == 2 && p(toks[1]).Some?)
      && (r.Continue? ==> r == Continue(toks[0], p(toks[1]).value))
      && (r.New? <==> |toks| == 3 && p(toks[0]).Some? && p(toks[2]).Some?)
      && (r.New? ==> r == New(toks[1], p(toks[0]).value, p(toks[2]).value))
      && (r == Error <==> toks != ["quit"] && toks != ["q"] && toks != ["exit"]
                          && toks != ["reset"] && toks != ["history"]
                          && (|toks| != 2 || p(toks[1]).None?)
                          && (|toks| != 3 || p(toks[0]).None? || p(toks[2]).None?))
  {
    var n := Normalize(line);
    ClassifyKeywords(n, p);
    ClassifyCalculations(n, p);
  }

  /** A line with nothing but whitespace is malformed input. */
  lemma BlankIsError(line: string, p: string -> Option<real>)
    requires AllSpace(line)
    ensures ParseInput(line, p) == Error
  {
  }

  /** Round trip: an operator token and a number text, separated by a space,
      parse back as a continuation with that operator — whatever the operator
      is. */
  lemma ContinueRoundTrip(op: string, numText: string, p: string -> Option<real>, v: real)
    requires IsToken(op) && NoUpper(op)
    requires IsToken(numText) && NoUpper(numText)
    requires p(numText) == Some(v)
    ensures ParseInput(op + " " + numText, p) == Continue(op, v)
  {
    var toks := [op, numText];
    assert Join(toks) == op + " " + numText;
    JoinToNormal(toks);
  }

  /** Round trip: two number texts around an operator token parse back as a
      new calculation with that operator. */
  lemma NewRoundTrip(a: string, op: string, b: string, p: string -> Option<real>, x: real, y: real)
    requires IsToken(a) && NoUpper(a)
    requires IsToken(op) && NoUpper(op)
    requires IsToken(b) && NoUpper(b)
    requires p(a) == Some(x) && p(b) == Some(y)
    ensures ParseInput(a + " " + op + " " + b, p) == New(op, x, y)
  {
    var toks := [a, op, b];
    JoinThree(a, op, b);
    JoinToNormal(toks);
    var line := a + " " + op + " " + b;
    assert Normalize(line) == line && Split(line) == toks;
  }

  /** Three tokens joined by single spaces. */
  lemma JoinThree(a: string, op: string, b: string)
    ensures Join([a, op, b]) == a + " " + op + " " + b
  {
    assert [a, op, b][1..] == [op, b] && [op, b][1..] == [b];
    assert Join([op, b]) == op + " " + b;
  }

  /** Lower-case tokens joined by spaces are already normalised, split back
      into themselves, and match no keyword when there are several. */
  lemma JoinToNormal(toks: seq<string>)
    requires |toks| >= 2
    requires forall k :: 0 <= k < |toks| ==> IsToken(toks[k]) && NoUpper(toks[k])
    ensures Normalize(Join(toks)) == Join(toks)
    ensures Split(Join(toks)) == toks
    ensures !IsKeyword(Join(toks))
  {
    var j := Join(toks);
    JoinStripped(toks);
    JoinNoUpper(toks);
    LowerOfLower(j);
    SplitJoin(toks);
    if IsKeyword(j) {
      KeywordSingleToken(j);
    }
  }
}
