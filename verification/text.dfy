/** The string operations of Go's standard library that the text transforms
    use.  A string is a sequence of Unicode code points. */
module Text {
  /** unicode.IsSpace */
  predicate IsSpace(c: char) {
    || c == ' ' || c == '\t' || c == '\n' || c == '\r' || WideSpace(c as int)
  }

  predicate WideSpace(n: int) {
    || n == 0x0B || n == 0x0C || n == 0x85 || n == 0xA0 || n == 0x1680 || 0x2000 <= n <= 0x200A
    || n == 0x2028 || n == 0x2029 || n == 0x202F || n == 0x205F || n == 0x3000
  }

  /** unicode.ToLower as far as its results are ASCII: besides the capitals only
      the dotted I and the Kelvin sign have an ASCII letter in lower case. */
  function LowerChar(c: char): char {
    if 'A' <= c <= 'Z' then (c as int + 32) as char
    else if c as int == 0x0130 then 'i'
    else if c as int == 0x212A then 'k'
    else c
  }

  /** How strings.EqualFold compares a character with an ASCII one: the long s
      and the Kelvin sign are equal to letters, the dotted I is not. */
  function FoldChar(c: char): char {
    if 'A' <= c <= 'Z' then (c as int + 32) as char
    else if c as int == 0x017F then 's'
    else if c as int == 0x212A then 'k'
    else c
  }

  function Fold(s: string): (r: string)
    ensures |r| == |s| && forall i :: 0 <= i < |s| ==> r[i] == FoldChar(s[i])
  {
    seq(|s|, i requires 0 <= i < |s| => FoldChar(s[i]))
  }

  /** The number of bytes in UTF-8. */
  function Bytes(s: string): (n: nat)
    ensures |s| <= n
  {
    if s == "" then 0 else Width(s[0] as int) + Bytes(s[1..])
  }

  function Width(n: int): nat {
    if n < 0x80 then 1 else if n < 0x800 then 2 else if n < 0x1_0000 then 3 else 4
  }

  function Lower(s: string): (r: string)
    ensures |r| == |s| && forall i :: 0 <= i < |s| ==> r[i] == LowerChar(s[i])
  {
    seq(|s|, i requires 0 <= i < |s| => LowerChar(s[i]))
  }

  function TrimLeft(s: string): (r: string)
    ensures |r| <= |s|
    ensures r == "" || !IsSpace(r[0])
  {
    if s == "" || !IsSpace(s[0]) then s else TrimLeft(s[1..])
  }

  function TrimRight(s: string): (r: string)
    ensures r <= s
    ensures r == "" || !IsSpace(r[|r| - 1])
  {
    if s == "" || !IsSpace(s[|s| - 1]) then s else TrimRight(s[..|s| - 1])
  }

  function TrimSpace(s: string): (r: string)
    ensures r == "" || (!IsSpace(r[0]) && !IsSpace(r[|r| - 1]))
  {
    var r := TrimRight(TrimLeft(s));
    assert r != "" ==> r[0] == TrimLeft(s)[0];
    r
  }

  function TrimAll(parts: seq<string>): (r: seq<string>)
    ensures |r| == |parts|
  {
    seq(|parts|, k requires 0 <= k < |parts| => TrimSpace(parts[k]))
  }

  /** The run of non-space characters at the beginning. */
  function Word(s: string): (w: string)
    ensures |w| <= |s| && NoSpace(w)
    ensures s != "" && !IsSpace(s[0]) ==> w != ""
  {
    if s == "" || IsSpace(s[0]) then "" else [s[0]] + Word(s[1..])
  }

  predicate NoSpace(w: string) {
    forall i :: 0 <= i < |w| ==> !IsSpace(w[i])
  }

  predicate Token(w: string) {
    w != "" && NoSpace(w)
  }

  predicate Tokens(fs: seq<string>) {
    forall k :: 0 <= k < |fs| ==> Token(fs[k])
  }

  /** strings.Fields */
  function Fields(s: string): (fs: seq<string>)
    ensures Tokens(fs)
    decreases |s|
  {
    var t := TrimLeft(s);
    if t == "" then [] else
    var w := Word(t);
    [w] + Fields(t[|w|..])
  }

  /** strings.Join with a blank. */
  function JoinBlank(fs: seq<string>): string {
    if fs == [] then "" else if |fs| == 1 then fs[0] else fs[0] + (" " + JoinBlank(fs[1..]))
  }

  predicate OneLine(s: string) {
    '\n' !in s
  }

  predicate OneLines(ls: seq<string>) {
    forall k :: 0 <= k < |ls| ==> OneLine(ls[k])
  }

  /** No character of `s` is a separator. */
  predicate Free(s: string, separators: set<char>) {
    forall i :: 0 <= i < |s| ==> s[i] !in separators
  }

  predicate AllFree(pieces: seq<string>, separators: set<char>) {
    forall k :: 0 <= k < |pieces| ==> Free(pieces[k], separators)
  }

  /** The index of the first separator, or the length. */
  function Index(s: string, separators: set<char>): (n: nat)
    ensures n <= |s| && Free(s[..n], separators) && (n < |s| ==> s[n] in separators)
  {
    if s == "" || s[0] in separators then 0
    else
      var n := 1 + Index(s[1..], separators);
      assert s[..n] == [s[0]] + s[1..][..n - 1];
      n
  }

  lemma {:induction false} IndexIs(s: string, separators: set<char>, n: nat)
    requires n <= |s| && Free(s[..n], separators) && (n < |s| ==> s[n] in separators)
    ensures Index(s, separators) == n
  {
    if n > 0 {
      assert s[0] == s[..n][0];
      assert s[1..][..n - 1] == s[..n][1..];
      IndexIs(s[1..], separators, n - 1);
    }
  }

  lemma {:induction false} IndexFinds(s: string, separators: set<char>, k: nat)
    requires k < |s| && s[k] in separators
    ensures Index(s, separators) <= k
  {
    if k > 0 && s[0] !in separators {
      IndexFinds(s[1..], separators, k - 1);
    }
  }

  /** The pieces between separators: always at least one. */
  function Split(s: string, separators: set<char>): (pieces: seq<string>)
    ensures |pieces| >= 1 && AllFree(pieces, separators)
    decreases |s|
  {
    var n := Index(s, separators);
    if n == |s| then [s] else [s[..n]] + Split(s[n + 1..], separators)
  }

  /** strings.Join with a single character. */
  function Join(pieces: seq<string>, separator: char): string {
    if pieces == [] then "" else if |pieces| == 1 then pieces[0] else pieces[0] + [separator] + Join(pieces[1..], separator)
  }

  lemma {:induction false} JoinCons(piece: string, pieces: seq<string>, separator: char)
    requires pieces != []
    ensures Join([piece] + pieces, separator) == piece + [separator] + Join(pieces, separator)
  {
    assert ([piece] + pieces)[1..] == pieces;
  }

  lemma {:induction false} SplitJoin(pieces: seq<string>, separator: char, separators: set<char>)
    requires |pieces| >= 1 && AllFree(pieces, separators) && separator in separators
    ensures Split(Join(pieces, separator), separators) == pieces
  {
    if |pieces| == 1 {
      assert pieces[0][..|pieces[0]|] == pieces[0];
      IndexIs(pieces[0], separators, |pieces[0]|);
    } else {
      var rest := pieces[1..];
      assert pieces == [pieces[0]] + rest;
      JoinCons(pieces[0], rest, separator);
      SplitCons(pieces[0], Join(rest, separator), separator, separators);
      SplitJoin(rest, separator, separators);
    }
  }

  lemma {:induction false} SplitCons(piece: string, rest: string, separator: char, separators: set<char>)
    requires Free(piece, separators) && separator in separators
    ensures Split(piece + [separator] + rest, separators) == [piece] + Split(rest, separators)
  {
    var s := piece + [separator] + rest;
    assert s[..|piece|] == piece && s[|piece|] == separator && s[|piece| + 1..] == rest;
    IndexIs(s, separators, |piece|);
  }

  lemma {:induction false} SplitStep(s: string, separators: set<char>)
    ensures var n := Index(s, separators);
            Split(s, separators) == if n == |s| then [s] else [s[..n]] + Split(s[n + 1..], separators)
  {
    hide Index;
  }

  lemma {:induction false} JoinOne(piece: string, separator: char)
    ensures Join([piece], separator) == piece
  {
  }

  lemma {:induction false} JoinSplit(s: string, separator: char)
    ensures Join(Split(s, {separator}), separator) == s
    decreases |s|
  {
    hide Index, Split, Join;
    SplitStep(s, {separator});
    var n := Index(s, {separator});
    if n == |s| {
      JoinOne(s, separator);
    } else {
      var rest := s[n + 1..];
      JoinSplit(rest, separator);
      JoinCons(s[..n], Split(rest, {separator}), separator);
      assert s == s[..n] + [separator] + rest;
    }
  }

  lemma {:induction false} JoinFree(pieces: seq<string>, separator: char, separators: set<char>)
    requires AllFree(pieces, separators) && separator !in separators
    ensures Free(Join(pieces, separator), separators)
  {
    if |pieces| > 1 {
      JoinFree(pieces[1..], separator, separators);
    }
  }

  /** Every line followed by a line feed. */
  function Render(ls: seq<string>): string {
    if ls == [] then "" else ls[0] + "\n" + Render(ls[1..])
  }

  /** The lines of a text; a last one without line feed counts unless empty. */
  function Lines(s: string): (ls: seq<string>)
    ensures OneLines(ls)
    decreases |s|
  {
    if s == "" then [] else
    var n := Index(s, {'\n'});
    if n == |s| then [s] else [s[..n]] + Lines(s[n + 1..])
  }

  lemma {:induction false} LinesRender(ls: seq<string>)
    requires OneLines(ls)
    ensures Lines(Render(ls)) == ls
  {
    if ls != [] {
      LinesCons(ls[0], Render(ls[1..]));
      LinesRender(ls[1..]);
    }
  }

  lemma {:induction false} LinesCons(line: string, rest: string)
    requires OneLine(line)
    ensures Lines(line + "\n" + rest) == [line] + Lines(rest)
  {
    var s := line + "\n" + rest;
    assert s[..|line|] == line && s[|line|] == '\n' && s[|line| + 1..] == rest;
    IndexIs(s, {'\n'}, |line|);
  }

  function DropCR(line: string): string {
    if line != "" && line[|line| - 1] == '\r' then line[..|line| - 1] else line
  }

  function DropCRs(ls: seq<string>): (r: seq<string>)
    ensures |r| == |ls| && forall k :: 0 <= k < |ls| ==> r[k] == DropCR(ls[k])
  {
    seq(|ls|, k requires 0 <= k < |ls| => DropCR(ls[k]))
  }

  /** The tokens of bufio.ScanLines. */
  function ScanLines(s: string): seq<string> {
    DropCRs(Lines(s))
  }

  /** Surrounding space, a trailing carriage return in particular, is nothing
      to TrimSpace. */
  lemma {:induction false} TrimDropCR(line: string)
    ensures TrimSpace(DropCR(line)) == TrimSpace(line)
  {
    if line != "" && line[|line| - 1] == '\r' {
      var init := line[..|line| - 1];
      assert line == init + "\r";
      TrimLeftAppend(init, "\r");
      if TrimLeft(init) == "" {
        assert TrimLeft(line) == TrimLeft("\r") == "";
      } else {
        var t := TrimLeft(init) + "\r";
        assert TrimLeft(line) == t;
        assert t[..|t| - 1] == TrimLeft(init);
      }
    }
  }

  lemma {:induction false} TrimLeftAppend(s: string, t: string)
    ensures TrimLeft(s + t) == if TrimLeft(s) == "" then TrimLeft(t) else TrimLeft(s) + t
  {
    if s == "" {
      assert s + t == t;
    } else if IsSpace(s[0]) {
      assert (s + t)[1..] == s[1..] + t;
      TrimLeftAppend(s[1..], t);
    }
  }

  // ---- Tokens separated by single blanks ----

  lemma {:induction false} WordAppend(w: string, rest: string)
    requires NoSpace(w)
    requires rest == "" || IsSpace(rest[0])
    ensures Word(w + rest) == w
  {
    if w == "" {
      assert w + rest == rest;
    } else {
      assert (w + rest)[1..] == w[1..] + rest;
      WordAppend(w[1..], rest);
    }
  }

  lemma {:induction false} FieldsWord(w: string, rest: string)
    requires Token(w) && (rest == "" || IsSpace(rest[0]))
    ensures Fields(w + rest) == [w] + Fields(rest)
  {
    WordAppend(w, rest);
    assert (w + rest)[0] == w[0];
    assert (w + rest)[|w|..] == rest;
  }

  lemma {:induction false} FieldsJoinBlank(fs: seq<string>)
    requires Tokens(fs)
    ensures Fields(JoinBlank(fs)) == fs
  {
    if |fs| == 1 {
      FieldsWord(fs[0], "");
      assert fs[0] + "" == fs[0];
    } else if |fs| > 1 {
      assert Tokens(fs[1..]);
      FieldsJoinBlank(fs[1..]);
      FieldsCons(fs[0], JoinBlank(fs[1..]));
    }
  }

  lemma {:induction false} FieldsCons(w: string, s: string)
    requires Token(w)
    ensures Fields(w + (" " + s)) == [w] + Fields(s)
  {
    FieldsWord(w, " " + s);
    FieldsBlank(s);
  }

  lemma {:induction false} FieldsBlank(s: string)
    ensures Fields(" " + s) == Fields(s)
  {
    assert (" " + s)[1..] == s;
    assert TrimLeft(" " + s) == TrimLeft(s);
  }
}
