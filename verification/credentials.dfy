/** Credentials on the OpenVPN management line (vpntoris-tray/internal/
    nativehelper/openvpn_auth.go), and the lexer that reads such lines back
    (vpntoris-tray/swift/VPNTorisApp.swift, openVPNFields). */
module Credentials {
  import opened Wrappers
  import opened Text

  /** strings.ReplaceAll for a single character. */
  function ReplaceChar(s: string, c: char, text: string): string {
    if s == "" then "" else (if s[0] == c then text else [s[0]]) + ReplaceChar(s[1..], c, text)
  }

  function ManagementEscape(value: string): string {
    ReplaceChar(ReplaceChar(value, '\\', "\\\\"), '\"', "\\\"")
  }

  /** What writeManagementCredentials sends. */
  function CredentialLine(kind: string, value: string): string {
    kind + " \"Auth\" \"" + ManagementEscape(value) + "\""
  }

  function ManagementText(username: string, password: string): string {
    CredentialLine("username", username) + "\n" + CredentialLine("password", password) + "\n"
  }

  // ---- The lexer ----

  datatype Lexer = Lexer(fields: seq<string>, current: string, quote: Option<char>, escaped: bool)

  function LexChar(l: Lexer, c: char): Lexer {
    if l.escaped then l.(current := l.current + [c], escaped := false)
    else if c == '\\' then l.(escaped := true)
    else if l.quote.Some? then
      if c == l.quote.value then l.(quote := None) else l.(current := l.current + [c])
    else if c == '\"' || c == '\'' then l.(quote := Some(c))
    else if IsSpace(c) then
      if l.current != "" then l.(fields := l.fields + [l.current], current := "") else l
    else l.(current := l.current + [c])
  }

  function Lex(l: Lexer, s: string): Lexer
    decreases |s|
  {
    if s == "" then l else Lex(LexChar(l, s[0]), s[1..])
  }

  function LexEnd(l: Lexer): seq<string> {
    var current := if l.escaped then l.current + "\\" else l.current;
    if current != "" then l.fields + [current] else l.fields
  }

  function LineFields(line: string): seq<string> {
    LexEnd(Lex(Lexer([], "", None, false), line))
  }

  method OpenVPNFields(line: string) returns (fields: seq<string>)
    ensures fields == LineFields(line)
  {
    fields := [];
    var current := "";
    var quote: Option<char> := None;
    var escaped := false;
    var next := 0;
    while next < |line|
      invariant 0 <= next <= |line|
      invariant Lex(Lexer([], "", None, false), line) == Lex(Lexer(fields, current, quote, escaped), line[next..])
    {
      var character := line[next];
      assert line[next..][0] == character && line[next..][1..] == line[next + 1..];
      next := next + 1;
      if escaped {
        current := current + [character];
        escaped := false;
        continue;
      }
      if character == '\\' {
        escaped := true;
        continue;
      }
      if quote.Some? {
        if character == quote.value {
          quote := None;
        } else {
          current := current + [character];
        }
        continue;
      }
      if character == '\"' || character == '\'' {
        quote := Some(character);
        continue;
      }
      if IsSpace(character) {
        if current != "" {
          fields := fields + [current];
          current := "";
        }
      } else {
        current := current + [character];
      }
    }
    if escaped {
      current := current + "\\";
    }
    if current != "" {
      fields := fields + [current];
    }
  }

  lemma {:induction false} LexAppend(l: Lexer, s: string, t: string)
    ensures Lex(l, s + t) == Lex(Lex(l, s), t)
    decreases |s|
  {
    if s == "" {
      assert s + t == t;
    } else {
      assert (s + t)[0] == s[0] && (s + t)[1..] == s[1..] + t;
      LexAppend(LexChar(l, s[0]), s[1..], t);
    }
  }

  lemma {:induction false} ReplaceAppend(s: string, t: string, c: char, text: string)
    ensures ReplaceChar(s + t, c, text) == ReplaceChar(s, c, text) + ReplaceChar(t, c, text)
  {
    if s == "" {
      assert s + t == t;
    } else {
      assert (s + t)[1..] == s[1..] + t;
      ReplaceAppend(s[1..], t, c, text);
    }
  }

  /** The escape of one character. */
  function EscapeChar(c: char): string {
    if c == '\\' then "\\\\" else if c == '\"' then "\\\"" else [c]
  }

  lemma {:induction false} EscapeCons(value: string)
    requires value != ""
    ensures ManagementEscape(value) == EscapeChar(value[0]) + ManagementEscape(value[1..])
  {
    var head := if value[0] == '\\' then "\\\\" else [value[0]];
    ReplaceAppend(head, ReplaceChar(value[1..], '\\', "\\\\"), '\"', "\\\"");
    if value[0] == '\\' {
      assert head[1..] == "\\" && head[1..][1..] == "";
    } else {
      assert head[1..] == "";
    }
  }

  lemma {:induction false} LexTwo(l: Lexer, a: char, b: char)
    ensures Lex(l, [a, b]) == LexChar(LexChar(l, a), b)
  {
    assert [a, b] == [a] + [b];
    LexAppend(l, [a], [b]);
    LexOne(l, a);
    LexOne(LexChar(l, a), b);
  }

  lemma {:induction false} LexEscapedChar(l: Lexer, c: char)
    requires l.quote == Some('\"') && !l.escaped
    ensures Lex(l, EscapeChar(c)) == l.(current := l.current + [c])
  {
    if c == '\\' || c == '\"' {
      assert EscapeChar(c) == ['\\', c];
      LexTwo(l, '\\', c);
    } else {
      LexOne(l, c);
    }
  }

  /** Inside double quotes the lexer undoes the escaping. */
  lemma {:induction false} LexEscaped(l: Lexer, value: string)
    requires l.quote == Some('\"') && !l.escaped
    ensures Lex(l, ManagementEscape(value)) == l.(current := l.current + value)
    decreases |value|
  {
    if value == "" {
      assert l.current + value == l.current;
    } else {
      EscapeCons(value);
      LexEscaped(l.(current := l.current + [value[0]]), value[1..]);
      LexEscapedStep(l, value, ManagementEscape(value[1..]), ManagementEscape(value));
    }
  }

  lemma {:induction false} LexEscapedStep(l: Lexer, value: string, rest: string, whole: string)
    requires l.quote == Some('\"') && !l.escaped && value != ""
    requires whole == EscapeChar(value[0]) + rest
    requires var m := l.(current := l.current + [value[0]]);
             Lex(m, rest) == m.(current := m.current + value[1..])
    ensures Lex(l, whole) == l.(current := l.current + value)
  {
    LexEscapedHead(l, value[0], rest);
    assert l.current + [value[0]] + value[1..] == l.current + value;
  }

  lemma {:induction false} LexEscapedHead(l: Lexer, c: char, rest: string)
    requires l.quote == Some('\"') && !l.escaped
    ensures Lex(l, EscapeChar(c) + rest) == Lex(l.(current := l.current + [c]), rest)
  {
    LexAppend(l, EscapeChar(c), rest);
    LexEscapedChar(l, c);
  }

  /** A plain word is collected as it stands. */
  lemma {:induction false} LexWord(l: Lexer, w: string)
    requires l.quote == None && !l.escaped
    requires forall i :: 0 <= i < |w| ==> !IsSpace(w[i]) && w[i] != '\\' && w[i] != '\"' && w[i] != '\''
    ensures Lex(l, w) == l.(current := l.current + w)
    decreases |w|
  {
    if w == "" {
      assert l.current + w == l.current;
    } else {
      LexWord(LexChar(l, w[0]), w[1..]);
      assert l.current + [w[0]] + w[1..] == l.current + w;
    }
  }

  lemma {:induction false} LexOne(l: Lexer, c: char)
    ensures Lex(l, [c]) == LexChar(l, c)
  {
    assert [c][1..] == "";
  }

  /** A blank and a quoted, escaped value after a finished word. */
  lemma {:induction false} LexQuoted(fields: seq<string>, current: string, value: string)
    requires current != ""
    ensures Lex(Lexer(fields, current, None, false), " \"" + ManagementEscape(value) + "\"")
              == Lexer(fields + [current], value, None, false)
  {
    var l := Lexer(fields, current, None, false);
    var inside := Lexer(fields + [current], "", Some('\"'), false);
    var open: string := [' ', '\"'];
    assert open[1..] == ['\"'] && open[1..][1..] == "";
    assert Lex(l, open) == LexChar(LexChar(l, ' '), '\"') == inside;
    LexAppend(l, open, ManagementEscape(value) + "\"");
    LexAppend(inside, ManagementEscape(value), "\"");
    LexEscaped(inside, value);
    assert "" + value == value;
    LexOne(inside.(current := value), '\"');
    assert open + (ManagementEscape(value) + "\"") == " \"" + ManagementEscape(value) + "\"";
  }

  lemma {:induction false} ReplaceNone(s: string, c: char, text: string)
    requires c !in s
    ensures ReplaceChar(s, c, text) == s
  {
    if s != "" {
      ReplaceNone(s[1..], c, text);
      assert s == [s[0]] + s[1..];
    }
  }

  lemma {:induction false} EscapePlain(w: string)
    requires '\\' !in w && '\"' !in w
    ensures ManagementEscape(w) == w
  {
    ReplaceNone(w, '\\', "\\\\");
    ReplaceNone(w, '\"', "\\\"");
  }

  predicate PlainWord(w: string) {
    w != "" && forall i :: 0 <= i < |w| ==> !IsSpace(w[i]) && w[i] != '\\' && w[i] != '\"' && w[i] != '\''
  }

  /** A credential line reads back as its three fields exactly when the value is
      not empty; an empty one leaves two. */
  lemma {:induction false} CredentialReadsBack(kind: string, value: string)
    requires PlainWord(kind)
    ensures LineFields(CredentialLine(kind, value)) == if value == "" then [kind, "Auth"] else [kind, "Auth", value]
  {
    var auth: string := "Auth";
    EscapePlain(auth);
    LineParts(kind, auth, value);
    QuotedReadsBack(kind, auth, value);
  }

  /** A blank and a quoted, escaped value. */
  function Quoted(value: string): string {
    " \"" + ManagementEscape(value) + "\""
  }

  lemma {:induction false} LineParts(kind: string, auth: string, value: string)
    requires auth == "Auth" && ManagementEscape(auth) == auth
    ensures CredentialLine(kind, value) == kind + (Quoted(auth) + Quoted(value))
  {
    var e := ManagementEscape(value);
    assert kind + (" \"" + auth + "\"" + (" \"" + e + "\"")) == kind + " \"Auth\" \"" + e + "\"";
  }

  lemma {:induction false} QuotedReadsBack(kind: string, auth: string, value: string)
    requires PlainWord(kind) && auth != ""
    ensures LineFields(kind + (Quoted(auth) + Quoted(value))) == if value == "" then [kind, auth] else [kind, auth, value]
  {
    var start := Lexer([], "", None, false);
    LexWord(start, kind);
    assert "" + kind == kind;
    LexQuoted([], kind, auth);
    assert [] + [kind] == [kind];
    LexQuoted([kind], auth, value);
    LexAppend(start, kind, Quoted(auth) + Quoted(value));
    LexAppend(Lexer([], kind, None, false), Quoted(auth), Quoted(value));
  }

  // ---- Other lines ----

  lemma {:induction false} LexWords(fields: seq<string>, words: seq<string>)
    requires words != [] && forall k :: 0 <= k < |words| ==> PlainWord(words[k])
    ensures LexEnd(Lex(Lexer(fields, "", None, false), JoinBlank(words))) == fields + words
    decreases |words|
  {
    hide Lex, LexEnd, JoinBlank;
    JoinedWords(words);
    if |words| == 1 {
      LastWord(fields, words[0]);
      assert words == [words[0]];
    } else {
      NextWord(fields, words[0], JoinBlank(words[1..]));
      LexWords(fields + [words[0]], words[1..]);
      assert fields + [words[0]] + words[1..] == fields + words;
    }
  }

  lemma {:induction false} JoinedWords(words: seq<string>)
    requires words != []
    ensures JoinBlank(words) == if |words| == 1 then words[0] else words[0] + (" " + JoinBlank(words[1..]))
  {
  }

  lemma {:induction false} LastWord(fields: seq<string>, word: string)
    requires PlainWord(word)
    ensures LexEnd(Lex(Lexer(fields, "", None, false), word)) == fields + [word]
  {
    hide Lex;
    LexWord(Lexer(fields, "", None, false), word);
    assert "" + word == word;
  }

  lemma {:induction false} NextWord(fields: seq<string>, word: string, rest: string)
    requires PlainWord(word)
    ensures Lex(Lexer(fields, "", None, false), word + (" " + rest)) == Lex(Lexer(fields + [word], "", None, false), rest)
  {
    hide Lex;
    var l, blank := Lexer(fields, "", None, false), " ";
    LexWord(l, word);
    assert "" + word == word;
    LexAppend(l, word, blank + rest);
    LexAppend(l.(current := word), blank, rest);
    LexOne(l.(current := word), blank[0]);
    assert blank == [blank[0]];
  }

  /** Without quotes and backslashes the fields are the words of the line. */
  lemma {:induction false} WordsReadBack(words: seq<string>)
    requires forall k :: 0 <= k < |words| ==> PlainWord(words[k])
    ensures LineFields(JoinBlank(words)) == words
  {
    if words != [] {
      LexWords([], words);
      assert [] + words == words;
    }
  }

  lemma {:induction false} LexInside(l: Lexer, value: string, mark: char)
    requires l.quote == Some(mark) && !l.escaped && mark !in value && '\\' !in value
    ensures Lex(l, value) == l.(current := l.current + value)
    decreases |value|
  {
    if value == "" {
      assert l.current + value == l.current;
    } else {
      LexInside(l.(current := l.current + [value[0]]), value[1..], mark);
      assert l.current + [value[0]] + value[1..] == l.current + value;
    }
  }

  /** Either quote keeps everything but itself and the backslash as it stands,
      the other quote and blanks included. */
  lemma {:induction false} QuotedAsItStands(value: string, mark: char)
    requires (mark == '\'' || mark == '\"') && mark !in value && '\\' !in value
    ensures LineFields([mark] + value + [mark]) == if value == "" then [] else [value]
  {
    var start := Lexer([], "", None, false);
    LexAppend(start, [mark] + value, [mark]);
    LexAppend(start, [mark], value);
    LexOne(start, mark);
    LexInside(start.(quote := Some(mark)), value, mark);
    assert "" + value == value;
    LexOne(Lexer([], value, Some(mark), false), mark);
  }

  /** A backslash takes the next character as it stands, also a blank; the last
      one of a line stands for itself. */
  lemma {:induction false} BackslashAsItStands(word: string, c: char)
    requires PlainWord(word)
    ensures LineFields(word + ['\\', c]) == [word + [c]] && LineFields(word + "\\") == [word + "\\"]
  {
    var start, back: string := Lexer([], "", None, false), "\\";
    LexWord(start, word);
    assert "" + word == word;
    LexAppend(start, word, ['\\', c]);
    LexAppend(start, word, back);
    LexTwo(start.(current := word), '\\', c);
    LexOne(start.(current := word), back[0]);
    assert back == [back[0]];
  }

  lemma {:induction false} EscapeLines(value: string)
    ensures OneLine(ManagementEscape(value)) <==> OneLine(value)
  {
    if value != "" {
      EscapeCons(value);
      EscapeLines(value[1..]);
      assert value == [value[0]] + value[1..];
    }
  }

  /** The engine reads the two credential lines as two lines just when neither
      value contains a line feed. */
  lemma {:induction false} TwoLines(username: string, password: string)
    ensures Lines(ManagementText(username, password))
              == [CredentialLine("username", username), CredentialLine("password", password)]
            <==> OneLine(username) && OneLine(password)
  {
    var u, p := CredentialLine("username", username), CredentialLine("password", password);
    EscapeLines(username);
    EscapeLines(password);
    CredentialOneLine("username", username);
    CredentialOneLine("password", password);
    if OneLine(username) && OneLine(password) {
      TwoRendered(u, p);
    } else {
      assert !OneLine([u, p][0]) || !OneLine([u, p][1]);
    }
  }

  lemma {:induction false} CredentialOneLine(kind: string, value: string)
    requires OneLine(kind)
    ensures OneLine(CredentialLine(kind, value)) <==> OneLine(value)
  {
    var before, e, line := kind + " \"Auth\" \"", ManagementEscape(value), CredentialLine(kind, value);
    EscapeLines(value);
    assert line == before + e + "\"";
    assert OneLine(before);
    assert forall i :: 0 <= i < |e| ==> line[|before| + i] == e[i];
  }

  lemma {:induction false} TwoRendered(a: string, b: string)
    requires OneLine(a) && OneLine(b)
    ensures Lines(a + "\n" + b + "\n") == [a, b]
  {
    LinesRender([a, b]);
    RenderTwo(a, b);
  }

  lemma {:induction false} RenderTwo(a: string, b: string)
    ensures Render([a, b]) == a + "\n" + b + "\n"
  {
    assert [a, b][1..] == [b] && [b][1..] == [];
    assert Render([b]) == b + "\n" + "";
    assert a + "\n" + (b + "\n" + "") == a + "\n" + b + "\n";
  }
}
