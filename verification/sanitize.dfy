/** The OpenVPN configuration sanitizer (vpntoris-tray/internal/openvpnconfig/
    sanitize.go): the automaton of BlockScan with OpenVPN's rules. */
module Sanitizer {
  import opened Wrappers
  import opened Text
  import opened BlockScan

  const REJECTED := {
    "auth-user-pass-verify", "cd", "chroot", "client-connect", "client-disconnect", "config", "daemon", "down",
    "ipchange", "learn-address", "log", "log-append", "management", "management-client", "management-external-key",
    "plugin", "route-pre-down", "route-up", "status", "tls-verify", "up", "writepid"
  }

  const REMOVED := {
    "auth-user-pass", "block-outside-dns", "dhcp-option", "redirect-gateway", "redirect-private", "route",
    "route-ipv6", "route-nopull", "script-security"
  }

  const BLOCKS := {"ca", "cert", "key", "tls-auth", "tls-crypt", "tls-crypt-v2", "pkcs12"}

  const FIXED: seq<string> := ["route-nopull", "script-security 1", "auth-nocache"]

  const FIXED_ITEMS: seq<Item> := [Directive(["route-nopull"]), Directive(["script-security", "1"]), Directive(["auth-nocache"])]

  const MAX_SIZE := 1024 * 1024

  datatype Problem =
    | BadSize
    | UnsafeBlock(name: string)
    | UnsupportedBlock(name: string)
    | UnsafeDirective(name: string)
    | NotTunnel
    | Unterminated(name: string)

  /** Blank, or a comment. */
  predicate Ignored(trimmed: string) {
    trimmed == "" || trimmed[0] == '#' || trimmed[0] == ';'
  }

  predicate IsTag(trimmed: string) {
    trimmed != "" && trimmed[0] == '<' && trimmed[|trimmed| - 1] == '>'
  }

  function TagName(trimmed: string): string
    requires IsTag(trimmed)
  {
    Lower(trimmed[1..|trimmed| - 1])
  }

  function StripDashes(s: string): string {
    if s != "" && s[0] == '-' then StripDashes(s[1..]) else s
  }

  function DirectiveName(fields: seq<string>): string
    requires fields != []
  {
    Lower(StripDashes(fields[0]))
  }

  /** `dev` may only name a tun device. */
  predicate DeviceOk(fields: seq<string>)
    requires fields != []
  {
    DirectiveName(fields) == "dev" && |fields| > 1 ==> "tun" <= Lower(fields[1])
  }

  function KindOf(line: string): Kind {
    var trimmed := TrimSpace(line);
    if Ignored(trimmed) then Nothing
    else if IsTag(trimmed) then Tag(TagName(trimmed))
    else Plain(Fields(trimmed))
  }

  function FoldLine(line: string): string {
    Fold(TrimSpace(line))
  }

  function JudgeBlock(name: string): Verdict<Problem> {
    if name == "auth-user-pass" || name == "connection" then Refuse(UnsafeBlock(name))
    else if name !in BLOCKS then Refuse(UnsupportedBlock(name))
    else Stay
  }

  function JudgeDirective(fields: seq<string>): Verdict<Problem> {
    if fields == [] then Drop
    else if DirectiveName(fields) in REJECTED then Refuse(UnsafeDirective(DirectiveName(fields)))
    else if DirectiveName(fields) in REMOVED then Drop
    else if !DeviceOk(fields) then Refuse(NotTunnel)
    else Stay
  }

  function OpenVPNRules(): Rules<Problem> {
    Rules(KindOf, FoldLine, JudgeBlock, JudgeDirective)
  }

  predicate SizeOk(configuration: string) {
    0 < Bytes(configuration) <= MAX_SIZE && (0 as char) !in configuration
  }

  /** The verdict on a text and what becomes of it, by the automaton. */
  function Sanitized(configuration: string): Result<string, Problem> {
    if !SizeOk(configuration) then Err(BadSize) else
    match Filter(OpenVPNRules(), FIXED, configuration)
    case Refused(p) => Err(p)
    case StillOpen(name) => Err(Unterminated(name))
    case Text(text) => Ok(text)
  }

  method Sanitize(configuration: string) returns (r: Result<string, Problem>)
    ensures r == Sanitized(configuration)
  {
    hide Scan, TrimSpace, Fields, Fold, TagName, JudgeDirective, Render, ScanLines;
    if configuration == "" || Bytes(configuration) > 1024 * 1024 || (0 as char) in configuration {
      return Err(BadSize);
    }
    var lines := ScanLines(configuration);
    var result: seq<string> := [];
    var inline := "";
    var next := 0;
    while next < |lines|
      invariant 0 <= next <= |lines|
      invariant Scan(OpenVPNRules(), State("", []), lines) == Scan(OpenVPNRules(), State(inline, result), lines[next..])
    {
      var line := lines[next];
      var trimmed := TrimSpace(line);
      ScanNext(State(inline, result), lines, next);
      next := next + 1;
      if inline != "" {
        if Fold(trimmed) == "</" + inline + ">" {
          result := result + [line];
          inline := "";
          continue;
        }
        result := result + [line];
        continue;
      }
      if Ignored(trimmed) {
        result := result + [line];
        continue;
      }
      if IsTag(trimmed) {
        var name := TagName(trimmed);
        if name == "auth-user-pass" || name == "connection" {
          return Err(UnsafeBlock(name));
        }
        if name !in BLOCKS {
          return Err(UnsupportedBlock(name));
        }
        inline := name;
        result := result + [line];
        continue;
      }
      var kept := SanitizeDirective(Fields(trimmed));
      if kept.Err? {
        return Err(kept.problem);
      }
      if kept.value {
        result := result + [line];
      }
    }
    assert lines[next..] == [];
    ScanDone(State(inline, result));
    if inline != "" {
      return Err(Unterminated(inline));
    }
    return Ok(Render(result + FIXED));
  }

  /** The last part of the loop body: whether the line of a directive is kept. */
  method SanitizeDirective(fields: seq<string>) returns (kept: Result<bool, Problem>)
    ensures kept == match JudgeDirective(fields)
                    case Refuse(p) => Err(p)
                    case Drop => Ok(false)
                    case Stay => Ok(true)
  {
    if fields == [] {
      return Ok(false);
    }
    var directive := DirectiveName(fields);
    if directive in REJECTED {
      return Err(UnsafeDirective(directive));
    }
    if directive in REMOVED {
      return Ok(false);
    }
    if directive == "dev" && |fields| > 1 && !("tun" <= Lower(fields[1])) {
      return Err(NotTunnel);
    }
    return Ok(true);
  }

  lemma {:induction false} ScanDone(st: State)
    ensures Scan(OpenVPNRules(), st, []) == Ok(st)
  {
  }

  lemma {:induction false} ScanNext(st: State, lines: seq<string>, next: nat)
    requires next < |lines|
    ensures Scan(OpenVPNRules(), st, lines[next..])
              == match Step(OpenVPNRules(), st, lines[next])
                 case Err(p) => Err(p)
                 case Ok(after) => Scan(OpenVPNRules(), after, lines[next + 1..])
  {
    assert lines[next..][0] == lines[next] && lines[next..][1..] == lines[next + 1..];
  }

  // ---- The rules ----

  lemma {:induction false} RulesNamed()
    ensures Named(OpenVPNRules())
  {
  }

  lemma {:induction false} RulesCRBlind()
    ensures CRBlind(OpenVPNRules())
  {
    forall line
      ensures KindOf(DropCR(line)) == KindOf(line) && FoldLine(DropCR(line)) == FoldLine(line)
    {
      TrimDropCR(line);
    }
  }

  lemma {:induction false} LowerIdentity(s: string)
    requires forall i :: 0 <= i < |s| ==> LowerChar(s[i]) == s[i]
    ensures Lower(s) == s
  {
  }

  predicate PlainStart(w: string) {
    Token(w) && w[0] != '#' && w[0] != ';' && w[0] != '<'
  }

  lemma {:induction false} PlainToken(w: string)
    requires PlainStart(w)
    ensures KindOf(w) == Plain([w])
  {
    FieldsWord(w, "");
    assert w + "" == w;
  }

  lemma {:induction false} PlainPair(line: string, w: string, v: string)
    requires PlainStart(w) && Token(v) && line == w + (" " + v)
    ensures KindOf(line) == Plain([w, v])
  {
    FieldsWord(v, "");
    assert v + "" == v;
    FieldsCons(w, v);
  }

  lemma {:induction false} NameIs(fields: seq<string>)
    requires fields != [] && fields[0] != "" && forall i :: 0 <= i < |fields[0]| ==> LowerChar(fields[0][i]) == fields[0][i]
    requires fields[0][0] != '-'
    ensures DirectiveName(fields) == fields[0]
  {
    LowerIdentity(fields[0]);
  }

  lemma {:induction false} FixedVerdicts(f: seq<string>, g: seq<string>, h: seq<string>)
    requires f == ["route-nopull"] && g == ["script-security", "1"] && h == ["auth-nocache"]
    ensures JudgeDirective(f) == Drop && JudgeDirective(g) == Drop && JudgeDirective(h) == Stay
  {
    hide JudgeDirective;
    VerdictByName(f, "route-nopull");
    VerdictByName(g, "script-security");
    VerdictByName(h, "auth-nocache");
  }

  lemma {:induction false} VerdictByName(fields: seq<string>, name: string)
    requires fields != [] && fields[0] == name && name != "" && name[0] != '-'
    requires forall i :: 0 <= i < |name| ==> LowerChar(name[i]) == name[i]
    requires name !in REJECTED && name != "dev"
    ensures JudgeDirective(fields) == if name in REMOVED then Drop else Stay
  {
    NameIs(fields);
  }

  lemma {:induction false} FixedTokens(a: string, s: string, v: string, c: string)
    requires a == "route-nopull" && s == "script-security" && v == "1" && c == "auth-nocache"
    ensures PlainStart(a) && PlainStart(s) && Token(v) && PlainStart(c)
  {
  }

  lemma {:induction false} KindsOfTokens(a: string, b: string, s: string, v: string, c: string)
    requires PlainStart(a) && PlainStart(s) && Token(v) && PlainStart(c) && b == s + (" " + v)
    ensures KindOf(a) == Plain([a]) && KindOf(b) == Plain([s, v]) && KindOf(c) == Plain([c])
  {
    PlainToken(a);
    PlainToken(c);
    PlainPair(b, s, v);
  }

  lemma {:induction false} FixedKinds(a: string, b: string, c: string)
    requires a == "route-nopull" && b == "script-security 1" && c == "auth-nocache"
    ensures KindOf(a) == Plain([a]) && KindOf(b) == Plain(["script-security", "1"]) && KindOf(c) == Plain([c])
  {
    var s, v := "script-security", "1";
    FixedTokens(a, s, v, c);
    KindsOfTokens(a, b, s, v, c);
  }

  lemma {:induction false} ReadThree<P>(r: Rules<P>, a: string, b: string, c: string, f: seq<string>, g: seq<string>, h: seq<string>)
    requires r.kind(a) == Plain(f) && r.kind(b) == Plain(g) && r.kind(c) == Plain(h)
    ensures Read(r, [a, b, c]) == Some([Directive(f), Directive(g), Directive(h)])
  {
    var x, y, z := Directive(f), Directive(g), Directive(h);
    assert [c] + [] == [c] && [b] + [c] == [b, c] && [a] + [b, c] == [a, b, c];
    assert [z] + [] == [z] && [y] + [z] == [y, z] && [x] + [y, z] == [x, y, z];
    ReadOneLine(r, c, []);
    ReadOneLine(r, b, [c]);
    ReadOneLine(r, a, [b, c]);
  }

  lemma {:induction false} KeepThree<P>(r: Rules<P>, x: Item, y: Item, z: Item)
    requires x.Directive? && y.Directive? && z.Directive?
    requires Judge(r, x).Drop? && Judge(r, y).Drop? && Judge(r, z).Stay?
    ensures Keep(r, [x, y, z]) == [z]
  {
    KeepCons(r, z, []);
    KeepCons(r, y, [z]);
    KeepCons(r, x, [y, z]);
    assert [z] + [] == [z] && [y] + [z] == [y, z] && [x] + [y, z] == [x, y, z];
  }

  lemma {:induction false} ThreeAppended<P>(r: Rules<P>, a: string, b: string, c: string,
                                            f: seq<string>, g: seq<string>, h: seq<string>)
    requires r.kind(a) == Plain(f) && r.kind(b) == Plain(g) && r.kind(c) == Plain(h)
    requires r.directive(f).Drop? && r.directive(g).Drop? && r.directive(h).Stay?
    requires OneLines([a, b, c])
    ensures Appended(r, [a, b, c], [Directive(f), Directive(g), Directive(h)], [Directive(h)])
  {
    ReadThree(r, a, b, c, f, g, h);
    KeepThree(r, Directive(f), Directive(g), Directive(h));
  }

  lemma {:induction false} FixedOneLines(a: string, b: string, c: string)
    requires a == "route-nopull" && b == "script-security 1" && c == "auth-nocache"
    ensures OneLines([a, b, c])
  {
  }

  lemma {:induction false} RulesOnFixed(a: string, b: string, c: string, f: seq<string>, g: seq<string>, h: seq<string>)
    requires a == "route-nopull" && b == "script-security 1" && c == "auth-nocache"
    requires f == [a] && g == ["script-security", "1"] && h == [c]
    ensures var r := OpenVPNRules();
            && r.kind(a) == Plain(f) && r.kind(b) == Plain(g) && r.kind(c) == Plain(h)
            && r.directive(f).Drop? && r.directive(g).Drop? && r.directive(h).Stay?
  {
    FixedKinds(a, b, c);
    FixedVerdicts(f, g, h);
  }

  lemma {:induction false} FixedAppended()
    ensures Appended(OpenVPNRules(), FIXED, FIXED_ITEMS, [Directive(["auth-nocache"])])
  {
    var f, g, h := ["route-nopull"], ["script-security", "1"], ["auth-nocache"];
    RulesOnFixed(FIXED[0], FIXED[1], FIXED[2], f, g, h);
    FixedOneLines(FIXED[0], FIXED[1], FIXED[2]);
    ThreeAppended(OpenVPNRules(), FIXED[0], FIXED[1], FIXED[2], f, g, h);
    assert [FIXED[0], FIXED[1], FIXED[2]] == FIXED;
  }

  // ---- The results ----

  /** The sanitizer accepts exactly the texts of proper size whose lines read as
      directives and blocks none of which it has to refuse.  What looks like a
      refused directive inside a block body does not count. */
  lemma {:induction false} AcceptedIff(configuration: string)
    ensures Sanitized(configuration).Ok? <==> SizeOk(configuration) && Acceptable(OpenVPNRules(), ScanLines(configuration))
    ensures Sanitized(configuration).Ok? ==> Sanitized(configuration).value == Output(OpenVPNRules(), FIXED, configuration)
  {
    RulesNamed();
    FilterAccepts(OpenVPNRules(), FIXED, configuration);
  }

  /** The accepted output reads as the input with exactly the removed directives
      deleted and the three fixed ones appended; block bodies are the same line
      for line, and every other line, comments included, stays in order. */
  lemma {:induction false} MeaningPreserved(configuration: string)
    requires Sanitized(configuration).Ok?
    ensures var r, lines, out := OpenVPNRules(), ScanLines(configuration), Sanitized(configuration).value;
            && Read(r, lines).Some? && AllOk(r, Read(r, lines).value)
            && Lines(out) == KeptLines(r, lines) + FIXED
            && Read(r, Lines(out)) == Some(Keep(r, Read(r, lines).value) + FIXED_ITEMS)
  {
    AcceptedIff(configuration);
    OutputReads(configuration);
  }

  lemma {:induction false} OutputReads(configuration: string)
    requires Acceptable(OpenVPNRules(), ScanLines(configuration))
    ensures var r, lines := OpenVPNRules(), ScanLines(configuration);
            var out := Output(r, FIXED, configuration);
            && Lines(out) == KeptLines(r, lines) + FIXED
            && Read(r, Lines(out)) == Some(Keep(r, Read(r, lines).value) + FIXED_ITEMS)
  {
    RulesNamed();
    FixedAppended();
    FilterPreserves(OpenVPNRules(), FIXED, FIXED_ITEMS, [Directive(["auth-nocache"])], configuration);
  }

  lemma {:induction false} OutputReadsAgain(configuration: string)
    requires Acceptable(OpenVPNRules(), ScanLines(configuration))
    ensures var r, lines := OpenVPNRules(), ScanLines(configuration);
            var out := Output(r, FIXED, configuration);
            && Acceptable(r, ScanLines(out))
            && Read(r, Lines(Output(r, FIXED, out)))
                 == Some(Chomp(Keep(r, Read(r, lines).value)) + [Directive(["auth-nocache"])] + FIXED_ITEMS)
  {
    RulesNamed();
    RulesCRBlind();
    FixedAppended();
    FilterAgain(OpenVPNRules(), FIXED, FIXED_ITEMS, [Directive(["auth-nocache"])], configuration);
  }

  /** The helper sanitizes again what the controller sanitized: the second pass
      succeeds exactly when the output is within the size limit, which it is for
      every input that stays 45 bytes below; it keeps the same directives and
      blocks in the same order, and adds only one repeated auth-nocache.  (A body
      line ending in a carriage return loses it.) */
  lemma {:induction false} SanitizeAgain(configuration: string)
    requires Sanitized(configuration).Ok?
    ensures var r, out := OpenVPNRules(), Sanitized(configuration).value;
            && Bytes(out) <= Bytes(configuration) + 45
            && (Sanitized(out).Ok? <==> Bytes(out) <= MAX_SIZE)
            && Read(r, ScanLines(configuration)).Some?
            && var first := Keep(r, Read(r, ScanLines(configuration)).value);
               && Read(r, Lines(out)) == Some(first + FIXED_ITEMS)
               && (Sanitized(out).Ok? ==>
                     Read(r, Lines(Sanitized(out).value)) == Some(Chomp(first) + [Directive(["auth-nocache"])] + FIXED_ITEMS))
  {
    AcceptedIff(configuration);
    OutputReads(configuration);
    OutputReadsAgain(configuration);
    OutputSize(configuration);
    OutputBytes(configuration);
    AcceptedIff(Sanitized(configuration).value);
  }

  // ---- The rules written out ----

  /** The name of a directive: its first word without leading dashes, in lower
      case. */
  function NameOf(fields: seq<string>): string {
    if fields == [] then "" else Lower(StripDashes(fields[0]))
  }

  /** A directive that may stand in a configuration. */
  predicate Harmless(fields: seq<string>, unsafe: set<string>) {
    && NameOf(fields) !in unsafe
    && (NameOf(fields) == "dev" && |fields| > 1 ==> |Lower(fields[1])| >= 3 && Lower(fields[1])[..3] == "tun")
  }

  predicate AllHarmless(items: seq<Item>, unsafe: set<string>, blocks: set<string>) {
    forall k :: 0 <= k < |items| ==>
      match items[k] case Directive(fields) => Harmless(fields, unsafe) case Block(name, _) => name in blocks
  }

  /** The items without the directives of these names. */
  function WithoutNames(items: seq<Item>, names: set<string>): seq<Item> {
    if items == [] then []
    else (if items[0].Directive? && (items[0].fields == [] || NameOf(items[0].fields) in names) then [] else [items[0]])
         + WithoutNames(items[1..], names)
  }

  /** Any number of dashes is stripped, and nothing but them. */
  lemma {:induction false} NameWritten(dashes: string, rest: string, arguments: seq<string>)
    requires (forall i :: 0 <= i < |dashes| ==> dashes[i] == '-') && (rest == "" || rest[0] != '-')
    ensures NameOf([dashes + rest] + arguments) == Lower(rest)
    decreases |dashes|
  {
    if dashes == "" {
      assert dashes + rest == rest;
    } else {
      assert (dashes + rest)[1..] == dashes[1..] + rest;
      NameWritten(dashes[1..], rest, arguments);
      assert NameOf([dashes + rest] + arguments) == NameOf([dashes[1..] + rest] + arguments);
    }
  }

  lemma {:induction false} JudgedItem(item: Item, unsafe: set<string>, blocks: set<string>)
    requires unsafe == REJECTED && blocks == BLOCKS
    ensures !Judge(OpenVPNRules(), item).Refuse?
            <==> match item case Directive(fields) => Harmless(fields, unsafe) case Block(name, _) => name in blocks
  {
    match item
    case Directive(fields) => JudgedDirective(fields, unsafe);
    case Block(name, _) => JudgedBlock(name, blocks);
  }

  lemma {:induction false} JudgedBlock(name: string, blocks: set<string>)
    requires blocks == BLOCKS
    ensures !JudgeBlock(name).Refuse? <==> name in blocks
  {
  }

  lemma {:induction false} JudgedDirective(fields: seq<string>, unsafe: set<string>)
    requires unsafe == REJECTED
    ensures !JudgeDirective(fields).Refuse? <==> Harmless(fields, unsafe)
  {
    if fields != [] {
      DevApart(NameOf(fields));
      assert |fields| > 1 ==> ("tun" <= Lower(fields[1]) <==> |Lower(fields[1])| >= 3 && Lower(fields[1])[..3] == "tun");
    }
  }

  lemma {:induction false} DevApart(name: string)
    ensures name == "dev" ==> name !in REMOVED && name !in REJECTED
    ensures "" !in REJECTED && "" != "dev"
  {
  }

  /** Exactly these configurations are accepted: of proper size, without a zero
      byte, every block closed and of one of seven kinds, no directive of the
      twenty-two that run programs, read or write files or talk to others, and
      no device but a tunnel. */
  lemma {:induction false} AcceptedWritten(configuration: string)
    ensures Sanitized(configuration).Ok? <==>
              && 1 <= Bytes(configuration) <= 1_048_576 && (0 as char) !in configuration
              && Read(OpenVPNRules(), ScanLines(configuration)).Some?
              && AllHarmless(Read(OpenVPNRules(), ScanLines(configuration)).value,
                             {"auth-user-pass-verify", "cd", "chroot", "client-connect", "client-disconnect", "config", "daemon",
                              "down", "ipchange", "learn-address", "log", "log-append", "management", "management-client",
                              "management-external-key", "plugin", "route-pre-down", "route-up", "status", "tls-verify", "up",
                              "writepid"},
                             {"ca", "cert", "key", "tls-auth", "tls-crypt", "tls-crypt-v2", "pkcs12"})
  {
    AcceptedIff(configuration);
    if Read(OpenVPNRules(), ScanLines(configuration)).Some? {
      AllJudged(Read(OpenVPNRules(), ScanLines(configuration)).value, REJECTED, BLOCKS);
    }
  }

  lemma {:induction false} AllJudged(items: seq<Item>, unsafe: set<string>, blocks: set<string>)
    requires unsafe == REJECTED && blocks == BLOCKS
    ensures AllOk(OpenVPNRules(), items) <==> AllHarmless(items, unsafe, blocks)
  {
    hide Judge, Harmless;
    forall k | 0 <= k < |items|
      ensures !Judge(OpenVPNRules(), items[k]).Refuse?
              <==> match items[k] case Directive(fields) => Harmless(fields, unsafe) case Block(name, _) => name in blocks
    {
      JudgedItem(items[k], unsafe, blocks);
    }
  }

  /** What comes out: the same items in the same order without the directives of
      nine names that set routes, DNS or credentials, and then three fixed ones. */
  lemma {:induction false} KeptWritten(configuration: string)
    requires Sanitized(configuration).Ok?
    ensures var items := Read(OpenVPNRules(), ScanLines(configuration));
            && items.Some?
            && Read(OpenVPNRules(), Lines(Sanitized(configuration).value)) ==
                 Some(WithoutNames(items.value,
                                   {"auth-user-pass", "block-outside-dns", "dhcp-option", "redirect-gateway", "redirect-private",
                                    "route", "route-ipv6", "route-nopull", "script-security"})
                      + [Directive(["route-nopull"]), Directive(["script-security", "1"]), Directive(["auth-nocache"])])
  {
    MeaningPreserved(configuration);
    KeepIsWithout(Read(OpenVPNRules(), ScanLines(configuration)).value, REMOVED);
  }

  lemma {:induction false} KeepIsWithout(items: seq<Item>, removed: set<string>)
    requires removed == REMOVED && AllOk(OpenVPNRules(), items)
    ensures Keep(OpenVPNRules(), items) == WithoutNames(items, removed)
  {
    if items != [] {
      var rest := items[1..];
      assert forall k :: 0 <= k < |rest| ==> rest[k] == items[k + 1];
      KeepIsWithout(rest, removed);
      DroppedIff(items[0], removed);
    }
  }

  lemma {:induction false} DroppedIff(item: Item, removed: set<string>)
    requires removed == REMOVED && !Judge(OpenVPNRules(), item).Refuse?
    ensures item.Directive? ==> (Judge(OpenVPNRules(), item).Drop? <==> item.fields == [] || NameOf(item.fields) in removed)
  {
  }

  /** How a line is read. */
  lemma {:induction false} KindWritten(line: string, name: string)
    ensures var t, kind := TrimSpace(line), OpenVPNRules().kind(line);
            if t == "" || t[0] == '#' || t[0] == ';' then kind == Nothing
            else if t[0] == '<' && t[|t| - 1] == '>' then kind == Tag(Lower(t[1..|t| - 1]))
            else kind == Plain(Fields(t))
    ensures Closes(OpenVPNRules(), line, name) <==> Fold(TrimSpace(line)) == "</" + name + ">"
  {
  }

  // ---- No zero byte comes in ----

  lemma {:induction false} OutputSize(configuration: string)
    requires Sanitized(configuration).Ok?
    ensures Sanitized(configuration).value != "" && (0 as char) !in Sanitized(configuration).value
  {
    var r, lines, c := OpenVPNRules(), ScanLines(configuration), 0 as char;
    AcceptedIff(configuration);
    RulesNamed();
    FilterAccepts(r, FIXED, configuration);
    LinesFrom(configuration, c);
    KeptFrom(r, lines, c);
    FixedFrom(FIXED, c);
    var all := KeptLines(r, lines) + FIXED;
    RenderFrom(all, c);
    assert all[|all| - 1] == "auth-nocache";
    RenderNonempty(all);
  }

  lemma {:induction false} FixedFrom(fixed: seq<string>, c: char)
    requires fixed == FIXED && c == 0 as char
    ensures forall k :: 0 <= k < |fixed| ==> c !in fixed[k]
  {
  }

  lemma {:induction false} RenderNonempty(ls: seq<string>)
    requires ls != []
    ensures Render(ls) != ""
  {
  }

  lemma {:induction false} LinesFrom(s: string, c: char)
    requires c !in s
    ensures forall k :: 0 <= k < |Lines(s)| ==> c !in Lines(s)[k]
    ensures forall k :: 0 <= k < |ScanLines(s)| ==> c !in ScanLines(s)[k]
    decreases |s|
  {
    if s != "" && Index(s, {'\n'}) < |s| {
      LinesFrom(s[Index(s, {'\n'}) + 1..], c);
    }
  }

  lemma {:induction false} RenderFrom(ls: seq<string>, c: char)
    requires c != '\n' && forall k :: 0 <= k < |ls| ==> c !in ls[k]
    ensures c !in Render(ls)
  {
    if ls != [] {
      RenderFrom(ls[1..], c);
    }
  }

  // ---- How long the output can be ----

  /** The bytes of lines with their line feeds. */
  function LinesSize(ls: seq<string>): nat {
    if ls == [] then 0 else Bytes(ls[0]) + 1 + LinesSize(ls[1..])
  }

  lemma {:induction false} BytesAppend(a: string, b: string)
    ensures Bytes(a + b) == Bytes(a) + Bytes(b)
  {
    if a == "" {
      assert a + b == b;
    } else {
      assert (a + b)[1..] == a[1..] + b;
      BytesAppend(a[1..], b);
    }
  }

  lemma {:induction false} RenderSize(ls: seq<string>)
    ensures Bytes(Render(ls)) == LinesSize(ls)
  {
    if ls != [] {
      RenderSize(ls[1..]);
      BytesAppend(ls[0] + "\n", Render(ls[1..]));
      BytesAppend(ls[0], "\n");
      OneByte('\n');
    }
  }

  lemma {:induction false} OneByte(c: char)
    requires c as int < 0x80
    ensures Bytes([c]) == 1
  {
  }

  lemma {:induction false} SizeAppend(a: seq<string>, b: seq<string>)
    ensures LinesSize(a + b) == LinesSize(a) + LinesSize(b)
  {
    if a == [] {
      assert a + b == b;
    } else {
      assert (a + b)[1..] == a[1..] + b;
      SizeAppend(a[1..], b);
    }
  }

  lemma {:induction false} LinesShort(s: string)
    ensures LinesSize(Lines(s)) <= Bytes(s) + 1
    decreases |s|
  {
    hide Bytes, Index;
    var n := Index(s, {'\n'});
    if s != "" && n < |s| {
      var first, rest := s[..n], s[n + 1..];
      LinesShort(rest);
      assert s == first + ([s[n]] + rest);
      BytesAppend(first, [s[n]] + rest);
      BytesAppend([s[n]], rest);
      OneByte(s[n]);
      SizeAppend([first], Lines(rest));
    }
  }

  lemma {:induction false} DropCRsShort(ls: seq<string>)
    ensures LinesSize(DropCRs(ls)) <= LinesSize(ls)
  {
    if ls != [] {
      DropCRsShort(ls[1..]);
      assert DropCRs(ls)[1..] == DropCRs(ls[1..]);
      var line := ls[0];
      if DropCR(line) != line {
        BytesAppend(line[..|line| - 1], line[|line| - 1..]);
        assert line == line[..|line| - 1] + line[|line| - 1..];
      }
    }
  }

  lemma {:induction false} KeptShort(r: Rules<Problem>, lines: seq<string>)
    ensures LinesSize(KeptLines(r, lines)) <= LinesSize(lines)
    decreases |lines|
  {
    if lines != [] {
      assert lines == [lines[0]] + lines[1..];
      SizeAppend([lines[0]], lines[1..]);
      match r.kind(lines[0])
      case Nothing =>
        KeptShort(r, lines[1..]);
        SizeAppend([lines[0]], KeptLines(r, lines[1..]));
      case Tag(name) =>
        if FindClose(r, lines[1..], name).Some? {
          var k := FindClose(r, lines[1..], name).value + 2;
          KeptShort(r, lines[k..]);
          assert lines == lines[..k] + lines[k..];
          SizeAppend(lines[..k], lines[k..]);
          SizeAppend(lines[..k], KeptLines(r, lines[k..]));
        }
      case Plain(fields) =>
        KeptShort(r, lines[1..]);
        SizeAppend([lines[0]], KeptLines(r, lines[1..]));
        assert [] + KeptLines(r, lines[1..]) == KeptLines(r, lines[1..]);
    }
  }

  lemma {:induction false} OutputBytes(configuration: string)
    ensures Bytes(Output(OpenVPNRules(), FIXED, configuration)) <= Bytes(configuration) + 45
  {
    var r, lines := OpenVPNRules(), ScanLines(configuration);
    LinesShort(configuration);
    DropCRsShort(Lines(configuration));
    KeptShort(r, lines);
    SizeAppend(KeptLines(r, lines), FIXED);
    RenderSize(KeptLines(r, lines) + FIXED);
    FixedSize(FIXED);
  }

  lemma {:induction false} FixedSize(fixed: seq<string>)
    requires fixed == FIXED
    ensures LinesSize(fixed) == 44
  {
    hide Bytes, LinesSize;
    ThreeSize(fixed[0], fixed[1], fixed[2]);
    assert fixed == [fixed[0], fixed[1], fixed[2]];
    AsciiBytes(fixed[0]);
    AsciiBytes(fixed[1]);
    AsciiBytes(fixed[2]);
  }

  lemma {:induction false} ThreeSize(a: string, b: string, c: string)
    ensures LinesSize([a, b, c]) == Bytes(a) + Bytes(b) + Bytes(c) + 3
  {
    hide Bytes;
    assert [a, b, c] == [a] + ([b] + [c]);
    SizeAppend([a], [b] + [c]);
    SizeAppend([b], [c]);
  }

  lemma {:induction false} AsciiBytes(s: string)
    requires forall i :: 0 <= i < |s| ==> s[i] as int < 0x80
    ensures Bytes(s) == |s|
  {
    if s != "" {
      AsciiBytes(s[1..]);
    }
  }
}
