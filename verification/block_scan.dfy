/** The line automaton of the sanitizer over any classification of lines
    (vpntoris-tray/internal/openvpnconfig/sanitize.go), beside a reader that
    understands the same text as a sequence of directives and inline blocks. */
module BlockScan {
  import opened Wrappers
  import opened Text

  datatype Kind = Nothing | Tag(name: string) | Plain(fields: seq<string>)

  datatype Verdict<P> = Stay | Drop | Refuse(problem: P)

  /** How lines are classified and judged.  `fold` is what a line is compared
      by with a closing tag. */
  datatype Rules<!P> = Rules(
    kind: string -> Kind,
    fold: string -> string,
    block: string -> Verdict<P>,
    directive: seq<string> -> Verdict<P>)

  /** The open block, empty outside of one, and the lines kept so far. */
  datatype State = State(inline: string, result: seq<string>)

  predicate Closes<P>(r: Rules<P>, line: string, name: string) {
    r.fold(line) == "</" + name + ">"
  }

  /** One turn of the loop. */
  function Step<P>(r: Rules<P>, st: State, line: string): Result<State, P> {
    if st.inline != "" then
      Ok(State(if Closes(r, line, st.inline) then "" else st.inline, st.result + [line]))
    else
      match r.kind(line)
      case Nothing => Ok(State("", st.result + [line]))
      case Tag(name) =>
        (match r.block(name)
         case Refuse(p) => Err(p)
         case _ => Ok(State(name, st.result + [line])))
      case Plain(fields) =>
        match r.directive(fields)
        case Refuse(p) => Err(p)
        case Drop => Ok(st)
        case Stay => Ok(State("", st.result + [line]))
  }

  function Scan<P>(r: Rules<P>, st: State, lines: seq<string>): Result<State, P>
    decreases |lines|
  {
    if lines == [] then Ok(st) else
    match Step(r, st, lines[0])
    case Err(p) => Err(p)
    case Ok(next) => Scan(r, next, lines[1..])
  }

  // ---- Reading ----

  /** A directive with its arguments, or an inline block with its body. */
  datatype Item = Directive(fields: seq<string>) | Block(name: string, body: seq<string>)

  /** How many lines come before the closing tag. */
  function FindClose<P>(r: Rules<P>, lines: seq<string>, name: string): (k: Option<nat>)
    ensures k.Some? ==> k.value < |lines|
  {
    if lines == [] then None
    else if Closes(r, lines[0], name) then Some(0)
    else match FindClose(r, lines[1..], name) case None => None case Some(k) => Some(k + 1)
  }

  /** The items of a configuration; None when a block is never closed. */
  function Read<P>(r: Rules<P>, lines: seq<string>): Option<seq<Item>>
    decreases |lines|
  {
    if lines == [] then Some([]) else
    match r.kind(lines[0])
    case Nothing => Read(r, lines[1..])
    case Tag(name) =>
      (match FindClose(r, lines[1..], name)
       case None => None
       case Some(k) => Prepend(Block(name, lines[1..k + 1]), Read(r, lines[k + 2..])))
    case Plain(fields) => Prepend(Directive(fields), Read(r, lines[1..]))
  }

  function Prepend(item: Item, items: Option<seq<Item>>): Option<seq<Item>> {
    match items case None => None case Some(rest) => Some([item] + rest)
  }

  function Judge<P>(r: Rules<P>, item: Item): Verdict<P> {
    match item case Directive(fields) => r.directive(fields) case Block(name, _) => r.block(name)
  }

  predicate AllOk<P>(r: Rules<P>, items: seq<Item>) {
    forall k :: 0 <= k < |items| ==> !Judge(r, items[k]).Refuse?
  }

  /** The items without the dropped directives. */
  function Keep<P>(r: Rules<P>, items: seq<Item>): seq<Item> {
    if items == [] then [] else (if items[0].Directive? && Judge(r, items[0]).Drop? then [] else [items[0]]) + Keep(r, items[1..])
  }

  /** The lines without those of dropped directives. */
  function KeptLines<P>(r: Rules<P>, lines: seq<string>): seq<string>
    decreases |lines|
  {
    if lines == [] then [] else
    match r.kind(lines[0])
    case Nothing => [lines[0]] + KeptLines(r, lines[1..])
    case Tag(name) =>
      (match FindClose(r, lines[1..], name)
       case None => lines
       case Some(k) => lines[..k + 2] + KeptLines(r, lines[k + 2..]))
    case Plain(fields) => (if r.directive(fields).Drop? then [] else [lines[0]]) + KeptLines(r, lines[1..])
  }

  /** An accepted block has a name: the scan marks "no block" by none. */
  ghost predicate Named<P(!new)>(r: Rules<P>) {
    forall name :: !r.block(name).Refuse? ==> name != ""
  }

  // ---- Inside a block ----

  lemma {:induction false} FindCloseAppend<P>(r: Rules<P>, lines: seq<string>, name: string, rest: seq<string>)
    requires FindClose(r, lines, name).Some?
    ensures FindClose(r, lines + rest, name) == FindClose(r, lines, name)
  {
    assert (lines + rest)[0] == lines[0];
    if !Closes(r, lines[0], name) {
      assert (lines + rest)[1..] == lines[1..] + rest;
      FindCloseAppend(r, lines[1..], name, rest);
    }
  }

  lemma {:induction false} FindClosePrefix<P>(r: Rules<P>, lines: seq<string>, name: string)
    requires FindClose(r, lines, name).Some?
    ensures var k := FindClose(r, lines, name).value; FindClose(r, lines[..k + 1], name) == Some(k)
  {
    if !Closes(r, lines[0], name) {
      var k := FindClose(r, lines, name).value;
      assert lines[..k + 1][1..] == lines[1..][..k];
      FindClosePrefix(r, lines[1..], name);
    }
  }

  /** The scan copies a block up to its closing tag, whatever its lines are. */
  lemma {:induction false} ScanBlock<P>(r: Rules<P>, name: string, result: seq<string>, lines: seq<string>)
    requires name != ""
    ensures match FindClose(r, lines, name)
            case None => Scan(r, State(name, result), lines) == Ok(State(name, result + lines))
            case Some(k) => Scan(r, State(name, result), lines) == Scan(r, State("", result + lines[..k + 1]), lines[k + 1..])
    decreases |lines|
  {
    if lines == [] {
      assert result + lines == result;
    } else if Closes(r, lines[0], name) {
      assert lines[..1] == [lines[0]];
    } else {
      ScanBlock(r, name, result + [lines[0]], lines[1..]);
      match FindClose(r, lines[1..], name)
      case None => SpliceAll(result, lines);
      case Some(k) => Splice(result, lines, k + 1);
    }
  }

  lemma {:induction false} SpliceAll<T>(result: seq<T>, lines: seq<T>)
    requires lines != []
    ensures result + [lines[0]] + lines[1..] == result + lines
  {
  }

  lemma {:induction false} Splice<T>(result: seq<T>, lines: seq<T>, k: nat)
    requires k < |lines|
    ensures result + [lines[0]] + lines[1..][..k] == result + lines[..k + 1]
    ensures lines[1..][k..] == lines[k + 1..]
  {
  }

  // ---- The scan and the reading agree ----

  predicate Acceptable<P>(r: Rules<P>, lines: seq<string>) {
    Read(r, lines).Some? && AllOk(r, Read(r, lines).value)
  }

  predicate Finishes<P>(o: Result<State, P>) {
    o.Ok? && o.value.inline == ""
  }

  lemma {:induction false} AllOkCons<P>(r: Rules<P>, item: Item, rest: seq<Item>)
    ensures AllOk(r, [item] + rest) <==> !Judge(r, item).Refuse? && AllOk(r, rest)
  {
    var all := [item] + rest;
    if AllOk(r, all) {
      forall k | 0 <= k < |rest|
        ensures !Judge(r, rest[k]).Refuse?
      {
        assert all[k + 1] == rest[k];
      }
      assert all[0] == item;
    }
  }

  lemma {:induction false} AcceptableTail<P>(r: Rules<P>, item: Item, rest: Option<seq<Item>>)
    ensures Prepend(item, rest).Some? <==> rest.Some?
    ensures rest.Some? ==> (AllOk(r, Prepend(item, rest).value) <==> !Judge(r, item).Refuse? && AllOk(r, rest.value))
  {
    if rest.Some? {
      AllOkCons(r, item, rest.value);
    }
  }

  /** From outside a block, the scan gets through exactly when the lines read as
      acceptable items, and then it has kept exactly the kept lines. */
  lemma {:induction false} ScanMeaning<P(!new)>(r: Rules<P>, result: seq<string>, lines: seq<string>)
    requires Named(r)
    ensures Finishes(Scan(r, State("", result), lines)) <==> Acceptable(r, lines)
    ensures Acceptable(r, lines) ==> Scan(r, State("", result), lines) == Ok(State("", result + KeptLines(r, lines)))
    decreases |lines|
  {
    if lines == [] {
      assert result + [] == result;
    } else {
      match r.kind(lines[0])
      case Nothing =>
        ScanMeaning(r, result + [lines[0]], lines[1..]);
        assert result + [lines[0]] + KeptLines(r, lines[1..]) == result + KeptLines(r, lines);
      case Tag(name) =>
        ScanTag(r, result, lines, name);
        match FindClose(r, lines[1..], name) {
          case None =>
          case Some(k) =>
            ScanMeaning(r, result + lines[..k + 2], lines[k + 2..]);
            TagMeaning(r, result, lines, name, k);
        }
      case Plain(fields) =>
        ScanMeaning(r, if r.directive(fields).Drop? then result else result + [lines[0]], lines[1..]);
        PlainMeaning(r, result, lines, fields);
    }
  }

  lemma {:induction false} PlainMeaning<P>(r: Rules<P>, result: seq<string>, lines: seq<string>, fields: seq<string>)
    requires lines != [] && r.kind(lines[0]) == Plain(fields)
    ensures Acceptable(r, lines) <==> !r.directive(fields).Refuse? && Acceptable(r, lines[1..])
    ensures (if r.directive(fields).Drop? then result else result + [lines[0]]) + KeptLines(r, lines[1..])
              == result + KeptLines(r, lines)
  {
    AcceptableTail(r, Directive(fields), Read(r, lines[1..]));
    assert [] + KeptLines(r, lines[1..]) == KeptLines(r, lines[1..]);
  }

  lemma {:induction false} TagMeaning<P>(r: Rules<P>, result: seq<string>, lines: seq<string>, name: string, k: nat)
    requires lines != [] && r.kind(lines[0]) == Tag(name) && FindClose(r, lines[1..], name) == Some(k)
    ensures Acceptable(r, lines) <==> !r.block(name).Refuse? && Acceptable(r, lines[k + 2..])
    ensures result + lines[..k + 2] + KeptLines(r, lines[k + 2..]) == result + KeptLines(r, lines)
  {
    AcceptableTail(r, Block(name, lines[1..k + 1]), Read(r, lines[k + 2..]));
  }

  lemma {:induction false} ScanTag<P(!new)>(r: Rules<P>, result: seq<string>, lines: seq<string>, name: string)
    requires Named(r) && lines != [] && r.kind(lines[0]) == Tag(name)
    ensures if r.block(name).Refuse? then Scan(r, State("", result), lines).Err?
            else match FindClose(r, lines[1..], name)
                 case None => Scan(r, State("", result), lines) == Ok(State(name, result + lines)) && name != ""
                 case Some(k) => Scan(r, State("", result), lines) == Scan(r, State("", result + lines[..k + 2]), lines[k + 2..])
  {
    ScanAtTag(r, result, lines, name);
    if !r.block(name).Refuse? {
      ScanBlock(r, name, result + [lines[0]], lines[1..]);
      match FindClose(r, lines[1..], name)
      case None => SpliceAll(result, lines);
      case Some(k) => Splice(result, lines, k + 1);
    }
  }

  lemma {:induction false} ScanAtTag<P(!new)>(r: Rules<P>, result: seq<string>, lines: seq<string>, name: string)
    requires Named(r) && lines != [] && r.kind(lines[0]) == Tag(name)
    ensures if r.block(name).Refuse? then Scan(r, State("", result), lines).Err?
            else name != "" && Scan(r, State("", result), lines) == Scan(r, State(name, result + [lines[0]]), lines[1..])
  {
  }

  // ---- The kept lines read as the kept items ----

  lemma {:induction false} ReadAppend<P>(r: Rules<P>, a: seq<string>, b: seq<string>)
    requires Read(r, a).Some? && Read(r, b).Some?
    ensures Read(r, a + b) == Some(Read(r, a).value + Read(r, b).value)
    decreases |a|
  {
    var y := Read(r, b).value;
    if a == [] {
      assert a + b == b;
      assert [] + y == y;
    } else {
      assert (a + b)[0] == a[0];
      match r.kind(a[0])
      case Nothing =>
        assert (a + b)[1..] == a[1..] + b;
        ReadAppend(r, a[1..], b);
      case Tag(name) =>
        var k := FindClose(r, a[1..], name).value;
        ReadAppend(r, a[k + 2..], b);
        AppendAfterBlock(r, a, b, name, k);
        PrependAppend(Block(name, a[1..k + 1]), Read(r, a[k + 2..]).value, y);
      case Plain(fields) =>
        assert (a + b)[1..] == a[1..] + b;
        ReadAppend(r, a[1..], b);
        PrependAppend(Directive(fields), Read(r, a[1..]).value, y);
    }
  }

  lemma {:induction false} ReadAtTag<P>(r: Rules<P>, lines: seq<string>, name: string, k: nat)
    requires lines != [] && r.kind(lines[0]) == Tag(name) && FindClose(r, lines[1..], name) == Some(k)
    ensures Read(r, lines) == Prepend(Block(name, lines[1..k + 1]), Read(r, lines[k + 2..]))
  {
  }

  lemma {:induction false} AppendSlices<T>(a: seq<T>, b: seq<T>, k: nat)
    requires k + 2 <= |a|
    ensures (a + b)[0] == a[0] && (a + b)[1..] == a[1..] + b
    ensures (a + b)[1..k + 1] == a[1..k + 1] && (a + b)[k + 2..] == a[k + 2..] + b
  {
  }

  lemma {:induction false} AppendAfterBlock<P>(r: Rules<P>, a: seq<string>, b: seq<string>, name: string, k: nat)
    requires a != [] && r.kind(a[0]) == Tag(name) && FindClose(r, a[1..], name) == Some(k)
    ensures Read(r, a) == Prepend(Block(name, a[1..k + 1]), Read(r, a[k + 2..]))
    ensures Read(r, a + b) == Prepend(Block(name, a[1..k + 1]), Read(r, a[k + 2..] + b))
  {
    AppendSlices(a, b, k);
    FindCloseAppend(r, a[1..], name, b);
    ReadAtTag(r, a, name, k);
    ReadAtTag(r, a + b, name, k);
  }

  lemma {:induction false} PrependAppend(item: Item, x: seq<Item>, y: seq<Item>)
    ensures Prepend(item, Some(x + y)) == Some(Prepend(item, Some(x)).value + y)
  {
    assert [item] + (x + y) == [item] + x + y;
  }

  lemma {:induction false} ReadOneLine<P>(r: Rules<P>, line: string, rest: seq<string>)
    requires !r.kind(line).Tag?
    ensures Read(r, [line] + rest)
              == if r.kind(line).Nothing? then Read(r, rest) else Prepend(Directive(r.kind(line).fields), Read(r, rest))
  {
    assert ([line] + rest)[1..] == rest;
  }

  lemma {:induction false} ReadOneBlock<P>(r: Rules<P>, lines: seq<string>, name: string, k: nat)
    requires lines != [] && r.kind(lines[0]) == Tag(name) && FindClose(r, lines[1..], name) == Some(k)
    ensures Read(r, lines[..k + 2]) == Some([Block(name, lines[1..k + 1])])
  {
    var head := lines[..k + 2];
    FindClosePrefix(r, lines[1..], name);
    assert head[0] == lines[0] && head[1..] == lines[1..][..k + 1];
    assert head[1..k + 1] == lines[1..k + 1];
    assert head[k + 2..] == [];
    assert Read(r, head) == Prepend(Block(name, head[1..k + 1]), Read(r, head[k + 2..]));
    assert [Block(name, lines[1..k + 1])] + [] == [Block(name, lines[1..k + 1])];
  }

  lemma {:induction false} KeepCons<P>(r: Rules<P>, item: Item, rest: seq<Item>)
    ensures Keep(r, [item] + rest) == (if item.Directive? && Judge(r, item).Drop? then [] else [item]) + Keep(r, rest)
  {
    assert ([item] + rest)[1..] == rest;
  }

  lemma {:induction false} ReadKept<P>(r: Rules<P>, lines: seq<string>)
    requires Read(r, lines).Some?
    ensures Read(r, KeptLines(r, lines)) == Some(Keep(r, Read(r, lines).value))
    decreases |lines|
  {
    if lines != [] {
      match r.kind(lines[0])
      case Nothing =>
        ReadKept(r, lines[1..]);
        ReadOneLine(r, lines[0], KeptLines(r, lines[1..]));
      case Tag(name) =>
        var k := FindClose(r, lines[1..], name).value;
        ReadKept(r, lines[k + 2..]);
        ReadOneBlock(r, lines, name, k);
        ReadAppend(r, lines[..k + 2], KeptLines(r, lines[k + 2..]));
        KeepCons(r, Block(name, lines[1..k + 1]), Read(r, lines[k + 2..]).value);
      case Plain(fields) =>
        var kept, items := KeptLines(r, lines[1..]), Read(r, lines[1..]).value;
        ReadKept(r, lines[1..]);
        ReadOneLine(r, lines[0], kept);
        KeepCons(r, Directive(fields), items);
        assert [] + kept == kept && [] + Keep(r, items) == Keep(r, items);
    }
  }

  // ---- Trailing carriage returns ----

  /** A trailing carriage return does not matter to the rules. */
  ghost predicate CRBlind<P(!new)>(r: Rules<P>) {
    forall line :: r.kind(DropCR(line)) == r.kind(line) && r.fold(DropCR(line)) == r.fold(line)
  }

  function ChompItem(item: Item): Item {
    match item case Directive(_) => item case Block(name, body) => Block(name, DropCRs(body))
  }

  /** The items with one carriage return dropped from each body line. */
  function Chomp(items: seq<Item>): (chomped: seq<Item>)
    ensures |chomped| == |items| && forall k :: 0 <= k < |items| ==> chomped[k] == ChompItem(items[k])
  {
    seq(|items|, k requires 0 <= k < |items| => ChompItem(items[k]))
  }

  function ChompAll(items: Option<seq<Item>>): Option<seq<Item>> {
    match items case None => None case Some(xs) => Some(Chomp(xs))
  }

  lemma {:induction false} ChompPrepend(item: Item, items: Option<seq<Item>>)
    ensures ChompAll(Prepend(item, items)) == Prepend(ChompItem(item), ChompAll(items))
  {
    if items.Some? {
      assert Chomp([item] + items.value) == [ChompItem(item)] + Chomp(items.value);
    }
  }

  lemma {:induction false} FindCloseDropCRs<P(!new)>(r: Rules<P>, lines: seq<string>, name: string)
    requires CRBlind(r)
    ensures FindClose(r, DropCRs(lines), name) == FindClose(r, lines, name)
  {
    if lines != [] {
      assert DropCRs(lines)[1..] == DropCRs(lines[1..]);
      assert r.fold(DropCR(lines[0])) == r.fold(lines[0]);
      FindCloseDropCRs(r, lines[1..], name);
    }
  }

  lemma {:induction false} ReadDropCRs<P(!new)>(r: Rules<P>, lines: seq<string>)
    requires CRBlind(r)
    ensures Read(r, DropCRs(lines)) == ChompAll(Read(r, lines))
    decreases |lines|
  {
    if lines != [] {
      var cut := DropCRs(lines);
      assert cut[1..] == DropCRs(lines[1..]);
      assert r.kind(cut[0]) == r.kind(lines[0]);
      match r.kind(lines[0])
      case Nothing => ReadDropCRs(r, lines[1..]);
      case Tag(name) =>
        FindCloseDropCRs(r, lines[1..], name);
        match FindClose(r, lines[1..], name) {
          case None =>
          case Some(k) =>
            assert cut[k + 2..] == DropCRs(lines[k + 2..]);
            assert cut[1..k + 1] == DropCRs(lines[1..k + 1]);
            ReadDropCRs(r, lines[k + 2..]);
            ChompPrepend(Block(name, lines[1..k + 1]), Read(r, lines[k + 2..]));
        }
      case Plain(fields) =>
        ReadDropCRs(r, lines[1..]);
        ChompPrepend(Directive(fields), Read(r, lines[1..]));
    }
  }

  lemma {:induction false} KeepAppend<P>(r: Rules<P>, a: seq<Item>, b: seq<Item>)
    ensures Keep(r, a + b) == Keep(r, a) + Keep(r, b)
  {
    if a == [] {
      assert a + b == b;
    } else {
      assert (a + b)[1..] == a[1..] + b;
      KeepAppend(r, a[1..], b);
    }
  }

  /** Nothing is left to drop, also after chomping. */
  lemma {:induction false} KeepChompKeep<P>(r: Rules<P>, items: seq<Item>)
    ensures Keep(r, Chomp(Keep(r, items))) == Chomp(Keep(r, items))
  {
    if items != [] {
      KeepChompKeep(r, items[1..]);
      var rest := Keep(r, items[1..]);
      if items[0].Directive? && Judge(r, items[0]).Drop? {
        assert Keep(r, items) == rest;
      } else {
        assert Chomp(Keep(r, items)) == [ChompItem(items[0])] + Chomp(rest);
        KeepCons(r, ChompItem(items[0]), Chomp(rest));
      }
    }
  }

  lemma {:induction false} KeepOk<P>(r: Rules<P>, items: seq<Item>)
    requires AllOk(r, items)
    ensures AllOk(r, Keep(r, items)) && AllOk(r, Chomp(Keep(r, items)))
  {
    if items != [] {
      assert items == [items[0]] + items[1..];
      AllOkCons(r, items[0], items[1..]);
      KeepOk(r, items[1..]);
      var rest := Keep(r, items[1..]);
      if !(items[0].Directive? && Judge(r, items[0]).Drop?) {
        AllOkCons(r, items[0], rest);
        assert Chomp(Keep(r, items)) == [ChompItem(items[0])] + Chomp(rest);
        AllOkCons(r, ChompItem(items[0]), Chomp(rest));
      }
    }
  }

  lemma {:induction false} KeptOneLines<P>(r: Rules<P>, lines: seq<string>)
    requires OneLines(lines)
    ensures OneLines(KeptLines(r, lines))
    decreases |lines|
  {
    if lines != [] {
      match r.kind(lines[0])
      case Tag(name) =>
        match FindClose(r, lines[1..], name) {
          case None =>
          case Some(k) => KeptOneLines(r, lines[k + 2..]);
        }
      case _ => KeptOneLines(r, lines[1..]);
    }
  }

  lemma {:induction false} KeptFrom<P>(r: Rules<P>, lines: seq<string>, c: char)
    requires forall k :: 0 <= k < |lines| ==> c !in lines[k]
    ensures forall k :: 0 <= k < |KeptLines(r, lines)| ==> c !in KeptLines(r, lines)[k]
    decreases |lines|
  {
    if lines != [] {
      match r.kind(lines[0])
      case Tag(name) =>
        match FindClose(r, lines[1..], name) {
          case None =>
          case Some(k) => KeptFrom(r, lines[k + 2..], c);
        }
      case _ => KeptFrom(r, lines[1..], c);
    }
  }

  // ---- Whole texts ----

  datatype Outcome<P> = Text(text: string) | Refused(problem: P) | StillOpen(name: string)

  /** The scan of a text, with lines appended at the end. */
  function Filter<P>(r: Rules<P>, fixed: seq<string>, s: string): Outcome<P> {
    match Scan(r, State("", []), ScanLines(s))
    case Err(p) => Refused(p)
    case Ok(st) => if st.inline != "" then StillOpen(st.inline) else Text(Render(st.result + fixed))
  }

  /** The appended lines read as `items`, of which the rules would keep `extra`. */
  ghost predicate Appended<P>(r: Rules<P>, fixed: seq<string>, items: seq<Item>, extra: seq<Item>) {
    OneLines(fixed) && Read(r, fixed) == Some(items) && AllOk(r, items) && Keep(r, items) == extra && Chomp(items) == items
  }

  function Output<P>(r: Rules<P>, fixed: seq<string>, s: string): string {
    Render(KeptLines(r, ScanLines(s)) + fixed)
  }

  lemma {:induction false} FilterAccepts<P(!new)>(r: Rules<P>, fixed: seq<string>, s: string)
    requires Named(r)
    ensures Filter(r, fixed, s).Text? <==> Acceptable(r, ScanLines(s))
    ensures Acceptable(r, ScanLines(s)) ==> Filter(r, fixed, s) == Text(Output(r, fixed, s))
  {
    ScanMeaning(r, [], ScanLines(s));
    assert [] + KeptLines(r, ScanLines(s)) == KeptLines(r, ScanLines(s));
  }

  lemma {:induction false} FilterPreserves<P(!new)>(r: Rules<P>, fixed: seq<string>, items: seq<Item>, extra: seq<Item>, s: string)
    requires Named(r) && Appended(r, fixed, items, extra) && Acceptable(r, ScanLines(s))
    ensures var out := Output(r, fixed, s);
            && Lines(out) == KeptLines(r, ScanLines(s)) + fixed
            && Read(r, Lines(out)) == Some(Keep(r, Read(r, ScanLines(s)).value) + items)
  {
    var lines := ScanLines(s);
    FilterAccepts(r, fixed, s);
    ScannedOneLines(s);
    KeptOneLines(r, lines);
    LinesRender(KeptLines(r, lines) + fixed);
    ReadKept(r, lines);
    ReadAppend(r, KeptLines(r, lines), fixed);
  }

  lemma {:induction false} ScannedOneLines(s: string)
    ensures OneLines(ScanLines(s))
  {
    var ls := Lines(s);
    forall k | 0 <= k < |ls|
      ensures OneLine(DropCR(ls[k]))
    {
      assert OneLine(ls[k]);
    }
  }

  lemma {:induction false} ChompAppend(a: seq<Item>, b: seq<Item>)
    ensures Chomp(a + b) == Chomp(a) + Chomp(b)
  {
  }

  lemma {:induction false} FilterAgain<P(!new)>(r: Rules<P>, fixed: seq<string>, items: seq<Item>, extra: seq<Item>, s: string)
    requires Named(r) && CRBlind(r) && Appended(r, fixed, items, extra) && Acceptable(r, ScanLines(s))
    ensures var out := Output(r, fixed, s);
            var first := Keep(r, Read(r, ScanLines(s)).value);
            && Acceptable(r, ScanLines(out))
            && Read(r, Lines(Output(r, fixed, out))) == Some(Chomp(first) + extra + items)
  {
    var out := Output(r, fixed, s);
    var all := Read(r, ScanLines(s)).value;
    var first := Keep(r, all);
    FilterPreserves(r, fixed, items, extra, s);
    ReadDropCRs(r, Lines(out));
    ChompAppend(first, items);
    KeepOk(r, all);
    AllOkAppend(r, Chomp(first), items);
    KeepAppend(r, Chomp(first), items);
    KeepChompKeep(r, all);
    FilterPreserves(r, fixed, items, extra, out);
  }

  lemma {:induction false} AllOkAppend<P>(r: Rules<P>, a: seq<Item>, b: seq<Item>)
    requires AllOk(r, a) && AllOk(r, b)
    ensures AllOk(r, a + b)
  {
  }
}
