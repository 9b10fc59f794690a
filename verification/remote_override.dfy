/** Overriding the gateway of an OpenVPN profile (vpntoris-tray/main.go,
    overrideOpenVPNRemote). */
module RemoteOverride {
  import opened Wrappers
  import opened Text

  predicate RemoteFields(fields: seq<string>) {
    |fields| >= 2 && Fold(fields[0]) == "remote"
  }

  predicate IsRemote(line: string) {
    RemoteFields(Fields(line))
  }

  function Renamed(line: string, gateway: string): string
    requires IsRemote(line)
  {
    JoinBlank(Fields(line)[1 := gateway])
  }

  function NewRemote(gateway: string, port: string): string {
    "remote " + gateway + if TrimSpace(port) != "" then " " + TrimSpace(port) else ""
  }

  function Remotes(lines: seq<string>): (r: seq<string>)
    ensures forall k :: 0 <= k < |r| ==> IsRemote(r[k])
  {
    if lines == [] then [] else (if IsRemote(lines[0]) then [lines[0]] else []) + Remotes(lines[1..])
  }

  function Others(lines: seq<string>): seq<string> {
    if lines == [] then [] else (if IsRemote(lines[0]) then [] else [lines[0]]) + Others(lines[1..])
  }

  /** The first remote line renamed, the further ones dropped. */
  function Rewrite(lines: seq<string>, gateway: string): seq<string> {
    if lines == [] then []
    else if IsRemote(lines[0]) then [Renamed(lines[0], gateway)] + Others(lines[1..])
    else [lines[0]] + Rewrite(lines[1..], gateway)
  }

  function Overridden(configuration: string, gateway: string, port: string): string {
    var lines := Split(configuration, {'\n'});
    Join(if Remotes(lines) == [] then [NewRemote(gateway, port)] + lines else Rewrite(lines, gateway), '\n')
  }

  method OverrideOpenVPNRemote(configuration: string, gateway: string, port: string) returns (r: string)
    ensures r == Overridden(configuration, gateway, port)
  {
    hide Fields, Fold, Split, Join, TrimSpace, JoinBlank, Rewrite, Others, Remotes;
    var lines := Split(configuration, {'\n'});
    var result: seq<string> := [];
    var replaced := false;
    var next := 0;
    while next < |lines|
      invariant 0 <= next <= |lines|
      invariant Rewrite(lines, gateway) == result + (if replaced then Others(lines[next..]) else Rewrite(lines[next..], gateway))
      invariant if replaced then Remotes(lines) != [] else Remotes(lines) == Remotes(lines[next..])
    {
      var line := lines[next];
      var fields := Fields(line);
      Unfold(result, lines, next, gateway);
      next := next + 1;
      if |fields| >= 2 && Fold(fields[0]) == "remote" {
        if replaced {
          continue;
        }
        fields := fields[1 := gateway];
        result := result + [JoinBlank(fields)];
        replaced := true;
        continue;
      }
      result := result + [line];
    }
    assert lines[next..] == [];
    assert result + [] == result;
    NothingLeft(gateway);
    if !replaced {
      NoRemotes(lines);
    }
    if !replaced {
      var remote := "remote " + gateway;
      if TrimSpace(port) != "" {
        remote := remote + (" " + TrimSpace(port));
      }
      assert remote == NewRemote(gateway, port);
      result := [remote] + result;
    }
    return Join(result, '\n');
  }

  /** What one turn of the loop does to the lines still to come. */
  lemma {:induction false} NothingLeft(gateway: string)
    ensures Others([]) == [] && Remotes([]) == [] && Rewrite([], gateway) == []
  {
  }

  lemma {:induction false} Unfold(result: seq<string>, lines: seq<string>, next: nat, gateway: string)
    requires next < |lines|
    ensures var line, now, after := lines[next], lines[next..], lines[next + 1..];
            && Remotes(now) == (if IsRemote(line) then [line] else []) + Remotes(after)
            && result + Others(now) == (if IsRemote(line) then result else result + [line]) + Others(after)
            && result + Rewrite(now, gateway)
                 == if IsRemote(line) then result + [Renamed(line, gateway)] + Others(after)
                    else result + [line] + Rewrite(after, gateway)
  {
    hide IsRemote, Renamed, Rewrite, Others;
    var now := lines[next..];
    assert now[0] == lines[next] && now[1..] == lines[next + 1..];
    OthersCons(now);
    RewriteCons(now, gateway);
  }

  lemma {:induction false} OthersCons(now: seq<string>)
    requires now != []
    ensures Others(now) == if IsRemote(now[0]) then Others(now[1..]) else [now[0]] + Others(now[1..])
  {
  }

  lemma {:induction false} RewriteCons(now: seq<string>, gateway: string)
    requires now != []
    ensures Rewrite(now, gateway)
              == if IsRemote(now[0]) then [Renamed(now[0], gateway)] + Others(now[1..]) else [now[0]] + Rewrite(now[1..], gateway)
  {
  }

  // ---- Renaming one line ----

  lemma {:induction false} RenamedFields(line: string, gateway: string)
    requires IsRemote(line) && Token(gateway)
    ensures Fields(Renamed(line, gateway)) == Fields(line)[1 := gateway]
    ensures IsRemote(Renamed(line, gateway)) && OneLine(Renamed(line, gateway))
  {
    FieldsJoinBlank(Fields(line)[1 := gateway]);
    BlanksOneLine(Fields(line)[1 := gateway]);
  }

  lemma {:induction false} BlanksOneLine(fields: seq<string>)
    requires Tokens(fields)
    ensures OneLine(JoinBlank(fields))
  {
    if fields != [] {
      assert Token(fields[0]);
      if |fields| > 1 {
        BlanksOneLine(fields[1..]);
      }
    }
  }

  lemma {:induction false} RenamedTwice(line: string, first: string, second: string)
    requires IsRemote(line) && Token(first) && Token(second)
    ensures IsRemote(Renamed(line, first)) && Renamed(Renamed(line, first), second) == Renamed(line, second)
  {
    RenamedFields(line, first);
    assert Fields(line)[1 := first][1 := second] == Fields(line)[1 := second];
  }

  /** A port is absent or one token. */
  predicate PortOk(port: string) {
    TrimSpace(port) == "" || NoSpace(TrimSpace(port))
  }

  function NewFields(word: string, gateway: string, port: string): seq<string> {
    [word, gateway] + if TrimSpace(port) != "" then [TrimSpace(port)] else []
  }

  lemma {:induction false} JoinNewFields(word: string, gateway: string, port: string)
    ensures JoinBlank(NewFields(word, gateway, port))
              == word + " " + gateway + if TrimSpace(port) != "" then " " + TrimSpace(port) else ""
  {
    if TrimSpace(port) != "" {
      JoinThree(word, gateway, TrimSpace(port));
      assert NewFields(word, gateway, port) == [word, gateway, TrimSpace(port)];
    } else {
      assert NewFields(word, gateway, port)[1..] == [gateway];
      assert word + (" " + gateway) == word + " " + gateway + "";
    }
  }

  lemma {:induction false} JoinThree(a: string, b: string, c: string)
    ensures JoinBlank([a, b, c]) == a + " " + b + (" " + c)
  {
    assert [a, b, c][1..] == [b, c] && [b, c][1..] == [c];
    assert JoinBlank([b, c]) == b + (" " + JoinBlank([c]));
    assert a + (" " + (b + (" " + c))) == a + " " + b + (" " + c);
  }

  lemma {:induction false} NewRemoteFields(gateway: string, port: string)
    requires Token(gateway) && PortOk(port)
    ensures Fields(NewRemote(gateway, port)) == NewFields("remote", gateway, port)
    ensures NewRemote(gateway, port) == JoinBlank(NewFields("remote", gateway, port))
    ensures IsRemote(NewRemote(gateway, port)) && OneLine(NewRemote(gateway, port))
  {
    var word := "remote";
    JoinNewFields(word, gateway, port);
    assert word + " " + gateway == "remote " + gateway;
    FieldsJoinBlank(NewFields(word, gateway, port));
    BlanksOneLine(NewFields(word, gateway, port));
    assert Fold(word) == word;
  }

  lemma {:induction false} NewRemoteRenamed(first: string, second: string, port: string)
    requires Token(first) && Token(second) && PortOk(port)
    ensures IsRemote(NewRemote(first, port)) && Renamed(NewRemote(first, port), second) == NewRemote(second, port)
  {
    NewRemoteFields(first, port);
    NewRemoteFields(second, port);
    assert NewFields("remote", first, port)[1 := second] == NewFields("remote", second, port);
  }

  // ---- Whole configurations ----

  lemma {:induction false} OthersHaveNone(lines: seq<string>)
    ensures Remotes(Others(lines)) == [] && Others(Others(lines)) == Others(lines)
    ensures OneLines(lines) ==> OneLines(Others(lines))
  {
    if lines != [] {
      OthersHaveNone(lines[1..]);
      if !IsRemote(lines[0]) {
        assert Others(lines)[1..] == Others(lines[1..]);
      } else {
        assert Others(lines) == Others(lines[1..]);
      }
    }
  }

  lemma {:induction false} NoRemotes(lines: seq<string>)
    requires Remotes(lines) == []
    ensures Others(lines) == lines && forall gateway :: Rewrite(lines, gateway) == lines
  {
    if lines != [] {
      NoRemotes(lines[1..]);
    }
  }

  lemma {:induction false} RewriteLines(lines: seq<string>, gateway: string)
    requires Remotes(lines) != [] && Token(gateway)
    ensures Remotes(Rewrite(lines, gateway)) == [Renamed(Remotes(lines)[0], gateway)]
    ensures Others(Rewrite(lines, gateway)) == Others(lines)
    ensures OneLines(lines) ==> OneLines(Rewrite(lines, gateway))
    ensures Rewrite(lines, gateway) != []
  {
    if IsRemote(lines[0]) {
      RenamedFields(lines[0], gateway);
      OthersHaveNone(lines[1..]);
      assert Rewrite(lines, gateway)[1..] == Others(lines[1..]);
    } else {
      RewriteLines(lines[1..], gateway);
      assert Rewrite(lines, gateway)[1..] == Rewrite(lines[1..], gateway);
      assert Remotes(lines) == Remotes(lines[1..]);
    }
  }

  lemma {:induction false} RewriteTwice(lines: seq<string>, first: string, second: string)
    requires Remotes(lines) != [] && Token(first) && Token(second)
    ensures Rewrite(Rewrite(lines, first), second) == Rewrite(lines, second)
  {
    if IsRemote(lines[0]) {
      RenamedTwice(lines[0], first, second);
      OthersHaveNone(lines[1..]);
      assert Rewrite(lines, first)[1..] == Others(lines[1..]);
    } else {
      assert Remotes(lines) == Remotes(lines[1..]);
      RewriteTwice(lines[1..], first, second);
      assert Rewrite(lines, first)[1..] == Rewrite(lines[1..], first);
    }
  }

  /** The lines of the result. */
  function NewLines(lines: seq<string>, gateway: string, port: string): seq<string> {
    if Remotes(lines) == [] then [NewRemote(gateway, port)] + lines else Rewrite(lines, gateway)
  }

  lemma {:induction false} OverriddenLines(configuration: string, gateway: string, port: string)
    requires Token(gateway) && PortOk(port)
    ensures Split(Overridden(configuration, gateway, port), {'\n'}) == NewLines(Split(configuration, {'\n'}), gateway, port)
  {
    hide Split, Join, Rewrite, Remotes;
    var lines := Split(configuration, {'\n'});
    NewRemoteFields(gateway, port);
    if Remotes(lines) != [] {
      RewriteLines(lines, gateway);
    }
    SplitJoin(NewLines(lines, gateway, port), '\n', {'\n'});
  }

  /** The result has exactly one remote line, which names the gateway; all other
      lines are kept in their order. */
  lemma {:induction false} OverrideNamesGateway(configuration: string, gateway: string, port: string)
    requires Token(gateway) && PortOk(port)
    ensures var out := Split(Overridden(configuration, gateway, port), {'\n'});
            && |Remotes(out)| == 1 && IsRemote(Remotes(out)[0]) && Fields(Remotes(out)[0])[1] == gateway
            && Others(out) == Others(Split(configuration, {'\n'}))
  {
    var lines := Split(configuration, {'\n'});
    OverriddenLines(configuration, gateway, port);
    if Remotes(lines) == [] {
      NewRemoteFields(gateway, port);
      NoRemotes(lines);
      assert ([NewRemote(gateway, port)] + lines)[1..] == lines;
    } else {
      RewriteLines(lines, gateway);
      RenamedFields(Remotes(lines)[0], gateway);
    }
  }

  /** The last override wins: an earlier one leaves no trace. */
  lemma {:induction false} LastOverrideWins(configuration: string, first: string, second: string, port: string)
    requires Token(first) && Token(second) && PortOk(port)
    ensures Overridden(Overridden(configuration, first, port), second, port) == Overridden(configuration, second, port)
  {
    var lines := Split(configuration, {'\n'});
    OverriddenLines(configuration, first, port);
    OverrideNamesGateway(configuration, first, port);
    if Remotes(lines) == [] {
      NewRemoteRenamed(first, second, port);
      NoRemotes(lines);
      assert ([NewRemote(first, port)] + lines)[1..] == lines;
    } else {
      RewriteTwice(lines, first, second);
    }
  }

  // ---- Line by line ----

  /** The lines that do not name a remote host. */
  function WithoutRemotes(lines: seq<string>): seq<string> {
    if lines == [] then []
    else (if |Fields(lines[0])| >= 2 && Fold(Fields(lines[0])[0]) == "remote" then [] else [lines[0]]) + WithoutRemotes(lines[1..])
  }

  lemma {:induction false} OthersWritten(lines: seq<string>)
    ensures Others(lines) == WithoutRemotes(lines)
  {
    if lines != [] {
      OthersWritten(lines[1..]);
    }
  }

  lemma {:induction false} RewriteAt(lines: seq<string>, gateway: string, k: nat)
    requires k < |lines| && IsRemote(lines[k]) && forall i :: 0 <= i < k ==> !IsRemote(lines[i])
    ensures Rewrite(lines, gateway) == lines[..k] + [Renamed(lines[k], gateway)] + Others(lines[k + 1..])
    ensures Remotes(lines) != []
  {
    hide IsRemote, Renamed;
    if k > 0 {
      var rest := lines[1..];
      assert rest[k - 1] == lines[k] && rest[k..] == lines[k + 1..];
      RewriteAt(rest, gateway, k - 1);
      assert lines[..k] == [lines[0]] + rest[..k - 1];
    }
  }

  lemma {:induction false} NoRemoteLines(lines: seq<string>)
    requires forall i :: 0 <= i < |lines| ==> !IsRemote(lines[i])
    ensures Remotes(lines) == []
  {
    if lines != [] {
      NoRemoteLines(lines[1..]);
    }
  }

  /** Line by line, `k` being the first one with at least two words of which the
      first is "remote" in any case: everything before it stays, it names the
      gateway and keeps its other words, and of the lines after it exactly those
      of its kind are gone.  Without one, a remote line with the gateway, and the
      port if there is one, comes first and every line stays. */
  lemma {:induction false} OverrideWritten(configuration: string, gateway: string, port: string, k: nat)
    requires Token(gateway) && (TrimSpace(port) == "" || NoSpace(TrimSpace(port)))
    requires k <= |Split(configuration, {'\n'})|
    requires forall i :: 0 <= i < k ==>
               var f := Fields(Split(configuration, {'\n'})[i]); !(|f| >= 2 && Fold(f[0]) == "remote")
    requires k < |Split(configuration, {'\n'})| ==>
               var f := Fields(Split(configuration, {'\n'})[k]); |f| >= 2 && Fold(f[0]) == "remote"
    ensures var lines, out := Split(configuration, {'\n'}), Split(Overridden(configuration, gateway, port), {'\n'});
            if k == |lines| then
              out[1..] == lines && Fields(out[0]) == ["remote", gateway] + if TrimSpace(port) == "" then [] else [TrimSpace(port)]
            else
              && k < |out| && out[..k] == lines[..k] && Fields(out[k]) == Fields(lines[k])[1 := gateway]
              && out[k + 1..] == WithoutRemotes(lines[k + 1..])
  {
    var lines := Split(configuration, {'\n'});
    OverriddenLines(configuration, gateway, port);
    assert forall i :: 0 <= i < k ==> !IsRemote(lines[i]);
    hide Overridden, Split;
    if k == |lines| {
      NoRemoteLines(lines);
      NewRemoteFields(gateway, port);
    } else {
      RewriteAt(lines, gateway, k);
      RenamedFields(lines[k], gateway);
      OthersWritten(lines[k + 1..]);
    }
  }
}
