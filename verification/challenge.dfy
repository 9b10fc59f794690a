/** The password that answers an OpenVPN challenge (vpntoris-tray/internal/
    nativehelper/openvpn_auth.go, openVPNChallengeCredentials), with the standard
    encoding of section 4 of RFC 4648.  Here a string is a sequence of bytes. */
module Challenge {
  import opened Wrappers
  import opened Text

  type ByteString = s: string | forall i :: 0 <= i < |s| ==> s[i] as int < 256

  function Letter(v: int): (c: char)
    requires 0 <= v < 64
    ensures c != ':' && c != '=' && c != '\n'
  {
    if v < 26 then (v + 65) as char
    else if v < 52 then (v - 26 + 97) as char
    else if v < 62 then (v - 52 + 48) as char
    else if v == 62 then '+'
    else '/'
  }

  function LetterValue(c: char): Option<int> {
    if 'A' <= c <= 'Z' then Some(c as int - 65)
    else if 'a' <= c <= 'z' then Some(c as int - 97 + 26)
    else if '0' <= c <= '9' then Some(c as int - 48 + 52)
    else if c == '+' then Some(62)
    else if c == '/' then Some(63)
    else None
  }

  lemma {:induction false} LetterReadsBack(v: int)
    requires 0 <= v < 64
    ensures LetterValue(Letter(v)) == Some(v)
  {
  }

  /** The four letters of three bytes. */
  function Quad(a: int, b: int, c: int): (q: string)
    requires 0 <= a < 256 && 0 <= b < 256 && 0 <= c < 256
    ensures |q| == 4 && forall i :: 0 <= i < 4 ==> q[i] != ':' && q[i] != '=' && q[i] != '\n'
  {
    [Letter(a / 4), Letter(a % 4 * 16 + b / 16), Letter(b % 16 * 4 + c / 64), Letter(c % 64)]
  }

  /** base64.StdEncoding.EncodeToString */
  function Encode(s: ByteString): string
    decreases |s|
  {
    if |s| == 0 then ""
    else if |s| == 1 then Quad(s[0] as int, 0, 0)[..2] + "=="
    else if |s| == 2 then Quad(s[0] as int, s[1] as int, 0)[..3] + "="
    else Quad(s[0] as int, s[1] as int, s[2] as int) + Encode(s[3..])
  }

  /** The bytes of four letters, of which padding stands for zero. */
  function Triple(q: string): (r: Option<(int, int, int)>)
    requires |q| == 4
    ensures r.Some? ==> 0 <= r.value.0 < 256 && 0 <= r.value.1 < 256 && 0 <= r.value.2 < 256
  {
    var v0, v1 := LetterValue(q[0]), LetterValue(q[1]);
    var v2 := if q[2] == '=' && q[3] == '=' then Some(0) else LetterValue(q[2]);
    var v3 := if q[3] == '=' then Some(0) else LetterValue(q[3]);
    if v0.Some? && v1.Some? && v2.Some? && v3.Some? then
      Some((v0.value * 4 + v1.value / 16, v1.value % 16 * 16 + v2.value / 4, v2.value % 4 * 64 + v3.value))
    else None
  }

  /** A reader of the encoding; padding only at the end. */
  function Decode(t: string): Option<ByteString>
    decreases |t|
  {
    if |t| == 0 then Some("")
    else if |t| < 4 then None
    else
      match Triple(t[..4])
      case None => None
      case Some((a, b, c)) =>
        if t[3] != '=' then
          match Decode(t[4..])
          case None => None
          case Some(rest) => Some([a as char, b as char, c as char] + rest)
        else if |t| > 4 then None
        else if t[2] == '=' then Some([a as char])
        else Some([a as char, b as char])
  }

  lemma {:induction false} SixBits(a: int, b: int, c: int)
    requires 0 <= a < 256 && 0 <= b < 256 && 0 <= c < 256
    ensures a / 4 * 4 + (a % 4 * 16 + b / 16) / 16 == a
    ensures (a % 4 * 16 + b / 16) % 16 * 16 + (b % 16 * 4 + c / 64) / 4 == b
    ensures (b % 16 * 4 + c / 64) % 4 * 64 + c % 64 == c
  {
  }

  lemma {:induction false} QuadReadsBack(a: int, b: int, c: int, q: string)
    requires 0 <= a < 256 && 0 <= b < 256 && 0 <= c < 256 && |q| == 4
    requires var full := Quad(a, b, c);
             && q[0] == full[0] && q[1] == full[1]
             && (q[2] == full[2] || (q[2] == '=' && q[3] == '=' && b == 0 && c == 0))
             && (q[3] == full[3] || (q[3] == '=' && c == 0))
    ensures Triple(q) == Some((a, b, c))
  {
    LetterReadsBack(a / 4);
    LetterReadsBack(a % 4 * 16 + b / 16);
    LetterReadsBack(b % 16 * 4 + c / 64);
    LetterReadsBack(c % 64);
    SixBits(a, b, c);
  }

  lemma {:induction false} DecodeOne(s: ByteString)
    requires |s| == 1
    ensures Decode(Encode(s)) == Some(s)
  {
    var t := Encode(s);
    QuadReadsBack(s[0] as int, 0, 0, t);
    assert t[..4] == t;
    assert s == [s[0]];
  }

  lemma {:induction false} DecodeTwo(s: ByteString)
    requires |s| == 2
    ensures Decode(Encode(s)) == Some(s)
  {
    var t := Encode(s);
    QuadReadsBack(s[0] as int, s[1] as int, 0, t);
    assert t[..4] == t && t[2] != '=';
    assert s == [s[0], s[1]];
  }

  lemma {:induction false} DecodeThree(s: ByteString, q: string, rest: string)
    requires |s| > 2 && q == Quad(s[0] as int, s[1] as int, s[2] as int) && Decode(rest) == Some(s[3..])
    ensures Decode(q + rest) == Some(s)
  {
    QuadReadsBack(s[0] as int, s[1] as int, s[2] as int, q);
    assert (q + rest)[..4] == q && (q + rest)[4..] == rest;
    assert [s[0], s[1], s[2]] + s[3..] == s;
  }

  lemma {:induction false} DecodeEncode(s: ByteString)
    ensures Decode(Encode(s)) == Some(s)
    decreases |s|
  {
    if |s| == 1 {
      DecodeOne(s);
    } else if |s| == 2 {
      DecodeTwo(s);
    } else if |s| > 2 {
      DecodeEncode(s[3..]);
      DecodeThree(s, Quad(s[0] as int, s[1] as int, s[2] as int), Encode(s[3..]));
    }
  }

  lemma {:induction false} EncodeHasNoColon(s: ByteString)
    ensures Free(Encode(s), {':'})
    decreases |s|
  {
    if |s| > 2 {
      EncodeHasNoColon(s[3..]);
    }
  }

  lemma {:induction false} EncodeOneLine(s: ByteString)
    ensures OneLine(Encode(s))
    decreases |s|
  {
    if |s| > 2 {
      EncodeOneLine(s[3..]);
    }
  }

  // ---- The encoding, bit by bit ----

  /** Byte `k`, and zeros from the end on. */
  function ByteAt(s: ByteString, k: nat): (b: int)
    ensures 0 <= b < 256
  {
    if k < |s| then s[k] as int else 0
  }

  /** Bits 6k to 6k + 5 of the bytes in a row. */
  function SixBitsAt(s: ByteString, k: nat): (v: int)
    ensures 0 <= v < 64
  {
    var word := ByteAt(s, 6 * k / 8) * 256 + ByteAt(s, 6 * k / 8 + 1);
    (match k % 4 case 0 => word / 1024 case 1 => word / 16 case 2 => word / 64 case _ => word / 256 ) % 64
  }

  /** The letter of a value in the alphabet of section 4 of RFC 4648: capitals,
      small letters, digits, plus and slash. */
  predicate StandsFor(c: char, v: int) {
    || ('A' <= c <= 'Z' && v == c as int - 65)
    || ('a' <= c <= 'z' && v == 26 + c as int - 97)
    || ('0' <= c <= '9' && v == 52 + c as int - 48)
    || (c == '+' && v == 62)
    || (c == '/' && v == 63)
  }

  lemma {:induction false} LetterStands(v: int)
    requires 0 <= v < 64
    ensures StandsFor(Letter(v), v)
  {
  }

  lemma {:induction false} Regrouped(a: int, b: int, c: int, d: int)
    requires 0 <= a < 256 && 0 <= b < 256 && 0 <= c < 256 && 0 <= d < 256
    ensures (a * 256 + b) / 1024 % 64 == a / 4
    ensures (a * 256 + b) / 16 % 64 == a % 4 * 16 + b / 16
    ensures (b * 256 + c) / 64 % 64 == b % 16 * 4 + c / 64
    ensures (c * 256 + d) / 256 % 64 == c % 64
  {
    FirstSix(a / 4, a % 4, b);
    SecondSix(a / 4, a % 4, b / 16, b % 16);
    ThirdSix(b / 16, b % 16, c / 64, c % 64);
  }

  lemma {:induction false} FirstSix(x: int, y: int, b: int)
    requires 0 <= x < 64 && 0 <= y < 4 && 0 <= b < 256
    ensures ((4 * x + y) * 256 + b) / 1024 % 64 == x
  {
    assert (4 * x + y) * 256 + b == 1024 * x + (256 * y + b);
  }

  lemma {:induction false} SecondSix(x: int, y: int, z: int, w: int)
    requires 0 <= x < 64 && 0 <= y < 4 && 0 <= z < 16 && 0 <= w < 16
    ensures ((4 * x + y) * 256 + (16 * z + w)) / 16 % 64 == y * 16 + z
  {
    assert (4 * x + y) * 256 + (16 * z + w) == 16 * (64 * x + (16 * y + z)) + w;
  }

  lemma {:induction false} ThirdSix(x: int, y: int, z: int, w: int)
    requires 0 <= x < 16 && 0 <= y < 16 && 0 <= z < 4 && 0 <= w < 64
    ensures ((16 * x + y) * 256 + (64 * z + w)) / 64 % 64 == y * 4 + z
  {
    assert (16 * x + y) * 256 + (64 * z + w) == 64 * (64 * x + (4 * y + z)) + w;
  }

  lemma {:induction false} QuadBits(s: ByteString, q: string, i: nat)
    requires i < 4 && q == Quad(ByteAt(s, 0), ByteAt(s, 1), ByteAt(s, 2))
    ensures StandsFor(q[i], SixBitsAt(s, i))
  {
    hide Letter, ByteAt, StandsFor, SixBitsAt;
    FirstBits(s, i);
    LetterStands(SixBitsAt(s, i));
  }

  lemma {:induction false} FirstBits(s: ByteString, i: nat)
    requires i < 4
    ensures var a, b, c := ByteAt(s, 0), ByteAt(s, 1), ByteAt(s, 2);
            SixBitsAt(s, i) == [a / 4, a % 4 * 16 + b / 16, b % 16 * 4 + c / 64, c % 64][i]
  {
    hide ByteAt, SixBitsAt;
    SixBitsFrom(s, i);
    Regrouped(ByteAt(s, 0), ByteAt(s, 1), ByteAt(s, 2), ByteAt(s, 3));
  }

  lemma {:induction false} SixBitsFrom(s: ByteString, i: nat)
    requires i < 4
    ensures var a, b, c, d := ByteAt(s, 0), ByteAt(s, 1), ByteAt(s, 2), ByteAt(s, 3);
            SixBitsAt(s, i)
              == [(a * 256 + b) / 1024 % 64, (a * 256 + b) / 16 % 64, (b * 256 + c) / 64 % 64, (c * 256 + d) / 256 % 64][i]
  {
    hide ByteAt;
  }

  lemma {:induction false} LaterBits(s: ByteString, k: nat)
    requires |s| >= 3
    ensures SixBitsAt(s, k + 4) == SixBitsAt(s[3..], k)
  {
    assert 6 * (k + 4) / 8 == 6 * k / 8 + 3 && (k + 4) % 4 == k % 4;
  }

  /** Base 64 of any bytes: the letter at each position stands for the next six
      bits, zeros filling the last of them; padding fills up to a multiple of
      four letters. */
  lemma {:induction false} EncodeWritten(s: ByteString, k: nat)
    ensures |Encode(s)| == (|s| + 2) / 3 * 4
    ensures k < |Encode(s)| ==> if 6 * k < 8 * |s| then StandsFor(Encode(s)[k], SixBitsAt(s, k)) else Encode(s)[k] == '='
    decreases |s|
  {
    hide Quad, StandsFor, SixBitsAt;
    if s != "" {
      var q := Quad(ByteAt(s, 0), ByteAt(s, 1), ByteAt(s, 2));
      if k < 4 {
        QuadBits(s, q, k);
      }
      if |s| >= 3 {
        EncodeWritten(s[3..], if k >= 4 then k - 4 else 0);
        if k >= 4 {
          LaterBits(s, k - 4);
        }
      }
    }
  }

  // ---- Challenges ----

  function ChallengePassword(challenge: string, state: ByteString, password: ByteString, otp: ByteString): string {
    if challenge == "static" then "SCRV1:" + Encode(password) + ":" + Encode(otp)
    else if challenge == "dynamic" then "CRV1::" + state + "::" + otp
    else if challenge == "append" then password + otp
    else password
  }

  /** How the server takes the answer to a static challenge apart. */
  function ReadStatic(answer: string): Option<(ByteString, ByteString)> {
    var parts := Split(answer, {':'});
    if |parts| == 3 && parts[0] == "SCRV1" && Decode(parts[1]).Some? && Decode(parts[2]).Some? then
      Some((Decode(parts[1]).value, Decode(parts[2]).value))
    else None
  }

  lemma {:induction false} SplitLast(piece: string)
    requires Free(piece, {':'})
    ensures Split(piece, {':'}) == [piece]
  {
    assert piece[..|piece|] == piece;
    IndexIs(piece, {':'}, |piece|);
  }

  lemma {:induction false} Regroup(a: string, b: string, c: string, sep: string)
    ensures a + sep + (b + sep + c) == a + sep + b + sep + c
  {
  }

  lemma {:induction false} SplitThree(a: string, b: string, c: string, sep: string)
    requires Free(a, {':'}) && Free(b, {':'}) && Free(c, {':'}) && sep == [':']
    ensures Split(a + sep + b + sep + c, {':'}) == [a, b, c]
  {
    SplitCons(a, b + sep + c, ':', {':'});
    SplitCons(b, c, ':', {':'});
    SplitLast(c);
    Regroup(a, b, c, sep);
  }

  /** Both the password and the one-time code can be read off the answer to a
      static challenge, whatever bytes they hold. */
  lemma {:induction false} StaticAnswerReadsBack(state: ByteString, password: ByteString, otp: ByteString)
    ensures ReadStatic(ChallengePassword("static", state, password, otp)) == Some((password, otp))
    ensures Split(ChallengePassword("static", state, password, otp), {':'}) == ["SCRV1", Encode(password), Encode(otp)]
  {
    var tag := "SCRV1";
    EncodeHasNoColon(password);
    EncodeHasNoColon(otp);
    SplitThree(tag, Encode(password), Encode(otp), ":");
    DecodeEncode(password);
    DecodeEncode(otp);
    assert tag + ":" == "SCRV1:";
  }

  /** The server, which knows its state, reads the code off the answer to a
      dynamic challenge; in the other two forms the code stands behind the
      password, or not at all. */
  lemma {:induction false} OtherAnswers(state: ByteString, password: ByteString, otp: ByteString, challenge: string)
    requires Free(state, {':'})
    ensures Split(ChallengePassword("dynamic", state, password, otp), {':'}) == ["CRV1", "", state, ""] + Split(otp, {':'})
    ensures ChallengePassword("append", state, password, otp) == password + otp
    ensures challenge !in {"static", "dynamic", "append"} ==> ChallengePassword(challenge, state, password, otp) == password
  {
    hide Split;
    var tag, sep := "CRV1", "::";
    SplitTwo(state, otp, sep);
    SplitTwo(tag, state + sep + otp, sep);
    assert tag + sep + (state + sep + otp) == tag + sep + state + sep + otp;
    assert tag + sep == "CRV1::";
  }

  lemma {:induction false} SplitTwo(piece: string, rest: string, sep: string)
    requires Free(piece, {':'}) && sep == [':', ':']
    ensures Split(piece + sep + rest, {':'}) == [piece, ""] + Split(rest, {':'})
  {
    hide Split;
    var none: string, colon: string := "", [':'];
    SplitCons(none, rest, ':', {':'});
    SplitCons(piece, none + colon + rest, ':', {':'});
    assert piece + colon + (none + colon + rest) == piece + sep + rest;
  }

  ghost predicate Recoverable(challenge: string) {
    forall state: ByteString, p: ByteString, o: ByteString, p': ByteString, o': ByteString ::
      ChallengePassword(challenge, state, p, o) == ChallengePassword(challenge, state, p', o') ==> p == p' && o == o'
  }

  /** No other kind of challenge keeps the pair apart. */
  lemma {:induction false} RecoverableIff(challenge: string)
    ensures Recoverable(challenge) <==> challenge == "static"
  {
    if challenge == "static" {
      forall state: ByteString, p: ByteString, o: ByteString, p': ByteString, o': ByteString
        | ChallengePassword(challenge, state, p, o) == ChallengePassword(challenge, state, p', o')
        ensures p == p' && o == o'
      {
        StaticAnswerReadsBack(state, p, o);
        StaticAnswerReadsBack(state, p', o');
      }
    } else {
      var none: ByteString, one: ByteString := "", "1";
      assert one + none == none + one;
      assert challenge == "append" ==> ChallengePassword(challenge, none, one, none) == ChallengePassword(challenge, none, none, one);
      assert challenge == "dynamic" ==> ChallengePassword(challenge, none, one, none) == ChallengePassword(challenge, none, none, none);
      assert challenge != "append" && challenge != "dynamic" ==>
               ChallengePassword(challenge, none, none, one) == ChallengePassword(challenge, none, none, none);
      assert one[0] == '1';
      assert one != none;
    }
  }
}
