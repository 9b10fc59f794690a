/** The answer to a static challenge on its whole way: the text that the helper
    writes to the management socket (vpntoris-tray/internal/nativehelper/
    openvpn_auth.go), the engine's lexer, and the server. */
module ChallengeAnswer {
  import opened Wrappers
  import opened Text
  import opened Credentials
  import opened Challenge

  /** The engine reads two lines exactly when the username has no line feed; the
      second one then carries a password from which the server recovers the
      user's password and code, whatever bytes they hold. */
  lemma {:induction false} StaticAnswerArrives(username: string, state: ByteString, password: ByteString, otp: ByteString)
    ensures var answer := ChallengePassword("static", state, password, otp);
            var read := LineFields(CredentialLine("password", answer));
            && (Lines(ManagementText(username, answer)) == [CredentialLine("username", username), CredentialLine("password", answer)]
                <==> OneLine(username))
            && |read| == 3 && ReadStatic(read[2]) == Some((password, otp))
  {
    hide Lines, LineFields, ReadStatic, ManagementText, CredentialLine;
    var answer := ChallengePassword("static", state, password, otp);
    EncodeOneLine(password);
    EncodeOneLine(otp);
    assert OneLine(answer);
    TwoLines(username, answer);
    CredentialReadsBack("password", answer);
    StaticAnswerReadsBack(state, password, otp);
  }
}
