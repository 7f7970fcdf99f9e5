/** `app/api/endpoints/auth.py`: the in-memory one-time-password store and the login and
    logout handlers that write the session. */
module Auth {
  import opened Base
  import opened Text
  import opened Db
  import Profiles

  const SendFailed := HttpError(500, "Failed to send OTP")
  const BadOtp := HttpError(400, "Invalid or expired OTP")

  /** `stored_otp = otp_store.get(email)` passes `not stored_otp or stored_otp != otp`:
      there is a stored code, it is not the empty string, and it is the one given. */
  predicate Accepted(otps: map<string, string>, email: string, otp: string) {
    email in otps && otps[email] != "" && otps[email] == otp
  }

  /** The store after `verify_otp`, or the 400 reply that leaves it as it was. */
  function Verify(otps: map<string, string>, email: string, otp: string): (r: Result<map<string, string>, HttpError>)
    ensures r.Ok? <==> Accepted(otps, email, otp)
    ensures r.Err? ==> r.error == BadOtp
    ensures r.Ok? ==> r.value.Keys == otps.Keys - {email} && forall e | e in r.value :: r.value[e] == otps[e]
  {
    if Accepted(otps, email, otp) then Ok(otps - {email}) else Err(BadOtp)
  }

  /** A code that was sent verifies once when it is not empty, and never a second time. */
  lemma SentOtpVerifiesOnce(otps: map<string, string>, email: string, otp: string, again: string)
    requires otp != ""
    ensures var after := Verify(otps[email := otp], email, otp);
      after.Ok? && Verify(after.value, email, again).Err?
  {
  }

  /** Sending again replaces the earlier code: the old one no longer verifies. */
  lemma ResendReplaces(otps: map<string, string>, email: string, first: string, second: string)
    requires first != second
    ensures Verify(otps[email := first][email := second], email, first).Err?
    ensures second != "" ==> Verify(otps[email := first][email := second], email, second).Ok?
  {
  }

  /** A login under one email keeps every other email's pending code. */
  lemma VerifyKeepsOthers(otps: map<string, string>, email: string, otp: string, other: string, code: string)
    requires Verify(otps, email, otp).Ok? && other != email
    ensures Verify(Verify(otps, email, otp).value, other, code).Ok? <==> Verify(otps, other, code).Ok?
  {
  }

  /** The avatar link built from the email. */
  function AvatarUrl(email: string): string {
    "https://ui-avatars.com/api/?name=" + email + "&background=2563eb&color=fff"
  }

  /** The session user written after a successful verification. */
  function OtpUser(email: string): (r: SessionUser)
    ensures r.id == email && r.email == email && r.picture == AvatarUrl(email)
    ensures r.name.Some?
  {
    SessionUser(email, Some(TitleCase(Before(email, "@"))), email, AvatarUrl(email))
  }

  /** The part of an address before its first "@" holds no "@". */
  lemma LocalPartHasNoAt(email: string)
    ensures !Contains(Before(email, "@"), "@")
  {
    var p := Before(email, "@");
    match IndexOf(email, "@")
    case None =>
      assert p == email;
    case Some(i) =>
      assert p == email[..i];
      forall k | 0 <= k <= |p| ensures !OccursAt(p, "@", k) {
        if k + 1 <= i {
          assert p[k..k + 1] == email[k..k + 1];
          assert !OccursAt(email, "@", k);
        }
      }
  }

  /** The session name is the local part of the address up to case, and so holds no "@". */
  lemma OtpUserName(email: string)
    ensures var n := OtpUser(email).name.value;
      Lower(n) == Lower(Before(email, "@")) && !Contains(n, "@")
  {
    var p := Before(email, "@");
    var n := OtpUser(email).name.value;
    LocalPartHasNoAt(email);
    TitleCaseCaseless(p);
    assert Lower(n) == Lower(p);
    if Contains(n, "@") {
      var k :| 0 <= k <= |n| && OccursAt(n, "@", k);
      assert n[k] == '@' && LowerChar(p[k]) == '@';
      assert p[k..k + 1] == "@";
      assert OccursAt(p, "@", k);
    }
  }

  /** The user a first login creates is named by the title-cased local part. */
  lemma OtpLoginUsername(email: string)
    ensures Profiles.NewUsername(OtpUser(email)) == TitleCase(Before(email, "@"))
  {
  }

  const MockUser := SessionUser("1", Some("Parth (Demo)"), "parth@example.com",
    "https://ui-avatars.com/api/?name=Parth+Demo&background=2563eb&color=fff")

  /** `otp_store` */
  class OtpStore {
    var otps: map<string, string>

    constructor ()
      ensures otps == map[]
    {
      otps := map[];
    }
  }

  /** `send_otp`: `otp` is the generated code and `sent` says whether the mail went out.
      The code is stored, replacing any earlier one, before the mail is sent, so it stays
      stored when sending fails. */
  method SendOtp(store: OtpStore, email: string, otp: string, sent: bool) returns (r: Result<(), HttpError>)
    modifies store
    ensures store.otps == old(store.otps)[email := otp]
    ensures r == if sent then Ok(()) else Err(SendFailed)
  {
    store.otps := store.otps[email := otp];
    if !sent {
      return Err(SendFailed);
    }
    r := Ok(());
  }

  /** `verify_otp`: the session's `user` entry is replaced and the code deleted, or the 400
      reply is given and nothing changes. */
  method VerifyOtp(store: OtpStore, session: Session, email: string, otp: string) returns (r: Result<(), HttpError>)
    modifies store, session
    ensures var v := Verify(old(store.otps), email, otp);
      && (v.Err? ==> r == Err(v.error) && store.otps == old(store.otps) && session.data == old(session.data))
      && (v.Ok? ==> r == Ok(()) && store.otps == v.value && session.data == old(session.data).(user := Some(OtpUser(email))))
  {
    var stored := if email in store.otps then Some(store.otps[email]) else None;
    if stored.None? || stored.value == "" || stored.value != otp {
      return Err(BadOtp);
    }
    session.data := session.data.(user := Some(OtpUser(email)));
    store.otps := store.otps - {email};
    r := Ok(());
  }

  /** `mock_login` */
  method MockLogin(session: Session)
    modifies session
    ensures session.data == old(session.data).(user := Some(MockUser))
  {
    session.data := session.data.(user := Some(MockUser));
  }

  /** `logout`: `request.session.clear()` */
  method Logout(session: Session)
    modifies session
    ensures session.data == EmptySession
  {
    session.data := EmptySession;
  }
}
