/** The two NextAuth callbacks of src/lib/auth.ts: `signIn` admits Google
    accounts of the school domain only, and `session` copies the database
    user's id into the session object. */
module Auth {
  import opened Wrappers
  import opened Text

  const SchoolDomain := "@mwit.ac.th"

  /** `signIn({ account, profile })`: `provider` is `account?.provider`
      and `email` is `profile?.email` (None when either is missing). */
  function SignIn(provider: Option<string>, email: Option<string>): (allowed: bool)
    ensures provider != Some("google") ==> allowed
    ensures provider == Some("google") && email.None? ==> !allowed
  {
    if provider == Some("google") then
      email.Some? && email.value != "" && EndsWith(email.value, SchoolDomain)
    else true
  }

  /** A Google sign-in is admitted exactly when the address is some local
      part followed by `@mwit.ac.th`, compared case-sensitively. */
  lemma SignInGoogle(email: string)
    ensures SignIn(Some("google"), Some(email)) <==> exists local :: email == local + SchoolDomain
  {
    if SignIn(Some("google"), Some(email)) {
      var local := email[..|email| - |SchoolDomain|];
      assert email == local + SchoolDomain;
    }
    if exists local :: email == local + SchoolDomain {
      var local :| email == local + SchoolDomain;
      assert email[|email| - |SchoolDomain|..] == SchoolDomain;
    }
  }

  /** The domain test does not fold case. */
  lemma UpperCaseDomainRejected()
    ensures !SignIn(Some("google"), Some("student@MWIT.AC.TH"))
  {
    var e := "student@MWIT.AC.TH";
    assert e[|e| - |SchoolDomain|..][1] == 'M';
  }

  /** The `user` object of a NextAuth session. */
  class SessionUser {
    var id: Option<string>
    var name: Option<string>
    var email: Option<string>
    var image: Option<string>

    constructor (name: Option<string>, email: Option<string>, image: Option<string>)
      ensures this.id == None && this.name == name && this.email == email && this.image == image
    {
      this.id := None;
      this.name := name;
      this.email := email;
      this.image := image;
    }
  }

  class Session {
    var user: SessionUser?

    constructor (user: SessionUser?)
      ensures this.user == user
    {
      this.user := user;
    }
  }

  /** `session({ session, user })`: sets `session.user.id` in place when
      the session has a user, and returns the same session object. */
  method SessionCallback(session: Session, dbUserId: string) returns (r: Session)
    modifies session.user
    ensures r == session && session.user == old(session.user)
    ensures session.user != null ==>
              && session.user.id == Some(dbUserId)
              && session.user.name == old(session.user.name)
              && session.user.email == old(session.user.email)
              && session.user.image == old(session.user.image)
  {
    if session.user != null {
      session.user.id := Some(dbUserId);
    }
    r := session;
  }
}
