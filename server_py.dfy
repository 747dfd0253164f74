/**
 * The session-file server (server.py): the username and password rules, the
 * `Cookie` header reader, the session map kept in `sessions.json` with a
 * four-hour expiry and a client-IP check, the login handler's validation
 * order, and the authenticated save. Time is an integer count of seconds;
 * tokens, the client address and the outcome of password verification are
 * inputs.
 */
module ServerPy {
  import opened Js
  import opened Text
  import Payload

  // ------------------------------------------------------------ validators

  predicate IsAsciiLetter(ch: char)
  {
    'a' <= ch <= 'z' || 'A' <= ch <= 'Z'
  }

  predicate IsAsciiDigit(ch: char)
  {
    '0' <= ch <= '9'
  }

  /** A member of `[a-zA-Z0-9_]`. */
  predicate IsWordChar(ch: char)
  {
    IsAsciiLetter(ch) || IsAsciiDigit(ch) || ch == '_'
  }

  predicate AllWord(s: string)
  {
    forall i :: 0 <= i < |s| ==> IsWordChar(s[i])
  }

  /**
   * `validate_username` as written: `re.match(r'^[a-zA-Z0-9_]+$', u)` also
   * matches when the word characters are followed by one final newline.
   */
  predicate ValidUsernameAsWritten(u: string)
  {
    3 <= |u| <= 20
    && (AllWord(u) || (u[|u| - 1] == '\n' && AllWord(u[..|u| - 1])))
  }

  /** `validate_username` as intended: 3 to 20 characters, all of them `[a-zA-Z0-9_]`. */
  predicate ValidUsername(u: string)
  {
    3 <= |u| <= 20 && AllWord(u)
  }

  /** The two readings differ: a name with a trailing newline passes the validation as written. */
  lemma TrailingNewlineAccepted()
    ensures ValidUsernameAsWritten("abc\n")
    ensures !ValidUsername("abc\n")
  {
    assert "abc\n"[..3] == "abc";
    assert !IsWordChar("abc\n"[3]);
  }

  /** On a name that does not end in a newline, in particular any stripped name, the two agree. */
  lemma UsernameReadingsAgree(u: string)
    requires u == [] || u[|u| - 1] != '\n'
    ensures ValidUsernameAsWritten(u) <==> ValidUsername(u)
  {
  }

  /**
   * The login handler strips the name before validating it, so there the
   * check as written and the corrected one give the same answer.
   */
  lemma StrippedNameUnaffected(s: string)
    ensures ValidUsernameAsWritten(Strip(s)) <==> ValidUsername(Strip(s))
  {
    var u := Strip(s);
    assert u != [] ==> IsPySpace('\n');
    UsernameReadingsAgree(u);
  }

  /** `validate_password` on a string: at least 6 characters, an ASCII letter and an ASCII digit. */
  predicate ValidPassword(p: string)
  {
    |p| >= 6 && (exists i :: 0 <= i < |p| && IsAsciiLetter(p[i])) && (exists i :: 0 <= i < |p| && IsAsciiDigit(p[i]))
  }

  /** `validate_password` on any JSON value the login body may carry; `None` where it raises. */
  function PasswordCheck(v: Json): (r: Option<bool>)
    ensures v.JStr? ==> r == Some(ValidPassword(v.s))
    ensures r == Some(true) ==> v.JStr?
  {
    if !Payload.PyTruthy(v) then Some(false)
    else
      match Payload.PyLen(v)
      case None => None
      case Some(n) =>
        if n < 6 then Some(false)
        else if v.JStr? then Some(ValidPassword(v.s))
        else None                                          // re.search on a list or dict
  }

  /** The built-in `project_manager` password does not pass the password rule. */
  lemma DefaultPasswordRejected()
    ensures !ValidPassword("123456")
  {
    var p := "123456";
    forall i | 0 <= i < |p| ensures !IsAsciiLetter(p[i]) { }
  }

  // ---------------------------------------------------------------- cookies

  /** What one `;`-separated piece sets: `key.strip()` and `value.strip()` around its first `=`, if it has one. */
  function CookiePair(piece: string): Option<(string, string)>
  {
    var p := Strip(piece);
    if '=' in p then Some((Strip(Before(p, '=')), Strip(After(p, '=')))) else None
  }

  /** The cookies a list of pieces sets, the later piece winning. */
  function Jar(pieces: seq<string>): map<string, string>
    decreases |pieces|
  {
    if pieces == [] then map[]
    else
      Set(Jar(pieces[..|pieces| - 1]), CookiePair(pieces[|pieces| - 1]))
  }

  /** The value the last piece naming `name` gives it, looking from the end. */
  function LastValue(pieces: seq<string>, name: string): Option<string>
    decreases |pieces|
  {
    if pieces == [] then None
    else
      var c := CookiePair(pieces[|pieces| - 1]);
      if c.Some? && c.value.0 == name then Some(c.value.1)
      else LastValue(pieces[..|pieces| - 1], name)
  }

  /** Reading the jar is finding the last piece with that name: a later duplicate overrides an earlier one. */
  lemma {:induction false} JarIsLastValue(pieces: seq<string>, name: string)
    ensures (if name in Jar(pieces) then Some(Jar(pieces)[name]) else None) == LastValue(pieces, name)
    decreases |pieces|
  {
    if pieces != [] {
      JarIsLastValue(pieces[..|pieces| - 1], name);
    }
  }

  /** A piece without `=` sets nothing. */
  lemma PieceWithoutEquals(pieces: seq<string>, piece: string)
    requires '=' !in Strip(piece)
    ensures Jar(pieces + [piece]) == Jar(pieces)
  {
    assert (pieces + [piece])[..|pieces|] == pieces;
    assert CookiePair(piece).None?;
  }

  /** A cookie's value keeps every `=` after the first one. */
  lemma ValueKeepsEquals(name: string, value: string)
    requires name != [] && !IsPySpace(name[0]) && !IsPySpace(name[|name| - 1]) && '=' !in name
    requires value != [] && !IsPySpace(value[0]) && !IsPySpace(value[|value| - 1])
    ensures CookiePair(name + "=" + value) == Some((name, value))
  {
    var piece := name + "=" + value;
    assert piece[0] == name[0] && piece[|piece| - 1] == value[|value| - 1];
    StripKeepsInner(piece);
    assert IndexOf(piece, '=') == |name| by {
      assert piece[|name|] == '=';
      assert forall j :: 0 <= j < |name| ==> piece[j] == name[j];
    }
    assert Before(piece, '=') == name;
    assert After(piece, '=') == value;
    StripKeepsInner(name);
    StripKeepsInner(value);
  }

  lemma JarStep(pieces: seq<string>, i: nat)
    requires i < |pieces|
    ensures Jar(pieces[..i + 1]) == Set(Jar(pieces[..i]), CookiePair(pieces[i]))
  {
    assert pieces[..i + 1][..i] == pieces[..i];
    assert pieces[..i + 1][i] == pieces[i];
  }

  /** The loop of `get_cookie` that fills the `cookies` dictionary. */
  method ReadJar(pieces: seq<string>) returns (cookies: map<string, string>)
    ensures cookies == Jar(pieces)
  {
    cookies := map[];
    var i := 0;
    while i < |pieces|
      invariant 0 <= i <= |pieces|
      invariant cookies == Jar(pieces[..i])
    {
      JarStep(pieces, i);
      var cookie := CookiePair(pieces[i]);
      if cookie.Some? {
        cookies := cookies[cookie.value.0 := cookie.value.1];
      }
      i := i + 1;
    }
    assert pieces[..|pieces|] == pieces;
  }

  /** `get_cookie(name)` on the `Cookie` header (`''` when absent). */
  method GetCookie(header: string, name: string) returns (r: Option<string>)
    ensures r == LastValue(Split(header, ';'), name)
  {
    var cookies := ReadJar(Split(header, ';'));
    JarIsLastValue(Split(header, ';'), name);
    r := if name in cookies then Some(cookies[name]) else None;
  }

  // --------------------------------------------------------------- sessions

  datatype Session = Session(username: string, createdAt: int, expiresAt: int, clientIp: string, lastActivity: int)

  /** Sessions last four hours. */
  const SessionSeconds: int := 4 * 3600

  /**
   * `get_session`: the session found (if any) and the session map afterwards.
   * An expired session, or one stored with a non-empty IP other than the
   * caller's, is deleted; otherwise only its `lastActivity` moves to `now`.
   */
  function CheckSession(ss: map<string, Session>, id: string, now: int, ip: string): (r: (Option<Session>, map<string, Session>))
    ensures id !in ss ==> r == (None, ss)
    ensures id in ss && (now > ss[id].expiresAt || (ss[id].clientIp != "" && ss[id].clientIp != ip)) ==>
      r.0.None? && r.1 == ss - {id}
    ensures r.0.Some? ==>
      id in ss && r.1.Keys == ss.Keys && r.0.value == ss[id].(lastActivity := now) && r.1[id] == r.0.value
      && now <= ss[id].expiresAt && (ss[id].clientIp == "" || ss[id].clientIp == ip)
    ensures forall k :: k in ss && k != id ==> k in r.1 && r.1[k] == ss[k]
    ensures r.1.Keys <= ss.Keys
  {
    if id !in ss then (None, ss)
    else
      var s := ss[id];
      if now > s.expiresAt then (None, ss - {id})
      else if s.clientIp != "" && s.clientIp != ip then (None, ss - {id})
      else (Some(s.(lastActivity := now)), ss[id := s.(lastActivity := now)])
  }

  /** A fresh session is accepted from its own address until it expires, and refused one second later. */
  lemma FreshSessionLifetime(ss: map<string, Session>, token: string, username: string, created: int, ip: string, now: int)
    requires created <= now
    ensures var ss2 := ss[token := Session(username, created, created + SessionSeconds, ip, created)];
            (now <= created + SessionSeconds ==> CheckSession(ss2, token, now, ip).0.Some?)
            && (now > created + SessionSeconds ==>
                  CheckSession(ss2, token, now, ip).0.None? && token !in CheckSession(ss2, token, now, ip).1)
  {
  }

  /** Activity does not extend a session: checking it leaves its expiry where it was. */
  lemma CheckKeepsExpiry(ss: map<string, Session>, id: string, now: int, ip: string)
    requires CheckSession(ss, id, now, ip).0.Some?
    ensures CheckSession(ss, id, now, ip).1[id].expiresAt == ss[id].expiresAt
  {
  }

  /** The outcome of `handle_login`: the status and, on success, the user let in. */
  datatype LoginReply = LoginReply(status: int, user: Option<string>)

  /** What `handle_login` makes of the body's fields before it consults the user table. */
  datatype Screened = Refused(status: int) | Admitted(username: string)

  /**
   * The name and password checks of `handle_login`: a refusal (400 for a
   * name or password the rules reject, 500 where the source raises), or the
   * stripped name to look up.
   */
  function Screen(fields: map<string, Json>): (r: Screened)
    ensures r.Refused? ==> r.status == 400 || r.status == 500
    ensures r.Admitted? ==>
      ValidUsername(r.username) && "password" in fields && fields["password"].JStr?
      && ValidPassword(fields["password"].s)
  {
    var name := if "username" in fields then fields["username"] else JStr("");
    var password := if "password" in fields then fields["password"] else JStr("");
    if !name.JStr? then Refused(500)                             // .strip on a non-str
    else
      var username := Strip(name.s);
      if !ValidUsername(username) then Refused(400)
      else
        match PasswordCheck(password)
        case None => Refused(500)
        case Some(false) => Refused(400)
        case Some(true) => Admitted(username)
  }

  /**
   * The body's fields get past the checks exactly when the stripped
   * `username` is valid and `password` is a string the password rule
   * accepts; the name let through is that stripped name.
   */
  lemma ScreenAdmitsExactly(fields: map<string, Json>)
    ensures Screen(fields).Admitted? <==>
      "username" in fields && fields["username"].JStr? && ValidUsername(Strip(fields["username"].s))
      && "password" in fields && fields["password"].JStr? && ValidPassword(fields["password"].s)
    ensures Screen(fields).Admitted? ==> Screen(fields).username == Strip(fields["username"].s)
  {
    if "username" !in fields {
      assert Strip("") == "";
    }
  }

  /**
   * The account checks of `handle_login` for a name that passed `Screen`.
   * `passwordOk` is what `verify_password` answers for the stored hash.
   */
  function Account(username: string, users: map<string, Json>, passwordOk: bool): (r: LoginReply)
    ensures r.status == 200 || r.status == 401 || r.status == 500
    ensures r.status == 200 <==> r.user.Some?
    ensures r.status == 200 ==> r.user == Some(username)
    ensures r.status == 200 <==>
      username in users && users[username].JObj? && "password_hash" in users[username].fields && passwordOk
    ensures r.status == 500 <==>
      username in users && Payload.PyTruthy(users[username])
      && !(users[username].JObj? && "password_hash" in users[username].fields)
  {
    if username !in users || !Payload.PyTruthy(users[username]) then LoginReply(401, None)
    else
      var user := users[username];
      if !user.JObj? || "password_hash" !in user.fields then LoginReply(500, None)
      else if !passwordOk then LoginReply(401, None)
      else LoginReply(200, Some(username))
  }

  /**
   * `handle_login` up to creating the session. The name is checked with
   * the corrected `ValidUsername`, which on a stripped name agrees with the
   * check as written (`StrippedNameUnaffected`).
   */
  function Login(length: Option<int>, body: Payload.Body, users: map<string, Json>, passwordOk: bool): LoginReply
  {
    if length.None? then LoginReply(500, None)
    else
      match body
      case NotUtf8 => LoginReply(500, None)
      case NotJson => LoginReply(400, None)
      case Parsed(d) =>
        if !d.JObj? then LoginReply(500, None)                   // .get on a non-dict
        else
          match Screen(d.fields)
          case Refused(status) => LoginReply(status, None)
          case Admitted(username) => Account(username, users, passwordOk)
  }

  /** A malformed username, then a malformed password, is refused with 400 whatever the user table holds. */
  lemma LoginValidatesFirst(length: Option<int>, d: Json, users1: map<string, Json>, users2: map<string, Json>,
                            ok1: bool, ok2: bool)
    requires length.Some? && d.JObj?
    requires Login(length, Payload.Parsed(d), users1, ok1).status == 400
    ensures Login(length, Payload.Parsed(d), users2, ok2).status == 400
  {
  }

  /** Only a valid name and a valid password can log in, and only as a user the table holds. */
  lemma LoginNeedsValidInput(length: Option<int>, body: Payload.Body, users: map<string, Json>, ok: bool)
    requires Login(length, body, users, ok).status == 200
    ensures body.Parsed? && body.doc.JObj? && "password" in body.doc.fields
    ensures var u := Login(length, body, users, ok).user;
            u.Some? && ValidUsername(u.value) && u.value in users && ok
    ensures ValidPassword(body.doc.fields["password"].s)
  {
  }

  /** The seeded `project_manager` account, whose password is `123456`, can never log in: the password rule refuses it first. */
  lemma DefaultAccountLocked(length: Option<int>, d: Json, users: map<string, Json>, ok: bool)
    requires d.JObj? && "password" in d.fields && d.fields["password"] == JStr("123456")
    ensures Login(length, Payload.Parsed(d), users, ok).status != 200
  {
    DefaultPasswordRejected();
  }

  /** The contents of `sessions.json`. */
  class SessionFile {
    var sessions: map<string, Session>

    constructor (initial: map<string, Session>)
      ensures sessions == initial
    {
      sessions := initial;
    }

    /** `get_session`. */
    method GetSession(id: string, now: int, ip: string) returns (r: Option<Session>)
      modifies this
      ensures (r, sessions) == CheckSession(old(sessions), id, now, ip)
    {
      if id !in sessions {
        return None;
      }
      var s := sessions[id];
      if now > s.expiresAt {
        sessions := sessions - {id};
        return None;
      }
      if s.clientIp != "" && s.clientIp != ip {
        sessions := sessions - {id};
        return None;
      }
      s := s.(lastActivity := now);
      sessions := sessions[id := s];
      r := Some(s);
    }

    /** `create_session`: `token` stands for `secrets.token_urlsafe(32)`. */
    method CreateSession(username: string, token: string, now: int, ip: string)
      modifies this
      ensures sessions == old(sessions)[token := Session(username, now, now + SessionSeconds, ip, now)]
      ensures sessions[token].expiresAt == now + 4 * 3600
    {
      sessions := sessions[token := Session(username, now, now + SessionSeconds, ip, now)];
    }

    /** `delete_session`: only that key goes. */
    method DeleteSession(id: string)
      modifies this
      ensures sessions == old(sessions) - {id}
      ensures forall k :: k in old(sessions) && k != id ==> k in sessions && sessions[k] == old(sessions)[k]
    {
      if id in sessions {
        sessions := sessions - {id};
      }
    }

    /** `get_current_user`: the `session_id` cookie, its session, and that user's record. */
    method GetCurrentUser(header: string, now: int, ip: string, users: map<string, Json>) returns (user: Option<Json>)
      modifies this
      ensures var id := LastValue(Split(header, ';'), "session_id");
              (id.None? || id.value == "" ==> user.None? && sessions == old(sessions))
              && (id.Some? && id.value != "" ==>
                    (var (s, after) := CheckSession(old(sessions), id.value, now, ip);
                     sessions == after
                     && user == (if s.Some? && s.value.username in users then Some(users[s.value.username]) else None)))
    {
      var id := GetCookie(header, "session_id");
      if id.None? || id.value == "" {
        return None;
      }
      var s := GetSession(id.value, now, ip);
      if s.Some? && s.value.username in users {
        user := Some(users[s.value.username]);
      } else {
        user := None;
      }
    }

    /** `handle_login`: a 200 creates the session for the user let in. */
    method HandleLogin(length: Option<int>, body: Payload.Body, users: map<string, Json>, passwordOk: bool,
                       token: string, now: int, ip: string) returns (reply: LoginReply)
      modifies this
      ensures reply == Login(length, body, users, passwordOk)
      ensures reply.status == 200 ==>
        sessions == old(sessions)[token := Session(reply.user.value, now, now + SessionSeconds, ip, now)]
      ensures reply.status != 200 ==> sessions == old(sessions)
    {
      reply := Login(length, body, users, passwordOk);
      if reply.status == 200 {
        CreateSession(reply.user.value, token, now, ip);
      }
    }

    /** `handle_logout`: the presented session goes, the others stay. */
    method HandleLogout(header: string)
      modifies this
      ensures var id := LastValue(Split(header, ';'), "session_id");
              sessions == if id.Some? && id.value != "" then old(sessions) - {id.value} else old(sessions)
    {
      var id := GetCookie(header, "session_id");
      if id.Some? && id.value != "" {
        DeleteSession(id.value);
      }
    }

    /** `handle_save_data`: without a current user 401 and nothing written; otherwise the shared handler. */
    method HandleSaveData(header: string, now: int, ip: string, users: map<string, Json>,
                          length: Option<int>, body: Payload.Body) returns (reply: Payload.Reply)
      modifies this
      ensures var id := LastValue(Split(header, ';'), "session_id");
              var user := if id.Some? && id.value != "" then
                            (var s := CheckSession(old(sessions), id.value, now, ip).0;
                             if s.Some? && s.value.username in users then Some(users[s.value.username]) else None)
                          else None;
              reply == if user.Some? && Payload.PyTruthy(user.value) then Payload.Respond(length, body)
                       else Payload.Reply(401, [])
    ensures var id := LastValue(Split(header, ';'), "session_id");
            sessions == if id.Some? && id.value != "" then CheckSession(old(sessions), id.value, now, ip).1
                        else old(sessions)
    {
      var user := GetCurrentUser(header, now, ip, users);
      if user.None? || !Payload.PyTruthy(user.value) {
        return Payload.Reply(401, []);
      }
      reply := Payload.HandleSaveData(length, body);
    }
  }
}
