/**
 * The authenticating server (auth_server.py): its global session table with
 * a one-hour expiry that each successful check renews, the IP check, the
 * sweep of expired sessions, logout, and the authenticated save. Time is an
 * integer count of seconds; tokens and the client address are inputs.
 */
module AuthServer {
  import opened Js
  import opened Text
  import Payload

  datatype AuthSession = AuthSession(username: string, created: int, expires: int, ip: string)

  const SessionSeconds: int := 3600

  // ---------------------------------------------------------------- cookies

  /** `item.strip().split('=', 1)` for an item holding `=`; key and value are not stripped again. */
  function Pair(item: string): Option<(string, string)>
  {
    if '=' in item then Some((Before(Strip(item), '='), After(Strip(item), '='))) else None
  }

  /** The `cookies` dictionary built from the items of the header, the later item winning. */
  function Cookies(items: seq<string>): map<string, string>
    decreases |items|
  {
    if items == [] then map[] else Set(Cookies(items[..|items| - 1]), Pair(items[|items| - 1]))
  }

  lemma CookiesStep(items: seq<string>, i: nat)
    requires i < |items|
    ensures Cookies(items[..i + 1]) == Set(Cookies(items[..i]), Pair(items[i]))
  {
    assert items[..i + 1][..i] == items[..i];
    assert items[..i + 1][i] == items[i];
  }

  /**
   * An item splits at its first `=` and only its outer ends are trimmed: spaces
   * around the `=` stay in the key and in the value.
   */
  lemma PairKeepsInnerSpaces(name: string, value: string)
    requires name != [] && !IsPySpace(name[0]) && '=' !in name
    requires value != [] && !IsPySpace(value[|value| - 1])
    ensures Pair(name + "=" + value) == Some((name, value))
  {
    var item := name + "=" + value;
    assert item[0] == name[0] && item[|item| - 1] == value[|value| - 1];
    StripKeepsInner(item);
    assert IndexOf(item, '=') == |name| by {
      assert item[|name|] == '=';
      assert forall j :: 0 <= j < |name| ==> item[j] == name[j];
    }
    assert item[..|name|] == name;
    assert item[|name| + 1..] == value;
  }

  /** Unlike `get_cookie` of the session-file server, a space after `=` stays in the value. */
  lemma ValueNotStripped()
    ensures Pair("a= b") == Some(("a", " b"))
  {
    PairKeepsInnerSpaces("a", " b");
    assert "a" + "=" + " b" == "a= b";
  }

  /** The cookie parsing loop. */
  method ParseCookies(header: string) returns (cookies: map<string, string>)
    ensures cookies == Cookies(Split(header, ';'))
  {
    var items := Split(header, ';');
    cookies := map[];
    var i := 0;
    while i < |items|
      invariant 0 <= i <= |items|
      invariant cookies == Cookies(items[..i])
    {
      CookiesStep(items, i);
      if '=' in items[i] {
        var item := Strip(items[i]);
        cookies := cookies[Before(item, '=') := After(item, '=')];
      }
      i := i + 1;
    }
    assert items[..|items|] == items;
  }

  /** `cookies.get('session_token')` for a present, non-empty `Cookie` header. */
  function Token(header: string): Option<string>
  {
    var jar := Cookies(Split(header, ';'));
    if "session_token" in jar then Some(jar["session_token"]) else None
  }

  // --------------------------------------------------------------- sessions

  /** Why `is_authenticated` answers as it does, in the order it checks. */
  datatype Verdict = NoCookie | NoToken | UnknownToken | Expired | OtherAddress | Authenticated

  /**
   * `is_authenticated` on the session table: the verdict and the table
   * afterwards. `header` is the `Cookie` header, `None` when absent.
   */
  function Check(ss: map<string, AuthSession>, header: Option<string>, now: int, ip: string): (r: (Verdict, map<string, AuthSession>))
    ensures r.0 == NoCookie <==> header.None? || header.value == ""
    ensures r.0 in {NoCookie, NoToken, UnknownToken} ==> r.1 == ss
    ensures r.0 in {Expired, OtherAddress, Authenticated} ==>
      header.Some? && Token(header.value).Some? && Token(header.value).value in ss
    ensures r.0 in {Expired, OtherAddress} ==> r.1 == ss - {Token(header.value).value}
    ensures r.0 == Authenticated ==>
      var t := Token(header.value).value;
      t in ss && r.1 == ss[t := ss[t].(expires := now + SessionSeconds)]
      && now <= ss[t].expires && ss[t].ip == ip
    ensures r.0 != NoCookie ==>
      var t := Token(header.value);
      (r.0 == NoToken <==> t.None? || t.value == "")
      && (r.0 == UnknownToken <==> t.Some? && t.value != "" && t.value !in ss)
      && (r.0 == Expired <==> t.Some? && t.value != "" && t.value in ss && now > ss[t.value].expires)
  {
    if header.None? || header.value == "" then (NoCookie, ss)
    else
      var t := Token(header.value);
      if t.None? || t.value == "" then (NoToken, ss)
      else if t.value !in ss then (UnknownToken, ss)
      else if now > ss[t.value].expires then (Expired, ss - {t.value})
      else if ss[t.value].ip != ip then (OtherAddress, ss - {t.value})
      else (Authenticated, ss[t.value := ss[t.value].(expires := now + SessionSeconds)])
  }

  /** Whatever the verdict, only the presented session may change; every other one is kept as it was. */
  lemma CheckTouchesOnlyToken(ss: map<string, AuthSession>, header: Option<string>, now: int, ip: string, k: string)
    requires k in ss
    requires header.None? || header.value == "" || Token(header.value) != Some(k)
    ensures k in Check(ss, header, now, ip).1 && Check(ss, header, now, ip).1[k] == ss[k]
  {
  }

  /** The expiry slides: after a successful check, the same client is let in for another hour. */
  lemma SlidingExpiry(ss: map<string, AuthSession>, header: string, now: int, later: int, ip: string)
    requires Check(ss, Some(header), now, ip).0 == Authenticated
    requires now <= later <= now + SessionSeconds
    ensures Check(Check(ss, Some(header), now, ip).1, Some(header), later, ip).0 == Authenticated
  {
  }

  /** A session created at `created` admits its own address until `created + 3600` and no later. */
  lemma FreshSession(ss: map<string, AuthSession>, header: string, username: string, created: int, now: int, ip: string)
    requires Token(header).Some? && Token(header).value != "" && header != ""
    ensures var ss2 := ss[Token(header).value := AuthSession(username, created, created + SessionSeconds, ip)];
            Check(ss2, Some(header), now, ip).0 == (if now <= created + SessionSeconds then Authenticated else Expired)
  {
  }

  /** The sessions a sweep at `now` keeps. */
  function Live(ss: map<string, AuthSession>, now: int): (r: map<string, AuthSession>)
    ensures forall t :: t in r <==> t in ss && now <= ss[t].expires
    ensures forall t :: t in r ==> r[t] == ss[t]
  {
    map t | t in ss && now <= ss[t].expires :: ss[t]
  }

  /** Sweeping twice at the same time removes nothing more. */
  lemma LiveIdempotent(ss: map<string, AuthSession>, now: int)
    ensures Live(Live(ss, now), now) == Live(ss, now)
  {
  }

  /** A session just renewed by a check survives a sweep at that time. */
  lemma RenewedSurvivesSweep(ss: map<string, AuthSession>, header: string, now: int, ip: string)
    requires Check(ss, Some(header), now, ip).0 == Authenticated
    ensures Token(header).value in Live(Check(ss, Some(header), now, ip).1, now)
  {
  }

  /** The global `sessions` dictionary. */
  class Sessions {
    var sessions: map<string, AuthSession>

    constructor ()
      ensures sessions == map[]
    {
      sessions := map[];
    }

    /** `create_session`: `token` stands for `secrets.token_urlsafe(32)`. */
    method CreateSession(username: string, token: string, now: int, ip: string)
      modifies this
      ensures sessions == old(sessions)[token := AuthSession(username, now, now + SessionSeconds, ip)]
    {
      sessions := sessions[token := AuthSession(username, now, now + SessionSeconds, ip)];
    }

    /** `is_authenticated`. */
    method IsAuthenticated(header: Option<string>, now: int, ip: string) returns (ok: bool)
      modifies this
      ensures (ok, sessions) == (Check(old(sessions), header, now, ip).0 == Authenticated, Check(old(sessions), header, now, ip).1)
    {
      if header.None? || header.value == "" {
        return false;
      }
      var cookies := ParseCookies(header.value);
      if "session_token" !in cookies || cookies["session_token"] == "" {
        return false;
      }
      var token := cookies["session_token"];
      if token !in sessions {
        return false;
      }
      var session := sessions[token];
      if now > session.expires {
        sessions := sessions - {token};
        return false;
      }
      if session.ip != ip {
        sessions := sessions - {token};
        return false;
      }
      sessions := sessions[token := session.(expires := now + SessionSeconds)];
      ok := true;
    }

    /** `get_current_user`: the session's user, with no expiry or address check. */
    method CurrentUser(header: Option<string>) returns (user: Option<string>)
      ensures header.None? || header.value == "" ==> user.None?
      ensures header.Some? && header.value != "" ==>
        user == (var t := Token(header.value);
                 if t.Some? && t.value in sessions then Some(sessions[t.value].username) else None)
    {
      if header.None? || header.value == "" {
        return None;
      }
      var cookies := ParseCookies(header.value);
      if "session_token" in cookies && cookies["session_token"] in sessions {
        user := Some(sessions[cookies["session_token"]].username);
      } else {
        user := None;
      }
    }

    /** `handle_logout`: the presented token is dropped if the table holds it. */
    method HandleLogout(header: Option<string>)
      modifies this
      ensures sessions == if header.Some? && header.value != "" && Token(header.value).Some?
                             && Token(header.value).value in old(sessions)
                          then old(sessions) - {Token(header.value).value} else old(sessions)
    {
      if header.Some? && header.value != "" {
        var cookies := ParseCookies(header.value);
        if "session_token" in cookies && cookies["session_token"] in sessions {
          sessions := sessions - {cookies["session_token"]};
        }
      }
    }

    /** `cleanup_expired_sessions`: collect the expired tokens, then delete them. */
    method CleanupExpiredSessions(now: int)
      modifies this
      ensures sessions == Live(old(sessions), now)
    {
      var expired: set<string> := {};
      var unseen := sessions.Keys;
      while unseen != {}
        invariant unseen <= sessions.Keys
        invariant forall t :: t in expired <==> t in sessions && t !in unseen && now > sessions[t].expires
        decreases unseen
      {
        var t :| t in unseen;
        if now > sessions[t].expires {
          expired := expired + {t};
        }
        unseen := unseen - {t};
      }
      var pending := expired;
      while pending != {}
        invariant pending <= expired
        invariant sessions == old(sessions) - (expired - pending)
        decreases pending
      {
        var t :| t in pending;
        sessions := sessions - {t};
        pending := pending - {t};
      }
      assert sessions == Live(old(sessions), now);
    }

    /** `/api/save`: without authentication a redirect to the login page and nothing written. */
    method HandleSaveData(header: Option<string>, now: int, ip: string, length: Option<int>, body: Payload.Body)
      returns (reply: Payload.Reply)
      modifies this
      ensures sessions == Check(old(sessions), header, now, ip).1
      ensures reply == if Check(old(sessions), header, now, ip).0 == Authenticated then Payload.Respond(length, body)
                       else Payload.Reply(302, [])
    {
      var ok := IsAuthenticated(header, now, ip);
      if !ok {
        return Payload.Reply(302, []);
      }
      reply := Payload.HandleSaveData(length, body);
    }
  }
}
