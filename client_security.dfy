/** The browser-side session helpers of js/security.js: the login-state checks
    over session and local storage, the token getters, the two logout
    handlers, and the form sanitiser with the HTML escaping it relies on.
    Storage is a map from key to stored string; a form is a map from field
    name to value. */
module ClientSecurity {
  import opened Common

  /** `storage.getItem(key)`: the stored string, or null. */
  function GetItem(store: map<string, string>, key: string): (r: Option<string>)
    ensures r.Some? <==> key in store
    ensures r.Some? ==> r.value == store[key]
  {
    if key in store then Some(store[key]) else None
  }

  /** checkAdminAuth: the session flag and the admin token are both set to a
      non-empty string. */
  function CheckAdminAuth(session: map<string, string>, local: map<string, string>): (ok: bool)
    ensures ok <==> "adminLoggedIn" in session && session["adminLoggedIn"] != "" &&
                    "adminAuthToken" in local && local["adminAuthToken"] != ""
  {
    Truthy(GetItem(session, "adminLoggedIn")) && Truthy(GetItem(local, "adminAuthToken"))
  }

  /** checkUserAuth: the user's session flag and token are both set to a
      non-empty string. */
  function CheckUserAuth(session: map<string, string>, local: map<string, string>): (ok: bool)
    ensures ok <==> "userLoggedIn" in session && session["userLoggedIn"] != "" &&
                    "authToken" in local && local["authToken"] != ""
  {
    Truthy(GetItem(session, "userLoggedIn")) && Truthy(GetItem(local, "authToken"))
  }

  /** getAuthToken: the user's token when it is set and non-empty, otherwise
      whatever is stored as the admin token. */
  function GetAuthToken(local: map<string, string>): (t: Option<string>)
    ensures "authToken" in local && local["authToken"] != "" ==> t == Some(local["authToken"])
    ensures !("authToken" in local && local["authToken"] != "") ==> t == GetItem(local, "adminAuthToken")
  {
    OrElse(GetItem(local, "authToken"), GetItem(local, "adminAuthToken"))
  }

  /** getAdminAuthToken: the stored admin token, or null. */
  function GetAdminAuthToken(local: map<string, string>): (t: Option<string>)
    ensures t.Some? <==> "adminAuthToken" in local
    ensures t.Some? ==> t.value == local["adminAuthToken"]
  {
    GetItem(local, "adminAuthToken")
  }

  /** A signed-in user always gets their own token; a page where only an
      administrator is signed in gets the admin token. */
  lemma SignedInTokens(session: map<string, string>, local: map<string, string>)
    ensures CheckUserAuth(session, local) ==> GetAuthToken(local) == Some(local["authToken"])
    ensures CheckAdminAuth(session, local) && "authToken" !in local ==>
              GetAuthToken(local) == GetAdminAuthToken(local) && GetAuthToken(local).Some?
  {
  }

  const UserSessionKeys: set<string> := {"userLoggedIn", "username"}
  const UserLocalKeys: set<string> := {"authToken", "userData"}
  const AdminSessionKeys: set<string> := {"adminLoggedIn", "adminUsername"}
  const AdminLocalKeys: set<string> := {"adminAuthToken", "adminUserData"}

  /** Removing the user's keys ends the user's session and leaves an
      administrator session as it was; removing the admin keys does the
      converse. */
  lemma LogoutsAreSeparate(session: map<string, string>, local: map<string, string>)
    ensures !CheckUserAuth(session - UserSessionKeys, local - UserLocalKeys)
    ensures CheckAdminAuth(session - UserSessionKeys, local - UserLocalKeys) == CheckAdminAuth(session, local)
    ensures !CheckAdminAuth(session - AdminSessionKeys, local - AdminLocalKeys)
    ensures CheckUserAuth(session - AdminSessionKeys, local - AdminLocalKeys) == CheckUserAuth(session, local)
  {
    assert "adminLoggedIn" !in UserSessionKeys && "adminAuthToken" !in UserLocalKeys;
    assert "userLoggedIn" !in AdminSessionKeys && "authToken" !in AdminLocalKeys;
  }

  /** The browser's session storage and local storage. */
  class BrowserStorage {
    var session: map<string, string>
    var local: map<string, string>

    constructor (session: map<string, string>, local: map<string, string>)
      ensures this.session == session && this.local == local
    {
      this.session := session;
      this.local := local;
    }

    /** handleUserLogout; `confirmed` is the answer to the confirmation dialog. */
    method HandleUserLogout(confirmed: bool)
      modifies this
      ensures confirmed ==> session == old(session) - UserSessionKeys && local == old(local) - UserLocalKeys
      ensures confirmed ==> !CheckUserAuth(session, local) &&
                            CheckAdminAuth(session, local) == old(CheckAdminAuth(session, local))
      ensures !confirmed ==> session == old(session) && local == old(local)
    {
      if confirmed {
        LogoutsAreSeparate(session, local);
        session := session - {"userLoggedIn"};
        session := session - {"username"};
        local := local - {"authToken"};
        local := local - {"userData"};
        assert session == old(session) - UserSessionKeys;
        assert local == old(local) - UserLocalKeys;
      }
    }

    /** handleAdminLogout. */
    method HandleAdminLogout(confirmed: bool)
      modifies this
      ensures confirmed ==> session == old(session) - AdminSessionKeys && local == old(local) - AdminLocalKeys
      ensures confirmed ==> !CheckAdminAuth(session, local) &&
                            CheckUserAuth(session, local) == old(CheckUserAuth(session, local))
      ensures !confirmed ==> session == old(session) && local == old(local)
    {
      if confirmed {
        LogoutsAreSeparate(session, local);
        session := session - {"adminLoggedIn"};
        session := session - {"adminUsername"};
        local := local - {"adminAuthToken"};
        local := local - {"adminUserData"};
        assert session == old(session) - AdminSessionKeys;
        assert local == old(local) - AdminLocalKeys;
      }
    }
  }

  // ---------------------------------------------------------------------------
  // sanitizeInput: text written as textContent and read back as innerHTML

  const NoBreakSpace: char := 0xA0 as char

  /** How the HTML serialiser writes one character of a text node. */
  function EscapeChar(c: char): string {
    if c == '&' then "&amp;"
    else if c == '<' then "&lt;"
    else if c == '>' then "&gt;"
    else if c == NoBreakSpace then "&nbsp;"
    else [c]
  }

  /** sanitizeInput: the text with `&`, `<`, `>` and the no-break space
      written as character references. No markup can survive it. */
  function EscapeText(s: string): (r: string)
    ensures '<' !in r && '>' !in r
    ensures |r| >= |s|
  {
    if s == [] then [] else EscapeChar(s[0]) + EscapeText(s[1..])
  }

  /** Decoding the four character references EscapeText produces. */
  function Unescape(s: string): string
    decreases |s|
  {
    if s == [] then []
    else if |s| >= 5 && s[..5] == "&amp;" then "&" + Unescape(s[5..])
    else if |s| >= 4 && s[..4] == "&lt;" then "<" + Unescape(s[4..])
    else if |s| >= 4 && s[..4] == "&gt;" then ">" + Unescape(s[4..])
    else if |s| >= 6 && s[..6] == "&nbsp;" then [NoBreakSpace] + Unescape(s[6..])
    else [s[0]] + Unescape(s[1..])
  }

  lemma UnescapeChar(c: char, rest: string)
    ensures Unescape(EscapeChar(c) + rest) == [c] + Unescape(rest)
  {
    if c == '&' {
      UnescapeAmp(rest);
    } else if c == '<' {
      UnescapeLt(rest);
    } else if c == '>' {
      UnescapeGt(rest);
    } else if c == NoBreakSpace {
      UnescapeNbsp(rest);
    } else {
      UnescapePlain(c, rest);
    }
  }

  /** A character other than `&` starts no character reference. */
  lemma UnescapePlain(c: char, rest: string)
    requires c != '&'
    ensures Unescape([c] + rest) == [c] + Unescape(rest)
  {
    var s := [c] + rest;
    assert s[0] == c && s[1..] == rest;
    assert |s| >= 4 ==> s[..4][0] == c;
    assert |s| >= 5 ==> s[..5][0] == c;
    assert |s| >= 6 ==> s[..6][0] == c;
  }

  lemma UnescapeAmp(rest: string)
    ensures Unescape("&amp;" + rest) == "&" + Unescape(rest)
  {
    var s := "&amp;" + rest;
    assert s[..5] == "&amp;" && s[5..] == rest;
  }

  lemma UnescapeLt(rest: string)
    ensures Unescape("&lt;" + rest) == "<" + Unescape(rest)
  {
    var s := "&lt;" + rest;
    assert s[1] == 'l';
    assert s[..4] == "&lt;" && s[4..] == rest;
  }

  lemma UnescapeGt(rest: string)
    ensures Unescape("&gt;" + rest) == ">" + Unescape(rest)
  {
    var s := "&gt;" + rest;
    assert s[1] == 'g';
    assert s[..4] == "&gt;" && s[4..] == rest;
  }

  lemma UnescapeNbsp(rest: string)
    ensures Unescape("&nbsp;" + rest) == [NoBreakSpace] + Unescape(rest)
  {
    var s := "&nbsp;" + rest;
    assert s[1] == 'n';
    assert s[..6] == "&nbsp;" && s[6..] == rest;
  }

  /** Escaping loses nothing: decoding the sanitised text gives the input back. */
  lemma {:induction false} EscapeRoundTrip(s: string)
    ensures Unescape(EscapeText(s)) == s
  {
    if s != [] {
      UnescapeChar(s[0], EscapeText(s[1..]));
      EscapeRoundTrip(s[1..]);
      assert [s[0]] + s[1..] == s;
    }
  }

  /** Text without the four special characters passes through unchanged. */
  lemma {:induction false} EscapePlainText(s: string)
    requires forall i :: 0 <= i < |s| ==> s[i] != '&' && s[i] != '<' && s[i] != '>' && s[i] != NoBreakSpace
    ensures EscapeText(s) == s
  {
    if s != [] {
      EscapePlainText(s[1..]);
      assert [s[0]] + s[1..] == s;
    }
  }

  /** sanitizeFormData on one value: strings are escaped, other values kept. */
  function SanitizeValue(v: JsValue): JsValue {
    if v.JStr? then JStr(EscapeText(v.s)) else v
  }

  /** sanitizeFormData: the same keys, every string value escaped and every
      other value unchanged. */
  method SanitizeFormData(form: map<string, JsValue>) returns (clean: map<string, JsValue>)
    ensures clean.Keys == form.Keys
    ensures forall k :: k in form ==> clean[k] == SanitizeValue(form[k])
    ensures forall k :: k in form && !form[k].JStr? ==> clean[k] == form[k]
  {
    clean := map[];
    var rest := form.Keys;
    while rest != {}
      invariant rest <= form.Keys
      invariant clean.Keys == form.Keys - rest
      invariant forall k :: k in clean ==> clean[k] == SanitizeValue(form[k])
      decreases rest
    {
      var k :| k in rest;
      var value := form[k];
      if value.JStr? {
        clean := clean[k := JStr(EscapeText(value.s))];
      } else {
        clean := clean[k := value];
      }
      rest := rest - {k};
    }
  }
}
