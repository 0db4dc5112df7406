/** The session store: one persisted slot, keyed 'user' in the browser's localStorage,
    holding the serialised reply of the last successful register or login. */
module AuthService {
  import opened JsValues
  import Config

  /** The body posted to `/api/auth/register`. */
  function RegisterBody(username: string, email: string, password: string): Json {
    JObj(map["username" := JStr(username), "email" := JStr(email), "password" := JStr(password)])
  }

  /** The body posted to `/api/auth/login`. */
  function LoginBody(email: string, password: string): Json {
    JObj(map["email" := JStr(email), "password" := JStr(password)])
  }

  /** `response.data.token` tested for truthiness; reading it throws when the reply body is `null`. */
  function HasToken(data: Json): (r: Outcome<bool>)
    ensures r.Thrown? <==> data == JNull
    ensures r.Thrown? ==> r.error == TypeError
    ensures r == Ok(true) <==> data.JObj? && "token" in data.fields && Truthy(data.fields["token"])
  {
    match GetProp(data, "token")
    case Thrown(e) => Thrown(e)
    case Ok(token) => Ok(PropTruthy(token))
  }

  /** What register and login leave behind, given axios's reply and the slot before the
      call: the slot afterwards and what the call returns or throws. */
  function AfterReply(reply: Outcome<Json>, slot: Option<string>, hasWindow: bool, codec: Codec)
    : (r: (Option<string>, Outcome<Json>))
    // a value is returned only when it is the reply's data, stored or not
    ensures r.1.Ok? ==> r.1 == reply
    // the slot changes only by saving the whole reply, and only under a truthy token
    ensures r.0 == slot || (reply.Ok? && HasToken(reply.value) == Ok(true) && r.0 == Some(codec.stringify(reply.value)))
    ensures reply.Ok? && HasToken(reply.value) == Ok(true) && hasWindow
      ==> r == (Some(codec.stringify(reply.value)), reply)
    ensures reply.Ok? && HasToken(reply.value) == Ok(false) ==> r == (slot, reply)
    // a failed post stores nothing and is passed on unchanged
    ensures reply.Thrown? ==> r == (slot, reply)
    // the only new failures: a `null` body, or a token to save with no storage present
    ensures reply.Ok? && r.1.Thrown? ==>
      && r.0 == slot
      && ((reply.value == JNull && r.1.error == TypeError) || (!hasWindow && r.1.error == ReferenceError("localStorage")))
  {
    match reply
    case Thrown(_) => (slot, reply)
    case Ok(data) =>
      match HasToken(data)
      case Thrown(e) => (slot, Thrown(e))
      case Ok(save) =>
        if !save then (slot, reply)
        else if hasWindow then (Some(codec.stringify(data)), reply)
        else (slot, Thrown(ReferenceError("localStorage")))
  }

  class SessionStore {
    /** `localStorage.getItem('user')`: the slot this store owns; `None` when the key is absent. */
    var slot: Option<string>
    /** `typeof window !== 'undefined'`; localStorage exists exactly when a window does. */
    const hasWindow: bool
    /** The JSON implementation. */
    const codec: Codec

    /** The store over whatever the browser has persisted, possibly written by something else. */
    constructor (persisted: Option<string>, hasWindow: bool, codec: Codec)
      ensures slot == persisted && this.hasWindow == hasWindow && this.codec == codec
    {
      slot := persisted;
      this.hasWindow := hasWindow;
      this.codec := codec;
    }

    /** The slot holds nothing, or a saved reply carrying a truthy token; register, login
        and logout never leave anything else in it. */
    ghost predicate Consistent()
      reads this
    {
      slot.None? || exists data :: slot == Some(codec.stringify(data)) && HasToken(data) == Ok(true)
    }

    /** `if (userStr)` after the window check: there is non-empty stored text to parse. */
    predicate Occupied()
      reads this
    {
      hasWindow && slot.Some? && slot.value != ""
    }

    /** `authService.register`: posts the credentials and saves the reply when it carries a token. */
    method Register(env: Option<string>, username: string, email: string, password: string,
                    post: (string, Json) -> Outcome<Json>)
      returns (r: Outcome<Json>)
      modifies this
      ensures (slot, r) == AfterReply(post(Config.BaseUrl(env) + "/api/auth/register",
                                           RegisterBody(username, email, password)),
                                      old(slot), hasWindow, codec)
      ensures old(Consistent()) ==> Consistent()
    {
      var reply := post(Config.BaseUrl(env) + "/api/auth/register", RegisterBody(username, email, password));
      r := SaveIfToken(reply);
    }

    /** `authService.login`: posts the credentials and saves the reply when it carries a token. */
    method Login(env: Option<string>, email: string, password: string, post: (string, Json) -> Outcome<Json>)
      returns (r: Outcome<Json>)
      modifies this
      ensures (slot, r) == AfterReply(post(Config.BaseUrl(env) + "/api/auth/login", LoginBody(email, password)),
                                      old(slot), hasWindow, codec)
      ensures old(Consistent()) ==> Consistent()
    {
      var reply := post(Config.BaseUrl(env) + "/api/auth/login", LoginBody(email, password));
      r := SaveIfToken(reply);
    }

    /** The tail shared by register and login: `if (response.data.token) localStorage.setItem(...)`,
        then `return response.data`. */
    method SaveIfToken(reply: Outcome<Json>) returns (r: Outcome<Json>)
      modifies this
      ensures (slot, r) == AfterReply(reply, old(slot), hasWindow, codec)
      ensures old(Consistent()) ==> Consistent()
    {
      if reply.Thrown? {
        return reply;
      }
      var data := reply.value;
      var token := GetProp(data, "token");
      if token.Thrown? {
        return Thrown(token.error);
      }
      if PropTruthy(token.value) {
        if !hasWindow {
          return Thrown(ReferenceError("localStorage"));
        }
        slot := Some(codec.stringify(data));
        assert HasToken(data) == Ok(true);
      }
      r := reply;
    }

    /** `authService.logout`: removes the slot, unconditionally. */
    method Logout() returns (r: Outcome<()>)
      modifies this
      ensures hasWindow ==> r == Ok(()) && slot == None
      ensures hasWindow ==> CurrentUser() == Ok(JNull) && AuthHeader() == Ok(map[])
      ensures !hasWindow ==> r == Thrown(ReferenceError("localStorage")) && slot == old(slot)
      ensures old(Consistent()) ==> Consistent()
    {
      if !hasWindow {
        return Thrown(ReferenceError("localStorage"));
      }
      slot := None;
      r := Ok(());
    }

    /** `authService.getCurrentUser`: the parsed slot, or `null` (JNull) when there is no
        window or the slot is absent or empty. Unparsable text is not caught. */
    function CurrentUser(): (r: Outcome<Json>)
      reads this
      ensures !Occupied() ==> r == Ok(JNull)
      ensures Occupied() ==> (r.Ok? <==> codec.parse(slot.value).Some?)
      ensures Occupied() && r.Ok? ==> codec.parse(slot.value) == Some(r.value)
      ensures r.Thrown? ==> r.error == SyntaxError
    {
      if Occupied() then Parse(codec, slot.value) else Ok(JNull)
    }

    /** `authService.getAuthHeader`: one `Authorization: Bearer <token>` entry derived from
        the slot, or no entry when there is nothing stored. */
    function AuthHeader(): (r: Outcome<map<string, string>>)
      reads this
      ensures r.Ok? ==> r.value.Keys <= {"Authorization"}
      ensures r == Ok(map[]) <==> !Occupied()
      // the header is derived from the very record getCurrentUser returns
      ensures CurrentUser().Thrown? ==> r == Thrown(SyntaxError)
      ensures Occupied() && CurrentUser() == Ok(JNull) ==> r == Thrown(TypeError)
      ensures Occupied() && CurrentUser().Ok? && CurrentUser().value != JNull ==>
        r == Ok(map["Authorization" := "Bearer " + PropString(GetProp(CurrentUser().value, "token").value)])
    {
      if Occupied() then
        match Parse(codec, slot.value)
        case Thrown(e) => Thrown(e)
        case Ok(user) =>
          match GetProp(user, "token")
          case Thrown(e) => Thrown(e)
          case Ok(token) =>
            var header := map["Authorization" := "Bearer " + PropString(token)];
            assert "Authorization" in header;
            Ok(header)
      else
        Ok(map[])
    }
  }

  /** After register or login saved a reply, getCurrentUser gives back a value equal to it. */
  lemma SavedReplyReadsBack(s: SessionStore, data: Json)
    requires Lawful(s.codec) && s.hasWindow
    requires s.slot == Some(s.codec.stringify(data))
    ensures s.CurrentUser() == Ok(data)
  {
  }

  /** After register or login saved a reply, getAuthHeader carries that reply's token. */
  lemma SavedReplyHeader(s: SessionStore, data: Json)
    requires Lawful(s.codec) && s.hasWindow
    requires s.slot == Some(s.codec.stringify(data)) && HasToken(data) == Ok(true)
    ensures s.AuthHeader() == Ok(map["Authorization" := "Bearer " + ToJsString(data.fields["token"])])
    ensures data.fields["token"].JStr? ==> s.AuthHeader() == Ok(map["Authorization" := "Bearer " + data.fields["token"].s])
  {
  }

  /** While only register, login and logout have written the slot, the readers never
      throw, and they agree: no user exactly when no header. A saved reply is never empty
      text (StringifiedNonEmpty), so a consistent slot holding one is always read. */
  lemma ConsistentStoreReadsCleanly(s: SessionStore)
    requires Lawful(s.codec) && s.Consistent()
    ensures s.CurrentUser().Ok? && s.AuthHeader().Ok?
    ensures s.CurrentUser() == Ok(JNull) <==> s.AuthHeader() == Ok(map[])
  {
  }

  /** Text that is not JSON in the slot makes both readers throw instead of reporting no session. */
  lemma CorruptSlotThrows(s: SessionStore)
    requires s.Occupied() && s.codec.parse(s.slot.value) == None
    ensures s.CurrentUser() == Thrown(SyntaxError)
    ensures s.AuthHeader() == Thrown(SyntaxError)
  {
  }
}
