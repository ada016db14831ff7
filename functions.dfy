/** The server side (functions/src/index.ts): the HTTP login endpoint that
    exchanges an identity-provider ID token for a session token, and the
    callable operations for profile read/update, account deletion, custom
    claims and mail relay.

    The identity provider and the mail transport are outside the model. The
    provider appears as its observable content (which ID tokens it accepts,
    which user records it holds) and every handler reports the provider calls
    it made, so "the provider is never asked" is a statement about that list.
    The mail transport appears as the reply it would give. */
module Functions {
  import opened Wrappers
  import opened JsValues
  import Text

  // ---------------------------------------------------------------------
  // Identity-provider records
  // ---------------------------------------------------------------------

  datatype Metadata = Metadata(creationTime: Option<string>, lastSignInTime: Option<string>)

  datatype ProviderInfo = ProviderInfo(providerId: string, uid: string)

  /** The fields of a provider user record that the handlers read and return. */
  datatype UserRecord = UserRecord(
    uid: string,
    email: Option<string>,
    phoneNumber: Option<string>,
    displayName: Option<string>,
    photoURL: Option<string>,
    emailVerified: bool,
    disabled: bool,
    metadata: Metadata,
    customClaims: Option<map<string, Value>>,
    providerData: seq<ProviderInfo>)

  /** Truthiness of an optional string field (`undefined` and `""` are falsy). */
  predicate Present(t: Option<string>) {
    t.Some? && t.value != ""
  }

  /** The user object the handlers send back: the record as it is, except that
      a missing last-sign-in time is filled in with the creation time
      (`lastSignInTime || creationTime`). */
  function Profile(rec: UserRecord): (p: UserRecord)
    ensures p.metadata.lastSignInTime ==
      if Present(rec.metadata.lastSignInTime) then rec.metadata.lastSignInTime
      else rec.metadata.creationTime
    ensures p.metadata.creationTime == rec.metadata.creationTime
    ensures p.uid == rec.uid && p.email == rec.email && p.phoneNumber == rec.phoneNumber
    ensures p.displayName == rec.displayName && p.photoURL == rec.photoURL
    ensures p.emailVerified == rec.emailVerified && p.disabled == rec.disabled
    ensures p.customClaims == rec.customClaims && p.providerData == rec.providerData
  {
    var m := rec.metadata;
    rec.(metadata := m.(lastSignInTime :=
      if Present(m.lastSignInTime) then m.lastSignInTime else m.creationTime))
  }

  /** Projecting twice is projecting once. */
  lemma ProfileIdempotent(rec: UserRecord)
    ensures Profile(Profile(rec)) == Profile(rec)
  {
    var m := rec.metadata;
    if !Present(m.lastSignInTime) && !Present(m.creationTime) {
      assert Profile(rec).metadata.lastSignInTime == m.creationTime;
    }
  }

  /** The projection changes a record exactly when its last-sign-in time is
      falsy and differs from its creation time. */
  lemma ProfileUnchangedIff(rec: UserRecord)
    ensures Profile(rec) == rec <==>
      Present(rec.metadata.lastSignInTime) || rec.metadata.lastSignInTime == rec.metadata.creationTime
  {
    if Profile(rec) == rec {
      assert Profile(rec).metadata.lastSignInTime == rec.metadata.lastSignInTime;
    }
  }

  /** An identity provider as the handlers observe it: the ID tokens it
      currently accepts (well-formed, correctly signed, unexpired) with the uid
      each one asserts, and the user records it holds, by uid. */
  datatype IdentityProvider = IdentityProvider(idTokens: map<string, string>, users: map<string, UserRecord>)

  /** A call made to the identity provider. */
  datatype ProviderCall =
    | VerifyIdToken(idToken: Value)
    | GetUser(uid: string)
    | UpdateUser(uid: string, properties: map<string, Value>)
    | DeleteUser(uid: string)
    | SetCustomUserClaims(target: Value, claims: Value)

  /** `verifyIdToken`: the uid asserted by an accepted token; anything that is
      not a string the provider accepts is rejected. */
  function Verify(idp: IdentityProvider, idToken: Value): (uid: Option<string>)
    ensures uid.Some? <==> idToken.Str? && idToken.s in idp.idTokens
    ensures uid.Some? ==> uid.value == idp.idTokens[idToken.s]
  {
    if idToken.Str? && idToken.s in idp.idTokens then Some(idp.idTokens[idToken.s]) else None
  }

  /** `getUser`: the record of an existing uid. */
  function Lookup(users: map<string, UserRecord>, uid: string): (rec: Option<UserRecord>)
    ensures rec.Some? <==> uid in users
    ensures rec.Some? ==> rec.value == users[uid]
  {
    if uid in users then Some(users[uid]) else None
  }

  // ---------------------------------------------------------------------
  // login (HTTP endpoint)
  // ---------------------------------------------------------------------

  /** Session lifetime: 24 hours, in seconds. */
  const SessionSeconds: int := 24 * 60 * 60

  /** The claims signed into the session token. */
  datatype SessionClaims = SessionClaims(uid: string, email: Option<string>, phoneNumber: Option<string>)

  /** What `jwt.sign(claims, secret, {expiresIn: "24h"})` is given; the signing
      itself and the secret are outside the model. */
  datatype AccessToken = AccessToken(claims: SessionClaims, expiresIn: string)

  datatype TokenResponse = TokenResponse(accessToken: AccessToken, expiresIn: int, user: UserRecord)

  datatype ApiResponse = ApiResponse(success: bool, message: string, data: Option<TokenResponse>, error: Option<string>)

  datatype HttpRequest = HttpRequest(httpMethod: string, body: Value)

  /** The HTTP status and JSON body sent back, with the provider calls made. */
  datatype Exchange = Exchange(status: int, response: ApiResponse, calls: seq<ProviderCall>)

  /** The `idToken` a request carries, `None` when its body cannot be
      destructured. */
  function IdTokenOf(req: HttpRequest): Option<Value> {
    Property(req.body, "idToken")
  }

  /** The request carries a token the provider accepts for a user it holds. */
  predicate Authenticates(idp: IdentityProvider, req: HttpRequest) {
    && IdTokenOf(req).Some?
    && Truthy(IdTokenOf(req).value)
    && Verify(idp, IdTokenOf(req).value).Some?
    && Verify(idp, IdTokenOf(req).value).value in idp.users
  }

  function Unauthorized(calls: seq<ProviderCall>): Exchange {
    Exchange(401, ApiResponse(false, "Login failed", None, Some("AUTHENTICATION_FAILED")), calls)
  }

  /** The login endpoint: method check (405), token presence (400),
      verification and lookup (401 on any failure), then 200 with a 24-hour
      session token for the fetched user. */
  function Login(req: HttpRequest, idp: IdentityProvider): (x: Exchange)
    ensures x.status in {200, 400, 401, 405}
    ensures req.httpMethod != "POST" ==>
      x.status == 405 && x.response.error == Some("METHOD_NOT_ALLOWED") && x.calls == []
    ensures req.httpMethod == "POST" && IdTokenOf(req).Some? && !Truthy(IdTokenOf(req).value) ==>
      x.status == 400 && x.response.error == Some("MISSING_TOKEN") && x.calls == []
    ensures x.status == 401 <==>
      (req.httpMethod == "POST" && !Authenticates(idp, req) && (IdTokenOf(req).None? || Truthy(IdTokenOf(req).value)))
    ensures x.status == 401 ==> x.response.error == Some("AUTHENTICATION_FAILED")
    ensures x.response.success <==> x.status == 200
    ensures x.response.data.Some? <==> x.status == 200
    ensures x.status == 200 <==> req.httpMethod == "POST" && Authenticates(idp, req)
    ensures x.status == 200 ==>
      var rec := idp.users[Verify(idp, IdTokenOf(req).value).value];
      && x.response.data.value.expiresIn == 86400
      && x.response.data.value.accessToken == AccessToken(SessionClaims(rec.uid, rec.email, rec.phoneNumber), "24h")
      && x.response.data.value.user == Profile(rec)
    // the provider is asked only for a present token, and for a user only once
    // the token has verified
    ensures x.calls != [] ==> req.httpMethod == "POST" && IdTokenOf(req).Some? && Truthy(IdTokenOf(req).value)
    ensures x.calls != [] ==> x.calls[0] == VerifyIdToken(IdTokenOf(req).value)
    ensures |x.calls| <= 2
    ensures |x.calls| == 2 ==>
      IdTokenOf(req).Some? && Verify(idp, IdTokenOf(req).value).Some? &&
      x.calls[1] == GetUser(Verify(idp, IdTokenOf(req).value).value)
  {
    if req.httpMethod != "POST" then
      Exchange(405, ApiResponse(false, "Method not allowed", None, Some("METHOD_NOT_ALLOWED")), [])
    else match IdTokenOf(req)
      // destructuring an undefined body throws inside the try block
      case None => Unauthorized([])
      case Some(idToken) =>
        if !Truthy(idToken) then
          Exchange(400, ApiResponse(false, "ID token is required", None, Some("MISSING_TOKEN")), [])
        else match Verify(idp, idToken)
          case None => Unauthorized([VerifyIdToken(idToken)])
          case Some(uid) =>
            match Lookup(idp.users, uid)
            case None => Unauthorized([VerifyIdToken(idToken), GetUser(uid)])
            case Some(rec) =>
              var token := AccessToken(SessionClaims(rec.uid, rec.email, rec.phoneNumber), "24h");
              Exchange(200,
                ApiResponse(true, "Login successful", Some(TokenResponse(token, SessionSeconds, Profile(rec))), None),
                [VerifyIdToken(idToken), GetUser(uid)])
  }

  /** A session token is issued only for a request whose token the provider
      accepted, and it names the user that token asserts. */
  lemma TokenOnlyAfterVerification(req: HttpRequest, idp: IdentityProvider)
    requires Login(req, idp).response.data.Some?
    ensures IdTokenOf(req).Some? && IdTokenOf(req).value.Str?
    ensures IdTokenOf(req).value.s in idp.idTokens
    ensures Login(req, idp).response.data.value.accessToken.claims.uid ==
            idp.users[idp.idTokens[IdTokenOf(req).value.s]].uid
  {
  }

  // ---------------------------------------------------------------------
  // Callable operations
  // ---------------------------------------------------------------------

  /** `request.auth`: the authenticated caller supplied by the hosting layer. */
  datatype AuthContext = AuthContext(uid: string)

  /** The success envelope of a callable operation (`success` is always true). */
  datatype Envelope = Envelope(message: string, user: Option<UserRecord>, messageId: Option<string>)

  /** getProfile: the caller's projected record; any failure becomes one
      generic error. */
  function GetProfile(caller: Option<AuthContext>, users: map<string, UserRecord>): (r: Result<Envelope, string>)
    ensures r.Success? <==> caller.Some? && caller.value.uid in users
    ensures r.Success? ==> r.value.user == Some(Profile(users[caller.value.uid]))
    ensures r.Failure? ==> r.error == "Failed to retrieve profile"
  {
    if caller.None? then Failure("Failed to retrieve profile")
    else match Lookup(users, caller.value.uid)
      case None => Failure("Failed to retrieve profile")
      case Some(rec) => Success(Envelope("Profile retrieved successfully", Some(Profile(rec)), None))
  }

  /** The `updateData` object of updateProfile: a key for each of
      `displayName` and `photoURL` that the request provided, and no other. */
  method UpdateData(displayName: Value, photoURL: Value) returns (m: map<string, Value>)
    ensures "displayName" in m <==> displayName != Undefined
    ensures "photoURL" in m <==> photoURL != Undefined
    ensures "displayName" in m ==> m["displayName"] == displayName
    ensures "photoURL" in m ==> m["photoURL"] == photoURL
    ensures m.Keys <= {"displayName", "photoURL"}
  {
    m := map[];
    if displayName != Undefined {
      m := m["displayName" := displayName];
    }
    if photoURL != Undefined {
      m := m["photoURL" := photoURL];
    }
  }

  /** A property value the provider's `updateUser` accepts: a string sets it,
      `null` deletes it. */
  predicate SettableValue(v: Value) {
    v.Str? || v.Null?
  }

  predicate ValidUpdate(properties: map<string, Value>) {
    forall k :: k in properties ==> SettableValue(properties[k])
  }

  /** The new value of one optional string property under an update. */
  function Updated(current: Option<string>, properties: map<string, Value>, key: string): Option<string>
    requires ValidUpdate(properties)
  {
    if key !in properties then current
    else if properties[key].Str? then Some(properties[key].s)
    else None
  }

  /** A record after `updateUser` with display-name and photo properties. */
  function ApplyUpdate(rec: UserRecord, properties: map<string, Value>): UserRecord
    requires ValidUpdate(properties)
  {
    rec.(displayName := Updated(rec.displayName, properties, "displayName"),
         photoURL := Updated(rec.photoURL, properties, "photoURL"))
  }

  /** The identity provider's user table, which the mutating operations change
      in place, with the log of calls made to it. */
  class UserStore {
    var users: map<string, UserRecord>
    var log: seq<ProviderCall>

    constructor (users: map<string, UserRecord>)
      ensures this.users == users && log == []
    {
      this.users := users;
      log := [];
    }

    /** `getUser(uid)`. */
    method Get(uid: string) returns (r: Option<UserRecord>)
      modifies this`log
      ensures log == old(log) + [GetUser(uid)]
      ensures r == Lookup(users, uid)
    {
      log := log + [GetUser(uid)];
      r := Lookup(users, uid);
    }

    /** `updateUser(uid, properties)`: all or nothing. */
    method Update(uid: string, properties: map<string, Value>) returns (r: Option<UserRecord>)
      modifies this
      ensures log == old(log) + [UpdateUser(uid, properties)]
      ensures r.Some? <==> uid in old(users) && ValidUpdate(properties)
      ensures r.Some? ==> r.value == ApplyUpdate(old(users)[uid], properties) && users == old(users)[uid := r.value]
      ensures r.None? ==> users == old(users)
    {
      log := log + [UpdateUser(uid, properties)];
      if uid in users && ValidUpdate(properties) {
        var rec := ApplyUpdate(users[uid], properties);
        users := users[uid := rec];
        r := Some(rec);
      } else {
        r := None;
      }
    }

    /** `deleteUser(uid)`. */
    method Delete(uid: string) returns (ok: bool)
      modifies this
      ensures log == old(log) + [DeleteUser(uid)]
      ensures ok <==> uid in old(users)
      ensures users == old(users) - {uid}
    {
      log := log + [DeleteUser(uid)];
      ok := uid in users;
      users := users - {uid};
    }

    /** `setCustomUserClaims(uid, claims)`: the claims must be an object and
        the uid a string naming an existing user. */
    method SetClaims(target: Value, claims: Value) returns (ok: bool)
      modifies this
      ensures log == old(log) + [SetCustomUserClaims(target, claims)]
      ensures ok <==> target.Str? && target.s in old(users) && claims.Obj?
      ensures ok ==> users == old(users)[target.s := old(users)[target.s].(customClaims := Some(claims.fields))]
      ensures !ok ==> users == old(users)
    {
      log := log + [SetCustomUserClaims(target, claims)];
      ok := target.Str? && target.s in users && claims.Obj?;
      if ok {
        users := users[target.s := users[target.s].(customClaims := Some(claims.fields))];
      }
    }
  }

  /** updateProfile: sets the provided display name and photo URL on the
      caller's record and returns the projected result. */
  method UpdateProfile(store: UserStore, caller: Option<AuthContext>, data: Value) returns (r: Result<Envelope, string>)
    modifies store
    ensures r.Failure? ==> r.error == "Failed to update profile" && store.users == old(store.users)
    ensures caller.None? || Property(data, "displayName").None? ==> r.Failure? && store.log == old(store.log)
    ensures r.Success? <==>
      && caller.Some? && Property(data, "displayName").Some?
      && caller.value.uid in old(store.users)
      && ValidUpdate(UpdateMap(data))
    ensures r.Success? ==>
      && store.users == old(store.users)[caller.value.uid := ApplyUpdate(old(store.users)[caller.value.uid], UpdateMap(data))]
      && r.value.user == Some(Profile(store.users[caller.value.uid]))
    ensures caller.Some? && Property(data, "displayName").Some? ==>
      store.log == old(store.log) + [UpdateUser(caller.value.uid, UpdateMap(data))]
  {
    if caller.None? {
      return Failure("Failed to update profile");
    }
    var displayName := Property(data, "displayName");
    if displayName.None? {
      // destructuring `request.data` when it is undefined or null throws
      return Failure("Failed to update profile");
    }
    var photoURL := Property(data, "photoURL");
    var updateData := UpdateData(displayName.value, photoURL.value);
    assert updateData == UpdateMap(data);
    var updated := store.Update(caller.value.uid, updateData);
    if updated.None? {
      return Failure("Failed to update profile");
    }
    r := Success(Envelope("Profile updated successfully", Some(Profile(updated.value)), None));
  }

  /** The update map built from a destructurable payload, as a function. */
  function UpdateMap(data: Value): (m: map<string, Value>)
    requires Property(data, "displayName").Some?
  {
    var d := Property(data, "displayName").value;
    var p := Property(data, "photoURL").value;
    (if d != Undefined then map["displayName" := d] else map[]) +
    (if p != Undefined then map["photoURL" := p] else map[])
  }

  /** deleteAccount: deletes the caller's record. */
  method DeleteAccount(store: UserStore, caller: Option<AuthContext>) returns (r: Result<Envelope, string>)
    modifies store
    ensures caller.None? ==> r.Failure? && store.users == old(store.users) && store.log == old(store.log)
    ensures caller.Some? ==> store.log == old(store.log) + [DeleteUser(caller.value.uid)]
    ensures caller.Some? ==> store.users == old(store.users) - {caller.value.uid}
    ensures r.Success? <==> caller.Some? && caller.value.uid in old(store.users)
    ensures r.Failure? ==> r.error == "Failed to delete account"
  {
    if caller.None? {
      return Failure("Failed to delete account");
    }
    var ok := store.Delete(caller.value.uid);
    if !ok {
      return Failure("Failed to delete account");
    }
    r := Success(Envelope("Account deleted successfully", None, None));
  }

  /** The caller's own record carries a truthy `admin` custom claim
      (`customClaims?.admin`): any truthy value counts, not only `true`. */
  function IsAdmin(users: map<string, UserRecord>, uid: string): (admin: bool)
    ensures admin <==>
      && uid in users && users[uid].customClaims.Some?
      && Truthy(Property(Obj(users[uid].customClaims.value), "admin").value)
  {
    && uid in users
    && users[uid].customClaims.Some?
    && "admin" in users[uid].customClaims.value
    && Truthy(users[uid].customClaims.value["admin"])
  }

  /** A claim `admin: "yes"` or `admin: 1` makes its holder an admin just
      as `admin: true` does, and `admin: false` or a missing claim does not. */
  lemma AdminClaimIsTruthiness(rec: UserRecord, claim: Value)
    requires rec.customClaims == Some(map["admin" := claim])
    ensures claim in {Bool(true), Str("yes"), Num(1)} ==> IsAdmin(map[rec.uid := rec], rec.uid)
    ensures claim in {Bool(false), Undefined, Null} ==> !IsAdmin(map[rec.uid := rec], rec.uid)
  {
  }

  /** The `uid` and `customClaims` of a payload that can be destructured and
      where both are truthy. */
  predicate ClaimsArgumentsPresent(data: Value) {
    && Property(data, "uid").Some?
    && Truthy(Property(data, "uid").value)
    && Truthy(Property(data, "customClaims").value)
  }

  /** setCustomClaims: authenticated, then the caller is an admin, then both
      arguments present; only then is the provider asked to set the claims.
      Every failure surfaces as the same message. */
  method SetCustomClaims(store: UserStore, caller: Option<AuthContext>, data: Value) returns (r: Result<Envelope, string>)
    modifies store
    ensures r.Failure? ==> r.error == "Failed to set custom claims"
    ensures caller.None? ==> r.Failure? && store.log == old(store.log)
    ensures caller.Some? && !IsAdmin(old(store.users), caller.value.uid) ==>
      r.Failure? && store.log == old(store.log) + [GetUser(caller.value.uid)]
    ensures caller.Some? && IsAdmin(old(store.users), caller.value.uid) && !ClaimsArgumentsPresent(data) ==>
      r.Failure? && store.log == old(store.log) + [GetUser(caller.value.uid)]
    ensures caller.Some? && IsAdmin(old(store.users), caller.value.uid) && ClaimsArgumentsPresent(data) ==>
      store.log == old(store.log) + [GetUser(caller.value.uid),
        SetCustomUserClaims(Property(data, "uid").value, Property(data, "customClaims").value)]
    ensures store.users != old(store.users) ==> caller.Some? && IsAdmin(old(store.users), caller.value.uid) && ClaimsArgumentsPresent(data)
    ensures r.Success? <==>
      && caller.Some? && IsAdmin(old(store.users), caller.value.uid) && ClaimsArgumentsPresent(data)
      && Property(data, "uid").value.Str? && Property(data, "uid").value.s in old(store.users)
      && Property(data, "customClaims").value.Obj?
    ensures r.Success? ==>
      var target := Property(data, "uid").value.s;
      store.users == old(store.users)[target := old(store.users)[target].(customClaims :=
        Some(Property(data, "customClaims").value.fields))]
    ensures r.Failure? ==> store.users == old(store.users)
  {
    if caller.None? {
      return Failure("Failed to set custom claims");
    }
    var callerRecord := store.Get(caller.value.uid);
    if !(callerRecord.Some? && IsAdmin(store.users, caller.value.uid)) {
      return Failure("Failed to set custom claims");
    }
    var uid := Property(data, "uid");
    if uid.None? {
      return Failure("Failed to set custom claims");
    }
    var customClaims := Property(data, "customClaims").value;
    if !Truthy(uid.value) || !Truthy(customClaims) {
      return Failure("Failed to set custom claims");
    }
    var ok := store.SetClaims(uid.value, customClaims);
    if !ok {
      return Failure("Failed to set custom claims");
    }
    r := Success(Envelope("Custom claims set successfully", None, None));
  }

  // ---------------------------------------------------------------------
  // sendEmail (callable)
  // ---------------------------------------------------------------------

  /** The HTML body: the text in one paragraph, each line feed replaced by a
      line break. */
  function HtmlBody(text: string): (html: string)
    ensures '\n' !in html
    ensures html == "<p>" + Text.Join(Text.Split(text, '\n'), "<br>") + "</p>"
  {
    "<p>" + Text.ReplaceAll(text, '\n', "<br>") + "</p>"
  }

  /** The body of text made of separate lines is those lines joined by line
      breaks. */
  lemma HtmlOfLines(lines: seq<string>)
    requires |lines| >= 1
    requires forall i :: 0 <= i < |lines| ==> '\n' !in lines[i]
    ensures HtmlBody(Text.Join(lines, "\n")) == "<p>" + Text.Join(lines, "<br>") + "</p>"
  {
    Text.SplitJoin(lines, '\n');
  }

  /** The example body: two lines become one paragraph with a break. */
  lemma HtmlExample(text: string)
    requires text == "line1\nline2"
    ensures HtmlBody(text) == "<p>line1<br>line2</p>"
  {
    var lines := ["line1", "line2"];
    assert '\n' !in lines[0] && '\n' !in lines[1];
    assert Text.Join(lines, "\n") == text by {
      assert lines[1..] == ["line2"];
    }
    assert Text.Join(lines, "<br>") == "line1<br>line2" by {
      assert lines[1..] == ["line2"];
    }
    HtmlOfLines(lines);
  }

  /** The message handed to the mail transport. */
  datatype MailMessage = MailMessage(from: string, to: Value, subject: Value, text: string, html: string)

  /** What the transport answers if asked to deliver. */
  datatype TransportReply = Delivered(messageId: string) | TransportError(message: string)

  /** The outcome of a relay request and the messages handed to the transport. */
  datatype Relay = Relay(result: Result<Envelope, string>, handed: seq<MailMessage>)

  const MailErrorPrefix := "Failed to send email: "

  /** The fields of a relay request: authenticated, then `to`, `subject` and
      `text` all truthy, with `text` a string. */
  predicate Relayable(caller: Option<AuthContext>, data: Value) {
    && caller.Some?
    && Property(data, "to").Some?
    && Truthy(Property(data, "to").value)
    && Truthy(Property(data, "subject").value)
    && Truthy(Property(data, "text").value)
    && Property(data, "text").value.Str?
  }

  /** sendEmail: checks the caller and the fields before any transport is
      used, then makes exactly one delivery attempt and returns the
      transport's message id; every error is reported with one prefix. */
  function SendEmail(caller: Option<AuthContext>, data: Value, sender: string, reply: TransportReply): (x: Relay)
    ensures x.handed != [] <==> Relayable(caller, data)
    ensures |x.handed| <= 1
    ensures caller.None? ==> x.result == Failure(MailErrorPrefix + "Authentication required")
    ensures (caller.Some? && Property(data, "to").Some? &&
             !(Truthy(Property(data, "to").value) && Truthy(Property(data, "subject").value) && Truthy(Property(data, "text").value))) ==>
      x.result == Failure(MailErrorPrefix + "Missing required fields: to, subject, text")
    ensures x.handed != [] ==>
      && x.handed[0].from == sender
      && x.handed[0].to == Property(data, "to").value
      && x.handed[0].subject == Property(data, "subject").value
      && x.handed[0].text == Property(data, "text").value.s
      && x.handed[0].html == HtmlBody(x.handed[0].text)
      && '\n' !in x.handed[0].html
    ensures x.result.Success? <==> Relayable(caller, data) && reply.Delivered?
    ensures x.result.Success? ==> x.result.value.messageId == Some(reply.messageId)
    ensures x.result.Failure? ==> |x.result.error| >= |MailErrorPrefix| && x.result.error[..|MailErrorPrefix|] == MailErrorPrefix
    ensures Relayable(caller, data) && reply.TransportError? ==> x.result == Failure(MailErrorPrefix + reply.message)
  {
    if caller.None? then Relay(Failure(MailErrorPrefix + "Authentication required"), [])
    else match Property(data, "to")
      case None => Relay(Failure(MailErrorPrefix + TypeErrorText), [])
      case Some(to) =>
        var subject := Property(data, "subject").value;
        var text := Property(data, "text").value;
        if !Truthy(to) || !Truthy(subject) || !Truthy(text) then
          Relay(Failure(MailErrorPrefix + "Missing required fields: to, subject, text"), [])
        else if !text.Str? then
          Relay(Failure(MailErrorPrefix + TypeErrorText), [])
        else
          var message := MailMessage(sender, to, subject, text.s, HtmlBody(text.s));
          match reply
          case Delivered(id) => Relay(Success(Envelope("Email sent successfully", None, Some(id))), [message])
          case TransportError(e) => Relay(Failure(MailErrorPrefix + e), [message])
  }
}
