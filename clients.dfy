/** The FCO REST client (fcoclient/clients.py): choosing an authentication
    strategy from the credentials, and the request wrapper that retries a
    call and sorts HTTP status codes (section 6 of RFC 7231, and 429 from
    section 4 of RFC 6585) into success, give up and retry. The HTTP call is
    replaced by the sequence of replies the server gives; logging and
    sleeping are left out. */
module Clients {
  import opened PyBase
  import opened Values
  import opened RestTypes
  import opened Endpoints

  // ------------------------------------------------------------- settings

  const RetryCountDefault := 5
  const RetryDelayDefault := 30
  const InternalRetryDefault := true
  const ApiVersion := "5.0"

  /** The credential keys. */
  const KeyToken := "token"
  const KeyUsername := "username"
  const KeyPassword := "password"
  const KeyApiUsername := "api_uuid"
  const KeyCustomer := "customer"
  const KeyUrl := "url"
  const KeyCaCert := "ca_cert"

  /** A credential as the configuration holds it: a byte string or a
      unicode string. */
  datatype Cred = Bytes(s: string) | Text(u: string)

  /** The credentials dict: each value a credential or None. */
  type Auth = map<string, Option<Cred>>

  /** A credential inside a byte-string `format`: None reads `None`, a byte
      string is copied, and a unicode string is encoded as ASCII, which
      raises UnicodeEncodeError when it is not ASCII. */
  function CredText(v: Option<Cred>): (r: Result<string>)
    ensures r.Err? <==> v.Some? && v.value.Text? && !IsAscii(v.value.u)
    ensures r.Err? ==> r.error == UnicodeError
    ensures v.Some? && v.value.Bytes? ==> r == Ok(v.value.s)
  {
    match v
    case None => Ok("None")
    case Some(Bytes(s)) => Ok(s)
    case Some(Text(u)) => if IsAscii(u) then Ok(u) else Err(UnicodeError)
  }

  // -------------------------------------------------------- the client kinds

  /** The three usable client classes, in the order get_client tries them. */
  datatype ClientKind = UserPass | ApiUserPass | ApiToken

  const Kinds: seq<ClientKind> := [UserPass, ApiUserPass, ApiToken]

  /** REQUIRED_AUTH of each class. */
  function RequiredAuth(kind: ClientKind): seq<string> {
    if kind == UserPass then [KeyUsername, KeyPassword, KeyCustomer, KeyUrl]
    else if kind == ApiUserPass then [KeyApiUsername, KeyPassword, KeyCustomer, KeyUrl]
    else [KeyToken, KeyUrl]
  }

  /** `all([auth.get(k) is not None for k in keys])`. */
  function AllGiven(keys: seq<string>, auth: Auth): (r: bool)
    ensures r <==> forall i :: 0 <= i < |keys| ==> keys[i] in auth && auth[keys[i]].Some?
    decreases |keys|
  {
    if |keys| == 0 then true
    else (keys[0] in auth && auth[keys[0]].Some?) && AllGiven(keys[1..], auth)
  }

  /** `cls.can_handle(auth)` (fcoclient/clients.py:180-188). */
  function CanHandle(kind: ClientKind, auth: Auth): bool {
    AllGiven(RequiredAuth(kind), auth)
  }

  /** Whether verification uses the default (True) or the `ca_cert` entry. */
  datatype Verify = VerifyDefault | VerifyWith(caCert: Option<Cred>)

  /** A client: the APIClient settings, the credentials it was made from,
      the auth tuple handed to every request, the service URL and the TLS
      verification setting. */
  class RestClient {
    const kind: ClientKind
    const retryCount: int
    const retryDelay: int
    const internalRetry: bool
    const auth2: Auth
    var auth: (Option<Cred>, Option<Cred>)
    var serviceUrl: Option<Cred>
    var verify: Verify

    /** `RESTClient.__init__` (fcoclient/clients.py:169-178, 197-202): no
        auth tuple or service URL yet, and `ca_cert` when it is given. */
    constructor (kind: ClientKind, auth2: Auth, retryCount: int, retryDelay: int, internalRetry: bool)
      ensures this.kind == kind && this.auth2 == auth2
      ensures this.retryCount == retryCount && this.retryDelay == retryDelay && this.internalRetry == internalRetry
      ensures auth == (Some(Bytes("")), Some(Bytes(""))) && serviceUrl.None?
      ensures verify == if KeyCaCert in auth2 then VerifyWith(auth2[KeyCaCert]) else VerifyDefault
    {
      this.kind := kind;
      this.auth2 := auth2;
      this.retryCount := retryCount;
      this.retryDelay := retryDelay;
      this.internalRetry := internalRetry;
      auth := (Some(Bytes("")), Some(Bytes("")));
      serviceUrl := None;
      verify := if KeyCaCert in auth2 then VerifyWith(auth2[KeyCaCert]) else VerifyDefault;
    }

    /** The subclass part of the constructor (fcoclient/clients.py:238-285):
        the auth tuple and the service URL read from the credentials; a
        missing key, or a user name or customer that is a unicode string
        with a non-ASCII character, raises inside the `try`, and the bare
        `except` raises NonRecoverableError in its place. */
    method SetAuth() returns (r: Result<bool>)
      modifies this
      ensures r.Ok? <==> Builds(kind, auth2)
      ensures r.Err? ==> r.error == NonRecoverable && auth == old(auth) && serviceUrl == old(serviceUrl)
      ensures r.Ok? ==> auth == AuthTuple(kind, auth2) && serviceUrl == auth2[KeyUrl]
      ensures verify == old(verify)
    {
      if kind == UserPass {
        if KeyUsername !in auth2 || KeyCustomer !in auth2 || KeyPassword !in auth2 || KeyUrl !in auth2 {
          return Err(NonRecoverable);
        }
        var user := UserText(kind, auth2);
        if user.Err? {
          return Err(NonRecoverable);
        }
        auth := (Some(Bytes(user.value)), auth2[KeyPassword]);
      } else if kind == ApiUserPass {
        if KeyApiUsername !in auth2 || KeyCustomer !in auth2 || KeyPassword !in auth2 || KeyUrl !in auth2 {
          return Err(NonRecoverable);
        }
        var user := UserText(kind, auth2);
        if user.Err? {
          return Err(NonRecoverable);
        }
        auth := (Some(Bytes(user.value)), auth2[KeyPassword]);
      } else {
        if KeyToken !in auth2 || KeyUrl !in auth2 {
          return Err(NonRecoverable);
        }
        auth := (auth2[KeyToken], Some(Bytes("")));
      }
      serviceUrl := auth2[KeyUrl];
      return Ok(true);
    }
  }

  /** The key naming the user in a user-based class. */
  function UserKey(kind: ClientKind): string {
    if kind == UserPass then KeyUsername else KeyApiUsername
  }

  /** The constructor finds every key it reads. */
  predicate ReadsFrom(kind: ClientKind, auth2: Auth) {
    KeyUrl in auth2
    && if kind == ApiToken then KeyToken in auth2
       else UserKey(kind) in auth2 && KeyPassword in auth2 && KeyCustomer in auth2
  }

  /** The keys the constructor reads are exactly those REQUIRED_AUTH names
      (here they may hold None). */
  lemma ReadsRequired(kind: ClientKind, auth2: Auth)
    ensures ReadsFrom(kind, auth2) <==> forall i :: 0 <= i < |RequiredAuth(kind)| ==> RequiredAuth(kind)[i] in auth2
  {
    var req := RequiredAuth(kind);
    if kind == ApiToken {
      assert req == [KeyToken, KeyUrl];
    } else {
      assert req == [UserKey(kind), KeyPassword, KeyCustomer, KeyUrl];
    }
    if forall i :: 0 <= i < |req| ==> req[i] in auth2 {
      assert req[0] in auth2 && req[1] in auth2;
      if kind != ApiToken {
        assert req[2] in auth2 && req[3] in auth2;
      }
    }
  }

  /** `'{}/{}'.format(user, customer)` of a user-based class: a byte
      string, or the UnicodeEncodeError of the first credential that
      cannot be encoded. */
  function UserText(kind: ClientKind, auth2: Auth): (r: Result<string>)
    requires UserKey(kind) in auth2 && KeyCustomer in auth2
    ensures r.Ok? <==> CredText(auth2[UserKey(kind)]).Ok? && CredText(auth2[KeyCustomer]).Ok?
    ensures r.Err? ==> r.error == UnicodeError
  {
    var user := CredText(auth2[UserKey(kind)]);
    var customer := CredText(auth2[KeyCustomer]);
    if user.Err? then Err(user.error)
    else if customer.Err? then Err(customer.error)
    else Ok(user.value + "/" + customer.value)
  }

  /** The constructor runs to its end: every key it reads is present, and
      a user-based class can format its user name and customer. */
  predicate Builds(kind: ClientKind, auth2: Auth) {
    ReadsFrom(kind, auth2) && (kind != ApiToken ==> UserText(kind, auth2).Ok?)
  }

  /** The auth tuple of each class: `('<user>/<customer>', password)` for
      the two user-based classes and `(token, '')` for the token class. */
  function AuthTuple(kind: ClientKind, auth2: Auth): (Option<Cred>, Option<Cred>)
    requires Builds(kind, auth2)
  {
    if kind == ApiToken then (auth2[KeyToken], Some(Bytes("")))
    else (Some(Bytes(UserText(kind, auth2).value)), auth2[KeyPassword])
  }

  /** The user name and the customer can be read back from the first part
      of the auth tuple when the user name has no `/`, and the password is
      the second part; a token client sends its token with an empty
      password. */
  lemma AuthTupleParts(kind: ClientKind, auth2: Auth)
    requires Builds(kind, auth2)
    ensures kind == ApiToken ==> AuthTuple(kind, auth2) == (auth2[KeyToken], Some(Bytes("")))
    ensures kind != ApiToken ==>
              var user := CredText(auth2[UserKey(kind)]).value;
              var customer := CredText(auth2[KeyCustomer]).value;
              AuthTuple(kind, auth2).1 == auth2[KeyPassword]
              && AuthTuple(kind, auth2).0.Some? && AuthTuple(kind, auth2).0.value.Bytes?
              && ('/' !in user ==>
                    SplitAt(AuthTuple(kind, auth2).0.value.s, '/') == [user] + SplitAt(customer, '/'))
  {
    if kind != ApiToken {
      var user := CredText(auth2[UserKey(kind)]).value;
      var customer := CredText(auth2[KeyCustomer]).value;
      if '/' !in user {
        SplitAtFirst(user, customer, '/');
      }
    }
  }

  /** A unicode user name `é`: can_handle accepts the credentials, and the
      constructor refuses them. */
  lemma UnicodeUserRefused()
    ensures var auth := map[KeyUsername := Some(Text("\U{E9}")), KeyPassword := Some(Bytes("secret")),
                            KeyCustomer := Some(Bytes("acme")), KeyUrl := Some(Bytes("https://fco"))];
            CanHandle(UserPass, auth) && !Builds(UserPass, auth)
  {
    var auth := map[KeyUsername := Some(Text("\U{E9}")), KeyPassword := Some(Bytes("secret")),
                    KeyCustomer := Some(Bytes("acme")), KeyUrl := Some(Bytes("https://fco"))];
    assert RequiredAuth(UserPass) == [KeyUsername, KeyPassword, KeyCustomer, KeyUrl];
    assert !IsAscii("\U{E9}") by {
      assert "\U{E9}"[0] as int == 0xE9;
    }
  }

  /** A client of one of the three classes (fcoclient/clients.py:169-178,
      197-202, 238-285). */
  method NewClient(kind: ClientKind, auth2: Auth, retryCount: int, retryDelay: int, internalRetry: bool)
    returns (r: Result<RestClient>)
    ensures r.Ok? <==> Builds(kind, auth2)
    ensures r.Err? ==> r.error == NonRecoverable
    ensures r.Ok? ==> fresh(r.value) && r.value.kind == kind && r.value.auth2 == auth2
                      && r.value.retryCount == retryCount && r.value.retryDelay == retryDelay
                      && r.value.internalRetry == internalRetry
                      && r.value.auth == AuthTuple(kind, auth2) && r.value.serviceUrl == auth2[KeyUrl]
                      && r.value.verify == (if KeyCaCert in auth2 then VerifyWith(auth2[KeyCaCert]) else VerifyDefault)
  {
    var c := new RestClient(kind, auth2, retryCount, retryDelay, internalRetry);
    var stored := c.SetAuth();
    if stored.Err? {
      return Err(NonRecoverable);
    }
    return Ok(c);
  }

  /** The first class in `kinds` that can handle the credentials. */
  function FirstHandler(kinds: seq<ClientKind>, auth: Auth): (r: Option<ClientKind>)
    ensures r.Some? ==> exists i :: 0 <= i < |kinds| && kinds[i] == r.value && CanHandle(kinds[i], auth)
                                   && forall j :: 0 <= j < i ==> !CanHandle(kinds[j], auth)
    ensures r.None? <==> forall i :: 0 <= i < |kinds| ==> !CanHandle(kinds[i], auth)
    decreases |kinds|
  {
    if |kinds| == 0 then None
    else if CanHandle(kinds[0], auth) then Some(kinds[0])
    else
      var r := FirstHandler(kinds[1..], auth);
      if r.Some? then
        assert exists i :: 1 <= i < |kinds| && kinds[i] == r.value && CanHandle(kinds[i], auth)
                           && forall j :: 0 <= j < i ==> !CanHandle(kinds[j], auth) by {
          var i :| 0 <= i < |kinds[1..]| && kinds[1..][i] == r.value && CanHandle(kinds[1..][i], auth)
                   && forall j :: 0 <= j < i ==> !CanHandle(kinds[1..][j], auth);
          assert kinds[i + 1] == r.value;
          forall j | 0 <= j < i + 1
            ensures !CanHandle(kinds[j], auth)
          {
            if j > 0 {
              assert kinds[j] == kinds[1..][j - 1];
            }
          }
        }
        r
      else
        assert forall i :: 1 <= i < |kinds| ==> kinds[i] == kinds[1..][i - 1];
        r
  }

  /** The class get_client settles on. */
  function Chosen(auth: Auth): Option<ClientKind> {
    FirstHandler(Kinds, auth)
  }

  /** Once the classes before `i` have all declined, a class at `i` that
      accepts is the one chosen. */
  lemma FirstHandlerAt(kinds: seq<ClientKind>, auth: Auth, i: nat)
    requires i < |kinds| && CanHandle(kinds[i], auth)
    requires forall j :: 0 <= j < i ==> !CanHandle(kinds[j], auth)
    ensures FirstHandler(kinds, auth) == Some(kinds[i])
  {
    var r := FirstHandler(kinds, auth);
    var k :| 0 <= k < |kinds| && kinds[k] == r.value && CanHandle(kinds[k], auth)
             && forall j :: 0 <= j < k ==> !CanHandle(kinds[j], auth);
    assert k == i;
  }

  /** A class that can handle credentials finds every key its constructor
      reads; its constructor then raises only for a user name or customer
      that cannot be encoded as ASCII. */
  lemma HandledBuilds(kind: ClientKind, auth: Auth)
    requires CanHandle(kind, auth)
    ensures ReadsFrom(kind, auth)
    ensures Builds(kind, auth) <==>
              kind == ApiToken || (CredText(auth[UserKey(kind)]).Ok? && CredText(auth[KeyCustomer]).Ok?)
  {
    ReadsRequired(kind, auth);
  }

  /** `get_client(auth, logger)` (fcoclient/clients.py:290-298): the first
      class that can handle the credentials, with the default settings;
      NonRecoverableError when none can, or when the constructor of the
      class chosen raises it (no later class is tried). */
  method GetClient(auth: Auth) returns (r: Result<RestClient>)
    ensures r.Ok? <==> Chosen(auth).Some? && Builds(Chosen(auth).value, auth)
    ensures r.Err? ==> r.error == NonRecoverable
    ensures r.Ok? ==> fresh(r.value) && r.value.kind == Chosen(auth).value && r.value.auth2 == auth
                      && r.value.retryCount == RetryCountDefault && r.value.retryDelay == RetryDelayDefault
                      && r.value.internalRetry == InternalRetryDefault
                      && Builds(r.value.kind, auth)
                      && r.value.auth == AuthTuple(r.value.kind, auth) && r.value.serviceUrl == auth[KeyUrl]
  {
    for i := 0 to |Kinds|
      invariant forall j :: 0 <= j < i ==> !CanHandle(Kinds[j], auth)
    {
      if CanHandle(Kinds[i], auth) {
        HandledBuilds(Kinds[i], auth);
        FirstHandlerAt(Kinds, auth, i);
        r := NewClient(Kinds[i], auth, RetryCountDefault, RetryDelayDefault, InternalRetryDefault);
        return;
      }
    }
    return Err(NonRecoverable);
  }

  // ------------------------------------------------------------ the replies

  /** A server reply: its status code and the JSON document its body
      decodes to (None when the body is not JSON). */
  datatype Reply = Reply(status: int, body: Option<Value>)

  const StatusOk := 200
  const StatusAccepted := 202
  const StatusBadRequest := 400
  const StatusForbidden := 403
  const StatusTooManyRequests := 429
  const StatusNotImplemented := 501
  const StatusServiceUnavailable := 503

  datatype StatusClass = Success | GiveUp | Retry

  /** 200 and 202 are answers; 400, 501 and 403 are not retried; 429, 503
      and every other code are retried. */
  function Classify(status: int): StatusClass {
    if status == StatusAccepted || status == StatusOk then Success
    else if status == StatusTooManyRequests then Retry
    else if status == StatusBadRequest || status == StatusNotImplemented || status == StatusForbidden then GiveUp
    else Retry
  }

  /** The codes named in the source sort as their standards describe: a
      client error that a retry cannot fix, a server that does not implement
      the request and a refusal are final; too many requests and service
      unavailable ask the client to come back later. */
  lemma ClassifyNamedCodes()
    ensures Classify(StatusOk) == Success && Classify(StatusAccepted) == Success
    ensures Classify(StatusBadRequest) == GiveUp && Classify(StatusForbidden) == GiveUp
    ensures Classify(StatusNotImplemented) == GiveUp
    ensures Classify(StatusTooManyRequests) == Retry && Classify(StatusServiceUnavailable) == Retry
  {
  }

  /** The wrapper's inner `to_str`: lists and dicts are rebuilt with their
      elements, keys and values converted; a unicode string becomes a byte
      string (UnicodeEncodeError when it is not ASCII); a byte string and
      anything else are returned as they are. */
  function JsonToStr(v: Value): Result<Value>
    decreases v, 1
  {
    if v.List? || v.FilterList? then
      var r := JsonItems(v, 0, []);
      if r.Err? then Err(r.error) else Ok(List(r.value))
    else if v.Dict? then
      var r := JsonEntries(v, 0, []);
      if r.Err? then Err(r.error) else Ok(Dict(r.value))
    else if v.Unicode? then
      if IsAscii(v.u) then Ok(Str(v.u)) else Err(UnicodeError)
    else Ok(v)
  }

  /** `string[k] = to_str(v)` for the list items from `j` on. */
  function JsonItems(l: Value, j: nat, acc: seq<Value>): Result<seq<Value>>
    requires (l.List? || l.FilterList?) && j <= |l.items|
    decreases l, 0, |l.items| - j
  {
    if j == |l.items| then Ok(acc)
    else
      var y := JsonToStr(l.items[j]);
      if y.Err? then Err(y.error) else JsonItems(l, j + 1, acc + [y.value])
  }

  /** `string[to_str(k)] = to_str(v)` for the dict entries from `j` on: the
      value is converted before the key. */
  function JsonEntries(d: Value, j: nat, acc: seq<(Value, Value)>): Result<seq<(Value, Value)>>
    requires d.Dict? && j <= |d.entries|
    decreases d, 0, |d.entries| - j
  {
    if j == |d.entries| then Ok(acc)
    else
      var y := JsonToStr(d.entries[j].1);
      if y.Err? then Err(y.error)
      else
        var x := JsonToStr(d.entries[j].0);
        if x.Err? then Err(x.error) else JsonEntries(d, j + 1, DictPut(acc, x.value, y.value))
  }

  /** No unicode string is left anywhere inside a value. */
  predicate NoUnicode(v: Value)
    decreases v
  {
    if v.Unicode? then false
    else if v.List? || v.FilterList? then forall i :: 0 <= i < |v.items| ==> NoUnicode(v.items[i])
    else if v.Dict? then forall i :: 0 <= i < |v.entries| ==> NoUnicode(v.entries[i].0) && NoUnicode(v.entries[i].1)
    else true
  }

  /** What the wrapper returns holds byte strings only. */
  lemma {:induction false} JsonToStrNoUnicode(v: Value)
    requires JsonToStr(v).Ok?
    ensures NoUnicode(JsonToStr(v).value)
    decreases v, 1
  {
    if v.List? || v.FilterList? {
      JsonItemsNoUnicode(v, 0, []);
    } else if v.Dict? {
      JsonEntriesNoUnicode(v, 0, []);
    }
  }

  lemma {:induction false} JsonItemsNoUnicode(l: Value, j: nat, acc: seq<Value>)
    requires (l.List? || l.FilterList?) && j <= |l.items|
    requires forall i :: 0 <= i < |acc| ==> NoUnicode(acc[i])
    requires JsonItems(l, j, acc).Ok?
    ensures forall i :: 0 <= i < |JsonItems(l, j, acc).value| ==> NoUnicode(JsonItems(l, j, acc).value[i])
    ensures |JsonItems(l, j, acc).value| == |acc| + |l.items| - j
    decreases l, 0, |l.items| - j
  {
    if j < |l.items| {
      JsonToStrNoUnicode(l.items[j]);
      JsonItemsNoUnicode(l, j + 1, acc + [JsonToStr(l.items[j]).value]);
    }
  }

  lemma {:induction false} DictPutNoUnicode(es: seq<(Value, Value)>, k: Value, v: Value)
    requires forall i :: 0 <= i < |es| ==> NoUnicode(es[i].0) && NoUnicode(es[i].1)
    requires NoUnicode(k) && NoUnicode(v)
    ensures forall i :: 0 <= i < |DictPut(es, k, v)| ==> NoUnicode(DictPut(es, k, v)[i].0) && NoUnicode(DictPut(es, k, v)[i].1)
    decreases |es|
  {
    if |es| > 0 && es[0].0 != k {
      DictPutNoUnicode(es[1..], k, v);
      var r := DictPut(es, k, v);
      assert r == [es[0]] + DictPut(es[1..], k, v);
      forall i | 0 <= i < |r|
        ensures NoUnicode(r[i].0) && NoUnicode(r[i].1)
      {
        if i > 0 {
          assert r[i] == DictPut(es[1..], k, v)[i - 1];
        }
      }
    } else if |es| > 0 {
      var r := DictPut(es, k, v);
      forall i | 0 <= i < |r|
        ensures NoUnicode(r[i].0) && NoUnicode(r[i].1)
      {
        if i > 0 {
          assert r[i] == es[i];
        }
      }
    }
  }

  lemma {:induction false} JsonEntriesNoUnicode(d: Value, j: nat, acc: seq<(Value, Value)>)
    requires d.Dict? && j <= |d.entries|
    requires forall i :: 0 <= i < |acc| ==> NoUnicode(acc[i].0) && NoUnicode(acc[i].1)
    requires JsonEntries(d, j, acc).Ok?
    ensures forall i :: 0 <= i < |JsonEntries(d, j, acc).value| ==>
              NoUnicode(JsonEntries(d, j, acc).value[i].0) && NoUnicode(JsonEntries(d, j, acc).value[i].1)
    decreases d, 0, |d.entries| - j
  {
    if j < |d.entries| {
      var y := JsonToStr(d.entries[j].1);
      var x := JsonToStr(d.entries[j].0);
      JsonToStrNoUnicode(d.entries[j].1);
      JsonToStrNoUnicode(d.entries[j].0);
      DictPutNoUnicode(acc, x.value, y.value);
      JsonEntriesNoUnicode(d, j + 1, DictPut(acc, x.value, y.value));
    }
  }

  /** What building the error message can raise before the status is acted
      on (fcoclient/clients.py:137-141): a body that is not JSON raises
      ValueError; a JSON document that is not an object cannot be indexed by
      a string (TypeError); a `message` that is not a string has no `strip`
      (AttributeError); a unicode message that is not ASCII cannot be
      formatted into the byte-string error (UnicodeEncodeError). A missing
      `message` is ignored. */
  function MessageError(body: Option<Value>): Option<Exc> {
    if body.None? then Some(ValueError)
    else if !body.value.Dict? then Some(TypeError)
    else
      var m := LookupName(body.value.entries, "message");
      if m.None? then None
      else if !IsText(m.value) then Some(AttributeError)
      else if m.value.Unicode? && !IsAscii(m.value.u) then Some(UnicodeError)
      else None
  }

  /** A successful reply's body, decoded and converted. */
  function Decode(body: Option<Value>): Result<Value> {
    if body.None? then Err(ValueError) else JsonToStr(body.value)
  }

  // ----------------------------------------------------------- the wrapper

  /** The wrapper's answer to the replies, with `count` attempts left: the
      first successful reply is decoded and returned; a final status, or an
      error building the message, raises; with internal retries another
      status uses up an attempt, and without them it raises RecoverableError
      asking to come back after the retry delay. When the attempts run out,
      the source builds the failure exception without raising it and so
      returns None; `raiseOnGiveUp` selects that behaviour (false) or the
      evidently intended NonRecoverableError (true). */
  function Outcome(replies: seq<Reply>, count: nat, internalRetry: bool, retryDelay: int, raiseOnGiveUp: bool)
    : Result<Value>
    requires |replies| >= count
    decreases count
  {
    if count == 0 then (if raiseOnGiveUp then Err(NonRecoverable) else Ok(PyNone))
    else
      var c := Classify(replies[0].status);
      if c == Success then Decode(replies[0].body)
      else if MessageError(replies[0].body).Some? then Err(MessageError(replies[0].body).value)
      else if c == GiveUp then Err(NonRecoverable)
      else if internalRetry then Outcome(replies[1..], count - 1, internalRetry, retryDelay, raiseOnGiveUp)
      else Err(Recoverable(retryDelay))
  }

  /** How many requests the wrapper sends before it answers. */
  function Attempts(replies: seq<Reply>, count: nat, internalRetry: bool): (r: nat)
    requires |replies| >= count
    ensures r <= count
    decreases count
  {
    if count == 0 then 0
    else
      var c := Classify(replies[0].status);
      if c == Retry && MessageError(replies[0].body).None? && internalRetry
      then 1 + Attempts(replies[1..], count - 1, internalRetry)
      else 1
  }

  /** The first successful reply ends the calls: nothing after it is sent,
      and its decoded body is the answer. */
  lemma {:induction false} SuccessStops(replies: seq<Reply>, count: nat, internalRetry: bool, retryDelay: int,
                                        raiseOnGiveUp: bool, k: nat)
    requires |replies| >= count && k < count && Classify(replies[k].status) == Success
    requires forall i :: 0 <= i < k ==> Classify(replies[i].status) == Retry && MessageError(replies[i].body).None?
    requires internalRetry
    ensures Outcome(replies, count, internalRetry, retryDelay, raiseOnGiveUp) == Decode(replies[k].body)
    ensures Attempts(replies, count, internalRetry) == k + 1
    decreases k
  {
    if k > 0 {
      SuccessStops(replies[1..], count - 1, internalRetry, retryDelay, raiseOnGiveUp, k - 1);
    }
  }

  /** A final status is never retried: the first reply carrying one raises
      NonRecoverableError when its message can be built. */
  lemma GiveUpFirst(replies: seq<Reply>, count: nat, internalRetry: bool, retryDelay: int, raiseOnGiveUp: bool)
    requires |replies| >= count > 0 && Classify(replies[0].status) == GiveUp && MessageError(replies[0].body).None?
    ensures Outcome(replies, count, internalRetry, retryDelay, raiseOnGiveUp) == Err(NonRecoverable)
    ensures Attempts(replies, count, internalRetry) == 1
  {
  }

  /** Without internal retries the first reply decides: any status but a
      success or a final one raises RecoverableError with the retry delay. */
  lemma NoInternalRetry(replies: seq<Reply>, count: nat, retryDelay: int, raiseOnGiveUp: bool)
    requires |replies| >= count > 0 && Classify(replies[0].status) == Retry && MessageError(replies[0].body).None?
    ensures Outcome(replies, count, false, retryDelay, raiseOnGiveUp) == Err(Recoverable(retryDelay))
    ensures Attempts(replies, count, false) == 1
  {
  }

  /** As written: when every attempt is answered with a status to retry,
      the wrapper runs out of attempts and returns None to its caller. */
  lemma {:induction false} GiveUpAsWritten(replies: seq<Reply>, count: nat, retryDelay: int)
    requires |replies| >= count
    requires forall i :: 0 <= i < count ==> Classify(replies[i].status) == Retry && MessageError(replies[i].body).None?
    ensures Outcome(replies, count, true, retryDelay, false) == Ok(PyNone)
    ensures Attempts(replies, count, true) == count
    decreases count
  {
    if count > 0 {
      GiveUpAsWritten(replies[1..], count - 1, retryDelay);
    }
  }

  /** Corrected: the wrapper either raises or answers with the decoded body
      of a successful reply among the attempts it made. */
  lemma {:induction false} GiveUpCorrected(replies: seq<Reply>, count: nat, internalRetry: bool, retryDelay: int)
    requires |replies| >= count
    ensures var r := Outcome(replies, count, internalRetry, retryDelay, true);
            r.Ok? ==> exists k :: 0 <= k < Attempts(replies, count, internalRetry)
                                  && Classify(replies[k].status) == Success && Decode(replies[k].body) == r
    decreases count
  {
    if count > 0 {
      var c := Classify(replies[0].status);
      if c == Success {
        assert Attempts(replies, count, internalRetry) == 1;
      } else if c == Retry && MessageError(replies[0].body).None? && internalRetry {
        GiveUpCorrected(replies[1..], count - 1, internalRetry, retryDelay);
        var r := Outcome(replies, count, internalRetry, retryDelay, true);
        if r.Ok? {
          var k :| 0 <= k < Attempts(replies[1..], count - 1, internalRetry)
                   && Classify(replies[1..][k].status) == Success && Decode(replies[1..][k].body) == r;
          assert replies[k + 1] == replies[1..][k];
        }
      }
    }
  }

  /** One request the wrapper sends: the verb, the URL, the payload, the
      auth tuple and the verification setting. */
  datatype Request = Request(verb: Verb, url: string, payload: Value, auth: (Option<Cred>, Option<Cred>), verify: Verify)

  /** `len(v)`, for the values that have one: strings, lists and dicts, and
      the Typed objects, whose `__len__` is `len(self._data)`
      (typed/__init__.py:252-256). */
  function Length(v: Value): Option<nat> {
    match v
    case Str(s) => Some(|s|)
    case Unicode(s) => Some(|s|)
    case List(xs) => Some(|xs|)
    case FilterList(xs) => Some(|xs|)
    case TypedListObj(_, xs) => Some(|xs|)
    case Dict(es) => Some(|es|)
    case TypedDictObj(_, _, es) => Some(|es|)
    case Complex(_, es) => Some(|es|)
    case Generic(d) => Length(d)
    case _ => None
  }

  /** Python truth of a payload, as `if data:` asks it: None, False and zero
      are false; anything with a length is true when the length is not
      zero; a GenericContainer whose `_data` has no length raises TypeError
      from `__len__`; any other object is true. */
  function Truth(v: Value): (r: Result<bool>)
    ensures r.Err? <==> v.Generic? && Length(v).None?
    ensures r.Err? ==> r.error == TypeError
    ensures Length(v).Some? ==> r == Ok(Length(v).value > 0)
    ensures v.PyNone? ==> r == Ok(false)
  {
    if v.PyNone? then Ok(false)
    else if v.Bool? then Ok(v.b)
    else if v.Int? then Ok(v.i != 0)
    else if v.Float? then Ok(v.f != 0.0)
    else match Length(v)
      case Some(n) => Ok(n > 0)
      case None => if v.Generic? then Err(TypeError) else Ok(true)
  }

  /** The legacy block (fcoclient/clients.py:58-64): `endpoint.format(
      **pattern)`. An IndexError (a positional field) is swallowed and the
      endpoint kept as it was, because the NonRecoverableError meant for it
      is built but not raised; `raiseOnIndex` selects that behaviour (false)
      or the evidently intended raise (true). Every other error escapes. */
  function FormatEndpoint(endpoint: string, pattern: map<string, Value>, raiseOnIndex: bool): Result<string>
    requires PlainTemplate(endpoint) && AllRenderable(pattern)
  {
    var f := Format(endpoint, pattern, AttributeLookup);
    if f.Err? && f.error == IndexError then (if raiseOnIndex then Err(NonRecoverable) else Ok(endpoint))
    else f
  }

  /** As written: an endpoint with a positional field is sent with the field
      still in it. */
  lemma PatternAsWritten()
    ensures PlainTemplate("{0}") && FormatEndpoint("{0}", map[], false) == Ok("{0}")
  {
    var t := "{0}";
    assert t[0] == '{' && t[1] == '0' && t[2] == '}' && "}"[0] == '}';
    assert t[1..2] == "0" && AllDigits("0");
    assert Find(t, "}") == Some(2) by {
      assert OccursAt(t, "}", 2) by {
        assert t[2..3] == "}";
      }
      FirstDiffers(t, "}", 0);
      FirstDiffers(t, "}", 1);
    }
    assert Lookup("0", map[], AttributeLookup) == Err(IndexError);
  }

  /** Corrected: whatever URL the block lets through is the template fully
      formatted with the pattern, so no replacement field reaches the
      server unformatted. */
  lemma PatternCorrected(endpoint: string, pattern: map<string, Value>)
    requires PlainTemplate(endpoint) && AllRenderable(pattern)
    ensures FormatEndpoint(endpoint, pattern, true).Ok? ==>
              Format(endpoint, pattern, AttributeLookup) == FormatEndpoint(endpoint, pattern, true)
    ensures FormatEndpoint(endpoint, pattern, true).Err? ==> Format(endpoint, pattern, AttributeLookup).Err?
  {
  }

  /** The endpoint the wrapper receives is get_endpoint's formatted URL,
      which holds no brace: it passes through the block unchanged, whatever
      other characters the parameter values put in it. */
  lemma FormatEndpointLiteral(endpoint: string, pattern: map<string, Value>, raiseOnIndex: bool)
    requires Literal(endpoint) && AllRenderable(pattern)
    ensures PlainTemplate(endpoint) && FormatEndpoint(endpoint, pattern, raiseOnIndex) == Ok(endpoint)
  {
    FormatText(endpoint, pattern, AttributeLookup);
  }

  /** AddIP's URL for an IPv6 address (resttypes/endpoints.py:423-430):
      the colons of the address are literal text, copied as they are. */
  lemma AddIpEndpoint(nic: string, pattern: map<string, Value>)
    requires Literal(nic) && AllRenderable(pattern)
    ensures var e := "resources/nic/" + nic + "/ip_address/fe80::1/add";
            PlainTemplate(e) && FormatEndpoint(e, pattern, false) == Ok(e)
  {
    var head := "resources/nic/";
    var tail := "/ip_address/fe80::1/add";
    assert Literal(head) && Literal(tail);
    NoBraces(head, nic);
    NoBraces(head + nic, tail);
    FormatEndpointLiteral(head + nic + tail, pattern, false);
  }

  lemma NoBraces(a: string, b: string)
    requires Literal(a) && Literal(b)
    ensures Literal(a + b)
  {
    assert forall i :: 0 <= i < |a + b| ==> (a + b)[i] == if i < |a| then a[i] else b[i - |a|];
  }

  /** `'{service_url}/rest/user/{api_version}/{endpoint}'.format(...)`: a
      byte-string template, so a unicode service URL with a non-ASCII
      character raises UnicodeEncodeError. */
  function RequestUrl(serviceUrl: Option<Cred>, endpoint: string): (r: Result<string>)
    ensures r.Err? <==> CredText(serviceUrl).Err?
    ensures r.Err? ==> r.error == UnicodeError
  {
    match CredText(serviceUrl)
    case Err(e) => Err(e)
    case Ok(u) => Ok(u + "/rest/user/" + ApiVersion + "/" + endpoint)
  }

  /** The URL keeps the service URL as its prefix and the endpoint as its
      suffix. */
  lemma RequestUrlParts(serviceUrl: Option<Cred>, endpoint: string)
    ensures RequestUrl(serviceUrl, endpoint).Ok? ==>
              var s := CredText(serviceUrl).value;
              var u := RequestUrl(serviceUrl, endpoint).value;
              StartsWith(u, s + "/rest/user/5.0/") && EndsWith(u, endpoint)
              && |u| == |s| + |"/rest/user/5.0/"| + |endpoint|
  {
    if RequestUrl(serviceUrl, endpoint).Ok? {
      var s := CredText(serviceUrl).value;
      var u := RequestUrl(serviceUrl, endpoint).value;
      assert u == (s + "/rest/user/5.0/") + endpoint;
      assert u[..|s + "/rest/user/5.0/"|] == s + "/rest/user/5.0/";
      assert u[|u| - |endpoint|..] == endpoint;
    }
  }

  /** The payload sent: `data` when it is true, otherwise the `payload`
      keyword (None when it is not given); the truth test can raise. */
  function ChosenPayload(data: Value, payloadKw: Option<Value>): (r: Result<Value>)
    ensures r.Err? <==> Truth(data).Err?
    ensures r.Err? ==> r.error == TypeError
    ensures Truth(data) == Ok(true) ==> r == Ok(data)
    ensures Truth(data) == Ok(false) ==> r == Ok(if payloadKw.Some? then payloadKw.value else PyNone)
  {
    match Truth(data)
    case Err(e) => Err(e)
    case Ok(t) => Ok(if t then data else if payloadKw.Some? then payloadKw.value else PyNone)
  }

  /** `construct_data` turns `{}` into an empty GenericContainer, which is
      false, so the `payload` keyword is sent in its place; a GenericContainer
      over a number has no length and the truth test raises. */
  lemma ChosenPayloadGeneric(x: Value, n: int)
    ensures ChosenPayload(Generic(Dict([])), Some(x)) == Ok(x)
    ensures ChosenPayload(Generic(Dict([])), None) == Ok(PyNone)
    ensures ChosenPayload(Generic(Int(n)), Some(x)) == Err(TypeError)
  {
    assert Length(Generic(Dict([]))) == Some(0);
    assert Length(Generic(Int(n))) == Length(Int(n)) == None;
  }

  /** `client.<verb>(endpoint, data, **kwargs)` through the wrapper
      (fcoclient/clients.py:49-156): the endpoint is formatted with the
      `pattern` keyword, the URL built, and the request sent until an answer
      or the attempts run out. `replies` stands for the server's answer to
      each request sent; `sent` records the requests. */
  method Call(client: RestClient, verb: Verb, endpoint: string, data: Value,
              pattern: map<string, Value>, payloadKw: Option<Value>, replies: seq<Reply>, raiseOnGiveUp: bool)
    returns (r: Result<Value>, sent: seq<Request>)
    requires PlainTemplate(endpoint) && AllRenderable(pattern)
    requires client.retryCount >= 0 && |replies| >= client.retryCount
    ensures var e := FormatEndpoint(endpoint, pattern, false);
            var payload := ChosenPayload(data, payloadKw);
            (e.Err? ==> r == Err(e.error) && sent == [])
            && (e.Ok? && RequestUrl(client.serviceUrl, e.value).Err? ==> r == Err(UnicodeError) && sent == [])
            && (e.Ok? && RequestUrl(client.serviceUrl, e.value).Ok? && payload.Err? ==>
                  r == Err(payload.error) && sent == [])
            && (e.Ok? && RequestUrl(client.serviceUrl, e.value).Ok? && payload.Ok? ==>
                  r == Outcome(replies, client.retryCount, client.internalRetry, client.retryDelay, raiseOnGiveUp)
                  && |sent| == Attempts(replies, client.retryCount, client.internalRetry)
                  && forall i :: 0 <= i < |sent| ==>
                       sent[i] == Request(verb, RequestUrl(client.serviceUrl, e.value).value,
                                          payload.value, client.auth, client.verify))
  {
    var e := FormatEndpoint(endpoint, pattern, false);
    if e.Err? {
      return Err(e.error), [];
    }
    var url := RequestUrl(client.serviceUrl, e.value);
    if url.Err? {
      return Err(url.error), [];
    }
    var payload := ChosenPayload(data, payloadKw);
    if payload.Err? {
      return Err(payload.error), [];
    }
    var request := Request(verb, url.value, payload.value, client.auth, client.verify);
    r, sent := Send(request, replies, client.retryCount, client.internalRetry, client.retryDelay, raiseOnGiveUp);
  }

  /** One reply: the answer it settles the call with, or one attempt
      more before the rest. */
  lemma SendStep(replies: seq<Reply>, count: nat, internalRetry: bool, retryDelay: int, raiseOnGiveUp: bool)
    requires |replies| >= count > 0
    ensures var c := Classify(replies[0].status);
            var m := MessageError(replies[0].body);
            var o := Outcome(replies, count, internalRetry, retryDelay, raiseOnGiveUp);
            var a := Attempts(replies, count, internalRetry);
            && (c == Success ==> o == Decode(replies[0].body) && a == 1)
            && (c != Success && m.Some? ==> o == Err(m.value) && a == 1)
            && (c == GiveUp && m.None? ==> o == Err(NonRecoverable) && a == 1)
            && (c == Retry && m.None? && !internalRetry ==> o == Err(Recoverable(retryDelay)) && a == 1)
            && (c == Retry && m.None? && internalRetry ==>
                  o == Outcome(replies[1..], count - 1, internalRetry, retryDelay, raiseOnGiveUp)
                  && a == 1 + Attempts(replies[1..], count - 1, internalRetry))
  {
  }

  /** The retry loop of the wrapper: the same request, sent until a reply
      settles the call or the attempts run out. */
  method Send(request: Request, replies: seq<Reply>, count: nat, internalRetry: bool, retryDelay: int,
              raiseOnGiveUp: bool)
    returns (r: Result<Value>, sent: seq<Request>)
    requires |replies| >= count
    ensures r == Outcome(replies, count, internalRetry, retryDelay, raiseOnGiveUp)
    ensures |sent| == Attempts(replies, count, internalRetry)
    ensures forall i :: 0 <= i < |sent| ==> sent[i] == request
  {
    sent := [];
    var retryCount: nat := count;
    var n := 0;
    while retryCount != 0
      invariant n + retryCount == count
      invariant |sent| == n
      invariant forall i :: 0 <= i < n ==> sent[i] == request
      invariant Outcome(replies, count, internalRetry, retryDelay, raiseOnGiveUp)
                == Outcome(replies[n..], retryCount, internalRetry, retryDelay, raiseOnGiveUp)
      invariant Attempts(replies, count, internalRetry) == n + Attempts(replies[n..], retryCount, internalRetry)
      decreases retryCount
    {
      SendStep(replies[n..], retryCount, internalRetry, retryDelay, raiseOnGiveUp);
      sent := sent + [request];
      var reply := replies[n];
      var c := Classify(reply.status);
      if c == Success {
        return Decode(reply.body), sent;
      }
      var m := MessageError(reply.body);
      if m.Some? {
        return Err(m.value), sent;
      }
      if c == GiveUp {
        return Err(NonRecoverable), sent;
      }
      if !internalRetry {
        return Err(Recoverable(retryDelay)), sent;
      }
      assert replies[n..][1..] == replies[n + 1..];
      retryCount := retryCount - 1;
      n := n + 1;
    }
    if raiseOnGiveUp {
      r := Err(NonRecoverable);
    } else {
      r := Ok(PyNone);
    }
  }
}
