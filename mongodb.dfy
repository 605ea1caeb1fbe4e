/**
 * `addAuditFields`, the pre-handler extension the MongoDB plugin installs:
 * on every authenticated request other than a GET it replaces the payload
 * with one carrying audit fields, create fields for a POST and update fields
 * for any other method. `addCreateAuditFields` and `addUpdateAuditFields`
 * live in mongo-audit.js, which is not part of this model; they are
 * parameters.
 */
module MongoDb {
  import opened Wrappers
  import opened Js
  import opened Errors

  /** `String.prototype.toUpperCase` on ASCII letters. */
  function UpperAscii(s: string): (r: string)
    ensures |r| == |s|
    ensures forall i :: 0 <= i < |s| && 'a' <= s[i] <= 'z' ==> r[i] == (s[i] as int - 'a' as int + 'A' as int) as char
    ensures forall i :: 0 <= i < |s| && !('a' <= s[i] <= 'z') ==> r[i] == s[i]
    ensures forall i :: 0 <= i < |s| ==> !('a' <= r[i] <= 'z')
  {
    if s == [] then []
    else
      var c := s[0];
      var rest := UpperAscii(s[1..]);
      assert forall i :: 1 <= i < |s| ==> s[i] == s[1..][i - 1];
      [if 'a' <= c <= 'z' then (c as int - 'a' as int + 'A' as int) as char else c] + rest
  }

  /** Upper-casing twice changes nothing more. */
  lemma UpperAsciiIdempotent(s: string)
    ensures UpperAscii(UpperAscii(s)) == UpperAscii(s)
  {
    var u := UpperAscii(s);
    assert forall i :: 0 <= i < |u| ==> UpperAscii(u)[i] == u[i];
  }

  /** Two characters that are the same letter in either ASCII case, or the same character. */
  predicate SameLetter(c: char, d: char) {
    c == d
    || ('a' <= c <= 'z' && d as int == c as int - 'a' as int + 'A' as int)
    || ('a' <= d <= 'z' && c as int == d as int - 'a' as int + 'A' as int)
  }

  /** Two strings that differ at most in the ASCII case of their letters. */
  predicate SameIgnoringAsciiCase(a: string, b: string) {
    |a| == |b| && forall i :: 0 <= i < |a| ==> SameLetter(a[i], b[i])
  }

  /** Strings that differ only in letter case upper-case to the same string. */
  lemma UpperAsciiIgnoresCase(a: string, b: string)
    requires SameIgnoringAsciiCase(a, b)
    ensures UpperAscii(a) == UpperAscii(b)
  {
    assert forall i :: 0 <= i < |a| ==> UpperAscii(a)[i] == UpperAscii(b)[i];
  }

  /** `request.auth`: present on routes with a strategy; `credentials` set once a token was validated. */
  datatype RequestAuth = RequestAuth(credentials: Value)

  /** `!request.auth?.credentials` */
  predicate Unauthenticated(auth: Option<RequestAuth>) {
    auth.None? || !Truthy(auth.value.credentials)
  }

  /** The payload `addAuditFields` leaves on the request. */
  function AuditedPayload(httpMethod: string, auth: Option<RequestAuth>, payload: Value,
                          addCreate: (RequestAuth, Value) -> Value,
                          addUpdate: (RequestAuth, Value) -> Value): Value
  {
    var requestMethod := UpperAscii(httpMethod);
    if requestMethod == "GET" then payload
    else if Unauthenticated(auth) then payload
    else if requestMethod == "POST" then addCreate(auth.value, payload)
    else addUpdate(auth.value, payload)
  }

  /** A GET keeps its payload, authenticated or not, whatever the method's letter case. */
  lemma GetKeepsPayload(httpMethod: string, auth: Option<RequestAuth>, payload: Value,
                        addCreate: (RequestAuth, Value) -> Value, addUpdate: (RequestAuth, Value) -> Value)
    requires UpperAscii(httpMethod) == "GET"
    ensures AuditedPayload(httpMethod, auth, payload, addCreate, addUpdate) == payload
  {
  }

  /** A request without credentials keeps its payload. */
  lemma UnauthenticatedKeepsPayload(httpMethod: string, auth: Option<RequestAuth>, payload: Value,
                                    addCreate: (RequestAuth, Value) -> Value, addUpdate: (RequestAuth, Value) -> Value)
    requires Unauthenticated(auth)
    ensures AuditedPayload(httpMethod, auth, payload, addCreate, addUpdate) == payload
  {
  }

  /** An authenticated POST, in any letter case, gets the create audit fields. */
  lemma AuthenticatedPostCreates(httpMethod: string, auth: Option<RequestAuth>, payload: Value,
                                 addCreate: (RequestAuth, Value) -> Value, addUpdate: (RequestAuth, Value) -> Value)
    requires UpperAscii(httpMethod) == "POST" && !Unauthenticated(auth)
    ensures AuditedPayload(httpMethod, auth, payload, addCreate, addUpdate) == addCreate(auth.value, payload)
  {
  }

  /** Any other authenticated method gets the update audit fields. */
  lemma AuthenticatedOtherUpdates(httpMethod: string, auth: Option<RequestAuth>, payload: Value,
                                  addCreate: (RequestAuth, Value) -> Value, addUpdate: (RequestAuth, Value) -> Value)
    requires UpperAscii(httpMethod) != "GET" && UpperAscii(httpMethod) != "POST" && !Unauthenticated(auth)
    ensures AuditedPayload(httpMethod, auth, payload, addCreate, addUpdate) == addUpdate(auth.value, payload)
  {
  }

  /** The method is compared case-insensitively: methods that differ only in letter case are treated alike. */
  lemma MethodCaseIsIgnored(method1: string, method2: string, auth: Option<RequestAuth>, payload: Value,
                            addCreate: (RequestAuth, Value) -> Value, addUpdate: (RequestAuth, Value) -> Value)
    requires SameIgnoringAsciiCase(method1, method2)
    ensures AuditedPayload(method1, auth, payload, addCreate, addUpdate)
         == AuditedPayload(method2, auth, payload, addCreate, addUpdate)
  {
    UpperAsciiIgnoresCase(method1, method2);
  }

  /** hapi reports methods in lower case: an authenticated "post" gets the create audit fields. */
  lemma LowerCasePostCreates(auth: Option<RequestAuth>, payload: Value,
                             addCreate: (RequestAuth, Value) -> Value, addUpdate: (RequestAuth, Value) -> Value)
    requires !Unauthenticated(auth)
    ensures AuditedPayload("post", auth, payload, addCreate, addUpdate) == addCreate(auth.value, payload)
  {
    assert UpperAscii("post") == "POST";
  }

  /** The parts of a hapi request the extension reads and writes. */
  class Request {
    const httpMethod: string
    const auth: Option<RequestAuth>
    var payload: Value

    constructor (httpMethod: string, auth: Option<RequestAuth>, payload: Value)
      ensures this.httpMethod == httpMethod && this.auth == auth && this.payload == payload
    {
      this.httpMethod := httpMethod;
      this.auth := auth;
      this.payload := payload;
    }

    /** `addAuditFields(request, h)`: overwrites `request.payload` in place and always continues. */
    method AddAuditFields(addCreate: (RequestAuth, Value) -> Value, addUpdate: (RequestAuth, Value) -> Value)
      returns (signal: Lifecycle)
      modifies this
      ensures signal == Continue
      ensures payload == AuditedPayload(httpMethod, auth, old(payload), addCreate, addUpdate)
    {
      var requestMethod := UpperAscii(httpMethod);
      if requestMethod == "GET" {
        return Continue;
      }
      if Unauthenticated(auth) {
        return Continue;
      }
      if requestMethod == "POST" {
        payload := addCreate(auth.value, payload);
        return Continue;
      }
      payload := addUpdate(auth.value, payload);
      return Continue;
    }
  }
}
