/** What the Go handlers see of an HTTP request, and the ordered guard chain that both
    Go versions put in front of their store mutation (method, then content type, then
    form parsing, then, for create, a non-blank title). */
module GoHttp {
  import opened Todos

  const MethodPost := "POST"
  const FormUrlEncoded := "application/x-www-form-urlencoded"

  const StatusOK := 200
  const StatusCreated := 201
  const StatusBadRequest := 400
  const StatusMethodNotAllowed := 405
  const StatusUnsupportedMediaType := 415

  /** Decoded form values (`url.Values`): each key maps to the list of its values. */
  type Form = map<string, seq<string>>

  /** A request as the handlers read it: `verb` is the HTTP method, `contentType` is the `Content-Type` header
      ("" when absent), `formOk` says whether `ParseForm` succeeded, `form` is its result. */
  datatype Request = Request(verb: string, contentType: string, formOk: bool, form: Form)

  /** `FormValue`: the first value of the key, or "" when the key is missing or has no value. */
  function FormValue(form: Form, key: string): (v: string)
    ensures key !in form ==> v == ""
    ensures key in form && form[key] != [] ==> v == form[key][0]
    ensures key in form && form[key] == [] ==> v == ""
  {
    if key in form && |form[key]| > 0 then form[key][0] else ""
  }

  predicate IsLowerHexDigit(c: char)
  {
    '0' <= c <= '9' || 'a' <= c <= 'f'
  }

  /** The text form of a `uuid.UUID` (`String()`): 36 characters, lower-case hex digits in
      groups of 8, 4, 4, 4 and 12 separated by dashes. */
  predicate IsUuidText(s: string)
  {
    |s| == 36 &&
    forall i :: 0 <= i < |s| ==> if i == 8 || i == 13 || i == 18 || i == 23 then s[i] == '-' else IsLowerHexDigit(s[i])
  }

  /** Every id in a store of the Go service is the text of a UUID. */
  predicate UuidIds(s: seq<Todo>)
  {
    forall k :: 0 <= k < |s| ==> IsUuidText(s[k].id)
  }

  /** An update without an `id` field reads the id as "", which is no UUID text, so it
      leaves a store of UUID-identified records as it was. */
  lemma {:induction false} MissingIdLeavesStore(s: seq<Todo>, form: Form, done: bool)
    requires UuidIds(s)
    requires "id" !in form
    ensures MarkDone(s, FormValue(form, "id"), done) == s
  {
    MarkDoneUnknownId(s, FormValue(form, "id"), done);
  }

  /** `unicode.IsSpace`: the Unicode White_Space characters. */
  predicate IsSpace(c: char)
  {
    ('\U{9}' <= c <= '\U{D}') || c == ' ' || c == '\U{85}' || c == '\U{A0}' ||
    c == '\U{1680}' || ('\U{2000}' <= c <= '\U{200A}') || c == '\U{2028}' || c == '\U{2029}' ||
    c == '\U{202F}' || c == '\U{205F}' || c == '\U{3000}'
  }

  /** Drop leading white space: the result is a suffix that does not start with it. */
  function TrimLeft(s: string): (r: string)
    ensures |r| <= |s| && r == s[|s| - |r|..]
    ensures r != [] ==> !IsSpace(r[0])
    ensures forall i :: 0 <= i < |s| - |r| ==> IsSpace(s[i])
  {
    if s != [] && IsSpace(s[0]) then TrimLeft(s[1..]) else s
  }

  /** Drop trailing white space: the result is a prefix that does not end with it. */
  function TrimRight(s: string): (r: string)
    ensures |r| <= |s| && r == s[..|r|]
    ensures r != [] ==> !IsSpace(r[|r| - 1])
    ensures forall i :: |r| <= i < |s| ==> IsSpace(s[i])
  {
    if s != [] && IsSpace(s[|s| - 1]) then TrimRight(s[..|s| - 1]) else s
  }

  /** `strings.TrimSpace`. */
  function TrimSpace(s: string): string
  {
    TrimRight(TrimLeft(s))
  }

  /** The title guard of create: `len(strings.TrimSpace(title)) < 1`. */
  predicate Blank(s: string)
  {
    |TrimSpace(s)| < 1
  }

  /** A title is rejected exactly when it is empty or made only of white space. */
  lemma BlankIffAllSpace(s: string)
    ensures Blank(s) <==> forall i :: 0 <= i < |s| ==> IsSpace(s[i])
  {
  }

  /** One early-return check: if it does not pass, the handler answers `status`. */
  datatype Guard = Guard(passes: bool, status: int)

  /** The answer of a chain of early-return checks: the status of the first failing
      check, or `success` when every check passes. */
  function FirstFailure(guards: seq<Guard>, success: int): (status: int)
    ensures (forall i :: 0 <= i < |guards| ==> guards[i].passes) ==> status == success
  {
    if guards == [] then success
    else if !guards[0].passes then guards[0].status
    else FirstFailure(guards[1..], success)
  }

  /** The first failing check decides, whatever the later checks would say. */
  lemma {:induction false} FirstFailureDecides(guards: seq<Guard>, success: int, k: nat)
    requires k < |guards| && !guards[k].passes
    requires forall j :: 0 <= j < k ==> guards[j].passes
    ensures FirstFailure(guards, success) == guards[k].status
  {
    if k > 0 {
      FirstFailureDecides(guards[1..], success, k - 1);
    }
  }

  /** The checks both handlers make, in source order. */
  function RequestGuards(req: Request): seq<Guard>
  {
    [Guard(req.verb == MethodPost, StatusMethodNotAllowed),
     Guard(req.contentType == FormUrlEncoded, StatusUnsupportedMediaType),
     Guard(req.formOk, StatusBadRequest)]
  }

  function Title(req: Request): string
  {
    FormValue(req.form, "title")
  }

  /** The checks of create: the request checks, then the title check. */
  function CreateGuards(req: Request): seq<Guard>
  {
    RequestGuards(req) + [Guard(!Blank(Title(req)), StatusBadRequest)]
  }

  /** The status of create: that of the first failing check, else 201. */
  function CreateStatus(req: Request): int
  {
    FirstFailure(CreateGuards(req), StatusCreated)
  }

  /** The status of update: the request checks, else 200 whatever the id and done fields. */
  function UpdateStatus(req: Request): int
  {
    FirstFailure(RequestGuards(req), StatusOK)
  }

  /** The outcomes of the create guard chain, one per first failing check. */
  lemma CreateDecisionTable(req: Request)
    ensures req.verb != MethodPost ==> CreateStatus(req) == StatusMethodNotAllowed
    ensures req.verb == MethodPost && req.contentType != FormUrlEncoded ==>
              CreateStatus(req) == StatusUnsupportedMediaType
    ensures req.verb == MethodPost && req.contentType == FormUrlEncoded && !req.formOk ==>
              CreateStatus(req) == StatusBadRequest
    ensures req.verb == MethodPost && req.contentType == FormUrlEncoded && req.formOk ==>
              CreateStatus(req) == if Blank(Title(req)) then StatusBadRequest else StatusCreated
  {
    var guards := CreateGuards(req);
    if req.verb != MethodPost {
      FirstFailureDecides(guards, StatusCreated, 0);
    } else if req.contentType != FormUrlEncoded {
      FirstFailureDecides(guards, StatusCreated, 1);
    } else if !req.formOk {
      FirstFailureDecides(guards, StatusCreated, 2);
    } else if Blank(Title(req)) {
      FirstFailureDecides(guards, StatusCreated, 3);
    }
  }

  /** The outcomes of the update guard chain: 405, 415, 400 in that order, else 200. */
  lemma UpdateDecisionTable(req: Request)
    ensures req.verb != MethodPost ==> UpdateStatus(req) == StatusMethodNotAllowed
    ensures req.verb == MethodPost && req.contentType != FormUrlEncoded ==>
              UpdateStatus(req) == StatusUnsupportedMediaType
    ensures req.verb == MethodPost && req.contentType == FormUrlEncoded && !req.formOk ==>
              UpdateStatus(req) == StatusBadRequest
    ensures req.verb == MethodPost && req.contentType == FormUrlEncoded && req.formOk ==>
              UpdateStatus(req) == StatusOK
  {
    var guards := RequestGuards(req);
    if req.verb != MethodPost {
      FirstFailureDecides(guards, StatusOK, 0);
    } else if req.contentType != FormUrlEncoded {
      FirstFailureDecides(guards, StatusOK, 1);
    } else if !req.formOk {
      FirstFailureDecides(guards, StatusOK, 2);
    }
  }
}
