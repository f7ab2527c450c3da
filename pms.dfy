/** The router generator of cmd/protoc-gen-routers/plugin/pms/pms.go. For
    each service it emits a handler interface, a router interface, a router
    struct, a function registering the HTTP routes with an `api.Api`, one
    gin handler per method, and the `fail`/`success`/`returnBack` helpers.
    The verb and path of a method come from its `google.api.http` option
    (an `HttpRule`, google/api/http.proto).

    The generator it plugs into is seen through three functions:
    `TypeName(ObjectNamed(·))`, `CamelCase` and `GetDescriptorProto`. */
module Pms {
  import opened Wrappers
  import opened Generator

  // ---------------------------------------------------------------------
  // Descriptors and HTTP rules

  /** The `pattern` oneof of an `HttpRule`: at most one of its cases is
      set. */
  datatype Pattern =
    | GetPattern(get: string)
    | PutPattern(put: string)
    | PostPattern(post: string)
    | DeletePattern(delete: string)
    | PatchPattern(patch: string)
    | CustomPattern(kind: string, path: string)
    | NoPattern

  /** The part of an `HttpRule` the generator reads. */
  datatype HttpRule = HttpRule(pattern: Pattern)

  /** `MethodOptions`, with the `google.api.http` extension when present. */
  datatype MethodOptions = MethodOptions(http: Option<HttpRule>)

  /** `MethodDescriptorProto`; `None` options are nil options. */
  datatype Method = Method(name: string, inputType: string, outputType: string, options: Option<MethodOptions>)

  datatype Service = Service(name: string, methods: seq<Method>)

  datatype FieldType = TypeInt32 | TypeString | OtherType

  datatype ProtoField = ProtoField(name: string, ftype: FieldType)

  /** `DescriptorProto`, by its fields. */
  datatype MsgProto = MsgProto(fields: seq<ProtoField>)

  /** The generator: `TypeName(ObjectNamed(·))`, `CamelCase` and
      `GetDescriptorProto`, which may find nothing. */
  datatype Gen = Gen(typeName: string -> string, camelCase: string -> string, descriptorProto: string -> Option<MsgProto>)

  // The generated getters of the oneof: the path when that case is set,
  // "" otherwise.

  function GetDelete(r: HttpRule): string {
    if r.pattern.DeletePattern? then r.pattern.delete else ""
  }

  function GetGet(r: HttpRule): string {
    if r.pattern.GetPattern? then r.pattern.get else ""
  }

  function GetPatch(r: HttpRule): string {
    if r.pattern.PatchPattern? then r.pattern.patch else ""
  }

  function GetPost(r: HttpRule): string {
    if r.pattern.PostPattern? then r.pattern.post else ""
  }

  function GetPut(r: HttpRule): string {
    if r.pattern.PutPattern? then r.pattern.put else ""
  }

  /** The method has options carrying the http extension. */
  predicate HasHttp(m: Method) {
    m.options.Some? && m.options.value.http.Some?
  }

  /** The verb and path a pattern stands for: the standard verbs with a
      non-empty path; nothing for custom verbs, empty paths or no pattern. */
  function Route(p: Pattern): (string, string) {
    match p
    case DeletePattern(path) => if path == "" then ("", "") else ("DELETE", path)
    case GetPattern(path) => if path == "" then ("", "") else ("GET", path)
    case PatchPattern(path) => if path == "" then ("", "") else ("PATCH", path)
    case PostPattern(path) => if path == "" then ("", "") else ("POST", path)
    case PutPattern(path) => if path == "" then ("", "") else ("PUT", path)
    case CustomPattern(_, _) => ("", "")
    case NoPattern => ("", "")
  }

  /** `getRule`: ("", "") without options or without the http extension;
      otherwise the verb and path of the rule's pattern. Verb and path are
      both empty or both non-empty. */
  function GetRule(m: Method): (r: (string, string))
    ensures (r.0 == "") == (r.1 == "")
    ensures !HasHttp(m) ==> r == ("", "")
    ensures HasHttp(m) ==> r == Route(m.options.value.http.value.pattern)
    ensures r.0 in {"", "DELETE", "GET", "PATCH", "POST", "PUT"}
  {
    if !HasHttp(m) then ("", "")
    else
      var rule := m.options.value.http.value;
      var mp :=
        if |GetDelete(rule)| > 0 then ("DELETE", GetDelete(rule))
        else if |GetGet(rule)| > 0 then ("GET", GetGet(rule))
        else if |GetPatch(rule)| > 0 then ("PATCH", GetPatch(rule))
        else if |GetPost(rule)| > 0 then ("POST", GetPost(rule))
        else if |GetPut(rule)| > 0 then ("PUT", GetPut(rule))
        else ("", "");
      if |mp.0| == 0 || |mp.1| == 0 then ("", "") else mp
  }

  const EmptyType: string := "emptypb.Empty"

  /** `typeEmpty`. */
  predicate TypeEmpty(typeName: string) {
    typeName == EmptyType
  }

  /** The method has a verb and a path. */
  predicate Routed(m: Method) {
    GetRule(m).0 != ""
  }

  // ---------------------------------------------------------------------
  // Handler interface, router interface and route registration

  /** The handler interface's method: the request parameter and the
      response result are left out for `emptypb.Empty`. */
  function HandlerLine(g: Gen, m: Method): string {
    var input := g.typeName(m.inputType);
    var output := g.typeName(m.outputType);
    m.name + "(" + (if TypeEmpty(input) then "" else "req *" + input) + ") (" +
      (if TypeEmpty(output) then "" else "*" + output + ", ") + "error)"
  }

  /** `emptypb.Empty` never reaches a handler's signature: the request
      parameter is dropped exactly when the input is Empty (the line then
      opens with `Name()`), and the response result exactly when the output
      is Empty (the line then ends in `) (error)`). */
  lemma EmptyTypesDropped(g: Gen, m: Method)
    ensures var line := HandlerLine(g, m);
      |line| >= |m.name| + 10 &&
      (TypeEmpty(g.typeName(m.inputType)) <==> line[..|m.name| + 2] == m.name + "()") &&
      (TypeEmpty(g.typeName(m.outputType)) <==> line[|line| - 9..] == ") (error)")
  {
    var input := g.typeName(m.inputType);
    var output := g.typeName(m.outputType);
    var a := if TypeEmpty(input) then "" else "req *" + input;
    var b := if TypeEmpty(output) then "" else "*" + output + ", ";
    var line := HandlerLine(g, m);
    assert line == m.name + "(" + a + ") (" + b + "error)";
    assert line[|m.name| + 1] == (if TypeEmpty(input) then ')' else 'r');
    assert line[|line| - 8] == (if TypeEmpty(output) then ' ' else ',');
    if TypeEmpty(output) {
      assert line[|line| - 9..] == ") (error)";
    } else {
      assert line[|line| - 9..][1] == ',' != ") (error)"[1];
    }
    if TypeEmpty(input) {
      assert line[..|m.name| + 2] == m.name + "()";
    } else {
      assert line[..|m.name| + 2][|m.name| + 1] == 'r' != (m.name + "()")[|m.name| + 1];
    }
  }

  function HandlerLines(g: Gen, ms: seq<Method>): seq<string>
    decreases |ms|
  {
    if ms == [] then []
    else
      var m := ms[|ms| - 1];
      HandlerLines(g, ms[..|ms| - 1]) + (if Routed(m) then [HandlerLine(g, m)] else [])
  }

  /** The methods that have a verb and a path, in order. */
  function RoutedOnly(ms: seq<Method>): seq<Method>
    decreases |ms|
  {
    if ms == [] then []
    else RoutedOnly(ms[..|ms| - 1]) + (if Routed(ms[|ms| - 1]) then [ms[|ms| - 1]] else [])
  }

  /** The handler interface has one line per routed method, in order, and
      none for the others. */
  lemma {:induction false} HandlerSkipsUnrouted(g: Gen, ms: seq<Method>)
    ensures forall m :: m in RoutedOnly(ms) <==> m in ms && Routed(m)
    ensures HandlerLines(g, ms) ==
      seq(|RoutedOnly(ms)|, i requires 0 <= i < |RoutedOnly(ms)| => HandlerLine(g, RoutedOnly(ms)[i]))
    decreases |ms|
  {
    if ms != [] {
      var n := |ms| - 1;
      HandlerSkipsUnrouted(g, ms[..n]);
      assert ms == ms[..n] + [ms[n]];
    }
  }

  function RouterLines(ms: seq<Method>): seq<string>
    decreases |ms|
  {
    if ms == [] then [] else RouterLines(ms[..|ms| - 1]) + [ms[|ms| - 1].name + "(c *gin.Context)"]
  }

  /** The router interface lists every method, with or without a rule. */
  lemma {:induction false} RouterListsEveryMethod(ms: seq<Method>)
    ensures RouterLines(ms) == seq(|ms|, i requires 0 <= i < |ms| => ms[i].name + "(c *gin.Context)")
    decreases |ms|
  {
    if ms != [] {
      RouterListsEveryMethod(ms[..|ms| - 1]);
    }
  }

  /** The registration of one method: `a.VERB("path", r.Name)`. */
  function RegisterLine(m: Method): string {
    var r := GetRule(m);
    "a." + r.0 + "(\"" + r.1 + "\", r." + m.name + ")"
  }

  function RegisterLines(ms: seq<Method>): seq<string>
    decreases |ms|
  {
    if ms == [] then []
    else
      var m := ms[|ms| - 1];
      RegisterLines(ms[..|ms| - 1]) + (if HasHttp(m) then [RegisterLine(m)] else [])
  }

  /** The methods carrying the http extension, in order. */
  function HttpOnly(ms: seq<Method>): seq<Method>
    decreases |ms|
  {
    if ms == [] then []
    else HttpOnly(ms[..|ms| - 1]) + (if HasHttp(ms[|ms| - 1]) then [ms[|ms| - 1]] else [])
  }

  /** `HttpOnly` keeps exactly the methods with an http option. */
  lemma {:induction false} HttpOnlyMembers(ms: seq<Method>)
    ensures forall m :: m in HttpOnly(ms) <==> m in ms && HasHttp(m)
    decreases |ms|
  {
    if ms != [] {
      var n := |ms| - 1;
      HttpOnlyMembers(ms[..n]);
      assert ms == ms[..n] + [ms[n]];
    }
  }

  /** `Register<Service>Routers` holds one registration line per method with
      an http option, in the methods' order, and nothing else. */
  lemma {:induction false} RegisterOnePerHttpMethod(ms: seq<Method>)
    ensures RegisterLines(ms) ==
      seq(|HttpOnly(ms)|, i requires 0 <= i < |HttpOnly(ms)| => RegisterLine(HttpOnly(ms)[i]))
    decreases |ms|
  {
    if ms != [] {
      var n := |ms| - 1;
      RegisterOnePerHttpMethod(ms[..n]);
    }
  }

  // ---------------------------------------------------------------------
  // Per-method gin handlers

  /** The check after the handler call, shared by every generated body. */
  const FailCheck: seq<string> := ["if err != nil {", "h.fail(c, err)", "return", "}", ""]

  /** Binding the JSON request, unless it is Empty. */
  function BindLines(input: string): seq<string> {
    if TypeEmpty(input) then []
    else ["req := &" + input + "{}", "if err := c.ShouldBindJSON(req); err != nil {", "h.fail(c, err)", "return", "}", ""]
  }

  /** The handler call of a POST handler and the answer with its response
      (or "" when the response is Empty), closing the function. */
  function PostCall(serv: string, m: Method, argReq: string, output: string): seq<string> {
    [(if TypeEmpty(output) then "err := h." else "rsp, err := h.") + serv + "Handler." + m.name + "(" + argReq + ")"] +
    FailCheck +
    [if TypeEmpty(output) then ReturnEmpty else ReturnRsp, "}", ""]
  }

  const ReturnEmpty: string := "h.returnBack(c, err, \"\")"
  const ReturnRsp: string := "h.returnBack(c, err, rsp)"

  /** The body of a POST handler. */
  function PostBody(g: Gen, serv: string, m: Method): seq<string> {
    var input := g.typeName(m.inputType);
    BindLines(input) + PostCall(serv, m, if TypeEmpty(input) then "" else "req", g.typeName(m.outputType))
  }

  /** What the GET field loop has produced so far: its lines, `arg` and
      the last `reqField`. */
  datatype Fields = Fields(lines: seq<string>, arg: string, reqField: string)

  /** A field's query parameter lines. */
  function QueryLines(f: ProtoField): seq<string> {
    match f.ftype
    case TypeInt32 =>
      [f.name + ", err := strconv.Atoi(c.Query(\"" + f.name + "\"))", "if err != nil {", "h.fail(c, err)", "return", "}", ""]
    case TypeString => [f.name + " := c.Query(\"" + f.name + "\")", ""]
    case OtherType => []
  }

  /** A field's entry in the request literal ("" for other types). */
  function Entry(g: Gen, f: ProtoField): string {
    match f.ftype
    case TypeInt32 => g.camelCase(f.name) + ": int32(" + f.name + "), \n"
    case TypeString => g.camelCase(f.name) + ": " + f.name + ", \n"
    case OtherType => ""
  }

  /** One iteration of the field loop: `reqField` keeps its previous value
      for a field that is neither int32 nor string, and is appended to
      `arg` all the same. */
  function FieldStep(g: Gen, acc: Fields, f: ProtoField): Fields {
    var reqField := if f.ftype.OtherType? then acc.reqField else Entry(g, f);
    Fields(acc.lines + QueryLines(f), acc.arg + reqField, reqField)
  }

  function FieldsOf(g: Gen, fs: seq<ProtoField>): Fields
    decreases |fs|
  {
    if fs == [] then Fields([], "\n", "") else FieldStep(g, FieldsOf(g, fs[..|fs| - 1]), fs[|fs| - 1])
  }

  /** The `arg` the field loop is meant to build: one entry per int32 or
      string field, in the fields' order. */
  function Entries(g: Gen, fs: seq<ProtoField>): string
    decreases |fs|
  {
    if fs == [] then "" else Entry(g, fs[0]) + Entries(g, fs[1..])
  }

  lemma {:induction false} EntriesSnoc(g: Gen, fs: seq<ProtoField>, f: ProtoField)
    ensures Entries(g, fs + [f]) == Entries(g, fs) + Entry(g, f)
    decreases |fs|
  {
    if fs == [] {
      assert Entries(g, [f]) == Entry(g, f) + Entries(g, []);
    } else {
      assert (fs + [f])[1..] == fs[1..] + [f];
      EntriesSnoc(g, fs[1..], f);
    }
  }

  /** As written, a field of another type repeats the entry of the
      supported field before it, so the request literal names that field
      twice. */
  lemma StaleEntryRepeats(g: Gen, a: string, b: string)
    ensures FieldsOf(g, [ProtoField(a, TypeString), ProtoField(b, OtherType)]).arg ==
      "\n" + Entry(g, ProtoField(a, TypeString)) + Entry(g, ProtoField(a, TypeString))
    ensures Entries(g, [ProtoField(a, TypeString), ProtoField(b, OtherType)]) == Entry(g, ProtoField(a, TypeString))
  {
    var fs := [ProtoField(a, TypeString), ProtoField(b, OtherType)];
    assert fs[..1] == [fs[0]] && fs[..1][..0] == [];
    var one := FieldsOf(g, fs[..1]);
    assert FieldsOf(g, fs[..1][..0]) == Fields([], "\n", "");
    assert one == FieldStep(g, Fields([], "\n", ""), fs[0]);
    assert FieldsOf(g, fs) == FieldStep(g, one, fs[1]);
    assert Entries(g, fs[1..]) == Entry(g, fs[1]) + Entries(g, []);
  }

  /** The field loop with `reqField` reset for every field. */
  function FieldStepFixed(g: Gen, acc: Fields, f: ProtoField): Fields {
    Fields(acc.lines + QueryLines(f), acc.arg + Entry(g, f), Entry(g, f))
  }

  function FieldsFixed(g: Gen, fs: seq<ProtoField>): Fields
    decreases |fs|
  {
    if fs == [] then Fields([], "\n", "") else FieldStepFixed(g, FieldsFixed(g, fs[..|fs| - 1]), fs[|fs| - 1])
  }

  lemma ArgFixedStep(g: Gen, fs: seq<ProtoField>)
    requires fs != []
    ensures FieldsFixed(g, fs).arg == FieldsFixed(g, fs[..|fs| - 1]).arg + Entry(g, fs[|fs| - 1])
  {
  }

  /** The corrected loop builds one entry per supported field, in order. */
  lemma {:induction false} FieldsFixedEntries(g: Gen, fs: seq<ProtoField>)
    ensures FieldsFixed(g, fs).arg == "\n" + Entries(g, fs)
    decreases |fs|
  {
    if fs != [] {
      var pre, f := fs[..|fs| - 1], fs[|fs| - 1];
      assert pre + [f] == fs;
      FieldsFixedEntries(g, pre);
      EntriesSnoc(g, pre, f);
      ArgFixedStep(g, fs);
      Assoc("\n", Entries(g, pre), Entry(g, f));
    }
  }

  /** The correction writes the same query lines as the loop as written and
      agrees with it on every message whose fields are all int32 or
      string. */
  lemma {:induction false} FieldsFixedAgrees(g: Gen, fs: seq<ProtoField>)
    ensures FieldsFixed(g, fs).lines == FieldsOf(g, fs).lines
    ensures (forall i :: 0 <= i < |fs| ==> !fs[i].ftype.OtherType?) ==> FieldsOf(g, fs) == FieldsFixed(g, fs)
    decreases |fs|
  {
    if fs != [] {
      var n := |fs| - 1;
      FieldsFixedAgrees(g, fs[..n]);
      if forall i :: 0 <= i < |fs| ==> !fs[i].ftype.OtherType? {
        assert forall i :: 0 <= i < n ==> fs[..n][i] == fs[i];
      }
    }
  }

  /** The end of a GET body: call the handler and answer with its
      response. */
  function GetCall(serv: string, m: Method, args: string): seq<string> {
    ["rsp, err := h." + serv + "Handler." + m.name + "(" + args + ")"] + FailCheck + [ReturnRsp]
  }

  /** Reading each int32 or string field of the request message from the
      query, building the request and calling the handler with it. */
  function QueryBody(g: Gen, serv: string, m: Method, input: string, mp: MsgProto): seq<string> {
    var fl := FieldsOf(g, mp.fields);
    fl.lines + ["req := &" + input + "{" + fl.arg + "}", ""] + GetCall(serv, m, "req")
  }

  /** The body of a GET handler: without an Empty request, read the request
      from the query (nothing at all when the message is unknown); call the
      handler; close the function. */
  function GetBody(g: Gen, serv: string, m: Method): seq<string> {
    var input := g.typeName(m.inputType);
    (if !TypeEmpty(input) then
       match g.descriptorProto(input)
       case None => []
       case Some(mp) => QueryBody(g, serv, m, input, mp)
     else GetCall(serv, m, "")) +
    ["}", ""]
  }

  function ImplHeader(serv: string, m: Method): string {
    "func (h *" + serv + "_Router) " + m.name + "(c *gin.Context) {"
  }

  /** The gin handler of one method: the header always; for a routed
      method a blank line, preceded by the body for POST and GET. */
  function ImplLines(g: Gen, serv: string, m: Method): seq<string> {
    var r := GetRule(m);
    [ImplHeader(serv, m)] +
    (if r.0 == "" || r.1 == "" then []
     else (if r.0 == "POST" then PostBody(g, serv, m) else if r.0 == "GET" then GetBody(g, serv, m) else []) + [""])
  }

  /** Only POST and GET handlers get a body and a closing brace; an
      unrouted method gets just the header, a method with another verb the
      header and a blank line. */
  lemma ImplShape(g: Gen, serv: string, m: Method)
    ensures !Routed(m) ==> ImplLines(g, serv, m) == [ImplHeader(serv, m)]
    ensures Routed(m) && GetRule(m).0 !in {"POST", "GET"} ==> ImplLines(g, serv, m) == [ImplHeader(serv, m), ""]
    ensures "}" in ImplLines(g, serv, m) <==> Routed(m) && GetRule(m).0 in {"POST", "GET"}
  {
    var h := ImplHeader(serv, m);
    assert h != "}" by {
      assert |h| > 1;
    }
    if Routed(m) && GetRule(m).0 == "POST" {
      var b := PostBody(g, serv, m);
      assert b[|b| - 2] == "}";
      assert ImplLines(g, serv, m) == [h] + b + [""];
    } else if Routed(m) && GetRule(m).0 == "GET" {
      var b := GetBody(g, serv, m);
      assert b[|b| - 2] == "}";
      assert ImplLines(g, serv, m) == [h] + b + [""];
    }
  }

  /** A handler's lines end with its closing brace, the blank line after it
      and the blank line closing the loop iteration. */
  predicate Closed(lines: seq<string>) {
    |lines| >= 3 && lines[|lines| - 3..] == ["}", "", ""]
  }

  /** As written, a handler is closed exactly when its method is routed
      with POST or GET: every other handler is left open, and the file does
      not compile. */
  lemma ClosedOnlyForPostAndGet(g: Gen, serv: string, m: Method)
    ensures Closed(ImplLines(g, serv, m)) <==> Routed(m) && GetRule(m).0 in {"POST", "GET"}
  {
    var h := ImplHeader(serv, m);
    if Routed(m) && GetRule(m).0 == "POST" {
      var b := PostBody(g, serv, m);
      assert b[|b| - 2..] == ["}", ""];
      assert ImplLines(g, serv, m) == [h] + b + [""];
      assert ImplLines(g, serv, m)[|ImplLines(g, serv, m)| - 3..] == b[|b| - 2..] + [""];
    } else if Routed(m) && GetRule(m).0 == "GET" {
      var b := GetBody(g, serv, m);
      assert b[|b| - 2..] == ["}", ""];
      assert ImplLines(g, serv, m) == [h] + b + [""];
      assert ImplLines(g, serv, m)[|ImplLines(g, serv, m)| - 3..] == b[|b| - 2..] + [""];
    } else {
      ImplShape(g, serv, m);
    }
  }

  /** A PUT route is one such method. */
  lemma PutHandlerLeftOpen(g: Gen, serv: string, name: string)
    ensures !Closed(ImplLines(g, serv, Method(name, "", "", Some(MethodOptions(Some(HttpRule(PutPattern("/item"))))))))
  {
    ClosedOnlyForPostAndGet(g, serv, Method(name, "", "", Some(MethodOptions(Some(HttpRule(PutPattern("/item")))))));
  }

  /** The handler with its brace closed on every path: POST and GET as
      written, every other method an empty function. */
  function ImplLinesClosed(g: Gen, serv: string, m: Method): (lines: seq<string>)
    ensures Closed(lines) && lines[0] == ImplHeader(serv, m)
    ensures Routed(m) && GetRule(m).0 in {"POST", "GET"} ==> lines == ImplLines(g, serv, m)
  {
    if Routed(m) && GetRule(m).0 in {"POST", "GET"} then
      ClosedOnlyForPostAndGet(g, serv, m);
      ImplLines(g, serv, m)
    else [ImplHeader(serv, m), "}", "", ""]
  }

  function ImplsClosed(g: Gen, serv: string, ms: seq<Method>): seq<string>
    decreases |ms|
  {
    if ms == [] then [] else ImplsClosed(g, serv, ms[..|ms| - 1]) + ImplLinesClosed(g, serv, ms[|ms| - 1])
  }

  /** With the correction, the handlers of the methods one after the other
      are all closed: each header is followed, within its own block, by the
      closing brace. */
  lemma {:induction false} ImplsClosedBlocks(g: Gen, serv: string, ms: seq<Method>)
    ensures |ms| > 0 ==> Closed(ImplsClosed(g, serv, ms))
    ensures ImplsClosed(g, serv, ms) == [] <==> ms == []
    decreases |ms|
  {
    if ms != [] {
      var n := |ms| - 1;
      ImplsClosedBlocks(g, serv, ms[..n]);
      var front, last := ImplsClosed(g, serv, ms[..n]), ImplLinesClosed(g, serv, ms[n]);
      assert (front + last)[|front + last| - 3..] == last[|last| - 3..];
    }
  }

  function Impls(g: Gen, serv: string, ms: seq<Method>): seq<string>
    decreases |ms|
  {
    if ms == [] then [] else Impls(g, serv, ms[..|ms| - 1]) + ImplLines(g, serv, ms[|ms| - 1])
  }

  // ---------------------------------------------------------------------
  // The service file

  function HandlerSection(g: Gen, serv: string, ms: seq<Method>): seq<string> {
    ["", "type " + serv + "Handler interface {"] + HandlerLines(g, ms) + ["}", ""]
  }

  function RouterSection(serv: string, ms: seq<Method>): seq<string> {
    ["type " + serv + "Router interface {"] + RouterLines(ms) + ["}", ""] +
    ["type " + serv + "_Router struct {", serv + "Handler", "}"]
  }

  function RegisterSection(serv: string, ms: seq<Method>): seq<string> {
    ["func Register" + serv + "Routers(a api.Api, h " + serv + "Handler) {", "r := &" + serv + "_Router{h}"] +
    RegisterLines(ms) + ["}", ""]
  }

  const FailJson: string := "c.JSON(http.StatusBadRequest, gin.H{\"code\": 1, \"msg\": err.Error(), \"data\": \"\"})"
  const SuccessJson: string := "c.JSON(http.StatusOK, gin.H{\"code\": 0, \"msg\": \"\", \"data\": data})"

  function FailHelper(serv: string): seq<string> {
    ["func (h *" + serv + "_Router) fail(c *gin.Context, err error) {", FailJson, "}", ""]
  }

  function SuccessHelper(serv: string): seq<string> {
    ["func (h *" + serv + "_Router) success(c *gin.Context, data interface{}) {", SuccessJson, "}", ""]
  }

  function ReturnBackHelper(serv: string): seq<string> {
    ["func (h *" + serv + "_Router) returnBack(c *gin.Context, err error, data interface{}) {",
     "if err != nil {", "h.fail(c, err)", "} else {", "h.success(c, data)", "}", "}", ""]
  }

  /** `fail`, `success` and `returnBack`. */
  function Helpers(serv: string): seq<string> {
    FailHelper(serv) + SuccessHelper(serv) + ReturnBackHelper(serv)
  }

  /** Everything `generateService` writes for a service. */
  function ServiceLines(g: Gen, svc: Service): seq<string> {
    var serv := g.camelCase(svc.name);
    HandlerSection(g, serv, svc.methods) + RouterSection(serv, svc.methods) +
    RegisterSection(serv, svc.methods) + Impls(g, serv, svc.methods) + Helpers(serv)
  }

  function FileLines(g: Gen, services: seq<Service>): seq<string>
    decreases |services|
  {
    if services == [] then [] else FileLines(g, services[..|services| - 1]) + ServiceLines(g, services[|services| - 1])
  }

  /** One more service appends its lines to what is already written. */
  lemma FileLinesStep(g: Gen, written: seq<string>, services: seq<Service>, i: nat)
    requires i < |services|
    ensures written + FileLines(g, services[..i + 1]) == written + FileLines(g, services[..i]) + ServiceLines(g, services[i])
  {
    assert services[..i + 1][..i] == services[..i];
    Assoc(written, FileLines(g, services[..i]), ServiceLines(g, services[i]));
  }

  // ---------------------------------------------------------------------
  // Emission

  /** `Generate`: every service of the file, in order. */
  method Generate(g: Gen, services: seq<Service>, out: Printer)
    modifies out
    ensures out.lines == old(out.lines) + FileLines(g, services)
  {
    for i := 0 to |services|
      invariant out.lines == old(out.lines) + FileLines(g, services[..i])
    {
      FileLinesStep(g, old(out.lines), services, i);
      GenerateService(g, services[i], out);
    }
    assert services[..|services|] == services;
  }

  /** `generateService`. */
  method GenerateService(g: Gen, service: Service, out: Printer)
    modifies out
    ensures out.lines == old(out.lines) + ServiceLines(g, service)
  {
    var servName := g.camelCase(service.name);
    var ms := service.methods;
    ghost var start := out.lines;
    ghost var h, r, reg := HandlerSection(g, servName, ms), RouterSection(servName, ms), RegisterSection(servName, ms);
    ghost var impls, tail := Impls(g, servName, ms), Helpers(servName);
    EmitHandlers(g, servName, ms, out);
    EmitRouters(servName, ms, out);
    Assoc(start, h, r);
    EmitRegister(servName, ms, out);
    Assoc(start, h + r, reg);
    EmitImpls(g, servName, ms, out);
    Assoc(start, h + r + reg, impls);
    EmitHelpers(servName, out);
    Assoc(start, h + r + reg + impls, tail);
  }

  method EmitHandlers(g: Gen, servName: string, ms: seq<Method>, out: Printer)
    modifies out
    ensures out.lines == old(out.lines) + HandlerSection(g, servName, ms)
  {
    out.P("");
    out.P("type " + servName + "Handler interface {");
    ghost var open := ["", "type " + servName + "Handler interface {"];
    ghost var start := out.lines;
    for i := 0 to |ms|
      invariant out.lines == start + HandlerLines(g, ms[..i])
    {
      var meth := ms[i];
      assert ms[..i + 1][..i] == ms[..i];
      var rule := GetRule(meth);
      if rule.0 == "" || rule.1 == "" {
        continue;
      }
      var argInput, argOut := "", "";
      var inputTypeName := g.typeName(meth.inputType);
      var outTypeName := g.typeName(meth.outputType);
      if !TypeEmpty(inputTypeName) {
        argInput := "req *" + inputTypeName;
      }
      if !TypeEmpty(outTypeName) {
        argOut := "*" + outTypeName + ", ";
      }
      Assoc(start, HandlerLines(g, ms[..i]), [meth.name + "(" + argInput + ") (" + argOut + "error)"]);
      out.P(meth.name + "(" + argInput + ") (" + argOut + "error)");
    }
    assert ms[..|ms|] == ms;
    out.P("}");
    out.P("");
    Assoc(old(out.lines), open, HandlerLines(g, ms));
    Assoc(old(out.lines), open + HandlerLines(g, ms), ["}", ""]);
  }

  method EmitRouters(servName: string, ms: seq<Method>, out: Printer)
    modifies out
    ensures out.lines == old(out.lines) + RouterSection(servName, ms)
  {
    out.P("type " + servName + "Router interface {");
    ghost var start := out.lines;
    for i := 0 to |ms|
      invariant out.lines == start + RouterLines(ms[..i])
    {
      assert ms[..i + 1][..i] == ms[..i];
      Assoc(start, RouterLines(ms[..i]), [ms[i].name + "(c *gin.Context)"]);
      out.P(ms[i].name + "(c *gin.Context)");
    }
    assert ms[..|ms|] == ms;
    ghost var listed := out.lines;
    out.P("}");
    out.P("");
    out.P("type " + servName + "_Router struct {");
    out.P(servName + "Handler");
    out.P("}");
    assert out.lines == listed + ["}", ""] + ["type " + servName + "_Router struct {", servName + "Handler", "}"];
    Assoc(old(out.lines), ["type " + servName + "Router interface {"], RouterLines(ms));
    Assoc(old(out.lines), ["type " + servName + "Router interface {"] + RouterLines(ms), ["}", ""]);
    Assoc(old(out.lines), ["type " + servName + "Router interface {"] + RouterLines(ms) + ["}", ""],
      ["type " + servName + "_Router struct {", servName + "Handler", "}"]);
  }

  method EmitRegister(servName: string, ms: seq<Method>, out: Printer)
    modifies out
    ensures out.lines == old(out.lines) + RegisterSection(servName, ms)
  {
    out.P("func Register" + servName + "Routers(a api.Api, h " + servName + "Handler) {");
    out.P("r := &" + servName + "_Router{h}");
    ghost var open := ["func Register" + servName + "Routers(a api.Api, h " + servName + "Handler) {", "r := &" + servName + "_Router{h}"];
    ghost var start := out.lines;
    for i := 0 to |ms|
      invariant out.lines == start + RegisterLines(ms[..i])
    {
      var meth := ms[i];
      assert ms[..i + 1][..i] == ms[..i];
      if meth.options.Some? && meth.options.value.http.Some? {
        var rule := GetRule(meth);
        Assoc(start, RegisterLines(ms[..i]), [RegisterLine(meth)]);
        out.P("a." + rule.0 + "(\"" + rule.1 + "\", r." + meth.name + ")");
      }
    }
    assert ms[..|ms|] == ms;
    out.P("}");
    out.P("");
    Assoc(old(out.lines), open, RegisterLines(ms));
    Assoc(old(out.lines), open + RegisterLines(ms), ["}", ""]);
  }

  method EmitImpls(g: Gen, servName: string, ms: seq<Method>, out: Printer)
    modifies out
    ensures out.lines == old(out.lines) + Impls(g, servName, ms)
  {
    for i := 0 to |ms|
      invariant out.lines == old(out.lines) + Impls(g, servName, ms[..i])
    {
      assert ms[..i + 1][..i] == ms[..i];
      Assoc(old(out.lines), Impls(g, servName, ms[..i]), ImplLines(g, servName, ms[i]));
      EmitImpl(g, servName, ms[i], out);
    }
    assert ms[..|ms|] == ms;
  }

  /** One iteration of the handler loop. */
  method EmitImpl(g: Gen, servName: string, meth: Method, out: Printer)
    modifies out
    ensures out.lines == old(out.lines) + ImplLines(g, servName, meth)
  {
    out.P("func (h *" + servName + "_Router) " + meth.name + "(c *gin.Context) {");
    var rule := GetRule(meth);
    if rule.0 == "" || rule.1 == "" {
      return;
    }
    ghost var start := out.lines;
    ghost var body: seq<string> := [];
    if rule.0 == "POST" {
      EmitPost(g, servName, meth, out);
      body := PostBody(g, servName, meth);
    } else if rule.0 == "GET" {
      EmitGet(g, servName, meth, out);
      body := GetBody(g, servName, meth);
    }
    out.P("");
    Assoc(start, body, [""]);
    Assoc(old(out.lines), [ImplHeader(servName, meth)], body + [""]);
  }

  method EmitPost(g: Gen, servName: string, meth: Method, out: Printer)
    modifies out
    ensures out.lines == old(out.lines) + PostBody(g, servName, meth)
  {
    var argReq := "";
    var inputTypeName := g.typeName(meth.inputType);
    var outTypeName := g.typeName(meth.outputType);
    if !TypeEmpty(inputTypeName) {
      argReq := "req";
      EmitBind(g.typeName(meth.inputType), out);
    }
    EmitPostCall(servName, meth, argReq, outTypeName, out);
    Assoc(old(out.lines), BindLines(inputTypeName), PostCall(servName, meth, argReq, outTypeName));
  }

  method EmitBind(inputTypeName: string, out: Printer)
    requires !TypeEmpty(inputTypeName)
    modifies out
    ensures out.lines == old(out.lines) + BindLines(inputTypeName)
  {
    out.P("req := &" + inputTypeName + "{}");
    out.P("if err := c.ShouldBindJSON(req); err != nil {");
    out.P("h.fail(c, err)");
    out.P("return");
    out.P("}");
    out.P("");
  }

  method EmitPostCall(servName: string, meth: Method, argReq: string, outTypeName: string, out: Printer)
    modifies out
    ensures out.lines == old(out.lines) + PostCall(servName, meth, argReq, outTypeName)
  {
    if TypeEmpty(outTypeName) {
      out.P("err := h." + servName + "Handler." + meth.name + "(" + argReq + ")");
    } else {
      out.P("rsp, err := h." + servName + "Handler." + meth.name + "(" + argReq + ")");
    }
    ghost var called := out.lines;
    EmitFailCheck(out);
    if TypeEmpty(outTypeName) {
      out.P(ReturnEmpty);
    } else {
      out.P(ReturnRsp);
    }
    out.P("}");
    out.P("");
    ghost var answer := [if TypeEmpty(outTypeName) then ReturnEmpty else ReturnRsp, "}", ""];
    ghost var first := [(if TypeEmpty(outTypeName) then "err := h." else "rsp, err := h.") + servName + "Handler." + meth.name + "(" + argReq + ")"];
    assert out.lines == called + FailCheck + answer;
    Assoc(old(out.lines), first, FailCheck);
    Assoc(old(out.lines), first + FailCheck, answer);
  }

  method EmitFailCheck(out: Printer)
    modifies out
    ensures out.lines == old(out.lines) + FailCheck
  {
    out.P("if err != nil {");
    out.P("h.fail(c, err)");
    out.P("return");
    out.P("}");
    out.P("");
  }

  method EmitGetCall(servName: string, meth: Method, args: string, out: Printer)
    modifies out
    ensures out.lines == old(out.lines) + GetCall(servName, meth, args)
  {
    var first := "rsp, err := h." + servName + "Handler." + meth.name + "(" + args + ")";
    out.P(first);
    EmitFailCheck(out);
    out.P(ReturnRsp);
    Assoc(old(out.lines), [first], FailCheck);
    Assoc(old(out.lines), [first] + FailCheck, [ReturnRsp]);
  }

  method EmitGet(g: Gen, servName: string, meth: Method, out: Printer)
    modifies out
    ensures out.lines == old(out.lines) + GetBody(g, servName, meth)
  {
    var inputTypeName := g.typeName(meth.inputType);
    ghost var main: seq<string> := [];
    if !TypeEmpty(inputTypeName) {
      var mProto := g.descriptorProto(inputTypeName);
      if mProto.Some? {
        EmitGetFields(g, servName, meth, inputTypeName, mProto.value, out);
        main := QueryBody(g, servName, meth, inputTypeName, mProto.value);
      }
    } else {
      EmitGetCall(servName, meth, "", out);
      main := GetCall(servName, meth, "");
    }
    out.P("}");
    out.P("");
    Assoc(old(out.lines), main, ["}", ""]);
  }

  /** A GET body that reads the request from the query. */
  method EmitGetFields(g: Gen, servName: string, meth: Method, inputTypeName: string, mp: MsgProto, out: Printer)
    modifies out
    ensures out.lines == old(out.lines) + QueryBody(g, servName, meth, inputTypeName, mp)
  {
    var arg := EmitQueryFields(g, mp.fields, out);
    ghost var fl := FieldsOf(g, mp.fields).lines;
    ghost var lit := ["req := &" + inputTypeName + "{" + arg + "}", ""];
    out.P("req := &" + inputTypeName + "{" + arg + "}");
    out.P("");
    EmitGetCall(servName, meth, "req", out);
    Assoc(old(out.lines), fl, lit);
    Assoc(old(out.lines), fl + lit, GetCall(servName, meth, "req"));
  }

  /** The field loop of a GET handler; returns `arg`. */
  method EmitQueryFields(g: Gen, fs: seq<ProtoField>, out: Printer) returns (arg: string)
    modifies out
    ensures out.lines == old(out.lines) + FieldsOf(g, fs).lines
    ensures arg == FieldsOf(g, fs).arg
  {
    arg := "\n";
    var reqField := "";
    for i := 0 to |fs|
      invariant out.lines == old(out.lines) + FieldsOf(g, fs[..i]).lines
      invariant arg == FieldsOf(g, fs[..i]).arg && reqField == FieldsOf(g, fs[..i]).reqField
    {
      var field := fs[i];
      assert fs[..i + 1][..i] == fs[..i];
      var fieldName := field.name;
      Assoc(old(out.lines), FieldsOf(g, fs[..i]).lines, QueryLines(field));
      if field.ftype == TypeInt32 {
        var first := fieldName + ", err := strconv.Atoi(c.Query(\"" + fieldName + "\"))";
        out.P(first);
        EmitFailCheck(out);
        Assoc(old(out.lines) + FieldsOf(g, fs[..i]).lines, [first], FailCheck);
        reqField := g.camelCase(fieldName) + ": int32(" + fieldName + "), \n";
      } else if field.ftype == TypeString {
        out.P(fieldName + " := c.Query(\"" + fieldName + "\")");
        out.P("");
        reqField := g.camelCase(fieldName) + ": " + fieldName + ", \n";
      }
      arg := arg + reqField;
    }
    assert fs[..|fs|] == fs;
  }

  method EmitHelpers(servName: string, out: Printer)
    modifies out
    ensures out.lines == old(out.lines) + Helpers(servName)
  {
    EmitFail(servName, out);
    EmitSuccess(servName, out);
    Assoc(old(out.lines), FailHelper(servName), SuccessHelper(servName));
    EmitReturnBack(servName, out);
    Assoc(old(out.lines), FailHelper(servName) + SuccessHelper(servName), ReturnBackHelper(servName));
  }

  method EmitFail(servName: string, out: Printer)
    modifies out
    ensures out.lines == old(out.lines) + FailHelper(servName)
  {
    out.P("func (h *" + servName + "_Router) fail(c *gin.Context, err error) {");
    out.P(FailJson);
    out.P("}");
    out.P("");
  }

  method EmitSuccess(servName: string, out: Printer)
    modifies out
    ensures out.lines == old(out.lines) + SuccessHelper(servName)
  {
    out.P("func (h *" + servName + "_Router) success(c *gin.Context, data interface{}) {");
    out.P(SuccessJson);
    out.P("}");
    out.P("");
  }

  method EmitReturnBack(servName: string, out: Printer)
    modifies out
    ensures out.lines == old(out.lines) + ReturnBackHelper(servName)
  {
    out.P("func (h *" + servName + "_Router) returnBack(c *gin.Context, err error, data interface{}) {");
    out.P("if err != nil {");
    out.P("h.fail(c, err)");
    out.P("} else {");
    out.P("h.success(c, data)");
    out.P("}");
    out.P("}");
    out.P("");
  }
}
