/** The stored-procedure code generator of cmd/plugin/procedure/procedure.go.
    For every message whose name starts with "PrPs" it emits an interface
    method and an implementation that calls the stored procedure named by
    `Camel2Case` of the message name. The implementation passes one "?"
    placeholder and one `req.<Field>` argument per field of the request
    message. Output is a sequence of lines, one per `P` call.

    The protobuf generator it plugs into is seen through three functions:
    `TypeName(ObjectNamed(·))`, `CamelCase`, and the `unicode.IsUpper` /
    `unicode.ToLower` tables, all of them parameters. */
module Procedure {
  import opened Generator

  // ---------------------------------------------------------------------
  // Camel2Case

  /** The rune classification `Camel2Case` consults. */
  datatype Cases = Cases(isUpper: char -> bool, toLower: char -> char)

  /** Tables for which case conversion settles: lowering an upper-case rune
      yields a rune that is not upper case, and '_' is not upper case. */
  predicate Folds(cs: Cases) {
    !cs.isUpper('_') && forall c :: cs.isUpper(c) ==> !cs.isUpper(cs.toLower(c))
  }

  function AsciiUpper(c: char): bool {
    'A' <= c <= 'Z'
  }

  function AsciiLower(c: char): char {
    if 'A' <= c <= 'Z' then (c as int + 32) as char else c
  }

  /** The ASCII part of the Unicode tables. */
  const Ascii: Cases := Cases(AsciiUpper, AsciiLower)

  lemma AsciiFolds()
    ensures Folds(Ascii)
  {
  }

  /** What one rune becomes: an upper-case rune its lower-case form,
      preceded by '_' unless it is the first rune; any other rune itself. */
  function Conv(cs: Cases, r: char, first: bool): string {
    if cs.isUpper(r) then (if first then "" else "_") + [cs.toLower(r)] else [r]
  }

  /** The snake_case form `Camel2Case` builds, rune by rune. */
  function Snake(cs: Cases, name: string): string
    decreases |name|
  {
    if name == [] then "" else Snake(cs, name[..|name| - 1]) + Conv(cs, name[|name| - 1], |name| == 1)
  }

  /** Every rune after the first, converted on its own. */
  function Tail(cs: Cases, s: string): string
    decreases |s|
  {
    if s == [] then "" else Conv(cs, s[0], false) + Tail(cs, s[1..])
  }

  lemma {:induction false} TailSnoc(cs: Cases, s: string, c: char)
    ensures Tail(cs, s + [c]) == Tail(cs, s) + Conv(cs, c, false)
    decreases |s|
  {
    if s == [] {
      assert [c][1..] == [];
    } else {
      assert (s + [c])[1..] == s[1..] + [c];
      TailSnoc(cs, s[1..], c);
    }
  }

  /** The conversion reads the name front to back: the first rune is
      converted as the first, every later rune on its own, and the pieces
      appear in the order of the runes they come from. */
  lemma {:induction false} SnakeRuneByRune(cs: Cases, name: string)
    requires name != []
    ensures Snake(cs, name) == Conv(cs, name[0], true) + Tail(cs, name[1..])
    decreases |name|
  {
    var n := |name| - 1;
    if n > 0 {
      var front := name[..n];
      SnakeRuneByRune(cs, front);
      TailSnoc(cs, front[1..], name[n]);
      assert front[1..] + [name[n]] == name[1..];
    }
  }

  /** How many runes of `s` are upper case. */
  function Uppers(cs: Cases, s: string): nat
    decreases |s|
  {
    if s == [] then 0 else (if cs.isUpper(s[0]) then 1 else 0) + Uppers(cs, s[1..])
  }

  lemma {:induction false} UppersSnoc(cs: Cases, s: string, c: char)
    ensures Uppers(cs, s + [c]) == Uppers(cs, s) + (if cs.isUpper(c) then 1 else 0)
    decreases |s|
  {
    if s == [] {
      assert [c][1..] == [];
    } else {
      assert (s + [c])[1..] == s[1..] + [c];
      UppersSnoc(cs, s[1..], c);
    }
  }

  /** One rune out per rune in, plus one '_' per upper-case rune after the
      first. */
  lemma {:induction false} SnakeLength(cs: Cases, name: string)
    ensures |Snake(cs, name)| == |name| + (if name == [] then 0 else Uppers(cs, name[1..]))
    decreases |name|
  {
    var n := |name| - 1;
    if n > 0 {
      var front := name[..n];
      SnakeLength(cs, front);
      UppersSnoc(cs, front[1..], name[n]);
      assert front[1..] + [name[n]] == name[1..];
    } else if n == 0 {
      assert name[1..] == [];
    }
  }

  predicate NoUpper(cs: Cases, s: string) {
    forall i :: 0 <= i < |s| ==> !cs.isUpper(s[i])
  }

  /** The output holds no upper-case rune. */
  lemma {:induction false} SnakeHasNoUpper(cs: Cases, name: string)
    requires Folds(cs)
    ensures NoUpper(cs, Snake(cs, name))
    decreases |name|
  {
    if name != [] {
      var n := |name| - 1;
      SnakeHasNoUpper(cs, name[..n]);
      var c := Conv(cs, name[n], n == 0);
      assert NoUpper(cs, c);
    }
  }

  /** A name without upper-case runes is left as it is. */
  lemma {:induction false} SnakeKeepsLower(cs: Cases, s: string)
    requires NoUpper(cs, s)
    ensures Snake(cs, s) == s
    decreases |s|
  {
    if s != [] {
      var n := |s| - 1;
      assert NoUpper(cs, s[..n]) by {
        forall i | 0 <= i < n ensures !cs.isUpper(s[..n][i]) {
          assert s[..n][i] == s[i];
        }
      }
      SnakeKeepsLower(cs, s[..n]);
      assert s[..n] + [s[n]] == s;
    }
  }

  /** Converting a converted name changes nothing. */
  lemma SnakeIdempotent(cs: Cases, name: string)
    requires Folds(cs)
    ensures Snake(cs, Snake(cs, name)) == Snake(cs, name)
  {
    SnakeHasNoUpper(cs, name);
    SnakeKeepsLower(cs, Snake(cs, name));
  }

  // ---------------------------------------------------------------------
  // Buffer

  newtype Int32 = x: int | -0x8000_0000 <= x < 0x8000_0000
  newtype Int64 = x: int | -0x8000_0000_0000_0000 <= x < 0x8000_0000_0000_0000
  newtype Uint64 = x: int | 0 <= x < 0x1_0000_0000_0000_0000

  /** An argument of `Buffer.Append`, by its dynamic type (`int` and `uint`
      are 64 bits wide; `rune` is `int32`). */
  datatype Arg =
    | IntArg(i: Int64)
    | Int64Arg(i64: Int64)
    | UintArg(u: Uint64)
    | Uint64Arg(u64: Uint64)
    | StringArg(s: string)
    | BytesArg(b: string)
    | RuneArg(r: Int32)
    | Unsupported

  function Rune(c: char): Int32 {
    (c as int) as Int32
  }

  function Digit(d: int): char
    requires 0 <= d < 10
  {
    ('0' as int + d) as char
  }

  predicate IsDigit(c: char) {
    '0' <= c <= '9'
  }

  /** The decimal digits of `n`, without leading zeros. */
  function Digits(n: nat): (s: string)
    ensures |s| >= 1 && forall i :: 0 <= i < |s| ==> IsDigit(s[i])
    decreases n
  {
    if n < 10 then [Digit(n)] else Digits(n / 10) + [Digit(n % 10)]
  }

  /** `strconv.Itoa`, `FormatInt(·, 10)` and `FormatUint(·, 10)`. */
  function FormatInt(v: int): string {
    if v < 0 then "-" + Digits(-v) else Digits(v)
  }

  function ParseDigits(s: string): int
    decreases |s|
  {
    if s == [] then 0 else ParseDigits(s[..|s| - 1]) * 10 + (s[|s| - 1] as int - '0' as int)
  }

  /** Reading a decimal back, as `strconv.Atoi` does. */
  function ParseInt(s: string): int {
    if |s| > 0 && s[0] == '-' then -ParseDigits(s[1..]) else ParseDigits(s)
  }

  lemma {:induction false} DigitsRoundTrip(n: nat)
    ensures ParseDigits(Digits(n)) == n
    decreases n
  {
    var s := Digits(n);
    if n < 10 {
      assert s[..0] == [];
    } else {
      DigitsRoundTrip(n / 10);
      assert s[..|s| - 1] == Digits(n / 10);
    }
  }

  /** The decimal text of an integer reads back as that integer. */
  lemma FormatIntRoundTrip(v: int)
    ensures ParseInt(FormatInt(v)) == v
  {
    if v < 0 {
      DigitsRoundTrip(-v);
      assert FormatInt(v)[1..] == Digits(-v);
    } else {
      DigitsRoundTrip(v);
    }
  }

  /** `WriteRune`: the rune's text, or U+FFFD for a value that is not a
      Unicode scalar value. */
  function RuneText(r: Int32): (s: string)
    ensures |s| == 1
  {
    if 0 <= r < 0xD800 || 0xE000 <= r < 0x11_0000 then [(r as int) as char] else [0xFFFD as char]
  }

  /** What `Buffer.Append` adds for each argument type. */
  function Render(a: Arg): string {
    match a
    case IntArg(i) => FormatInt(i as int)
    case Int64Arg(i) => FormatInt(i as int)
    case UintArg(u) => FormatInt(u as int)
    case Uint64Arg(u) => FormatInt(u as int)
    case StringArg(s) => s
    case BytesArg(b) => b
    case RuneArg(r) => RuneText(r)
    case Unsupported => ""
  }

  /** A rune appends exactly that rune; an unsupported type appends
      nothing; a number appends text that reads back as the number. */
  lemma RenderFaithful(c: char, a: Arg)
    ensures Render(RuneArg(Rune(c))) == [c]
    ensures a.Unsupported? ==> Render(a) == ""
    ensures a.IntArg? ==> ParseInt(Render(a)) == a.i as int
    ensures a.Int64Arg? ==> ParseInt(Render(a)) == a.i64 as int
    ensures a.UintArg? ==> ParseInt(Render(a)) == a.u as int
    ensures a.Uint64Arg? ==> ParseInt(Render(a)) == a.u64 as int
  {
    match a {
      case IntArg(i) => FormatIntRoundTrip(i as int);
      case Int64Arg(i) => FormatIntRoundTrip(i as int);
      case UintArg(u) => FormatIntRoundTrip(u as int);
      case Uint64Arg(u) => FormatIntRoundTrip(u as int);
      case _ =>
    }
  }

  /** `Buffer`, the text written so far. */
  class Buffer {
    var text: string

    /** `NewBuffer`. */
    constructor ()
      ensures text == ""
    {
      text := "";
    }

    /** `Append`: adds the argument's text and returns the same buffer. */
    method Append(a: Arg) returns (b: Buffer)
      modifies this
      ensures b == this
      ensures text == old(text) + Render(a)
    {
      text := text + Render(a);
      b := this;
    }

    method String() returns (s: string)
      ensures s == text
    {
      s := text;
    }
  }

  /** `Camel2Case`. */
  method Camel2Case(cs: Cases, name: string) returns (s: string)
    ensures s == Snake(cs, name)
  {
    var buffer := new Buffer();
    for i := 0 to |name|
      invariant fresh(buffer)
      invariant buffer.text == Snake(cs, name[..i])
    {
      var r := name[i];
      assert name[..i + 1][..i] == name[..i];
      if cs.isUpper(r) {
        if i != 0 {
          buffer := buffer.Append(RuneArg(Rune('_')));
        }
        buffer := buffer.Append(RuneArg(Rune(cs.toLower(r))));
      } else {
        buffer := buffer.Append(RuneArg(Rune(r)));
      }
    }
    assert name[..|name|] == name;
    s := buffer.String();
  }

  // ---------------------------------------------------------------------
  // Descriptors

  /** A field's type: a message, or a scalar whose enum name
      (`field.Type.String()`, such as "TYPE_INT32") is used as is. */
  datatype FieldKind = MessageKind | ScalarKind(enumName: string)

  datatype Field = Field(name: string, kind: FieldKind, typeName: string)

  datatype Message = Message(name: string, fields: seq<Field>)

  datatype FileDesc = FileDesc(name: string, messages: seq<Message>)

  /** The generator: `TypeName(ObjectNamed(·))`, `CamelCase` and the case
      tables. */
  datatype Gen = Gen(typeName: string -> string, camelCase: string -> string, cases: Cases)

  predicate IsPrPs(name: string) {
    |name| >= 4 && name[..4] == "PrPs"
  }

  predicate HasField(fs: seq<Field>, name: string) {
    exists i :: 0 <= i < |fs| && fs[i].name == name
  }

  lemma HasFieldSnoc(fs: seq<Field>, name: string)
    requires fs != []
    ensures HasField(fs, name) <==> HasField(fs[..|fs| - 1], name) || fs[|fs| - 1].name == name
  {
    var n := |fs| - 1;
    if HasField(fs, name) && fs[n].name != name {
      var i :| 0 <= i < |fs| && fs[i].name == name;
      assert fs[..n][i].name == name;
    }
    if HasField(fs[..n], name) {
      var i :| 0 <= i < n && fs[..n][i].name == name;
      assert fs[i].name == name;
    }
  }

  /** Field names are unique within a message, as protobuf requires. */
  predicate DistinctNames(fs: seq<Field>) {
    forall i, j :: 0 <= i < |fs| && 0 <= j < |fs| && fs[i].name == fs[j].name ==> i == j
  }

  /** The messages of a file, in order, that `Generate` handles. */
  function PrPsOnly(ms: seq<Message>): seq<Message>
    decreases |ms|
  {
    if ms == [] then []
    else PrPsOnly(ms[..|ms| - 1]) + (if IsPrPs(ms[|ms| - 1].name) then [ms[|ms| - 1]] else [])
  }

  /** Exactly the "PrPs" messages are kept. */
  lemma {:induction false} PrPsOnlyKeepsPrPs(ms: seq<Message>)
    ensures forall m :: m in PrPsOnly(ms) <==> m in ms && IsPrPs(m.name)
    decreases |ms|
  {
    if ms != [] {
      var n := |ms| - 1;
      PrPsOnlyKeepsPrPs(ms[..n]);
      assert ms == ms[..n] + [ms[n]];
    }
  }

  // ---------------------------------------------------------------------
  // Per-message slots

  /** The strings the field loops fill in (the interface loop fills the
      first four of them the same way). */
  datatype Slots = Slots(
    argInput: string, argOut: string, argOutResult: string, argOutTotal: string,
    resIdent: string, resultIdent: string, totalIdent: string,
    returnRes: string, returnResult: string, returnTotal: string)

  const NoSlots: Slots := Slots("", "", "", "", "", "", "", "", "", "")

  function FieldTypeName(g: Gen, f: Field): string {
    if f.kind.MessageKind? then g.typeName(f.typeName) else f.kind.enumName
  }

  /** What one field sets. */
  function Fill(g: Gen, s: Slots, f: Field): Slots {
    var t := FieldTypeName(g, f);
    if f.name == "req" then s.(argInput := "req *" + t)
    else if f.name == "rsp" then s.(argOut := "[]*" + t + ", ", resIdent := "res := []*" + t + "{}", returnRes := "res, ")
    else if f.name == "result" then s.(argOutResult := "int, ", resultIdent := "result := -1", returnResult := "result, ")
    else if f.name == "total_count" then s.(argOutTotal := "int, ", totalIdent := "total := 0", returnTotal := "total, ")
    else s
  }

  function SlotsOf(g: Gen, fs: seq<Field>): Slots
    decreases |fs|
  {
    if fs == [] then NoSlots else Fill(g, SlotsOf(g, fs[..|fs| - 1]), fs[|fs| - 1])
  }

  /** Each part of the signature, declarations and return list is present
      exactly when its field is: `req` gives the parameter, `rsp` the slice
      result, `result` and `total_count` the int results. */
  lemma {:induction false} SlotsFollowFields(g: Gen, fs: seq<Field>)
    ensures var s := SlotsOf(g, fs);
      (s.argInput != "" <==> HasField(fs, "req")) &&
      (s.argOut != "" <==> HasField(fs, "rsp")) &&
      (s.resIdent != "" <==> HasField(fs, "rsp")) &&
      s.returnRes == (if HasField(fs, "rsp") then "res, " else "") &&
      s.argOutResult == (if HasField(fs, "result") then "int, " else "") &&
      s.resultIdent == (if HasField(fs, "result") then "result := -1" else "") &&
      s.returnResult == (if HasField(fs, "result") then "result, " else "") &&
      s.argOutTotal == (if HasField(fs, "total_count") then "int, " else "") &&
      s.totalIdent == (if HasField(fs, "total_count") then "total := 0" else "") &&
      s.returnTotal == (if HasField(fs, "total_count") then "total, " else "")
    decreases |fs|
  {
    if fs != [] {
      var n := |fs| - 1;
      var front := fs[..n];
      SlotsFollowFields(g, front);
      HasFieldSnoc(fs, "req");
      HasFieldSnoc(fs, "rsp");
      HasFieldSnoc(fs, "result");
      HasFieldSnoc(fs, "total_count");
    }
  }

  /** `FillSlots`: the field loop of either pass. */
  method FillSlots(g: Gen, fs: seq<Field>) returns (s: Slots)
    ensures s == SlotsOf(g, fs)
  {
    s := NoSlots;
    for i := 0 to |fs|
      invariant s == SlotsOf(g, fs[..i])
    {
      var field := fs[i];
      assert fs[..i + 1][..i] == fs[..i];
      var typeName := "";
      if field.kind.MessageKind? {
        typeName := g.typeName(field.typeName);
      } else {
        typeName := field.kind.enumName;
      }
      if field.name == "req" {
        s := s.(argInput := "req *" + typeName);
      }
      if field.name == "rsp" {
        s := s.(argOut := "[]*" + typeName + ", ", resIdent := "res := []*" + typeName + "{}", returnRes := "res, ");
      }
      if field.name == "result" {
        s := s.(argOutResult := "int, ", resultIdent := "result := -1", returnResult := "result, ");
      }
      if field.name == "total_count" {
        s := s.(argOutTotal := "int, ", totalIdent := "total := 0", returnTotal := "total, ");
      }
    }
    assert fs[..|fs|] == fs;
  }

  // ---------------------------------------------------------------------
  // The call template and argument list

  const Placeholder: string := ", ?"
  const TotalMarker: string := ", @ov_total_count"

  function Repeat(s: string, n: nat): string
    decreases n
  {
    if n == 0 then "" else Repeat(s, n - 1) + s
  }

  /** The argument text of the first `k` request fields: each is followed
      by ", " unless it is the last field of the message. */
  function ArgPrefix(g: Gen, fs: seq<Field>, k: nat): string
    requires k <= |fs|
    decreases k
  {
    if k == 0 then ""
    else ArgPrefix(g, fs, k - 1) + "req." + g.camelCase(fs[k - 1].name) + (if k - 1 == |fs| - 1 then "" else ", ")
  }

  /** The placeholders and arguments contributed by every message named
      `tn` (`ivTempl` and `ivArg`). */
  function ReqParts(g: Gen, msgs: seq<Message>, tn: string): (string, string)
    decreases |msgs|
  {
    if msgs == [] then ("", "")
    else
      var p := ReqParts(g, msgs[..|msgs| - 1], tn);
      var m := msgs[|msgs| - 1];
      if m.name == tn then (p.0 + Repeat(Placeholder, |m.fields|), p.1 + ArgPrefix(g, m.fields, |m.fields|)) else p
  }

  /** `ivTempl`, `ivTotal`, `ivArg` and `ivSp`. */
  datatype Iv = Iv(templ: string, total: string, arg: string, sp: string)

  function IvOf(g: Gen, msgs: seq<Message>, fs: seq<Field>): Iv
    decreases |fs|
  {
    if fs == [] then Iv("", "", "", "")
    else
      var v := IvOf(g, msgs, fs[..|fs| - 1]);
      var f := fs[|fs| - 1];
      var p := ReqParts(g, msgs, g.typeName(f.typeName));
      var v' := if f.name == "req" then v.(templ := v.templ + p.0, arg := v.arg + p.1, sp := ",") else v;
      if f.name == "total_count" then v'.(total := v'.total + TotalMarker) else v'
  }

  /** The iv loop of `Generate`. */
  method CallArgs(g: Gen, msgs: seq<Message>, fs: seq<Field>) returns (iv: Iv)
    ensures iv == IvOf(g, msgs, fs)
  {
    var ivTempl, ivTotal, ivArg, ivSp := "", "", "", "";
    for i := 0 to |fs|
      invariant Iv(ivTempl, ivTotal, ivArg, ivSp) == IvOf(g, msgs, fs[..i])
    {
      var field := fs[i];
      assert fs[..i + 1][..i] == fs[..i];
      if field.name == "req" {
        ivSp := ",";
        var fieldTypeName := g.typeName(field.typeName);
        ghost var templ0, arg0 := ivTempl, ivArg;
        for j := 0 to |msgs|
          invariant ivTempl == templ0 + ReqParts(g, msgs[..j], fieldTypeName).0
          invariant ivArg == arg0 + ReqParts(g, msgs[..j], fieldTypeName).1
        {
          var message1 := msgs[j];
          assert msgs[..j + 1][..j] == msgs[..j];
          if message1.name == fieldTypeName {
            var ide := ", ";
            var fieldLen := |message1.fields|;
            ghost var templ1, arg1 := ivTempl, ivArg;
            for k := 0 to fieldLen
              invariant ivTempl == templ1 + Repeat(Placeholder, k)
              invariant ivArg == arg1 + ArgPrefix(g, message1.fields, k)
              invariant k < fieldLen ==> ide == ", "
            {
              if k == fieldLen - 1 {
                ide := "";
              }
              ivTempl := ivTempl + ", ?";
              ivArg := ivArg + "req." + g.camelCase(message1.fields[k].name) + ide;
            }
          }
        }
        assert msgs[..|msgs|] == msgs;
      }
      if field.name == "total_count" {
        ivTotal := ivTotal + ", @ov_total_count";
      }
    }
    assert fs[..|fs|] == fs;
    iv := Iv(ivTempl, ivTotal, ivArg, ivSp);
  }

  /** The argument texts of a request message's fields. */
  function ReqNames(g: Gen, fs: seq<Field>): seq<string> {
    seq(|fs|, i requires 0 <= i < |fs| => "req." + g.camelCase(fs[i].name))
  }

  /** `strings.Join(xs, ", ")`. */
  function Join(xs: seq<string>): string
    decreases |xs|
  {
    if xs == [] then "" else if |xs| == 1 then xs[0] else xs[0] + ", " + Join(xs[1..])
  }

  /** Each text followed by ", ". */
  function Terminated(xs: seq<string>): string
    decreases |xs|
  {
    if xs == [] then "" else xs[0] + ", " + Terminated(xs[1..])
  }

  lemma {:induction false} TerminatedSnoc(xs: seq<string>, y: string)
    ensures Terminated(xs + [y]) == Terminated(xs) + y + ", "
    decreases |xs|
  {
    if xs == [] {
      assert [y][1..] == [];
    } else {
      assert (xs + [y])[1..] == xs[1..] + [y];
      TerminatedSnoc(xs[1..], y);
    }
  }

  lemma {:induction false} JoinAsTerminated(xs: seq<string>)
    requires xs != []
    ensures Join(xs) == Terminated(xs[..|xs| - 1]) + xs[|xs| - 1]
    decreases |xs|
  {
    if |xs| > 1 {
      JoinAsTerminated(xs[1..]);
      assert xs[..|xs| - 1] == [xs[0]] + xs[1..][..|xs| - 2];
      assert ([xs[0]] + xs[1..][..|xs| - 2])[1..] == xs[1..][..|xs| - 2];
    } else {
      assert xs[..0] == [];
    }
  }

  lemma {:induction false} ArgPrefixTerminated(g: Gen, fs: seq<Field>, k: nat)
    requires k < |fs|
    ensures ArgPrefix(g, fs, k) == Terminated(ReqNames(g, fs)[..k])
    decreases k
  {
    if k > 0 {
      ArgPrefixTerminated(g, fs, k - 1);
      var names := ReqNames(g, fs);
      TerminatedSnoc(names[..k - 1], names[k - 1]);
      assert names[..k - 1] + [names[k - 1]] == names[..k];
    }
  }

  /** The argument list names `req.<CamelField>` for every request field,
      separated by ", " and with no separator after the last. */
  lemma ArgListIsJoin(g: Gen, fs: seq<Field>)
    ensures ArgPrefix(g, fs, |fs|) == Join(ReqNames(g, fs))
  {
    if fs != [] {
      ArgPrefixTerminated(g, fs, |fs| - 1);
      JoinAsTerminated(ReqNames(g, fs));
    }
  }

  /** `msgs[j]` is the only message named `tn`. */
  predicate OnlyMessageNamed(msgs: seq<Message>, tn: string, j: int) {
    0 <= j < |msgs| && msgs[j].name == tn && forall k :: 0 <= k < |msgs| && k != j ==> msgs[k].name != tn
  }

  lemma {:induction false} ReqPartsOfOnly(g: Gen, msgs: seq<Message>, tn: string, j: int, k: nat)
    requires OnlyMessageNamed(msgs, tn, j) && k <= |msgs|
    ensures ReqParts(g, msgs[..k], tn) ==
      if j < k then (Repeat(Placeholder, |msgs[j].fields|), ArgPrefix(g, msgs[j].fields, |msgs[j].fields|)) else ("", "")
    decreases k
  {
    if k > 0 {
      ReqPartsOfOnly(g, msgs, tn, j, k - 1);
      var m := msgs[k - 1];
      assert msgs[..k][..k - 1] == msgs[..k - 1];
      assert msgs[..k][k - 1] == m;
      var p := ReqParts(g, msgs[..k - 1], tn);
      assert ReqParts(g, msgs[..k], tn) ==
        if m.name == tn then (p.0 + Repeat(Placeholder, |m.fields|), p.1 + ArgPrefix(g, m.fields, |m.fields|)) else p;
      if k - 1 == j {
        assert p == ("", "");
        assert p.0 + Repeat(Placeholder, |m.fields|) == Repeat(Placeholder, |m.fields|);
        assert p.1 + ArgPrefix(g, m.fields, |m.fields|) == ArgPrefix(g, m.fields, |m.fields|);
      } else {
        assert m.name != tn;
      }
    }
  }

  /** With unique field names, `ivTempl`/`ivArg`/`ivSp` come from the one
      `req` field (empty without one), and `ivTotal` is the total-count
      marker exactly when a `total_count` field exists. */
  lemma {:induction false} IvOfDistinct(g: Gen, msgs: seq<Message>, fs: seq<Field>)
    requires DistinctNames(fs)
    ensures IvOf(g, msgs, fs).total == (if HasField(fs, "total_count") then TotalMarker else "")
    ensures !HasField(fs, "req") ==> IvOf(g, msgs, fs).templ == "" && IvOf(g, msgs, fs).arg == "" && IvOf(g, msgs, fs).sp == ""
    ensures forall r :: 0 <= r < |fs| && fs[r].name == "req" ==>
      var p := ReqParts(g, msgs, g.typeName(fs[r].typeName));
      IvOf(g, msgs, fs).templ == p.0 && IvOf(g, msgs, fs).arg == p.1 && IvOf(g, msgs, fs).sp == ","
    decreases |fs|
  {
    if fs != [] {
      var n := |fs| - 1;
      var front := fs[..n];
      assert DistinctNames(front) by {
        forall i, j | 0 <= i < n && 0 <= j < n && front[i].name == front[j].name ensures i == j {
          assert fs[i] == front[i] && fs[j] == front[j];
        }
      }
      IvOfDistinct(g, msgs, front);
      HasFieldSnoc(fs, "req");
      HasFieldSnoc(fs, "total_count");
      forall r | 0 <= r < |fs| && fs[r].name == "req"
        ensures var p := ReqParts(g, msgs, g.typeName(fs[r].typeName));
          IvOf(g, msgs, fs).templ == p.0 && IvOf(g, msgs, fs).arg == p.1 && IvOf(g, msgs, fs).sp == ","
      {
        if r < n {
          assert front[r] == fs[r];
        }
      }
    }
  }

  /** The call template holds one ", ?" per field of the request message
      and the argument list names each of those fields, joined by ", ". */
  lemma CallTemplate(g: Gen, msgs: seq<Message>, fs: seq<Field>, r: int, j: int)
    requires DistinctNames(fs) && 0 <= r < |fs| && fs[r].name == "req"
    requires OnlyMessageNamed(msgs, g.typeName(fs[r].typeName), j)
    ensures IvOf(g, msgs, fs).templ == Repeat(Placeholder, |msgs[j].fields|)
    ensures IvOf(g, msgs, fs).arg == Join(ReqNames(g, msgs[j].fields))
    ensures IvOf(g, msgs, fs).sp == ","
  {
    IvOfDistinct(g, msgs, fs);
    ReqPartsOfOnly(g, msgs, g.typeName(fs[r].typeName), j, |msgs|);
    assert msgs[..|msgs|] == msgs;
    ArgListIsJoin(g, msgs[j].fields);
  }

  // ---------------------------------------------------------------------
  // Emitted lines

  /** The interface method of one message. */
  function InterfaceLine(g: Gen, m: Message): string {
    var s := SlotsOf(g, m.fields);
    m.name + "(" + s.argInput + ") (" + s.argOut + s.argOutResult + s.argOutTotal + "error)"
  }

  function Interface(g: Gen, ms: seq<Message>): seq<string>
    decreases |ms|
  {
    if ms == [] then []
    else
      var m := ms[|ms| - 1];
      Interface(g, ms[..|ms| - 1]) + (if IsPrPs(m.name) then [InterfaceLine(g, m)] else [])
  }

  /** The first lines of an implementation, up to the start of the query. */
  function ImplHead(serv: string, m: Message, s: Slots): seq<string> {
    ["func (r *" + serv + "_Procedure) " + m.name + "(" + s.argInput + ") (" + s.argOut + s.argOutResult + s.argOutTotal + "error) {",
     s.resIdent, s.resultIdent, s.totalIdent, "err := r.db."]
  }

  /** The query chain: the call, then the scans of its outputs. */
  function CallLines(proc: string, s: Slots, iv: Iv): seq<string> {
    RawLines(proc, s, iv) + SelectLines(s)
  }

  /** The procedure call and the scan of its first result: with request
      arguments, the result is scanned into `res` or `result` (declaring
      `result` on the spot when there is neither); without, only into
      `res`. */
  function RawLines(proc: string, s: Slots, iv: Iv): seq<string> {
    if iv.templ != "" then
      ["Raw(\"call " + proc + "(@ov_return" + iv.templ + iv.total + ")\"" + iv.sp, iv.arg + ")."] +
      (if s.resIdent != "" then ["Scan(&res)."]
       else (if s.resultIdent == "" then ["result := -1"] else []) + ["Scan(&result)."])
    else
      ["Raw(\"call " + proc + "(@ov_return" + iv.total + ")\")."] +
      (if s.resIdent != "" then ["Scan(&res)."] else [])
  }

  /** The reads of the `@ov_return` and `@ov_total_count` variables. */
  function SelectLines(s: Slots): seq<string> {
    (if s.resultIdent != "" then ["Raw(\"select @ov_return\").", "Scan(&result)."] else []) +
    (if s.totalIdent != "" then ["Raw(\"select @ov_total_count\").", "Scan(&total)."] else [])
  }

  function ImplTail(s: Slots): seq<string> {
    ["Error", "", "return " + s.returnRes + s.returnResult + s.returnTotal + "err", "}", ""]
  }

  /** The implementation of one message. */
  function ImplLines(g: Gen, msgs: seq<Message>, serv: string, m: Message): seq<string> {
    var s := SlotsOf(g, m.fields);
    ImplHead(serv, m, s) + CallLines(Snake(g.cases, m.name), s, IvOf(g, msgs, m.fields)) + ImplTail(s)
  }

  function Impls(g: Gen, msgs: seq<Message>, serv: string, ms: seq<Message>): seq<string>
    decreases |ms|
  {
    if ms == [] then []
    else
      var m := ms[|ms| - 1];
      Impls(g, msgs, serv, ms[..|ms| - 1]) + (if IsPrPs(m.name) then ImplLines(g, msgs, serv, m) else [])
  }

  /** Only "PrPs" messages produce output: dropping every other message
      changes neither the interface nor the implementations. */
  lemma {:induction false} OnlyPrPsEmitted(g: Gen, msgs: seq<Message>, serv: string, ms: seq<Message>)
    ensures Interface(g, ms) == Interface(g, PrPsOnly(ms))
    ensures Impls(g, msgs, serv, ms) == Impls(g, msgs, serv, PrPsOnly(ms))
    ensures |Interface(g, ms)| == |PrPsOnly(ms)|
    decreases |ms|
  {
    if ms != [] {
      var n := |ms| - 1;
      var front := ms[..n];
      OnlyPrPsEmitted(g, msgs, serv, front);
      assert ms[..n] == front;
      if IsPrPs(ms[n].name) {
        var kept := PrPsOnly(front) + [ms[n]];
        assert PrPsOnly(ms) == kept;
        assert kept[..|kept| - 1] == PrPsOnly(front);
        assert Interface(g, kept) == Interface(g, PrPsOnly(front)) + [InterfaceLine(g, ms[n])];
        assert Impls(g, msgs, serv, kept) == Impls(g, msgs, serv, PrPsOnly(front)) + ImplLines(g, msgs, serv, ms[n]);
      } else {
        assert PrPsOnly(ms) == PrPsOnly(front);
        assert Interface(g, ms) == Interface(g, front);
        assert Impls(g, msgs, serv, ms) == Impls(g, msgs, serv, front);
      }
    }
  }

  const ProtoSuffix: string := "_pr.proto"

  function TrimSuffix(s: string, suffix: string): string {
    if |suffix| <= |s| && s[|s| - |suffix|..] == suffix then s[..|s| - |suffix|] else s
  }

  function ServName(g: Gen, file: FileDesc): string {
    g.camelCase(TrimSuffix(file.name, ProtoSuffix))
  }

  function Opening(serv: string): seq<string> {
    ["type " + serv + "Procedure interface {", "GetRawDB() *gorm.DB"]
  }

  /** The end of the interface and the struct. */
  function StructLines(serv: string): seq<string> {
    ["}", "type " + serv + "_Procedure struct {", "db *gorm.DB", "}"]
  }

  function ConstructorLines(serv: string): seq<string> {
    ["func New" + serv + "Procedure(db *gorm.DB) " + serv + "Procedure {", "return &" + serv + "_Procedure{", "db: db,", "}", "}", ""]
  }

  function RawDBLines(serv: string): seq<string> {
    ["func (r *" + serv + "_Procedure) GetRawDB() *gorm.DB {", "return r.db", "}", ""]
  }

  /** The end of the interface, the struct, its constructor and `GetRawDB`. */
  function Middle(serv: string): seq<string> {
    StructLines(serv) + ConstructorLines(serv) + RawDBLines(serv)
  }

  /** Everything `Generate` writes for a file. */
  function Output(g: Gen, file: FileDesc): seq<string> {
    var serv := ServName(g, file);
    Opening(serv) + Interface(g, file.messages) + Middle(serv) + Impls(g, file.messages, serv, file.messages)
  }

  /** The implementation of one "PrPs" message. */
  method EmitImpl(g: Gen, msgs: seq<Message>, serv: string, message: Message, out: Printer)
    modifies out
    ensures out.lines == old(out.lines) + ImplLines(g, msgs, serv, message)
  {
    var s := FillSlots(g, message.fields);
    EmitHead(serv, message, s, out);
    var iv := CallArgs(g, msgs, message.fields);
    var proc := Camel2Case(g.cases, message.name);
    EmitCall(proc, s, iv, out);
    Assoc(old(out.lines), ImplHead(serv, message, s), CallLines(proc, s, iv));
    EmitTail(s, out);
    Assoc(old(out.lines), ImplHead(serv, message, s) + CallLines(proc, s, iv), ImplTail(s));
  }

  /** The signature and the declarations of one implementation. */
  method EmitHead(serv: string, message: Message, s: Slots, out: Printer)
    modifies out
    ensures out.lines == old(out.lines) + ImplHead(serv, message, s)
  {
    out.P("func (r *" + serv + "_Procedure) " + message.name + "(" + s.argInput + ") (" + s.argOut + s.argOutResult + s.argOutTotal + "error) {");
    out.P(s.resIdent);
    out.P(s.resultIdent);
    out.P(s.totalIdent);
    out.P("err := r.db.");
  }

  /** The end of one implementation. */
  method EmitTail(s: Slots, out: Printer)
    modifies out
    ensures out.lines == old(out.lines) + ImplTail(s)
  {
    out.P("Error");
    out.P("");
    out.P("return " + s.returnRes + s.returnResult + s.returnTotal + "err");
    out.P("}");
    out.P("");
  }

  /** The query chain of one implementation. */
  method EmitCall(proc: string, s: Slots, iv: Iv, out: Printer)
    modifies out
    ensures out.lines == old(out.lines) + CallLines(proc, s, iv)
  {
    EmitRaw(proc, s, iv, out);
    ghost var raw := out.lines;
    if s.resultIdent != "" {
      out.P("Raw(\"select @ov_return\").");
      out.P("Scan(&result).");
    }
    if s.totalIdent != "" {
      out.P("Raw(\"select @ov_total_count\").");
      out.P("Scan(&total).");
    }
    assert out.lines == raw + SelectLines(s);
  }

  /** The call and the scan of its first result. */
  method EmitRaw(proc: string, s: Slots, iv: Iv, out: Printer)
    modifies out
    ensures out.lines == old(out.lines) + RawLines(proc, s, iv)
  {
    if iv.templ != "" {
      out.P("Raw(\"call " + proc + "(@ov_return" + iv.templ + iv.total + ")\"" + iv.sp);
      out.P(iv.arg + ").");
      if s.resIdent != "" {
        out.P("Scan(&res).");
      } else {
        if s.resultIdent == "" {
          out.P("result := -1");
        }
        out.P("Scan(&result).");
      }
    } else {
      out.P("Raw(\"call " + proc + "(@ov_return" + iv.total + ")\").");
      if s.resIdent != "" {
        out.P("Scan(&res).");
      }
    }
  }

  /** `Generate`. */
  method Generate(g: Gen, file: FileDesc, out: Printer)
    modifies out
    ensures out.lines == old(out.lines) + Output(g, file)
  {
    var servName := g.camelCase(TrimSuffix(file.name, ProtoSuffix));
    EmitInterface(g, servName, file.messages, out);
    EmitStruct(servName, out);
    EmitImpls(g, servName, file.messages, out);
  }

  /** The interface up to its last method. */
  method EmitInterface(g: Gen, servName: string, msgs: seq<Message>, out: Printer)
    modifies out
    ensures out.lines == old(out.lines) + Opening(servName) + Interface(g, msgs)
  {
    out.P("type " + servName + "Procedure interface {");
    out.P("GetRawDB() *gorm.DB");
    for i := 0 to |msgs|
      invariant out.lines == old(out.lines) + Opening(servName) + Interface(g, msgs[..i])
    {
      var message := msgs[i];
      assert msgs[..i + 1][..i] == msgs[..i];
      if !IsPrPs(message.name) {
        continue;
      }
      var s := FillSlots(g, message.fields);
      out.P(message.name + "(" + s.argInput + ") (" + s.argOut + s.argOutResult + s.argOutTotal + "error)");
    }
    assert msgs[..|msgs|] == msgs;
  }

  /** The end of the interface, the struct, its constructor and `GetRawDB`. */
  method EmitStruct(servName: string, out: Printer)
    modifies out
    ensures out.lines == old(out.lines) + Middle(servName)
  {
    out.P("}");
    out.P("type " + servName + "_Procedure struct {");
    out.P("db *gorm.DB");
    out.P("}");
    EmitConstructor(servName, out);
    Assoc(old(out.lines), StructLines(servName), ConstructorLines(servName));
    out.P("func (r *" + servName + "_Procedure) GetRawDB() *gorm.DB {");
    out.P("return r.db");
    out.P("}");
    out.P("");
    Assoc(old(out.lines), StructLines(servName) + ConstructorLines(servName), RawDBLines(servName));
  }

  /** `New<Service>Procedure`. */
  method EmitConstructor(servName: string, out: Printer)
    modifies out
    ensures out.lines == old(out.lines) + ConstructorLines(servName)
  {
    out.P("func New" + servName + "Procedure(db *gorm.DB) " + servName + "Procedure {");
    out.P("return &" + servName + "_Procedure{");
    out.P("db: db,");
    out.P("}");
    out.P("}");
    out.P("");
  }

  /** The implementations. */
  method EmitImpls(g: Gen, servName: string, msgs: seq<Message>, out: Printer)
    modifies out
    ensures out.lines == old(out.lines) + Impls(g, msgs, servName, msgs)
  {
    for i := 0 to |msgs|
      invariant out.lines == old(out.lines) + Impls(g, msgs, servName, msgs[..i])
    {
      var message := msgs[i];
      ImplsStep(g, msgs, servName, old(out.lines), i);
      if !IsPrPs(message.name) {
        continue;
      }
      EmitImpl(g, msgs, servName, message, out);
    }
    assert msgs[..|msgs|] == msgs;
  }

  /** One more message appends its implementation, if it is a "PrPs" one,
      to what is already written. */
  lemma ImplsStep(g: Gen, msgs: seq<Message>, serv: string, written: seq<string>, i: nat)
    requires i < |msgs|
    ensures written + Impls(g, msgs, serv, msgs[..i + 1]) ==
      written + Impls(g, msgs, serv, msgs[..i]) + (if IsPrPs(msgs[i].name) then ImplLines(g, msgs, serv, msgs[i]) else [])
  {
    assert msgs[..i + 1][..i] == msgs[..i];
    Assoc(written, Impls(g, msgs, serv, msgs[..i]), if IsPrPs(msgs[i].name) then ImplLines(g, msgs, serv, msgs[i]) else []);
  }
}
