/** The receipt's payload as any JSON reader sees it: an object, read member by member without knowing which
    members to expect. */
module ReceiptObject {
  import opened Wrappers
  import opened Json
  import opened Receipt

  datatype Member = Member(key: seq<Unit>, value: Wire)

  lemma {:induction false} UnitsShorten(t: string)
    ensures ParseUnits(t).Some? ==> |ParseUnits(t).value.1| < |t|
    decreases |t|
  {
    if t == "" || t[0] == '"' {
    } else if t[0] != '\\' {
      UnitsShorten(t[1..]);
    } else if |t| >= 2 && t[1] != 'u' {
      UnitsShorten(t[2..]);
    } else if |t| >= 6 {
      UnitsShorten(t[6..]);
    }
  }

  lemma {:induction false} DigitsShorten(n: nat, t: string)
    ensures |ReadDigits(n, t).1| <= |t|
    decreases |t|
  {
    if t != "" && IsDigit(t[0]) {
      DigitsShorten(n * 10 + (t[0] as int - '0' as int), t[1..]);
    }
  }

  // A string or an integer, told apart by how it begins.
  function ReadValue(t: string): Option<(Wire, string)> {
    if t != "" && t[0] == '"' then
      var r :- ParseUnits(t[1..]);
      Some((WireText(r.0), r.1))
    else
      var r :- ParseInt(t);
      Some((WireNumber(r.0), r.1))
  }

  lemma ValueShortens(t: string)
    ensures ReadValue(t).Some? ==> |ReadValue(t).value.1| <= |t|
  {
    if t != "" && t[0] == '"' {
      UnitsShorten(t[1..]);
    } else {
      DigitsShorten(0, if t != "" && t[0] == '-' then t[1..] else t);
    }
  }

  // `"key":value`.
  function ReadMember(t: string): Option<(Member, string)> {
    if t == "" || t[0] != '"' then None
    else
      var key :- ParseUnits(t[1..]);
      if key.1 == "" || key.1[0] != ':' then None
      else
        var value :- ReadValue(key.1[1..]);
        Some((Member(key.0, value.0), value.1))
  }

  lemma MemberShortens(t: string)
    ensures ReadMember(t).Some? ==> |ReadMember(t).value.1| < |t|
  {
    if t != "" && t[0] == '"' {
      UnitsShorten(t[1..]);
      var key := ParseUnits(t[1..]);
      if key.Some? && key.value.1 != "" {
        ValueShortens(key.value.1[1..]);
      }
    }
  }

  // Members up to the closing brace, which ends the text.
  function ReadMembers(t: string): Option<seq<Member>>
    decreases |t|
  {
    MemberShortens(t);
    var m :- ReadMember(t);
    if m.1 == "}" then Some([m.0])
    else if m.1 == "" || m.1[0] != ',' then None
    else
      var rest :- ReadMembers(m.1[1..]);
      Some([m.0] + rest)
  }

  /** The reader of a whole object. */
  function ParseObject(t: string): Option<seq<Member>> {
    if t == "" || t[0] != '{' then None else ReadMembers(t[1..])
  }

  // The writer's side: names that need no escapes, with their values.
  datatype Field = Field(name: string, value: Value)

  predicate Plain(name: string) {
    forall i :: 0 <= i < |name| ==> IsPrintable(name[i] as int) && name[i] != '"' && name[i] != '\\'
  }

  // A name as a Python string, and as the reader gives it.
  function Points(name: string): PyString {
    if name == "" then [] else [name[0] as int] + Points(name[1..])
  }

  function Codes(name: string): seq<Unit> {
    ToUtf16(Points(name))
  }

  function FieldText(f: Field): string {
    "\"" + f.name + "\":" + ValueText(f.value)
  }

  function FieldsText(fields: seq<Field>): string {
    if fields == [] then "}" else "," + FieldText(fields[0]) + FieldsText(fields[1..])
  }

  function MemberOf(f: Field): Member {
    Member(Codes(f.name), ToWire(f.value))
  }

  lemma {:induction false} NamesAreNotEscaped(name: string)
    requires Plain(name)
    ensures EscapeAll(Points(name)) == name
    decreases |name|
  {
    if name != "" {
      NamesAreNotEscaped(name[1..]);
      assert Points(name)[1..] == Points(name[1..]);
      assert Escape(Points(name)[0]) == [name[0]];
    }
  }

  // Where a value ends.
  predicate Ends(rest: string) {
    rest != "" && (rest[0] == ',' || rest[0] == '}')
  }

  lemma ValueReads(v: Value, rest: string)
    requires Ends(rest)
    ensures ReadValue(ValueText(v) + rest) == Some((ToWire(v), rest))
  {
    match v
    case Number(n) =>
      IntRoundTrip(n, rest);
      NumberIsNoText(n);
    case Text(s) =>
      TextRoundTrip(s, rest);
  }

  lemma NumberIsNoText(n: int)
    ensures IntText(n) != "" && IntText(n)[0] != '"'
  {
    ReadNat(0, if n < 0 then -n else n, "");
  }

  // A member's text behind its first quote.
  lemma CutField(name: string, value: string, rest: string)
    ensures ("\"" + name + "\":" + value + rest)[1..] == name + "\"" + (":" + value + rest)
  {
  }

  lemma CutColon(value: string, rest: string)
    ensures (":" + value + rest)[1..] == value + rest
  {
  }

  lemma FieldReads(f: Field, rest: string)
    requires Plain(f.name) && Ends(rest)
    ensures ReadMember(FieldText(f) + rest) == Some((MemberOf(f), rest))
  {
    var value := ValueText(f.value);
    NamesAreNotEscaped(f.name);
    EscapeByUnits(Points(f.name));
    UnitsRoundTrip(Codes(f.name), ":" + value + rest);
    ValueReads(f.value, rest);
    CutField(f.name, value, rest);
    CutColon(value, rest);
  }

  ghost predicate AllPlain(fields: seq<Field>) {
    forall i :: 0 <= i < |fields| ==> Plain(fields[i].name)
  }

  function Members(fields: seq<Field>): seq<Member> {
    if fields == [] then [] else [MemberOf(fields[0])] + Members(fields[1..])
  }

  lemma LastReads(f: Field)
    requires Plain(f.name)
    ensures ReadMembers(FieldText(f) + "}") == Some([MemberOf(f)])
  {
    FieldReads(f, "}");
  }

  lemma NextReads(f: Field, rest: string)
    requires Plain(f.name) && ReadMembers(rest).Some?
    ensures ReadMembers(FieldText(f) + ("," + rest)) == Some([MemberOf(f)] + ReadMembers(rest).value)
  {
    FieldReads(f, "," + rest);
    assert ("," + rest)[1..] == rest;
  }

  lemma {:induction false} FieldsRead(f: Field, fields: seq<Field>)
    requires Plain(f.name) && AllPlain(fields)
    ensures ReadMembers(FieldText(f) + FieldsText(fields)) == Some([MemberOf(f)] + Members(fields))
    decreases |fields|
  {
    if fields == [] {
      LastReads(f);
      assert [MemberOf(f)] + Members(fields) == [MemberOf(f)];
    } else {
      FieldsRead(fields[0], fields[1..]);
      NextReads(f, FieldText(fields[0]) + FieldsText(fields[1..]));
      assert FieldsText(fields) == "," + (FieldText(fields[0]) + FieldsText(fields[1..]));
    }
  }

  // The first field is not preceded by a comma.
  function ObjectText(fields: seq<Field>): string
    requires fields != []
  {
    "{" + FieldText(fields[0]) + FieldsText(fields[1..])
  }

  lemma OpenBrace(inside: string, rest: string)
    ensures var t := "{" + inside + rest; t != "" && t[0] == '{' && t[1..] == inside + rest
  {
  }

  /** Any object of plainly named members is read back member by member. */
  lemma ObjectRoundTrip(fields: seq<Field>)
    requires fields != [] && AllPlain(fields)
    ensures ParseObject(ObjectText(fields)) == Some(Members(fields))
  {
    FieldsRead(fields[0], fields[1..]);
    OpenBrace(FieldText(fields[0]), FieldsText(fields[1..]));
  }

  // What stands before the value of a field that is not the first.
  function Before(name: string): string {
    ",\"" + name + "\":"
  }

  lemma SlotIsField(f: Field, rest: string)
    ensures Before(f.name) + ValueText(f.value) + rest == "," + FieldText(f) + rest
  {
    var quoted := "\"" + f.name + "\":";
    assert Before(f.name) == "," + quoted;
    Associate(",", quoted, ValueText(f.value), rest);
  }

  lemma Associate(a: string, b: string, c: string, d: string)
    ensures a + b + c + d == a + (b + c) + d
  {
    assert a + b + c == a + (b + c);
  }

  // The slots are those of the fields.
  ghost predicate NamedBy(slots: seq<Slot>, fields: seq<Field>) {
    |slots| == |fields| && forall i :: 0 <= i < |slots| ==> slots[i].before == Before(fields[i].name)
  }

  ghost predicate ValuesOf(values: seq<Value>, fields: seq<Field>) {
    |values| == |fields| && forall i :: 0 <= i < |values| ==> values[i] == fields[i].value
  }

  lemma {:induction false} RenderIsFields(slots: seq<Slot>, values: seq<Value>, fields: seq<Field>, last: seq<Field>)
    requires NamedBy(slots, fields) && ValuesOf(values, fields) && TRAILER == FieldsText(last)
    ensures Render(slots, values) == FieldsText(fields + last)
    decreases |slots|
  {
    var all := fields + last;
    if slots == [] {
      assert all == last;
    } else {
      assert all[0] == fields[0] && all[1..] == fields[1..] + last;
      RenderIsFields(slots[1..], values[1..], fields[1..], last);
      SlotIsField(fields[0], FieldsText(all[1..]));
    }
  }

  // The members of a receipt, by name.
  function Fields(r: Receipt): seq<Field> {
    [Field("cached_tokens", Number(r.cachedTokens)),
     Field("completion_tokens", Number(r.completionTokens)),
     Field("model", Text(r.model)),
     Field("prompt_tokens", Number(r.promptTokens)),
     Field("pubkey", Text(r.pubkey)),
     Field("request_id", Text(r.requestId)),
     Field("request_sha256", Text(r.requestSha256)),
     Field("response_sha256", Text(r.responseSha256)),
     Field("ts", Number(r.ts)),
     Field("v", Number(1))]
  }

  lemma FirstSlots()
    ensures TEMPLATE[0].before == "{" + "\"" + "cached_tokens" + "\":"
    ensures TEMPLATE[1].before == Before("completion_tokens")
    ensures TEMPLATE[2].before == Before("model")
  {
  }

  lemma MiddleSlots()
    ensures TEMPLATE[3].before == Before("prompt_tokens")
    ensures TEMPLATE[4].before == Before("pubkey")
    ensures TEMPLATE[5].before == Before("request_id")
  {
  }

  lemma LastSlots()
    ensures TEMPLATE[6].before == Before("request_sha256")
    ensures TEMPLATE[7].before == Before("response_sha256")
    ensures TEMPLATE[8].before == Before("ts")
  {
  }

  lemma TrailerIsVersion()
    ensures TRAILER == FieldsText([Field("v", Number(1))])
  {
    assert [Field("v", Number(1))][1..] == [];
  }

  lemma TemplateIsNamed(r: Receipt)
    ensures NamedBy(TEMPLATE[1..], Fields(r)[1..9]) && ValuesOf(Values(r)[1..], Fields(r)[1..9])
  {
    FirstSlots();
    MiddleSlots();
    LastSlots();
  }

  lemma FirstSlotIsFirstField(f: Field, rest: string)
    requires f.name == "cached_tokens"
    ensures TEMPLATE[0].before + ValueText(f.value) + rest == "{" + FieldText(f) + rest
  {
    FirstSlots();
    Associate("{", "\"" + f.name + "\":", ValueText(f.value), rest);
  }

  lemma PayloadIsObject(r: Receipt)
    ensures CanonicalPayload(r) == ObjectText(Fields(r))
  {
    var fields := Fields(r);
    var version := [Field("v", Number(1))];
    TemplateIsNamed(r);
    TrailerIsVersion();
    RenderIsFields(TEMPLATE[1..], Values(r)[1..], fields[1..9], version);
    assert fields[1..9] + version == fields[1..];
    FirstSlotIsFirstField(fields[0], FieldsText(fields[1..]));
  }

  lemma FirstNamesArePlain()
    ensures Plain("cached_tokens") && Plain("completion_tokens") && Plain("model") && Plain("prompt_tokens")
    ensures Plain("pubkey")
  {
  }

  lemma LastNamesArePlain()
    ensures Plain("request_id") && Plain("request_sha256") && Plain("response_sha256") && Plain("ts") && Plain("v")
  {
  }

  lemma NamesArePlain(r: Receipt)
    ensures AllPlain(Fields(r))
  {
    FirstNamesArePlain();
    LastNamesArePlain();
  }

  /** What a reader that knows nothing of the template finds in the payload: an object of exactly these ten
      members, each field of the receipt under its own name. */
  lemma PayloadMembers(r: Receipt)
    ensures ParseObject(CanonicalPayload(r)) == Some(Members(Fields(r)))
  {
    NamesArePlain(r);
    PayloadIsObject(r);
    ObjectRoundTrip(Fields(r));
  }
}
