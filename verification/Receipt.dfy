/** The signed receipt payload, and a reader that recovers every field of it. */
module Receipt {
  import opened Wrappers
  import opened Json

  datatype Receipt = Receipt(
    requestId: PyString,
    model: PyString,
    requestSha256: PyString,
    responseSha256: PyString,
    promptTokens: int,
    completionTokens: int,
    cachedTokens: int,
    ts: int,
    pubkey: PyString)

  predicate Valid(r: Receipt) {
    && ValidUnicode(r.requestId) && ValidUnicode(r.model) && ValidUnicode(r.requestSha256)
    && ValidUnicode(r.responseSha256) && ValidUnicode(r.pubkey)
  }

  // A value in the payload.
  datatype Value = Number(n: int) | Text(s: PyString)

  // A slot of the fixed template: the text before a value, and the value's kind.
  datatype Slot = Slot(before: string, isText: bool)

  const TEMPLATE: seq<Slot> :=
    [Slot("{\"cached_tokens\":", false),
     Slot(",\"completion_tokens\":", false),
     Slot(",\"model\":", true),
     Slot(",\"prompt_tokens\":", false),
     Slot(",\"pubkey\":", true),
     Slot(",\"request_id\":", true),
     Slot(",\"request_sha256\":", true),
     Slot(",\"response_sha256\":", true),
     Slot(",\"ts\":", false)]

  const TRAILER := ",\"v\":1}"

  function Values(r: Receipt): seq<Value> {
    [Number(r.cachedTokens), Number(r.completionTokens), Text(r.model), Number(r.promptTokens), Text(r.pubkey),
     Text(r.requestId), Text(r.requestSha256), Text(r.responseSha256), Number(r.ts)]
  }

  function ValueText(v: Value): string {
    match v
    case Number(n) => IntText(n)
    case Text(s) => Dumps(s)
  }

  function Render(slots: seq<Slot>, values: seq<Value>): string
    requires |slots| == |values|
  {
    if slots == [] then TRAILER
    else slots[0].before + ValueText(values[0]) + Render(slots[1..], values[1..])
  }

  /** canonical_payload; the text is ASCII, so encoding it as UTF-8 does not change it. */
  function CanonicalPayload(r: Receipt): string {
    Render(TEMPLATE, Values(r))
  }

  // What a value says on the wire: a number, or a string of UTF-16 code units.
  datatype Wire = WireNumber(n: int) | WireText(u: seq<Unit>)

  function ToWire(v: Value): Wire {
    match v
    case Number(n) => WireNumber(n)
    case Text(s) => WireText(ToUtf16(s))
  }

  function ParseValue(isText: bool, t: string): Option<(Wire, string)> {
    if !isText then
      var r :- ParseInt(t);
      Some((WireNumber(r.0), r.1))
    else if t == "" || t[0] != '"' then None
    else
      var r :- ParseUnits(t[1..]);
      Some((WireText(r.0), r.1))
  }

  function Parse(slots: seq<Slot>, t: string): Option<seq<Wire>>
    decreases |slots|
  {
    if slots == [] then (if t == TRAILER then Some([]) else None)
    else if !(slots[0].before <= t) then None
    else
      var v :- ParseValue(slots[0].isText, t[|slots[0].before|..]);
      var rest :- Parse(slots[1..], v.1);
      Some([v.0] + rest)
  }

  function FromWire(w: seq<Wire>): Option<Receipt> {
    if |w| == 9 && w[0].WireNumber? && w[1].WireNumber? && w[2].WireText? && w[3].WireNumber? && w[4].WireText?
       && w[5].WireText? && w[6].WireText? && w[7].WireText? && w[8].WireNumber?
    then Some(Receipt(FromUtf16(w[5].u), FromUtf16(w[2].u), FromUtf16(w[6].u), FromUtf16(w[7].u),
                      w[3].n, w[1].n, w[0].n, w[8].n, FromUtf16(w[4].u)))
    else None
  }

  /** The reader of a whole payload. */
  function ParsePayload(t: string): Option<Receipt> {
    var w :- Parse(TEMPLATE, t);
    FromWire(w)
  }

  // From the second slot on each one starts with a comma, so a number ends where the next slot starts.
  predicate Separated(slots: seq<Slot>) {
    forall i :: 0 <= i < |slots| ==> slots[i].before != "" && slots[i].before[0] == ','
  }

  ghost predicate Fits(slots: seq<Slot>, values: seq<Value>) {
    |slots| == |values| && forall i :: 0 <= i < |slots| ==> slots[i].isText == values[i].Text?
  }

  function Wires(values: seq<Value>): (w: seq<Wire>)
    ensures |w| == |values| && forall i :: 0 <= i < |w| ==> w[i] == ToWire(values[i])
  {
    if values == [] then [] else [ToWire(values[0])] + Wires(values[1..])
  }

  lemma OpenQuote(inside: string, rest: string)
    ensures var t := "\"" + inside + "\"" + rest; t != "" && t[0] == '"' && t[1..] == inside + "\"" + rest
  {
  }

  lemma TextRoundTrip(s: PyString, rest: string)
    ensures ParseValue(true, Dumps(s) + rest) == Some((WireText(ToUtf16(s)), rest))
  {
    EscapeByUnits(s);
    UnitsRoundTrip(ToUtf16(s), rest);
    OpenQuote(EscapeAll(s), rest);
  }

  lemma ValueRoundTrip(v: Value, rest: string)
    requires rest != "" && rest[0] == ','
    ensures ParseValue(v.Text?, ValueText(v) + rest) == Some((ToWire(v), rest))
  {
    if v.Number? {
      IntRoundTrip(v.n, rest);
    } else {
      TextRoundTrip(v.s, rest);
    }
  }

  lemma RenderStarts(slots: seq<Slot>, values: seq<Value>)
    requires |slots| == |values| && Separated(slots)
    ensures Render(slots, values) != "" && Render(slots, values)[0] == ','
  {
  }

  lemma CutPrefix(before: string, value: string, rest: string)
    ensures var t := before + value + rest; before <= t && t[|before|..] == value + rest
  {
  }

  lemma {:induction false} ParseRender(slots: seq<Slot>, values: seq<Value>)
    requires Fits(slots, values) && (slots != [] ==> Separated(slots[1..]))
    ensures Parse(slots, Render(slots, values)) == Some(Wires(values))
    decreases |slots|
  {
    if slots != [] {
      var rest := Render(slots[1..], values[1..]);
      RenderStarts(slots[1..], values[1..]);
      ValueRoundTrip(values[0], rest);
      ParseRender(slots[1..], values[1..]);
      CutPrefix(slots[0].before, ValueText(values[0]), rest);
    }
  }

  // The payload of any receipt, lone surrogates or not, reads back as what it says on the wire.
  lemma PayloadReadsBack(r: Receipt)
    ensures Parse(TEMPLATE, CanonicalPayload(r)) == Some(Wires(Values(r)))
  {
    ParseRender(TEMPLATE, Values(r));
  }

  lemma FromWireOfValues(r: Receipt)
    requires Valid(r)
    ensures FromWire(Wires(Values(r))) == Some(r)
  {
    Utf16RoundTrip(r.requestId);
    Utf16RoundTrip(r.model);
    Utf16RoundTrip(r.requestSha256);
    Utf16RoundTrip(r.responseSha256);
    Utf16RoundTrip(r.pubkey);
  }

  /** Every receipt of valid Unicode strings and arbitrary integers is recovered from its payload. */
  lemma PayloadRoundTrip(r: Receipt)
    requires Valid(r)
    ensures ParsePayload(CanonicalPayload(r)) == Some(r)
  {
    PayloadReadsBack(r);
    FromWireOfValues(r);
  }

  /** So two valid receipts with the same payload are the same receipt. */
  lemma PayloadIsInjective(a: Receipt, b: Receipt)
    requires Valid(a) && Valid(b) && CanonicalPayload(a) == CanonicalPayload(b)
    ensures a == b
  {
    PayloadRoundTrip(a);
    PayloadRoundTrip(b);
  }

  ghost predicate SameOnWire(a: Receipt, b: Receipt) {
    && a.promptTokens == b.promptTokens && a.completionTokens == b.completionTokens
    && a.cachedTokens == b.cachedTokens && a.ts == b.ts
    && ToUtf16(a.requestId) == ToUtf16(b.requestId) && ToUtf16(a.model) == ToUtf16(b.model)
    && ToUtf16(a.requestSha256) == ToUtf16(b.requestSha256)
    && ToUtf16(a.responseSha256) == ToUtf16(b.responseSha256)
    && ToUtf16(a.pubkey) == ToUtf16(b.pubkey)
  }

  lemma WiresAre(a: Receipt, b: Receipt)
    ensures Wires(Values(a)) == Wires(Values(b)) <==> SameOnWire(a, b)
  {
    var v, w := Values(a), Values(b);
    assert SameOnWire(a, b) <==> forall i :: 0 <= i < 9 ==> ToWire(v[i]) == ToWire(w[i]) by {
      assert ToWire(v[0]) == ToWire(w[0]) <==> a.cachedTokens == b.cachedTokens;
      assert ToWire(v[1]) == ToWire(w[1]) <==> a.completionTokens == b.completionTokens;
      assert ToWire(v[2]) == ToWire(w[2]) <==> ToUtf16(a.model) == ToUtf16(b.model);
      assert ToWire(v[3]) == ToWire(w[3]) <==> a.promptTokens == b.promptTokens;
      assert ToWire(v[4]) == ToWire(w[4]) <==> ToUtf16(a.pubkey) == ToUtf16(b.pubkey);
      assert ToWire(v[5]) == ToWire(w[5]) <==> ToUtf16(a.requestId) == ToUtf16(b.requestId);
      assert ToWire(v[6]) == ToWire(w[6]) <==> ToUtf16(a.requestSha256) == ToUtf16(b.requestSha256);
      assert ToWire(v[7]) == ToWire(w[7]) <==> ToUtf16(a.responseSha256) == ToUtf16(b.responseSha256);
      assert ToWire(v[8]) == ToWire(w[8]) <==> a.ts == b.ts;
    }
    if Wires(v) == Wires(w) {
      forall i | 0 <= i < 9 ensures ToWire(v[i]) == ToWire(w[i]) {
        assert Wires(v)[i] == Wires(w)[i];
      }
    }
  }

  lemma ValueByWire(v: Value, w: Value)
    requires ToWire(v) == ToWire(w)
    ensures ValueText(v) == ValueText(w)
  {
    if v.Text? {
      EscapeByUnits(v.s);
      EscapeByUnits(w.s);
    }
  }

  lemma {:induction false} RenderByWire(slots: seq<Slot>, a: seq<Value>, b: seq<Value>)
    requires |slots| == |a| == |b| && Wires(a) == Wires(b)
    ensures Render(slots, a) == Render(slots, b)
    decreases |slots|
  {
    if slots != [] {
      assert Wires(a)[0] == Wires(b)[0] && Wires(a)[1..] == Wires(b)[1..];
      ValueByWire(a[0], b[0]);
      RenderByWire(slots[1..], a[1..], b[1..]);
    }
  }

  /** For all receipts, also with lone surrogates: equal payloads mean exactly equal integers and strings
      of equal UTF-16 code units. */
  lemma EqualPayloads(a: Receipt, b: Receipt)
    ensures CanonicalPayload(a) == CanonicalPayload(b) <==> SameOnWire(a, b)
  {
    WiresAre(a, b);
    if CanonicalPayload(a) == CanonicalPayload(b) {
      PayloadReadsBack(a);
      PayloadReadsBack(b);
    } else if Wires(Values(a)) == Wires(Values(b)) {
      RenderByWire(TEMPLATE, Values(a), Values(b));
    }
  }

  /** Without valid Unicode the payload is not injective: a surrogate pair given as two characters signs
      like the one character it stands for. */
  lemma SurrogatesCollide(r: Receipt)
    ensures CanonicalPayload(r.(model := [0x1F600])) == CanonicalPayload(r.(model := [0xD83D, 0xDE00]))
    ensures r.(model := [0x1F600]) != r.(model := [0xD83D, 0xDE00])
  {
    var one: PyString, two: PyString := [0x1F600], [0xD83D, 0xDE00];
    assert one[1..] == [] && two[1..] == [0xDE00] && two[1..][1..] == [];
    assert ToUtf16(one) == [0xD83D, 0xDE00] + ToUtf16([]);
    assert ToUtf16(two) == [0xD83D] + ([0xDE00] + ToUtf16([]));
    EqualPayloads(r.(model := one), r.(model := two));
  }

  predicate IsAscii(t: string) {
    forall i :: 0 <= i < |t| ==> ' ' <= t[i] <= '~'
  }

  lemma {:induction false} NatTextIsAscii(n: nat)
    ensures IsAscii(NatText(n))
  {
    if n >= 10 {
      NatTextIsAscii(n / 10);
    }
  }

  lemma UnitIsAscii(u: Unit)
    ensures IsAscii(EscapeUnit(u)) && IsAscii(Hex4(u))
  {
  }

  lemma {:induction false} UnitsAreAscii(u: seq<Unit>)
    ensures IsAscii(EscapeUnits(u))
  {
    if u != [] {
      UnitIsAscii(u[0]);
      UnitsAreAscii(u[1..]);
    }
  }

  lemma ValueIsAscii(v: Value)
    ensures IsAscii(ValueText(v))
  {
    match v
    case Number(n) => NatTextIsAscii(if n < 0 then -n else n);
    case Text(s) =>
      EscapeByUnits(s);
      UnitsAreAscii(ToUtf16(s));
  }

  lemma {:induction false} RenderIsAscii(slots: seq<Slot>, values: seq<Value>)
    requires |slots| == |values| && forall i :: 0 <= i < |slots| ==> IsAscii(slots[i].before)
    ensures IsAscii(Render(slots, values))
    decreases |slots|
  {
    if slots != [] {
      ValueIsAscii(values[0]);
      assert IsAscii(slots[0].before);
      RenderIsAscii(slots[1..], values[1..]);
    }
  }

  lemma FirstSlotsAreAscii()
    ensures forall i :: 0 <= i < 3 ==> IsAscii(TEMPLATE[i].before)
  {
    assert IsAscii(TEMPLATE[0].before);
    assert IsAscii(TEMPLATE[1].before);
    assert IsAscii(TEMPLATE[2].before);
  }

  lemma MiddleSlotsAreAscii()
    ensures forall i :: 3 <= i < 6 ==> IsAscii(TEMPLATE[i].before)
  {
    assert IsAscii(TEMPLATE[3].before);
    assert IsAscii(TEMPLATE[4].before);
    assert IsAscii(TEMPLATE[5].before);
  }

  lemma LastSlotsAreAscii()
    ensures forall i :: 6 <= i < 9 ==> IsAscii(TEMPLATE[i].before)
  {
    assert IsAscii(TEMPLATE[6].before);
    assert IsAscii(TEMPLATE[7].before);
    assert IsAscii(TEMPLATE[8].before);
  }

  lemma TemplateIsAscii()
    ensures forall i :: 0 <= i < |TEMPLATE| ==> IsAscii(TEMPLATE[i].before)
  {
    FirstSlotsAreAscii();
    MiddleSlotsAreAscii();
    LastSlotsAreAscii();
  }

  /** The payload is printable ASCII, whatever the strings contain. */
  lemma PayloadIsAscii(r: Receipt)
    ensures IsAscii(CanonicalPayload(r))
  {
    TemplateIsAscii();
    RenderIsAscii(TEMPLATE, Values(r));
  }
}
