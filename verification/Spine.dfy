/** The bounded event line of the suite's append log (daemon/src/spine.ts):
    JSON text as UTF-16 code units, its UTF-8 size, and reading it back. */
module Spine {
  import opened Common

  /** A UTF-16 code unit. */
  type Unit = u: int | 0 <= u < 0x10000

  type Text = seq<Unit>

  const QUOTE: Unit := 0x22
  const BACKSLASH: Unit := 0x5C
  const COMMA: Unit := 0x2C
  const COLON: Unit := 0x3A
  const NEWLINE: Unit := 0x0A

  predicate IsHigh(u: Unit) {
    0xD800 <= u < 0xDC00
  }

  predicate IsLow(u: Unit) {
    0xDC00 <= u < 0xE000
  }

  /** The surrogate at `k` has its other half beside it. */
  predicate IsPaired(t: Text, k: nat)
    requires k < |t|
  {
    || (IsHigh(t[k]) && k + 1 < |t| && IsLow(t[k + 1]))
    || (IsLow(t[k]) && k > 0 && IsHigh(t[k - 1]))
  }

  predicate IsLone(t: Text, k: nat)
    requires k < |t|
  {
    (IsHigh(t[k]) || IsLow(t[k])) && !IsPaired(t, k)
  }

  // ---------------------------------------------------------------- strings

  function HexDigit(n: nat): Unit
    requires n < 16
  {
    if n < 10 then 0x30 + n else 0x61 + n - 10
  }

  function HexValue(u: Unit): (n: int)
    ensures -1 <= n < 16
  {
    if 0x30 <= u <= 0x39 then u - 0x30
    else if 0x61 <= u <= 0x66 then u - 0x61 + 10
    else if 0x41 <= u <= 0x46 then u - 0x41 + 10
    else -1
  }

  /** The letter after the backslash, for characters that have a short escape. */
  function ShortEscape(u: Unit): Option<Unit> {
    if u == 0x08 then Some(0x62)
    else if u == 0x09 then Some(0x74)
    else if u == 0x0A then Some(0x6E)
    else if u == 0x0C then Some(0x66)
    else if u == 0x0D then Some(0x72)
    else if u == QUOTE || u == BACKSLASH then Some(u)
    else None
  }

  function LongEscape(u: Unit): Text {
    [BACKSLASH, 0x75, HexDigit(u / 0x1000), HexDigit(u / 0x100 % 16), HexDigit(u / 0x10 % 16), HexDigit(u % 16)]
  }

  /** `JSON.stringify` on one code unit of a string. */
  function EscapeUnit(u: Unit, lone: bool): (e: Text)
    ensures 1 <= |e| <= 6
  {
    if ShortEscape(u).Some? then [BACKSLASH, ShortEscape(u).value]
    else if u < 0x20 || lone then LongEscape(u)
    else [u]
  }

  type Escaper = (Unit, bool) -> Text

  function Escape(escape: Escaper, s: Text, n: nat): Text
    requires n <= |s|
  {
    if n == 0 then [] else Escape(escape, s, n - 1) + escape(s[n - 1], IsLone(s, n - 1))
  }

  function QuoteBy(escape: Escaper, s: Text): Text {
    [QUOTE] + (Escape(escape, s, |s|) + [QUOTE])
  }

  function Quote(s: Text): Text {
    QuoteBy(EscapeUnit, s)
  }

  /** The character that a short escape stands for. */
  function Unescape(letter: Unit): Option<Unit> {
    if letter == 0x62 then Some(0x08)
    else if letter == 0x74 then Some(0x09)
    else if letter == 0x6E then Some(0x0A)
    else if letter == 0x66 then Some(0x0C)
    else if letter == 0x72 then Some(0x0D)
    else if letter == QUOTE || letter == BACKSLASH || letter == 0x2F then Some(letter)
    else None
  }

  function ReadHex(t: Text, i: nat): Option<Unit>
    requires i + 4 <= |t|
  {
    var a, b, c, d := HexValue(t[i]), HexValue(t[i + 1]), HexValue(t[i + 2]), HexValue(t[i + 3]);
    if a < 0 || b < 0 || c < 0 || d < 0 then None else Some(a * 0x1000 + b * 0x100 + c * 0x10 + d)
  }

  /** One character of a string literal, and where the next one starts
      (section 7 of RFC 8259). */
  function ReadUnit(t: Text, i: nat): (r: Option<(Unit, nat)>)
    requires i < |t|
    ensures r.Some? ==> i < r.value.1 <= |t|
  {
    if t[i] != BACKSLASH then
      if t[i] < 0x20 then None else Some((t[i], i + 1))
    else if i + 1 < |t| && Unescape(t[i + 1]).Some? then
      Some((Unescape(t[i + 1]).value, i + 2))
    else if i + 6 <= |t| && t[i + 1] == 0x75 && ReadHex(t, i + 2).Some? then
      Some((ReadHex(t, i + 2).value, i + 6))
    else None
  }

  /** The rest of a string literal up to its closing quote. */
  function ReadString(t: Text, i: nat, read: Text): (r: Option<(Text, nat)>)
    ensures r.Some? ==> i < r.value.1 <= |t|
    decreases |t| - i
  {
    if i >= |t| then None
    else if t[i] == QUOTE then Some((read, i + 1))
    else
      var u := ReadUnit(t, i);
      if u.None? then None else ReadString(t, u.value.1, read + [u.value.0])
  }

  /** `part` stands at position `i` of `t`. */
  ghost predicate Holds(t: Text, i: nat, part: Text) {
    i + |part| <= |t| && forall k :: 0 <= k < |part| ==> t[i + k] == part[k]
  }

  lemma HoldsParts(t: Text, i: nat, a: Text, b: Text)
    requires Holds(t, i, a + b)
    ensures Holds(t, i, a) && Holds(t, i + |a|, b)
  {
    assert forall k :: 0 <= k < |a| ==> (a + b)[k] == a[k];
    forall k | 0 <= k < |b|
      ensures t[i + |a| + k] == b[k]
    {
      assert (a + b)[|a| + k] == b[k];
      assert t[i + (|a| + k)] == b[k];
    }
  }

  lemma HexRoundTrip(n: nat)
    requires n < 16
    ensures HexValue(HexDigit(n)) == n
  {
  }

  lemma FourDigits(u: Unit)
    ensures u / 0x1000 < 16
    ensures u / 0x1000 * 0x1000 + u / 0x100 % 16 * 0x100 + u / 0x10 % 16 * 0x10 + u % 16 == u
  {
  }

  lemma ReadFour(t: Text, i: nat, a: nat, b: nat, c: nat, d: nat)
    requires a < 16 && b < 16 && c < 16 && d < 16 && i + 4 <= |t|
    requires t[i] == HexDigit(a) && t[i + 1] == HexDigit(b) && t[i + 2] == HexDigit(c) && t[i + 3] == HexDigit(d)
    ensures ReadHex(t, i) == Some(a * 0x1000 + b * 0x100 + c * 0x10 + d)
  {
    HexRoundTrip(a);
    HexRoundTrip(b);
    HexRoundTrip(c);
    HexRoundTrip(d);
  }

  lemma LongEscapeReads(t: Text, i: nat, u: Unit)
    requires Holds(t, i, LongEscape(u))
    ensures ReadUnit(t, i) == Some((u, i + 6))
  {
    var e := LongEscape(u);
    assert t[i] == e[0] && t[i + 1] == e[1] && t[i + 2] == e[2] && t[i + 3] == e[3] && t[i + 4] == e[4] && t[i + 5] == e[5];
    FourDigits(u);
    ReadFour(t, i + 2, u / 0x1000, u / 0x100 % 16, u / 0x10 % 16, u % 16);
  }

  /** Wherever `escape` wrote a character, the reader gets it back. */
  ghost predicate Undone(t: Text, escape: Escaper) {
    forall i: nat, u, lone {:trigger Holds(t, i, escape(u, lone))} :: Holds(t, i, escape(u, lone)) ==>
      i + |escape(u, lone)| < |t| ==>
      forall read {:trigger ReadString(t, i, read)} :: ReadString(t, i, read) == ReadString(t, i + |escape(u, lone)|, read + [u])
  }

  lemma EscapeReads(t: Text, i: nat, u: Unit, lone: bool)
    requires Holds(t, i, EscapeUnit(u, lone))
    ensures t[i] != QUOTE && ReadUnit(t, i) == Some((u, i + |EscapeUnit(u, lone)|))
  {
    var e := EscapeUnit(u, lone);
    assert t[i] == e[0];
    if ShortEscape(u).Some? {
      assert t[i + 1] == e[1];
    } else if u < 0x20 || lone {
      LongEscapeReads(t, i, u);
    }
  }

  lemma EscapeUnitIsUndone(t: Text)
    ensures Undone(t, EscapeUnit)
  {
    forall i: nat, u, lone, read | Holds(t, i, EscapeUnit(u, lone)) && i + |EscapeUnit(u, lone)| < |t|
      ensures ReadString(t, i, read) == ReadString(t, i + |EscapeUnit(u, lone)|, read + [u])
    {
      EscapeReads(t, i, u, lone);
    }
  }

  lemma {:induction false} EscapedReads(escape: Escaper, t: Text, i: nat, s: Text, n: nat)
    requires n <= |s| && Holds(t, i, Escape(escape, s, n)) && i + |Escape(escape, s, n)| < |t| && Undone(t, escape)
    ensures ReadString(t, i, []) == ReadString(t, i + |Escape(escape, s, n)|, s[..n])
  {
    if n > 0 {
      var front, last := Escape(escape, s, n - 1), escape(s[n - 1], IsLone(s, n - 1));
      HoldsParts(t, i, front, last);
      EscapedReads(escape, t, i, s, n - 1);
      assert s[..n] == s[..n - 1] + [s[n - 1]];
    }
  }

  lemma QuotedParts(t: Text, i: nat, body: Text)
    requires Holds(t, i, [QUOTE] + (body + [QUOTE]))
    ensures t[i] == QUOTE && Holds(t, i + 1, body) && i + 1 + |body| < |t| && t[i + 1 + |body|] == QUOTE
  {
    HoldsParts(t, i, [QUOTE], body + [QUOTE]);
    HoldsParts(t, i + 1, body, [QUOTE]);
    assert t[i] == [QUOTE][0] && t[i + 1 + |body|] == [QUOTE][0];
  }

  lemma QuotedByReads(escape: Escaper, t: Text, i: nat, s: Text)
    requires Holds(t, i, QuoteBy(escape, s)) && Undone(t, escape)
    ensures t[i] == QUOTE && ReadString(t, i + 1, []) == Some((s, i + |QuoteBy(escape, s)|))
  {
    QuotedParts(t, i, Escape(escape, s, |s|));
    EscapedReads(escape, t, i + 1, s, |s|);
    assert s[..|s|] == s;
  }

  lemma QuotedReads(t: Text, i: nat, s: Text)
    requires Holds(t, i, Quote(s))
    ensures t[i] == QUOTE && ReadString(t, i + 1, []) == Some((s, i + |Quote(s)|))
  {
    EscapeUnitIsUndone(t);
    QuotedByReads(EscapeUnit, t, i, s);
  }

  // ---------------------------------------------------------------- values

  /** The JSON values an event is made of; its only number is 1. */
  datatype Json =
    | One
    | True
    | String(s: Text)
    | Array(items: seq<Json>)
    | Object(fields: seq<(Text, Json)>)

  const TRUE: Text := [0x74, 0x72, 0x75, 0x65]

  function Print(v: Json): Text
    decreases v, 2, 0
  {
    match v
    case One => [0x31]
    case True => TRUE
    case String(s) => Quote(s)
    case Array(items) => if items == [] then [0x5B, 0x5D] else [0x5B] + PrintItems(v, 0)
    case Object(fields) => if fields == [] then [0x7B, 0x7D] else [0x7B] + PrintFields(v, 0)
  }

  /** The items from `k` on and the closing bracket. */
  function PrintItems(v: Json, k: nat): Text
    requires v.Array? && k < |v.items|
    decreases v, 1, 2 * (|v.items| - k)
  {
    Print(v.items[k]) + PrintMoreItems(v, k + 1)
  }

  function PrintMoreItems(v: Json, k: nat): (more: Text)
    requires v.Array? && k <= |v.items|
    ensures more != []
    decreases v, 1, 2 * (|v.items| - k) + 1
  {
    if k == |v.items| then [0x5D] else [COMMA] + PrintItems(v, k)
  }

  function PrintFields(v: Json, k: nat): Text
    requires v.Object? && k < |v.fields|
    decreases v, 1, 2 * (|v.fields| - k)
  {
    Quote(v.fields[k].0) + ([COLON] + (Print(v.fields[k].1) + PrintMoreFields(v, k + 1)))
  }

  function PrintMoreFields(v: Json, k: nat): (more: Text)
    requires v.Object? && k <= |v.fields|
    ensures more != []
    decreases v, 1, 2 * (|v.fields| - k) + 1
  {
    if k == |v.fields| then [0x7D] else [COMMA] + PrintFields(v, k)
  }

  type Parsed = Option<(Json, nat)>

  /** One value of compact JSON text, and where it ends. */
  function ParseValue(t: Text, i: nat): (r: Parsed)
    ensures r.Some? ==> i < r.value.1 <= |t|
    decreases |t| - i, 2
  {
    if i >= |t| then None
    else if t[i] == 0x31 then Some((One, i + 1))
    else if t[i] == 0x74 then if i + 4 <= |t| && t[i..i + 4] == TRUE then Some((True, i + 4)) else None
    else if t[i] == QUOTE then
      var s := ReadString(t, i + 1, []);
      if s.None? then None else Some((String(s.value.0), s.value.1))
    else if t[i] == 0x5B then
      if i + 1 < |t| && t[i + 1] == 0x5D then Some((Array([]), i + 2)) else ParseItems(t, i + 1, [])
    else if t[i] == 0x7B then
      if i + 1 < |t| && t[i + 1] == 0x7D then Some((Object([]), i + 2)) else ParseFields(t, i + 1, [])
    else None
  }

  function ParseItems(t: Text, i: nat, read: seq<Json>): (r: Parsed)
    ensures r.Some? ==> i < r.value.1 <= |t|
    decreases |t| - i, 3
  {
    if i >= |t| then None
    else
      var v := ParseValue(t, i);
      if v.None? || v.value.1 == |t| then None
      else
        var items, j := read + [v.value.0], v.value.1;
        if t[j] == 0x5D then Some((Array(items), j + 1))
        else if t[j] == COMMA then ParseItems(t, j + 1, items)
        else None
  }

  function ParseFields(t: Text, i: nat, read: seq<(Text, Json)>): (r: Parsed)
    ensures r.Some? ==> i < r.value.1 <= |t|
    decreases |t| - i, 3
  {
    if i >= |t| || t[i] != QUOTE then None
    else
      var name := ReadString(t, i + 1, []);
      if name.None? || name.value.1 == |t| || t[name.value.1] != COLON then None
      else
        var v := ParseValue(t, name.value.1 + 1);
        if v.None? || v.value.1 == |t| then None
        else
          var fields, j := read + [(name.value.0, v.value.0)], v.value.1;
          if t[j] == 0x7D then Some((Object(fields), j + 1))
          else if t[j] == COMMA then ParseFields(t, j + 1, fields)
          else None
  }

  function Parse(t: Text): Option<Json> {
    var r := ParseValue(t, 0);
    if r.Some? && r.value.1 == |t| then Some(r.value.0) else None
  }

  // ---------------------------------------------------------------- parsing undoes printing

  lemma FirstUnit(v: Json)
    ensures |Print(v)| > 0 && Print(v)[0] != 0x5D && Print(v)[0] != 0x7D
  {
  }

  lemma {:induction false} ParsePrinted(t: Text, i: nat, v: Json)
    requires Holds(t, i, Print(v))
    ensures ParseValue(t, i) == Some((v, i + |Print(v)|))
    decreases v, 2, 0
  {
    match v {
      case One => assert t[i] == Print(v)[0];
      case True => TrueReads(t, i);
      case String(s) => QuotedReads(t, i, s);
      case Array(items) =>
        if items == [] {
          assert t[i] == Print(v)[0] && t[i + 1] == Print(v)[1];
        } else {
          HoldsParts(t, i, [0x5B], PrintItems(v, 0));
          assert t[i] == [0x5B][0];
          ItemsStart(t, i + 1, v);
          ItemsParse(t, i + 1, v, 0);
        }
      case Object(fields) =>
        if fields == [] {
          assert t[i] == Print(v)[0] && t[i + 1] == Print(v)[1];
        } else {
          HoldsParts(t, i, [0x7B], PrintFields(v, 0));
          assert t[i] == [0x7B][0];
          FieldsStart(t, i + 1, v);
          FieldsParse(t, i + 1, v, 0);
        }
    }
  }

  lemma TrueReads(t: Text, i: nat)
    requires Holds(t, i, TRUE)
    ensures ParseValue(t, i) == Some((True, i + 4))
  {
    assert t[i] == TRUE[0] && t[i..i + 4] == TRUE;
  }

  lemma ItemsStart(t: Text, i: nat, v: Json)
    requires v.Array? && v.items != [] && Holds(t, i, PrintItems(v, 0))
    ensures t[i] != 0x5D
  {
    FirstUnit(v.items[0]);
    assert PrintItems(v, 0)[0] == Print(v.items[0])[0];
  }

  lemma FieldsStart(t: Text, i: nat, v: Json)
    requires v.Object? && v.fields != [] && Holds(t, i, PrintFields(v, 0))
    ensures t[i] != 0x7D
  {
    assert PrintFields(v, 0)[0] == QUOTE;
  }

  lemma ItemReads(t: Text, i: nat, v: Json, k: nat) returns (j: nat)
    requires v.Array? && k < |v.items| && Holds(t, i, PrintItems(v, k))
    ensures i < |t| && j == i + |Print(v.items[k])| < |t| && Holds(t, i, Print(v.items[k]))
    ensures Holds(t, j, PrintMoreItems(v, k + 1)) && j + |PrintMoreItems(v, k + 1)| == i + |PrintItems(v, k)|
  {
    j := i + |Print(v.items[k])|;
    HoldsParts(t, i, Print(v.items[k]), PrintMoreItems(v, k + 1));
  }

  lemma ItemStep(t: Text, i: nat, read: seq<Json>, value: Json, j: nat)
    requires i < |t| && ParseValue(t, i) == Some((value, j)) && j < |t|
    ensures t[j] == 0x5D ==> ParseItems(t, i, read) == Some((Array(read + [value]), j + 1))
    ensures t[j] == COMMA ==> ParseItems(t, i, read) == ParseItems(t, j + 1, read + [value])
  {
  }

  lemma {:induction false} ItemsParse(t: Text, i: nat, v: Json, k: nat)
    requires v.Array? && k < |v.items| && Holds(t, i, PrintItems(v, k))
    ensures ParseItems(t, i, v.items[..k]) == Some((v, i + |PrintItems(v, k)|))
    decreases v, 1, |v.items| - k
  {
    var j := ItemReads(t, i, v, k);
    ParsePrinted(t, i, v.items[k]);
    ItemStep(t, i, v.items[..k], v.items[k], j);
    assert v.items[..k] + [v.items[k]] == v.items[..k + 1];
    assert t[j] == PrintMoreItems(v, k + 1)[0];
    if k + 1 == |v.items| {
      assert v.items[..k + 1] == v.items;
    } else {
      HoldsParts(t, j, [COMMA], PrintItems(v, k + 1));
      ItemsParse(t, j + 1, v, k + 1);
    }
  }

  lemma FieldParts(t: Text, i: nat, name: Text, value: Text, rest: Text)
    requires Holds(t, i, name + ([COLON] + (value + rest))) && rest != []
    ensures var a := i + |name|; var j := a + 1 + |value|;
      Holds(t, i, name) && t[a] == COLON && Holds(t, a + 1, value) && Holds(t, j, rest) && t[j] == rest[0]
  {
    var a := i + |name|;
    HoldsParts(t, i, name, [COLON] + (value + rest));
    HoldsParts(t, a, [COLON], value + rest);
    HoldsParts(t, a + 1, value, rest);
    assert t[a] == [COLON][0] && t[a + 1 + |value|] == rest[0];
  }

  lemma FieldStep(t: Text, i: nat, read: seq<(Text, Json)>, name: Text, a: nat, value: Json, j: nat)
    requires i < |t| && t[i] == QUOTE && ReadString(t, i + 1, []) == Some((name, a)) && a < |t| && t[a] == COLON
    requires ParseValue(t, a + 1) == Some((value, j)) && j < |t|
    ensures t[j] == 0x7D ==> ParseFields(t, i, read) == Some((Object(read + [(name, value)]), j + 1))
    ensures t[j] == COMMA ==> ParseFields(t, i, read) == ParseFields(t, j + 1, read + [(name, value)])
  {
  }

  lemma FieldReads(t: Text, i: nat, v: Json, k: nat) returns (a: nat, j: nat)
    requires v.Object? && k < |v.fields| && Holds(t, i, PrintFields(v, k))
    ensures i < a < j < |t| && t[i] == QUOTE && t[a] == COLON && ReadString(t, i + 1, []) == Some((v.fields[k].0, a))
    ensures j == a + 1 + |Print(v.fields[k].1)| && Holds(t, a + 1, Print(v.fields[k].1))
    ensures Holds(t, j, PrintMoreFields(v, k + 1)) && j + |PrintMoreFields(v, k + 1)| == i + |PrintFields(v, k)|
  {
    var name, value, rest := Quote(v.fields[k].0), Print(v.fields[k].1), PrintMoreFields(v, k + 1);
    a := i + |name|;
    j := a + 1 + |value|;
    FieldParts(t, i, name, value, rest);
    QuotedReads(t, i, v.fields[k].0);
  }

  lemma MoreFieldsStart(t: Text, j: nat, v: Json, k: nat)
    requires v.Object? && k <= |v.fields| && Holds(t, j, PrintMoreFields(v, k))
    ensures j < |t| && t[j] == if k == |v.fields| then 0x7D else COMMA
    ensures k == |v.fields| ==> |PrintMoreFields(v, k)| == 1
    ensures k < |v.fields| ==> Holds(t, j + 1, PrintFields(v, k)) && |PrintMoreFields(v, k)| == 1 + |PrintFields(v, k)|
  {
    assert t[j] == PrintMoreFields(v, k)[0];
    if k < |v.fields| {
      HoldsParts(t, j, [COMMA], PrintFields(v, k));
    }
  }

  /** The `k`-th field is read from `i` to `j`, its value from behind the colon at `a`. */
  ghost predicate ReadsField(t: Text, i: nat, v: Json, k: nat, a: nat, j: nat)
    requires v.Object? && k < |v.fields|
  {
    && i < |t| && t[i] == QUOTE && a < |t| && t[a] == COLON
    && ReadString(t, i + 1, []) == Some((v.fields[k].0, a)) && ParseValue(t, a + 1) == Some((v.fields[k].1, j))
    && Holds(t, j, PrintMoreFields(v, k + 1)) && j + |PrintMoreFields(v, k + 1)| == i + |PrintFields(v, k)|
  }

  /** The last field ends the object. */
  lemma FieldEnds(t: Text, i: nat, v: Json, k: nat, a: nat, j: nat)
    requires v.Object? && k + 1 == |v.fields| && ReadsField(t, i, v, k, a, j)
    ensures ParseFields(t, i, v.fields[..k]) == Some((v, i + |PrintFields(v, k)|))
  {
    MoreFieldsStart(t, j, v, k + 1);
    FieldStep(t, i, v.fields[..k], v.fields[k].0, a, v.fields[k].1, j);
    assert v.fields[..k] + [(v.fields[k].0, v.fields[k].1)] == v.fields;
  }

  /** After any other the rest is read with the field added. */
  lemma FieldAdvances(t: Text, i: nat, v: Json, k: nat, a: nat, j: nat)
    requires v.Object? && k + 1 < |v.fields| && ReadsField(t, i, v, k, a, j)
    ensures Holds(t, j + 1, PrintFields(v, k + 1)) && j + 1 + |PrintFields(v, k + 1)| == i + |PrintFields(v, k)|
    ensures ParseFields(t, i, v.fields[..k]) == ParseFields(t, j + 1, v.fields[..k + 1])
  {
    MoreFieldsStart(t, j, v, k + 1);
    FieldStep(t, i, v.fields[..k], v.fields[k].0, a, v.fields[k].1, j);
    assert v.fields[..k] + [(v.fields[k].0, v.fields[k].1)] == v.fields[..k + 1];
  }


  lemma {:induction false} FieldParses(t: Text, i: nat, v: Json, k: nat) returns (a: nat, j: nat)
    requires v.Object? && k < |v.fields| && Holds(t, i, PrintFields(v, k))
    ensures ReadsField(t, i, v, k, a, j)
    decreases v, 0, 0
  {
    a, j := FieldReads(t, i, v, k);
    ParsePrinted(t, a + 1, v.fields[k].1);
  }

  lemma {:induction false} FieldsParse(t: Text, i: nat, v: Json, k: nat)
    requires v.Object? && k < |v.fields| && Holds(t, i, PrintFields(v, k))
    ensures ParseFields(t, i, v.fields[..k]) == Some((v, i + |PrintFields(v, k)|))
    decreases v, 1, |v.fields| - k
  {
    var a, j := FieldParses(t, i, v, k);
    if k + 1 == |v.fields| {
      FieldEnds(t, i, v, k, a, j);
    } else {
      FieldAdvances(t, i, v, k, a, j);
      FieldsParse(t, j + 1, v, k + 1);
    }
  }

  /** What `JSON.stringify` writes is read back exactly, lone surrogates included. */
  lemma ParseUndoesPrint(v: Json)
    ensures Parse(Print(v)) == Some(v)
  {
    ParsePrinted(Print(v), 0, v);
  }

  // ---------------------------------------------------------------- size and shape of printed text

  /** At most `n` units, no control character, and no surrogate without its other half. */
  ghost predicate Fine(t: Text, n: nat) {
    && |t| <= n
    && (forall k :: 0 <= k < |t| ==> t[k] >= 0x20)
    && (forall k :: 0 <= k < |t| ==> !IsLone(t, k))
  }

  lemma FineConcat(a: Text, m: nat, b: Text, n: nat)
    requires Fine(a, m) && Fine(b, n)
    ensures Fine(a + b, m + n)
  {
    var t := a + b;
    forall k | 0 <= k < |t|
      ensures !IsLone(t, k)
    {
      if k < |a| {
        assert !IsLone(a, k);
      } else {
        assert !IsLone(b, k - |a|);
        assert k + 1 < |t| ==> t[k + 1] == b[k + 1 - |a|];
      }
    }
  }

  lemma LongEscapeIsFine(u: Unit)
    ensures Fine(LongEscape(u), 6)
  {
  }

  lemma EscapeUnitIsFine(u: Unit, lone: bool)
    requires IsHigh(u) || IsLow(u) ==> lone
    ensures Fine(EscapeUnit(u, lone), 6)
  {
    if ShortEscape(u).None? && (u < 0x20 || lone) {
      LongEscapeIsFine(u);
    }
  }

  /** `n` does not fall between the halves of a surrogate pair. */
  lemma {:induction false} EscapeIsFine(s: Text, n: nat)
    requires n <= |s| && (0 < n < |s| ==> !(IsHigh(s[n - 1]) && IsLow(s[n])))
    ensures Fine(Escape(EscapeUnit, s, n), 6 * n)
  {
    if n >= 2 && IsHigh(s[n - 2]) && IsLow(s[n - 1]) {
      EscapeIsFine(s, n - 2);
      var front := Escape(EscapeUnit, s, n - 2);
      assert IsPaired(s, n - 2) && IsPaired(s, n - 1);
      assert Escape(EscapeUnit, s, n - 1) == front + [s[n - 2]];
      assert Escape(EscapeUnit, s, n) == front + [s[n - 2], s[n - 1]];
      assert Fine([s[n - 2], s[n - 1]], 12);
      FineConcat(front, 6 * (n - 2), [s[n - 2], s[n - 1]], 12);
    } else if n > 0 {
      EscapeIsFine(s, n - 1);
      EscapeUnitIsFine(s[n - 1], IsLone(s, n - 1));
      FineConcat(Escape(EscapeUnit, s, n - 1), 6 * (n - 1), EscapeUnit(s[n - 1], IsLone(s, n - 1)), 6);
    }
  }

  lemma AsciiIsFine(u: Unit)
    requires 0x20 <= u < 0x80
    ensures Fine([u], 1)
  {
  }

  lemma QuoteIsFine(s: Text)
    ensures Fine(Quote(s), 6 * |s| + 2)
  {
    EscapeIsFine(s, |s|);
    AsciiIsFine(QUOTE);
    FineConcat(Escape(EscapeUnit, s, |s|), 6 * |s|, [QUOTE], 1);
    FineConcat([QUOTE], 1, Escape(EscapeUnit, s, |s|) + [QUOTE], 6 * |s| + 1);
  }

  /** A bound on the printed length. */
  function Budget(v: Json): nat
    decreases v, 2, 0
  {
    match v
    case One => 1
    case True => 4
    case String(s) => 6 * |s| + 2
    case Array(items) => if items == [] then 2 else 1 + BudgetItems(v, 0)
    case Object(fields) => if fields == [] then 2 else 1 + BudgetFields(v, 0)
  }

  function BudgetItems(v: Json, k: nat): nat
    requires v.Array? && k <= |v.items|
    decreases v, 1, |v.items| - k
  {
    if k == |v.items| then 0 else Budget(v.items[k]) + 1 + BudgetItems(v, k + 1)
  }

  function BudgetFields(v: Json, k: nat): nat
    requires v.Object? && k <= |v.fields|
    decreases v, 1, |v.fields| - k
  {
    if k == |v.fields| then 0
    else 6 * |v.fields[k].0| + 3 + Budget(v.fields[k].1) + 1 + BudgetFields(v, k + 1)
  }

  lemma {:induction false} PrintIsFine(v: Json)
    ensures Fine(Print(v), Budget(v))
    decreases v, 2, 0
  {
    match v {
      case One =>
      case True =>
      case String(s) => QuoteIsFine(s);
      case Array(items) =>
        if items != [] {
          ItemsAreFine(v, 0);
          AsciiIsFine(0x5B);
          FineConcat([0x5B], 1, PrintItems(v, 0), BudgetItems(v, 0));
        }
      case Object(fields) =>
        if fields != [] {
          FieldsAreFine(v, 0);
          AsciiIsFine(0x7B);
          FineConcat([0x7B], 1, PrintFields(v, 0), BudgetFields(v, 0));
        }
    }
  }

  lemma {:induction false} ItemsAreFine(v: Json, k: nat)
    requires v.Array? && k < |v.items|
    ensures Fine(PrintItems(v, k), BudgetItems(v, k))
    decreases v, 1, 2 * (|v.items| - k)
  {
    PrintIsFine(v.items[k]);
    MoreItemsAreFine(v, k + 1);
    FineConcat(Print(v.items[k]), Budget(v.items[k]), PrintMoreItems(v, k + 1), 1 + BudgetItems(v, k + 1));
  }

  lemma {:induction false} MoreItemsAreFine(v: Json, k: nat)
    requires v.Array? && k <= |v.items|
    ensures Fine(PrintMoreItems(v, k), 1 + BudgetItems(v, k))
    decreases v, 1, 2 * (|v.items| - k) + 1
  {
    if k == |v.items| {
      AsciiIsFine(0x5D);
    } else {
      ItemsAreFine(v, k);
      AsciiIsFine(COMMA);
      FineConcat([COMMA], 1, PrintItems(v, k), BudgetItems(v, k));
    }
  }

  lemma {:induction false} FieldsAreFine(v: Json, k: nat)
    requires v.Object? && k < |v.fields|
    ensures Fine(PrintFields(v, k), BudgetFields(v, k))
    decreases v, 1, 2 * (|v.fields| - k)
  {
    PrintIsFine(v.fields[k].1);
    MoreFieldsAreFine(v, k + 1);
    FieldIsFine(v.fields[k].0, Print(v.fields[k].1), Budget(v.fields[k].1), PrintMoreFields(v, k + 1), 1 + BudgetFields(v, k + 1));
  }

  lemma FieldIsFine(name: Text, value: Text, m: nat, more: Text, n: nat)
    requires Fine(value, m) && Fine(more, n)
    ensures Fine(Quote(name) + ([COLON] + (value + more)), 6 * |name| + 3 + m + n)
  {
    QuoteIsFine(name);
    AsciiIsFine(COLON);
    FineConcat(value, m, more, n);
    FineConcat([COLON], 1, value + more, m + n);
    FineConcat(Quote(name), 6 * |name| + 2, [COLON] + (value + more), 1 + m + n);
  }

  lemma {:induction false} MoreFieldsAreFine(v: Json, k: nat)
    requires v.Object? && k <= |v.fields|
    ensures Fine(PrintMoreFields(v, k), 1 + BudgetFields(v, k))
    decreases v, 1, 2 * (|v.fields| - k) + 1
  {
    if k == |v.fields| {
      AsciiIsFine(0x7D);
    } else {
      FieldsAreFine(v, k);
      AsciiIsFine(COMMA);
      FineConcat([COMMA], 1, PrintFields(v, k), BudgetFields(v, k));
    }
  }

  // ---------------------------------------------------------------- the event line

  /** Bytes of UTF-8 for the unit at `k`; each half of a pair has half of the four. */
  function Width(t: Text, k: nat): nat
    requires k < |t|
  {
    if t[k] < 0x80 then 1 else if t[k] < 0x800 then 2 else if IsPaired(t, k) then 2 else 3
  }

  function ByteLen(t: Text, n: nat): (bytes: nat)
    requires n <= |t|
    ensures n <= bytes <= 3 * n
  {
    if n == 0 then 0 else ByteLen(t, n - 1) + Width(t, n - 1)
  }

  /** UTF-8 of a code point, section 3 of RFC 3629. */
  function Utf8Of(point: nat): seq<nat> {
    if point < 0x80 then [point]
    else if point < 0x800 then [0xC0 + point / 0x40, 0x80 + point % 0x40]
    else if point < 0x1_0000 then [0xE0 + point / 0x1000, 0x80 + point / 0x40 % 0x40, 0x80 + point % 0x40]
    else [0xF0 + point / 0x4_0000, 0x80 + point / 0x1000 % 0x40, 0x80 + point / 0x40 % 0x40, 0x80 + point % 0x40]
  }

  /** The UTF-8 file contents from the unit at `k` on; a lone surrogate is written as U+FFFD. */
  function Utf8(t: Text, k: nat): seq<nat>
    requires k <= |t|
    decreases |t| - k
  {
    if k == |t| then []
    else if k + 1 < |t| && IsHigh(t[k]) && IsLow(t[k + 1]) then
      var high: int, low: int := t[k], t[k + 1];
      Utf8Of(0x1_0000 + (high - 0xD800) * 0x400 + (low - 0xDC00)) + Utf8(t, k + 2)
    else Utf8Of(if IsHigh(t[k]) || IsLow(t[k]) then 0xFFFD else t[k]) + Utf8(t, k + 1)
  }

  lemma PairIsFourBytes(t: Text, k: nat)
    requires k + 1 < |t| && IsHigh(t[k]) && IsLow(t[k + 1])
    ensures ByteLen(t, k + 2) == ByteLen(t, k) + 4 && |Utf8(t, k)| == 4 + |Utf8(t, k + 2)|
  {
    assert IsPaired(t, k) && IsPaired(t, k + 1);
    assert ByteLen(t, k + 1) == ByteLen(t, k) + 2;
  }

  lemma SingleIsItsWidth(t: Text, k: nat)
    requires k < |t| && (k > 0 ==> !(IsHigh(t[k - 1]) && IsLow(t[k])))
    requires k + 1 < |t| ==> !(IsHigh(t[k]) && IsLow(t[k + 1]))
    ensures ByteLen(t, k + 1) == ByteLen(t, k) + (|Utf8(t, k)| - |Utf8(t, k + 1)|)
  {
    assert !IsPaired(t, k);
  }

  /** One code point on, both counts advance alike. */
  lemma PointAdvances(t: Text, k: nat) returns (next: nat)
    requires k < |t| && (k > 0 ==> !(IsHigh(t[k - 1]) && IsLow(t[k])))
    ensures k < next <= |t| && (0 < next < |t| ==> !(IsHigh(t[next - 1]) && IsLow(t[next])))
    ensures ByteLen(t, next) - ByteLen(t, k) == |Utf8(t, k)| - |Utf8(t, next)|
  {
    if k + 1 < |t| && IsHigh(t[k]) && IsLow(t[k + 1]) {
      PairIsFourBytes(t, k);
      next := k + 2;
    } else {
      SingleIsItsWidth(t, k);
      next := k + 1;
    }
  }

  /** Counting units gives the number of bytes that are written. */
  lemma {:induction false} ByteLenIsUtf8(t: Text, k: nat)
    requires k <= |t| && (0 < k < |t| ==> !(IsHigh(t[k - 1]) && IsLow(t[k])))
    ensures ByteLen(t, |t|) == ByteLen(t, k) + |Utf8(t, k)|
    decreases |t| - k
  {
    if k < |t| {
      var next := PointAdvances(t, k);
      ByteLenIsUtf8(t, next);
    }
  }

  const MAX_LINE_BYTES := 4096

  /** The line and its newline stay below the budget. */
  predicate Fits(line: Text) {
    ByteLen(line, |line|) + 1 < MAX_LINE_BYTES
  }

  function Ascii(s: string): (t: Text)
    ensures |t| == |s|
  {
    seq(|s|, i requires 0 <= i < |s| => s[i] as int % 0x80)
  }

  function Strings(texts: seq<Text>): Json {
    Array(seq(|texts|, i requires 0 <= i < |texts| => String(texts[i])))
  }

  /** How much an event still carries. */
  datatype Shape = Full | FilesOnly | Marker

  function Refs(symbols: seq<Text>): seq<Text> {
    seq(|symbols|, i requires 0 <= i < |symbols| => Ascii("hayven:node/") + symbols[i])
  }

  function Data(files: seq<Text>, symbols: seq<Text>, shape: Shape): Json {
    match shape
    case Full => Object([(Ascii("files"), Strings(files)), (Ascii("symbols"), Strings(symbols))])
    case FilesOnly =>
      Object([(Ascii("files"), Strings(files)), (Ascii("symbols"), Array([])), (Ascii("truncated"), True)])
    case Marker => Object([(Ascii("truncated"), True)])
  }

  function Envelope(id: Text, ts: Text, refs: seq<Text>, data: Json): Json {
    Object([(Ascii("v"), One), (Ascii("id"), String(id)), (Ascii("ts"), String(ts)),
            (Ascii("source"), String(Ascii("hayven"))), (Ascii("type"), String(Ascii("code.changed"))),
            (Ascii("refs"), Strings(refs)), (Ascii("data"), data)])
  }

  function Event(id: Text, ts: Text, files: seq<Text>, symbols: seq<Text>, shape: Shape): Json {
    Envelope(id, ts, if shape.Full? then Refs(symbols) else [], Data(files, symbols, shape))
  }

  function BuildCodeChangedLine(id: Text, ts: Text, files: seq<Text>, symbols: seq<Text>): Text {
    var full := Print(Event(id, ts, files, symbols, Full));
    if Fits(full) then full
    else
      var filesOnly := Print(Event(id, ts, files, symbols, FilesOnly));
      if Fits(filesOnly) then filesOnly else Print(Event(id, ts, files, symbols, Marker))
  }

  /** The line fits when it and its newline are fewer than 4096 bytes in the file. */
  lemma FitsMeans(line: Text)
    ensures Fits(line) <==> |Utf8(line + [NEWLINE], 0)| < 4096
  {
    ByteLenIsUtf8(line, 0);
    NewlineIsOneByte(line, 0);
  }

  lemma {:induction false} NewlineIsOneByte(line: Text, k: nat)
    requires k <= |line|
    ensures |Utf8(line + [NEWLINE], k)| == |Utf8(line, k)| + 1
    decreases |line| - k
  {
    var t := line + [NEWLINE];
    if k < |line| {
      NewlineIsOneByte(line, if k + 1 < |line| && IsHigh(t[k]) && IsLow(t[k + 1]) then k + 2 else k + 1);
    } else {
      assert Utf8(t, k + 1) == [];
    }
  }

  lemma FewUnitsFit(t: Text)
    requires |t| <= 1364
    ensures Fits(t)
  {
  }

  lemma MarkerDataBudget()
    ensures Budget(Data([], [], Marker)) == 63
  {
    var d := Data([], [], Marker);
    assert BudgetFields(d, 1) == 0;
    assert BudgetFields(d, 0) == 6 * 9 + 3 + 4 + 1;
  }

  lemma EnvelopeBudget(id: Text, ts: Text, data: Json)
    ensures Budget(Envelope(id, ts, [], data)) == 6 * (|id| + |ts|) + 286 + Budget(data)
  {
    var v := Envelope(id, ts, [], data);
    assert BudgetFields(v, 7) == 0;
    assert BudgetFields(v, 6) == 6 * 4 + 3 + Budget(data) + 1;
    assert BudgetFields(v, 5) == 6 * 4 + 3 + 2 + 1 + BudgetFields(v, 6);
    assert BudgetFields(v, 4) == 6 * 4 + 3 + (6 * 12 + 2) + 1 + BudgetFields(v, 5);
    assert BudgetFields(v, 3) == 6 * 6 + 3 + (6 * 6 + 2) + 1 + BudgetFields(v, 4);
    assert BudgetFields(v, 2) == 6 * 2 + 3 + (6 * |ts| + 2) + 1 + BudgetFields(v, 3);
    assert BudgetFields(v, 1) == 6 * 2 + 3 + (6 * |id| + 2) + 1 + BudgetFields(v, 2);
    assert BudgetFields(v, 0) == 6 * 1 + 3 + 1 + 1 + BudgetFields(v, 1);
  }

  /** The marker is always short enough: 36 units are a UUID, 27 the longest ISO timestamp. */
  lemma MarkerFits(id: Text, ts: Text, files: seq<Text>, symbols: seq<Text>)
    requires |id| <= 36 && |ts| <= 27
    ensures Fits(Print(Event(id, ts, files, symbols, Marker)))
  {
    var v := Event(id, ts, files, symbols, Marker);
    MarkerDataBudget();
    EnvelopeBudget(id, ts, Data([], [], Marker));
    PrintIsFine(v);
    FewUnitsFit(Print(v));
  }

  /** The line fits, holds no newline and encodes losslessly, and it reads
      back as the richest event that fits. */
  lemma LineIsRichestThatFits(id: Text, ts: Text, files: seq<Text>, symbols: seq<Text>) returns (shape: Shape)
    requires |id| <= 36 && |ts| <= 27
    ensures var line := BuildCodeChangedLine(id, ts, files, symbols);
      Fits(line) && Fine(line, |line|) && Parse(line) == Some(Event(id, ts, files, symbols, shape))
    ensures shape != Full ==> !Fits(Print(Event(id, ts, files, symbols, Full)))
    ensures shape == Marker ==> !Fits(Print(Event(id, ts, files, symbols, FilesOnly)))
  {
    shape :=
      if Fits(Print(Event(id, ts, files, symbols, Full))) then Full
      else if Fits(Print(Event(id, ts, files, symbols, FilesOnly))) then FilesOnly
      else Marker;
    var v := Event(id, ts, files, symbols, shape);
    PrintIsFine(v);
    ParseUndoesPrint(v);
    MarkerFits(id, ts, files, symbols);
  }

  lemma StringsInjective(a: seq<Text>, b: seq<Text>)
    requires Strings(a) == Strings(b)
    ensures a == b
  {
    assert |Strings(a).items| == |Strings(b).items|;
    forall i | 0 <= i < |a|
      ensures a[i] == b[i]
    {
      assert Strings(a).items[i] == Strings(b).items[i];
    }
  }

  /** What a reader recovers from an event: everything its shape carries. */
  lemma EventDetermines(id: Text, ts: Text, files: seq<Text>, symbols: seq<Text>, shape: Shape,
                        id': Text, ts': Text, files': seq<Text>, symbols': seq<Text>, shape': Shape)
    requires Event(id, ts, files, symbols, shape) == Event(id', ts', files', symbols', shape')
    ensures id == id' && ts == ts' && shape == shape'
    ensures shape != Marker ==> files == files'
    ensures shape == Full ==> symbols == symbols'
  {
    var v, v' := Event(id, ts, files, symbols, shape), Event(id', ts', files', symbols', shape');
    assert v.fields[1] == v'.fields[1] && v.fields[2] == v'.fields[2] && v.fields[6] == v'.fields[6];
    var d, d' := v.fields[6].1, v'.fields[6].1;
    assert |d.fields| == |d'.fields|;
    assert d.fields[0] == d'.fields[0];
    if shape != Marker {
      assert d.fields[1] == d'.fields[1];
      StringsInjective(files, files');
    }
    if shape == Full {
      StringsInjective(symbols, symbols');
    }
  }

  // ---------------------------------------------------------------- the append log

  /** The file after whole-line appends, in the order in which they happened. */
  function Log(lines: seq<Text>, n: nat): Text
    requires n <= |lines|
  {
    if n == 0 then [] else Log(lines, n - 1) + (lines[n - 1] + [NEWLINE])
  }

  /** The complete lines among the first `n` units, and the unfinished one. */
  function SplitLines(t: Text, n: nat): (seq<Text>, Text)
    requires n <= |t|
  {
    if n == 0 then ([], [])
    else
      var (done, cur) := SplitLines(t, n - 1);
      if t[n - 1] == NEWLINE then (done + [cur], []) else (done, cur + [t[n - 1]])
  }

  lemma {:induction false} SplitPrefix(a: Text, b: Text, n: nat)
    requires n <= |a|
    ensures SplitLines(a + b, n) == SplitLines(a, n)
  {
    if n > 0 {
      SplitPrefix(a, b, n - 1);
    }
  }

  lemma {:induction false} SplitLine(a: Text, done: seq<Text>, line: Text, n: nat)
    requires n <= |line| && SplitLines(a, |a|) == (done, []) && NEWLINE !in line
    ensures SplitLines(a + (line + [NEWLINE]), |a| + n) == (done, line[..n])
  {
    var t := a + (line + [NEWLINE]);
    if n == 0 {
      SplitPrefix(a, line + [NEWLINE], |a|);
    } else {
      SplitLine(a, done, line, n - 1);
      assert t[|a| + n - 1] == line[n - 1] && line[n - 1] in line;
      assert line[..n] == line[..n - 1] + [line[n - 1]];
    }
  }

  /** However the producers' appends interleave, the log splits into exactly the appended lines. */
  lemma {:induction false} LogSplits(lines: seq<Text>, n: nat)
    requires n <= |lines| && forall i :: 0 <= i < |lines| ==> NEWLINE !in lines[i]
    ensures SplitLines(Log(lines, n), |Log(lines, n)|) == (lines[..n], [])
  {
    if n > 0 {
      var a, line := Log(lines, n - 1), lines[n - 1];
      LogSplits(lines, n - 1);
      SplitLine(a, lines[..n - 1], line, |line|);
      assert (a + (line + [NEWLINE]))[|a| + |line|] == NEWLINE;
      assert line[..|line|] == line && lines[..n] == lines[..n - 1] + [line];
    }
  }

  /** What a producer announces: a UUID, an ISO timestamp, files and symbols. */
  datatype Change = Change(id: Text, ts: Text, files: seq<Text>, symbols: seq<Text>)

  function LineOf(c: Change): Text {
    BuildCodeChangedLine(c.id, c.ts, c.files, c.symbols)
  }

  function LinesOf(changes: seq<Change>, n: nat): (lines: seq<Text>)
    requires n <= |changes|
    ensures |lines| == n && forall i :: 0 <= i < n ==> lines[i] == LineOf(changes[i])
  {
    if n == 0 then [] else LinesOf(changes, n - 1) + [LineOf(changes[n - 1])]
  }

  /** The line reads back as the change in this shape, the richest that fits. */
  ghost predicate ReadsAs(line: Text, c: Change, shape: Shape) {
    && Parse(line) == Some(Event(c.id, c.ts, c.files, c.symbols, shape))
    && (shape != Full ==> !Fits(Print(Event(c.id, c.ts, c.files, c.symbols, Full))))
    && (shape == Marker ==> !Fits(Print(Event(c.id, c.ts, c.files, c.symbols, FilesOnly))))
  }

  ghost predicate Announces(line: Text, c: Change) {
    exists shape :: ReadsAs(line, c, shape)
  }

  lemma LineAnnounces(c: Change)
    requires |c.id| <= 36 && |c.ts| <= 27
    ensures NEWLINE !in LineOf(c) && Announces(LineOf(c), c)
  {
    var shape := LineIsRichestThatFits(c.id, c.ts, c.files, c.symbols);
    assert ReadsAs(LineOf(c), c, shape);
  }

  lemma LinesAnnounce(changes: seq<Change>, lines: seq<Text>)
    requires forall c :: c in changes ==> |c.id| <= 36 && |c.ts| <= 27
    requires |lines| == |changes| && forall i :: 0 <= i < |lines| ==> lines[i] == LineOf(changes[i])
    ensures forall i :: 0 <= i < |lines| ==> NEWLINE !in lines[i] && Announces(lines[i], changes[i])
  {
    forall i | 0 <= i < |lines|
      ensures NEWLINE !in lines[i] && Announces(lines[i], changes[i])
    {
      LineAnnounces(changes[i]);
    }
  }

  /** A reader of the log sees every appended change, once, in the order of the appends. */
  lemma LogAnnounces(changes: seq<Change>)
    requires forall c :: c in changes ==> |c.id| <= 36 && |c.ts| <= 27
    ensures var lines := LinesOf(changes, |changes|);
      && SplitLines(Log(lines, |lines|), |Log(lines, |lines|)|) == (lines, [])
      && forall i :: 0 <= i < |lines| ==> Announces(lines[i], changes[i])
  {
    var lines := LinesOf(changes, |changes|);
    LinesAnnounce(changes, lines);
    LogSplits(lines, |lines|);
    assert lines[..|lines|] == lines;
  }
}
