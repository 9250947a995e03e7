/** The brace scanner that pulls a JSON object out of free text
    (daemon/src/conflict/extractor_oracle.ts), against the object and string
    grammar of RFC 8259. */
module JsonScanner {
  import opened Common

  // ---------------------------------------------------------------- balance outside strings

  datatype Mode = Outside | InString | Escaped

  function Next(m: Mode, ch: char): Mode {
    match m
    case Escaped => InString
    case InString => if ch == '\\' then Escaped else if ch == '"' then Outside else InString
    case Outside => if ch == '"' then InString else Outside
  }

  /** Where the first `n` characters of `t` lead from `m`. */
  function ModeAfter(m: Mode, t: string, n: nat): Mode
    requires n <= |t|
  {
    if n == 0 then m else Next(ModeAfter(m, t, n - 1), t[n - 1])
  }

  /** Occurrences of `brace` outside strings among the first `n` characters. */
  function Braces(brace: char, m: Mode, t: string, n: nat): nat
    requires n <= |t|
  {
    if n == 0 then 0
    else Braces(brace, m, t, n - 1) + (if t[n - 1] == brace && ModeAfter(m, t, n - 1) == Outside then 1 else 0)
  }

  /** How many more braces were opened than closed. */
  function Depth(m: Mode, t: string, n: nat): int
    requires n <= |t|
  {
    Braces('{', m, t, n) - Braces('}', m, t, n)
  }

  /** The first `n` characters of `t`, not none, close every brace they open. */
  predicate Balanced(t: string, n: nat)
    requires n <= |t|
  {
    n > 0 && ModeAfter(Outside, t, n) == Outside && Depth(Outside, t, n) == 0
  }

  ghost predicate IsFirstBrace(hay: string, i: nat) {
    i < |hay| && hay[i] == '{' && '{' !in hay[..i]
  }

  ghost predicate IsShortest(t: string, n: nat) {
    n <= |t| && Balanced(t, n) && forall k :: 0 <= k < n ==> !Balanced(t, k)
  }

  /** `r` is the shortest balanced text that starts at the first `{` of `hay`. */
  ghost predicate IsFirstObject(hay: string, r: Option<string>) {
    match r
    case None => forall i: nat, n: nat :: IsFirstBrace(hay, i) && n <= |hay| - i ==> !Balanced(hay[i..], n)
    case Some(found) =>
      exists i: nat, n: nat :: IsFirstBrace(hay, i) && IsShortest(hay[i..], n) && found == hay[i..i + n]
  }

  lemma FirstBraceIsUnique(hay: string, i: nat, j: nat)
    requires IsFirstBrace(hay, i) && IsFirstBrace(hay, j)
    ensures i == j
  {
  }

  lemma ShortestIsUnique(t: string, n: nat, k: nat)
    requires IsShortest(t, n) && IsShortest(t, k)
    ensures n == k
  {
  }

  lemma FirstObjectIsUnique(hay: string, r: Option<string>, r': Option<string>)
    requires IsFirstObject(hay, r) && IsFirstObject(hay, r')
    ensures r == r'
  {
    if r.Some? && r'.Some? {
      var i: nat, n: nat :| IsFirstBrace(hay, i) && IsShortest(hay[i..], n) && r.value == hay[i..i + n];
      var j: nat, k: nat :| IsFirstBrace(hay, j) && IsShortest(hay[j..], k) && r'.value == hay[j..j + k];
      FirstBraceIsUnique(hay, i, j);
      ShortestIsUnique(hay[i..], n, k);
    }
  }

  // ---------------------------------------------------------------- the scanner

  /** `fence` is the trimmed content of a fenced block, when the text has one. */
  method ExtractJsonObject(text: string, fence: Option<string>) returns (r: Option<string>)
    ensures IsFirstObject(if fence.Some? then fence.value else text, r)
  {
    var hay := if fence.Some? then fence.value else text;
    var start := 0;
    while start < |hay| && hay[start] != '{'
      invariant start <= |hay| && '{' !in hay[..start]
    {
      assert hay[..start + 1] == hay[..start] + [hay[start]];
      start := start + 1;
    }
    if start == |hay| {
      assert hay[..start] == hay;
      return None;
    }
    ghost var t := hay[start..];
    var depth, inStr, esc := 0, false, false;
    for i := start to |hay|
      invariant depth == Depth(Outside, t, i - start)
      invariant ModeAfter(Outside, t, i - start) == if esc then Escaped else if inStr then InString else Outside
      invariant esc ==> inStr
      invariant i > start ==> depth >= 1
      invariant i == start ==> depth == 0
      invariant forall n :: 0 <= n <= i - start ==> !Balanced(t, n)
    {
      var ch := hay[i];
      assert ch == t[i - start];
      if inStr {
        if esc {
          esc := false;
        } else if ch == '\\' {
          esc := true;
        } else if ch == '"' {
          inStr := false;
        }
        continue;
      }
      if ch == '"' {
        inStr := true;
      } else if ch == '{' {
        depth := depth + 1;
      } else if ch == '}' {
        depth := depth - 1;
        if depth == 0 {
          assert IsFirstBrace(hay, start) && IsShortest(t, i + 1 - start);
          assert hay[start..i + 1] == hay[start..start + (i + 1 - start)];
          return Some(hay[start..i + 1]);
        }
      }
    }
    forall i: nat, n: nat | IsFirstBrace(hay, i) && n <= |hay| - i
      ensures !Balanced(hay[i..], n)
    {
      FirstBraceIsUnique(hay, start, i);
    }
    return None;
  }

  // ---------------------------------------------------------------- JSON text

  /** One character of a string literal: itself, or an escape sequence. */
  datatype Item = Plain(c: char) | Short(c: char) | Unicode(hex: string)

  /** A value as written, with the whitespace around its parts. */
  datatype Value =
    | Scalar(text: string)
    | Str(items: seq<Item>)
    | Array(open: string, elements: Elements)
    | Object(open: string, members: Members)

  datatype Elements = NoElement | Element(before: string, value: Value, after: string, more: Elements)

  datatype Members =
    | NoMember
    | Member(before: string, name: seq<Item>, colon: string, pad: string, value: Value, after: string, more: Members)

  predicate IsSpace(s: string) {
    forall i :: 0 <= i < |s| ==> s[i] in " \t\n\r"
  }

  predicate IsHex(c: char) {
    '0' <= c <= '9' || 'a' <= c <= 'f' || 'A' <= c <= 'F'
  }

  predicate IsItem(i: Item) {
    match i
    case Plain(c) => c >= ' ' && c != '"' && c != '\\'
    case Short(c) => c in "\"\\/bfnrt"
    case Unicode(h) => |h| == 4 && forall k :: 0 <= k < 4 ==> IsHex(h[k])
  }

  predicate AreItems(s: seq<Item>) {
    forall i :: 0 <= i < |s| ==> IsItem(s[i])
  }

  /** Numbers, `true`, `false` and `null` contain none of the structural characters. */
  predicate IsScalar(s: string) {
    forall i :: 0 <= i < |s| ==> s[i] !in "{}\""
  }

  predicate IsValue(v: Value) {
    match v
    case Scalar(text) => IsScalar(text)
    case Str(items) => AreItems(items)
    case Array(open, elements) => IsSpace(open) && AreElements(elements)
    case Object(open, members) => IsSpace(open) && AreMembers(members)
  }

  predicate AreElements(e: Elements) {
    match e
    case NoElement => true
    case Element(b, v, a, more) => IsSpace(b) && IsValue(v) && IsSpace(a) && AreElements(more)
  }

  predicate AreMembers(m: Members) {
    match m
    case NoMember => true
    case Member(b, name, c, p, v, a, more) =>
      IsSpace(b) && AreItems(name) && IsSpace(c) && IsSpace(p) && IsValue(v) && IsSpace(a) && AreMembers(more)
  }

  function PrintItem(i: Item): string {
    match i
    case Plain(c) => [c]
    case Short(c) => ['\\', c]
    case Unicode(h) => "\\u" + h
  }

  function PrintItems(s: seq<Item>, n: nat): string
    requires n <= |s|
  {
    if n == 0 then "" else PrintItems(s, n - 1) + PrintItem(s[n - 1])
  }

  function PrintString(s: seq<Item>): string {
    "\"" + PrintItems(s, |s|) + "\""
  }

  function Print(v: Value): string {
    match v
    case Scalar(text) => text
    case Str(items) => PrintString(items)
    case Array(open, elements) => "[" + open + PrintElements(elements, true) + "]"
    case Object(open, members) => "{" + (open + PrintMembers(members, true)) + "}"
  }

  function Comma(first: bool): string {
    if first then "" else ","
  }

  function PrintElements(e: Elements, first: bool): string {
    match e
    case NoElement => ""
    case Element(b, v, a, more) => (Comma(first) + b + Print(v) + a) + PrintElements(more, false)
  }

  function PrintMembers(m: Members, first: bool): string {
    match m
    case NoMember => ""
    case Member(b, name, c, p, v, a, more) =>
      (Comma(first) + b + PrintString(name) + (c + ":" + p)) + (Print(v) + a) + PrintMembers(more, false)
  }

  // ---------------------------------------------------------------- printed text is neutral

  lemma {:induction false} ScanLeft(m: Mode, a: string, b: string, k: nat)
    requires k <= |a|
    ensures ModeAfter(m, a + b, k) == ModeAfter(m, a, k) && Depth(m, a + b, k) == Depth(m, a, k)
  {
    if k > 0 {
      ScanLeft(m, a, b, k - 1);
    }
  }

  lemma {:induction false} ScanRight(m: Mode, a: string, b: string, k: nat)
    requires k <= |b|
    ensures var mid := ModeAfter(m, a, |a|);
      && ModeAfter(m, a + b, |a| + k) == ModeAfter(mid, b, k)
      && Depth(m, a + b, |a| + k) == Depth(m, a, |a|) + Depth(mid, b, k)
  {
    if k == 0 {
      ScanLeft(m, a, b, |a|);
    } else {
      ScanRight(m, a, b, k - 1);
      assert (a + b)[|a| + k - 1] == b[k - 1];
    }
  }

  /** `t` leaves the mode and the depth as they were and never goes below that depth. */
  ghost predicate Neutral(m: Mode, t: string) {
    && ModeAfter(m, t, |t|) == m && Depth(m, t, |t|) == 0
    && forall k :: 0 <= k <= |t| ==> Depth(m, t, k) >= 0
  }

  lemma NeutralConcat(m: Mode, a: string, b: string)
    requires Neutral(m, a) && Neutral(m, b)
    ensures Neutral(m, a + b)
  {
    ScanRight(m, a, b, |b|);
    forall k | 0 <= k <= |a + b|
      ensures Depth(m, a + b, k) >= 0
    {
      if k <= |a| {
        ScanLeft(m, a, b, k);
      } else {
        ScanRight(m, a, b, k - |a|);
      }
    }
  }

  lemma {:induction false} PlainScan(t: string, n: nat)
    requires n <= |t| && IsScalar(t)
    ensures ModeAfter(Outside, t, n) == Outside && Depth(Outside, t, n) == 0
  {
    if n > 0 {
      PlainScan(t, n - 1);
    }
  }

  lemma PlainIsNeutral(t: string)
    requires IsScalar(t)
    ensures Neutral(Outside, t)
  {
    forall n | 0 <= n <= |t|
      ensures ModeAfter(Outside, t, n) == Outside && Depth(Outside, t, n) == 0
    {
      PlainScan(t, n);
    }
  }

  /** Characters without structure on both sides of neutral text. */
  lemma PaddedIsNeutral(before: string, t: string, after: string)
    requires IsScalar(before) && Neutral(Outside, t) && IsScalar(after)
    ensures Neutral(Outside, before + t + after)
  {
    PlainIsNeutral(before);
    PlainIsNeutral(after);
    NeutralConcat(Outside, before, t);
    NeutralConcat(Outside, before + t, after);
  }

  lemma {:induction false} NoBracesInString(t: string, n: nat)
    requires n <= |t| && forall k :: 0 <= k < n ==> ModeAfter(InString, t, k) != Outside
    ensures Depth(InString, t, n) == 0
  {
    if n > 0 {
      NoBracesInString(t, n - 1);
    }
  }

  lemma {:induction false} HexScan(t: string, n: nat)
    requires 2 <= n <= |t| && t[0] == '\\' && forall k :: 2 <= k < |t| ==> t[k] !in "\\\""
    ensures ModeAfter(InString, t, n) == InString
  {
    if n > 2 {
      HexScan(t, n - 1);
    } else {
      assert ModeAfter(InString, t, 1) == Escaped;
    }
  }

  lemma NeverOutsideIsNeutral(t: string)
    requires ModeAfter(InString, t, |t|) == InString
    requires forall k :: 0 <= k < |t| ==> ModeAfter(InString, t, k) != Outside
    ensures Neutral(InString, t)
  {
    forall k | 0 <= k <= |t|
      ensures Depth(InString, t, k) == 0
    {
      NoBracesInString(t, k);
    }
  }

  lemma EscapeIsNeutral(t: string)
    requires |t| >= 2 && t[0] == '\\' && forall k :: 2 <= k < |t| ==> t[k] !in "\\\""
    ensures Neutral(InString, t)
  {
    assert ModeAfter(InString, t, 1) == Escaped;
    forall k | 2 <= k <= |t|
      ensures ModeAfter(InString, t, k) == InString
    {
      HexScan(t, k);
    }
    NeverOutsideIsNeutral(t);
  }

  lemma ItemIsNeutral(i: Item)
    requires IsItem(i)
    ensures Neutral(InString, PrintItem(i))
  {
    match i {
      case Plain(c) => NeverOutsideIsNeutral([c]);
      case Short(c) => EscapeIsNeutral(['\\', c]);
      case Unicode(h) =>
        assert forall k :: 2 <= k < 6 ==> ("\\u" + h)[k] == h[k - 2];
        EscapeIsNeutral("\\u" + h);
    }
  }

  lemma {:induction false} ItemsAreNeutral(s: seq<Item>, n: nat)
    requires n <= |s| && AreItems(s)
    ensures Neutral(InString, PrintItems(s, n))
  {
    if n > 0 {
      ItemsAreNeutral(s, n - 1);
      ItemIsNeutral(s[n - 1]);
      NeutralConcat(InString, PrintItems(s, n - 1), PrintItem(s[n - 1]));
    }
  }

  /** Quotes around text that is neutral inside a string. */
  lemma QuotedIsNeutral(body: string)
    requires Neutral(InString, body)
    ensures Neutral(Outside, "\"" + body + "\"")
  {
    var q: string := "\"";
    var t := q + body + q;
    assert ModeAfter(Outside, q, 1) == InString && Depth(Outside, q, 1) == 0;
    assert ModeAfter(InString, q, 1) == Outside && Depth(InString, q, 1) == 0;
    ScanRight(Outside, q, body, |body|);
    ScanRight(Outside, q + body, q, 1);
    forall k | 0 <= k <= |t|
      ensures Depth(Outside, t, k) >= 0
    {
      if k == 0 {
      } else if k <= 1 + |body| {
        ScanLeft(Outside, q + body, q, k);
        ScanRight(Outside, q, body, k - 1);
      }
    }
  }

  /** Braces around neutral text: never balanced before the end. */
  lemma BracedScan(body: string, k: nat)
    requires Neutral(Outside, body) && k <= |body| + 2
    ensures var t := "{" + body + "}";
      Depth(Outside, t, k) == (if k == 0 || k == |t| then 0 else 1 + Depth(Outside, body, k - 1))
    ensures ModeAfter(Outside, "{" + body + "}", |body| + 2) == Outside
  {
    var open: string, close: string := "{", "}";
    assert ModeAfter(Outside, open, 1) == Outside && Depth(Outside, open, 1) == 1;
    assert ModeAfter(Outside, close, 1) == Outside && Depth(Outside, close, 1) == -1;
    ScanRight(Outside, open, body, |body|);
    ScanRight(Outside, open + body, close, 1);
    if 1 <= k <= 1 + |body| {
      ScanLeft(Outside, open + body, close, k);
      ScanRight(Outside, open, body, k - 1);
    }
  }

  lemma BracedIsNeutral(body: string)
    requires Neutral(Outside, body)
    ensures Neutral(Outside, "{" + body + "}")
  {
    forall k | 0 <= k <= |body| + 2
      ensures Depth(Outside, "{" + body + "}", k) >= 0
    {
      BracedScan(body, k);
    }
    BracedScan(body, |body| + 2);
  }

  lemma StringIsNeutral(s: seq<Item>)
    requires AreItems(s)
    ensures Neutral(Outside, PrintString(s))
  {
    ItemsAreNeutral(s, |s|);
    QuotedIsNeutral(PrintItems(s, |s|));
  }

  lemma {:induction false} PrintIsNeutral(v: Value)
    requires IsValue(v)
    ensures Neutral(Outside, Print(v))
  {
    match v {
      case Scalar(text) => PlainIsNeutral(text);
      case Str(items) => StringIsNeutral(items);
      case Array(open, elements) =>
        ElementsAreNeutral(elements, true);
        PlainIsNeutral("[" + open);
        NeutralConcat(Outside, "[" + open, PrintElements(elements, true));
        PlainIsNeutral("]");
        NeutralConcat(Outside, "[" + open + PrintElements(elements, true), "]");
      case Object(open, members) =>
        ObjectBodyIsNeutral(open, members);
        BracedIsNeutral(open + PrintMembers(members, true));
    }
  }

  lemma {:induction false} ElementsAreNeutral(e: Elements, first: bool)
    requires AreElements(e)
    ensures Neutral(Outside, PrintElements(e, first))
    decreases e, 0
  {
    match e {
      case NoElement =>
      case Element(b, v, a, more) =>
        PrintIsNeutral(v);
        PaddedIsNeutral(Comma(first) + b, Print(v), a);
        ElementsAreNeutral(more, false);
        NeutralConcat(Outside, Comma(first) + b + Print(v) + a, PrintElements(more, false));
    }
  }

  lemma HeadIsNeutral(first: bool, b: string, name: seq<Item>, c: string, p: string)
    requires IsSpace(b) && AreItems(name) && IsSpace(c) && IsSpace(p)
    ensures Neutral(Outside, Comma(first) + b + PrintString(name) + (c + ":" + p))
  {
    StringIsNeutral(name);
    PaddedIsNeutral(Comma(first) + b, PrintString(name), c + ":" + p);
  }

  lemma {:induction false} MembersAreNeutral(m: Members, first: bool)
    requires AreMembers(m)
    ensures Neutral(Outside, PrintMembers(m, first))
    decreases m, 0
  {
    match m {
      case NoMember =>
      case Member(b, name, c, p, v, a, more) =>
        var head := Comma(first) + b + PrintString(name) + (c + ":" + p);
        HeadIsNeutral(first, b, name, c, p);
        PrintIsNeutral(v);
        PlainIsNeutral(a);
        MembersAreNeutral(more, false);
        NeutralConcat(Outside, Print(v), a);
        NeutralConcat(Outside, head, Print(v) + a);
        NeutralConcat(Outside, head + (Print(v) + a), PrintMembers(more, false));
    }
  }

  lemma ObjectBodyIsNeutral(open: string, members: Members)
    requires IsSpace(open) && AreMembers(members)
    ensures Neutral(Outside, open + PrintMembers(members, true))
    decreases members, 1
  {
    PlainIsNeutral(open);
    MembersAreNeutral(members, true);
    NeutralConcat(Outside, open, PrintMembers(members, true));
  }

  // ---------------------------------------------------------------- the round trip

  /** Any text that is braced around neutral text is found exactly. */
  lemma BracedIsFirstObject(prefix: string, body: string, suffix: string)
    requires '{' !in prefix && Neutral(Outside, body)
    ensures IsFirstObject(prefix + ("{" + body + "}") + suffix, Some("{" + body + "}"))
  {
    var obj := "{" + body + "}";
    var hay := prefix + obj + suffix;
    var i, n := |prefix|, |obj|;
    var t := hay[i..];
    assert t == obj + suffix && hay[..i] == prefix && hay[i..i + n] == obj;
    forall k | 0 <= k <= n
      ensures Balanced(t, k) <==> k == n
    {
      ScanLeft(Outside, obj, suffix, k);
      BracedScan(body, k);
    }
    assert IsFirstBrace(hay, i) && IsShortest(t, n);
  }

  /** Whatever surrounds it, a printed object comes back exactly. */
  lemma ExtractsPrintedObject(prefix: string, open: string, members: Members, suffix: string, r: Option<string>)
    requires '{' !in prefix && IsSpace(open) && AreMembers(members)
    requires IsFirstObject(prefix + Print(Object(open, members)) + suffix, r)
    ensures r == Some(Print(Object(open, members)))
  {
    var body := open + PrintMembers(members, true);
    ObjectBodyIsNeutral(open, members);
    BracedIsFirstObject(prefix, body, suffix);
    FirstObjectIsUnique(prefix + ("{" + body + "}") + suffix, r, Some("{" + body + "}"));
  }
}
