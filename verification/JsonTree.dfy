/** JSON texts as trees written with any whitespace, and what the scan reports of them. */
module JsonTree {
  import opened Domain
  import opened JsonScan

  /** A value with the text of its strings between the quotes and the whitespace around everything. */
  datatype Value =
    | Str(body: string)
    | Literal(token: string)
    | EmptyArr(pad: string)
    | Arr(items: Items)
    | EmptyObj(pad: string)
    | Obj(members: Members)

  datatype Items = Last(before: string, value: Value, after: string) | More(before: string, value: Value, after: string, rest: Items)

  datatype Member = Member(before: string, key: string, afterKey: string, beforeValue: string, value: Value, after: string)

  datatype Members = LastMember(member: Member) | MoreMembers(member: Member, rest: Members)

  function Quoted(body: string): string {
    "\"" + body + "\""
  }

  function Render(v: Value): (s: string)
    ensures s != ""
    decreases v
  {
    match v
    case Str(body) => Quoted(body)
    case Literal(token) => if token == "" then "0" else token
    case EmptyArr(pad) => "[" + pad + "]"
    case Arr(items) => "[" + RenderItems(items) + "]"
    case EmptyObj(pad) => "{" + pad + "}"
    case Obj(members) => "{" + RenderMembers(members) + "}"
  }

  function RenderItems(items: Items): string
    decreases items
  {
    match items
    case Last(before, value, after) => before + Render(value) + after
    case More(before, value, after, rest) => before + Render(value) + after + "," + RenderItems(rest)
  }

  function RenderMember(m: Member): string
    decreases m
  {
    m.before + Quoted(m.key) + m.afterKey + ":" + m.beforeValue + Render(m.value) + m.after
  }

  function RenderMembers(members: Members): string
    decreases members
  {
    match members
    case LastMember(m) => RenderMember(m)
    case MoreMembers(m, rest) => RenderMember(m) + "," + RenderMembers(rest)
  }

  // ---- well-formed texts ----

  /** The four characters of section 2 of RFC 8259. */
  predicate AllWhitespace(s: string) {
    forall k :: 0 <= k < |s| ==> s[k] == ' ' || s[k] == '\t' || s[k] == '\n' || s[k] == '\r'
  }

  predicate IsHex(c: char) {
    '0' <= c <= '9' || 'a' <= c <= 'f' || 'A' <= c <= 'F'
  }

  /** A string body: no bare quote, every backslash starts a whole escape. */
  predicate ValidBody(s: string) {
    if s == "" then true
    else if s[0] == '"' then false
    else if s[0] == '\\' then
      if |s| >= 2 && s[1] == 'u' then |s| >= 6 && IsHex(s[2]) && IsHex(s[3]) && IsHex(s[4]) && IsHex(s[5]) && ValidBody(s[6..])
      else |s| >= 2 && s[1] in {'"', '\\', '/', 'b', 'f', 'n', 'r', 't'} && ValidBody(s[2..])
    else ValidBody(s[1..])
  }

  /** The characters of numbers and of the three literal names. */
  predicate IsTokenChar(c: char) {
    '0' <= c <= '9' || 'a' <= c <= 'z' || c == 'E' || c == '+' || c == '-' || c == '.'
  }

  predicate ValidToken(s: string) {
    s != "" && forall k :: 0 <= k < |s| ==> IsTokenChar(s[k])
  }

  predicate ValidValue(v: Value)
    decreases v
  {
    match v
    case Str(body) => ValidBody(body)
    case Literal(token) => ValidToken(token)
    case EmptyArr(pad) => AllWhitespace(pad)
    case Arr(items) => ValidItems(items)
    case EmptyObj(pad) => AllWhitespace(pad)
    case Obj(members) => ValidMembers(members)
  }

  predicate ValidItems(items: Items)
    decreases items
  {
    && AllWhitespace(items.before) && ValidValue(items.value) && AllWhitespace(items.after)
    && (items.More? ==> ValidItems(items.rest))
  }

  predicate ValidMember(m: Member)
    decreases m
  {
    && AllWhitespace(m.before) && ValidBody(m.key) && AllWhitespace(m.afterKey) && AllWhitespace(m.beforeValue)
    && ValidValue(m.value) && AllWhitespace(m.after)
  }

  predicate ValidMembers(members: Members)
    decreases members
  {
    ValidMember(members.member) && (members.MoreMembers? ==> ValidMembers(members.rest))
  }

  // ---- keys as the scan sees them and as they mean ----

  /** The scan's view of a string body. */
  function Seen(s: string): string
    requires ValidBody(s)
  {
    if s == "" then ""
    else if s[0] == '\\' then
      if s[1] == 'u' then s[..6] + Seen(s[6..]) else [s[1]] + Seen(s[2..])
    else [s[0]] + Seen(s[1..])
  }

  function HexValue(c: char): nat
    requires IsHex(c)
  {
    if c <= '9' then c as nat - '0' as nat else if c <= 'F' then c as nat - 'A' as nat + 10 else c as nat - 'a' as nat + 10
  }

  function Unescaped(c: char): nat {
    if c == 'b' then 8 else if c == 'f' then 12 else if c == 'n' then 10 else if c == 'r' then 13 else if c == 't' then 9 else c as nat
  }

  /** A character in UTF-16: one code unit, or a surrogate pair. */
  function Units(c: char): (r: seq<nat>)
    ensures |r| == if c as nat < 0x1_0000 then 1 else 2
  {
    var n := c as nat;
    if n < 0x1_0000 then [n] else [0xD800 + (n - 0x1_0000) / 0x400, 0xDC00 + (n - 0x1_0000) % 0x400]
  }

  /** The code units a string body stands for (section 7 of RFC 8259). */
  function Meaning(s: string): seq<nat>
    requires ValidBody(s)
  {
    if s == "" then []
    else if s[0] == '\\' then
      if s[1] == 'u'
      then [HexValue(s[2]) * 4096 + HexValue(s[3]) * 256 + HexValue(s[4]) * 16 + HexValue(s[5])] + Meaning(s[6..])
      else [Unescaped(s[1])] + Meaning(s[2..])
    else Units(s[0]) + Meaning(s[1..])
  }

  /** What the scan does with a tree, in the order of the text. */
  datatype Verdict = Clean | TooDeep | Repeated(path: seq<string>, key: string)

  function Judge(v: Value, stack: seq<string>): Verdict
    requires ValidValue(v)
    decreases v
  {
    match v
    case Str(_) => Clean
    case Literal(_) => Clean
    case EmptyArr(_) => if |stack| >= MAX_DEPTH then TooDeep else Clean
    case Arr(items) => if |stack| >= MAX_DEPTH then TooDeep else JudgeItems(items, stack)
    case EmptyObj(_) => if |stack| >= MAX_DEPTH then TooDeep else Clean
    case Obj(members) => if |stack| >= MAX_DEPTH then TooDeep else JudgeMembers(members, stack, {})
  }

  function JudgeItems(items: Items, stack: seq<string>): Verdict
    requires ValidItems(items)
    decreases items
  {
    var first := Judge(items.value, stack);
    if first != Clean || items.Last? then first else JudgeItems(items.rest, stack)
  }

  function JudgeMembers(members: Members, stack: seq<string>, keys: set<string>): Verdict
    requires ValidMembers(members)
    decreases members
  {
    assert ValidMember(members.member);
    var key := Seen(members.member.key);
    if key in keys then Repeated(stack, key)
    else
      var first := Judge(members.member.value, stack + [key]);
      if first != Clean || members.LastMember? then first else JudgeMembers(members.rest, stack, keys + {key})
  }

  function ScanOf(verdict: Verdict, end: nat): Scan {
    match verdict
    case Clean => At(end)
    case TooDeep => GaveUp
    case Repeated(path, key) => Found(path, key)
  }

  // ---- the scan over a rendered tree ----

  /** The text holds `s` at `pos`. */
  predicate Sits(text: string, pos: nat, s: string) {
    pos + |s| <= |text| && text[pos..pos + |s|] == s
  }

  lemma SitsJoin(text: string, pos: nat, a: string, b: string)
    requires Sits(text, pos, a + b)
    ensures Sits(text, pos, a) && Sits(text, pos + |a|, b)
  {
    var s := text[pos..pos + |a + b|];
    assert text[pos..pos + |a|] == s[..|a|] == a;
    assert text[pos + |a|..pos + |a| + |b|] == s[|a|..] == b;
  }

  lemma SitsAt(text: string, pos: nat, s: string, k: nat)
    requires Sits(text, pos, s) && k < |s|
    ensures pos + k < |text| && text[pos + k] == s[k]
  {
    assert text[pos..pos + |s|][k] == s[k];
  }

  predicate NoWhitespaceAt(text: string, pos: nat) {
    pos < |text| ==> !IsWhitespace(text[pos])
  }

  lemma {:induction false} SkipsWhitespace(text: string, pos: nat, ws: string)
    requires Sits(text, pos, ws) && AllWhitespace(ws) && NoWhitespaceAt(text, pos + |ws|)
    ensures SkipWs(text, pos) == pos + |ws|
    decreases |ws|
  {
    if ws != "" {
      SitsAt(text, pos, ws, 0);
      assert ws == [ws[0]] + ws[1..];
      SitsJoin(text, pos, [ws[0]], ws[1..]);
      SkipsWhitespace(text, pos + 1, ws[1..]);
    }
  }

  lemma {:induction false} SkipsLiteral(text: string, pos: nat, token: string)
    requires Sits(text, pos, token) && (forall k :: 0 <= k < |token| ==> !EndsLiteral(token[k]))
    requires pos + |token| < |text| ==> EndsLiteral(text[pos + |token|])
    ensures SkipLiteral(text, pos) == pos + |token|
    decreases |token|
  {
    if token != "" {
      SitsAt(text, pos, token, 0);
      assert token == [token[0]] + token[1..];
      SitsJoin(text, pos, [token[0]], token[1..]);
      SkipsLiteral(text, pos + 1, token[1..]);
    }
  }

  lemma SliceSits(text: string, pos: nat, s: string)
    requires Sits(text, pos, s) && s != ""
    ensures Slice(text, pos, pos + |s|) == s
  {}

  /** How many characters of a body the scan takes at once, and what it makes of them. */
  function PieceLength(body: string): nat
    requires ValidBody(body) && body != ""
  {
    if body[0] != '\\' then 1 else if body[1] == 'u' then 6 else 2
  }

  function Piece(body: string): string
    requires ValidBody(body) && body != ""
  {
    if body[0] != '\\' then body[..1] else if body[1] == 'u' then body[..6] else body[1..2]
  }

  lemma {:induction false} SeenPiece(body: string)
    requires ValidBody(body) && body != ""
    ensures 0 < PieceLength(body) <= |body| && ValidBody(body[PieceLength(body)..])
    ensures Seen(body) == Piece(body) + Seen(body[PieceLength(body)..])
  {
    if body[0] != '\\' {
      assert body[..1] == [body[0]];
    } else if body[1] != 'u' {
      assert body[1..2] == [body[1]];
    }
  }

  lemma {:induction false} ReadsPiece(text: string, pos: nat, body: string, acc: string)
    requires ValidBody(body) && body != "" && Sits(text, pos, body)
    ensures ReadBody(text, pos, acc) == ReadBody(text, pos + PieceLength(body), acc + Piece(body))
  {
    SitsAt(text, pos, body, 0);
    assert PieceLength(body) <= |body| by { SeenPiece(body); }
    if body[0] == '\\' {
      SitsAt(text, pos, body, 1);
      if body[1] == 'u' {
        assert body == body[..6] + body[6..];
        SitsJoin(text, pos, body[..6], body[6..]);
        SliceSits(text, pos, body[..6]);
      } else {
        assert body == body[..1] + body[1..] && body[1..] == body[1..2] + body[2..];
        SitsJoin(text, pos, body[..1], body[1..]);
        SitsJoin(text, pos + 1, body[1..2], body[2..]);
        SliceSits(text, pos + 1, body[1..2]);
      }
    } else {
      assert body[..1] == [body[0]];
    }
  }

  lemma {:induction false} ReadsBody(text: string, pos: nat, body: string, acc: string)
    requires ValidBody(body) && Sits(text, pos, body + "\"")
    ensures ReadBody(text, pos, acc) == Some(Read(acc + Seen(body), pos + |body| + 1))
    decreases |body|
  {
    hide Sits, Slice, Piece, PieceLength, Seen, ReadBody, ValidBody;
    if body == "" {
      assert body + "\"" == "\"" && acc + "" == acc;
      ReadsQuote(text, pos, acc);
    } else {
      var n := PieceLength(body);
      SeenPiece(body);
      SitsJoin(text, pos, body, "\"");
      ReadsPiece(text, pos, body, acc);
      StepBody(text, pos, body, n);
      ReadsBody(text, pos + n, body[n..], acc + Piece(body));
      assert (acc + Piece(body)) + Seen(body[n..]) == acc + Seen(body);
    }
  }

  lemma ReadsQuote(text: string, pos: nat, acc: string)
    requires Sits(text, pos, "\"")
    ensures ReadBody(text, pos, acc) == Some(Read(acc, pos + 1)) && Seen("") == ""
  {
    SitsAt(text, pos, "\"", 0);
  }

  lemma StepBody(text: string, pos: nat, body: string, n: nat)
    requires Sits(text, pos, body + "\"") && n <= |body|
    ensures Sits(text, pos, body[..n]) && Sits(text, pos + n, body[n..] + "\"")
  {
    assert body + "\"" == body[..n] + (body[n..] + "\"");
    SitsJoin(text, pos, body[..n], body[n..] + "\"");
  }

  lemma ReadsString(text: string, pos: nat, body: string)
    requires ValidBody(body) && Sits(text, pos, Quoted(body))
    ensures ReadString(text, pos) == Some(Read(Seen(body), pos + |Quoted(body)|))
  {
    assert Quoted(body) == "\"" + (body + "\"");
    SitsJoin(text, pos, "\"", body + "\"");
    SitsAt(text, pos, "\"", 0);
    ReadsBody(text, pos + 1, body, "");
    assert "" + Seen(body) == Seen(body);
  }

  /** What can follow a value in a well-formed text. */
  predicate Delimited(text: string, pos: nat) {
    pos < |text| ==> IsWhitespace(text[pos]) || text[pos] == ',' || text[pos] == ']' || text[pos] == '}'
  }

  lemma FirstChar(v: Value)
    requires ValidValue(v)
    ensures !IsWhitespace(Render(v)[0])
  {
    match v
    case Literal(token) => assert !EndsLiteral(token[0]);
    case _ =>
  }

  /** Whitespace, then one of the closing characters. */
  lemma ClosesWith(text: string, pos: nat, ws: string, c: char)
    requires Sits(text, pos, ws + [c]) && AllWhitespace(ws) && !IsWhitespace(c)
    ensures SkipWs(text, pos) == pos + |ws| < |text| && text[pos + |ws|] == c
    ensures c == ',' || c == ']' || c == '}' ==> Delimited(text, pos)
  {
    SitsJoin(text, pos, ws, [c]);
    SitsAt(text, pos + |ws|, [c], 0);
    SkipsWhitespace(text, pos, ws);
    if ws != "" { SitsAt(text, pos, ws, 0); }
  }

  lemma ScansEmpty(text: string, pos: nat, pad: string, left: char, right: char, stack: seq<string>)
    requires Sits(text, pos, [left] + pad + [right]) && AllWhitespace(pad)
    requires (left == '[' && right == ']') || (left == '{' && right == '}')
    ensures pos < |text| && text[pos] == left
    ensures (if left == '[' then ParseArray(text, pos, stack) else ParseObject(text, pos, stack)) ==
            if |stack| >= MAX_DEPTH then GaveUp else At(pos + |pad| + 2)
  {
    hide SkipWs, ParseItems, ParseMembers;
    assert [left] + pad + [right] == [left] + (pad + [right]);
    SitsJoin(text, pos, [left], pad + [right]);
    SitsAt(text, pos, [left] + pad + [right], 0);
    ClosesWith(text, pos + 1, pad, right);
  }

  lemma {:induction false} ScansValue(text: string, pos: nat, v: Value, stack: seq<string>)
    requires ValidValue(v) && Sits(text, pos, Render(v)) && Delimited(text, pos + |Render(v)|)
    ensures SkipValue(text, pos, stack) == ScanOf(Judge(v, stack), pos + |Render(v)|)
    decreases v, 1
  {
    hide SkipWs, ReadString, SkipLiteral, ParseArray, ParseObject;
    SitsAt(text, pos, Render(v), 0);
    match v
    case Str(body) => ReadsString(text, pos, body);
    case Literal(token) => SkipsLiteral(text, pos, token);
    case EmptyArr(pad) => ScansEmpty(text, pos, pad, '[', ']', stack);
    case EmptyObj(pad) => ScansEmpty(text, pos, pad, '{', '}', stack);
    case Arr(items) => ScansArray(text, pos, items, stack);
    case Obj(members) => ScansObject(text, pos, members, stack);
  }

  lemma {:induction false} ScansArray(text: string, pos: nat, items: Items, stack: seq<string>)
    requires ValidItems(items) && Sits(text, pos, "[" + RenderItems(items) + "]")
    ensures pos < |text| && text[pos] == '['
    ensures ParseArray(text, pos, stack) ==
            ScanOf(if |stack| >= MAX_DEPTH then TooDeep else JudgeItems(items, stack), pos + |RenderItems(items)| + 2)
    decreases items, 3
  {
    hide SkipWs, SkipValue, Render, RenderItems, JudgeItems, ParseItems, ParseMembers, ValidItems, IsWhitespace, AllWhitespace;
    var body := RenderItems(items) + "]";
    assert "[" + RenderItems(items) + "]" == "[" + body;
    SitsJoin(text, pos, "[", body);
    SitsAt(text, pos, "[", 0);
    var skipped := ItemsStart(text, pos + 1, items);
    ScansItems(text, pos + 1, items, stack);
    ItemsFromSkipped(text, pos + 1, stack);
  }

  lemma ItemsFromSkipped(text: string, pos: nat, stack: seq<string>)
    requires pos <= |text|
    ensures ParseItems(text, SkipWs(text, pos), stack) == ParseItems(text, pos, stack)
    ensures ParseMembers(text, SkipWs(text, pos), stack, {}) == ParseMembers(text, pos, stack, {})
  {
    hide SkipWs, SkipValue, ReadString;
    SkipTwice(text, pos);
  }

  /** Skipping whitespace again skips nothing. */
  lemma {:induction false} SkipTwice(text: string, pos: nat)
    ensures SkipWs(text, SkipWs(text, pos)) == SkipWs(text, pos)
    decreases |text| - pos
  {
    if pos < |text| && IsWhitespace(text[pos]) {
      SkipTwice(text, pos + 1);
    }
  }

  function AfterItem(items: Items): string {
    if items.Last? then "]" else "," + RenderItems(items.rest) + "]"
  }

  /** The pieces of the first item, in place. */
  lemma ItemPieces(text: string, pos: nat, items: Items)
    requires ValidItems(items) && Sits(text, pos, RenderItems(items) + "]")
    ensures var value := pos + |items.before|;
            var end := value + |Render(items.value)|;
            && Sits(text, pos, items.before) && Sits(text, value, Render(items.value)) && Sits(text, end, items.after + AfterItem(items))
            && pos + |RenderItems(items)| + 1 == end + |items.after| + |AfterItem(items)|
            && AllWhitespace(items.before) && AllWhitespace(items.after) && ValidValue(items.value)
  {
    hide Render, Sits, AllWhitespace;
    var e := items.after + AfterItem(items);
    assert RenderItems(items) + "]" == items.before + (Render(items.value) + e);
    SitsJoin(text, pos, items.before, Render(items.value) + e);
    SitsJoin(text, pos + |items.before|, Render(items.value), e);
  }

  /** Past its whitespace an item list starts with a value, not with a bracket. */
  lemma ItemsStart(text: string, pos: nat, items: Items) returns (start: nat)
    requires ValidItems(items) && Sits(text, pos, RenderItems(items) + "]")
    ensures start == SkipWs(text, pos) == pos + |items.before| && start < |text| && text[start] != ']'
  {
    hide Render, Sits, AllWhitespace, ValidItems, ValidValue;
    ItemPieces(text, pos, items);
    start := pos + |items.before|;
    ValueStarts(text, pos, items.before, items.value);
    SitsAt(text, start, Render(items.value), 0);
    NotClosing(items.value);
  }

  lemma NotClosing(v: Value)
    requires ValidValue(v)
    ensures Render(v)[0] != ']' && Render(v)[0] != '}'
  {
    match v
    case Literal(token) => assert !EndsLiteral(token[0]);
    case _ =>
  }

  lemma {:induction false} ScansItems(text: string, pos: nat, items: Items, stack: seq<string>)
    requires ValidItems(items) && Sits(text, pos, RenderItems(items) + "]")
    ensures pos <= |text| && ParseItems(text, pos, stack) == ScanOf(JudgeItems(items, stack), pos + |RenderItems(items)| + 1)
    decreases items, 2
  {
    if items.Last? {
      ScansLastItem(text, pos, items, stack);
    } else {
      ScansMoreItems(text, pos, items, stack);
    }
  }

  lemma {:induction false} ScansLastItem(text: string, pos: nat, items: Items, stack: seq<string>)
    requires items.Last? && ValidItems(items) && Sits(text, pos, RenderItems(items) + "]")
    ensures pos <= |text| && ParseItems(text, pos, stack) == ScanOf(JudgeItems(items, stack), pos + |RenderItems(items)| + 1)
    decreases items, 1
  {
    hide SkipWs, SkipValue, Render, RenderItems, AllWhitespace, Sits, Judge, ValidValue;
    ItemPieces(text, pos, items);
    var start := ItemsStart(text, pos, items);
    var end := start + |Render(items.value)|;
    ClosesWith(text, end, items.after, ']');
    ScansValue(text, start, items.value, stack);
  }

  lemma {:induction false} ScansMoreItems(text: string, pos: nat, items: Items, stack: seq<string>)
    requires items.More? && ValidItems(items) && Sits(text, pos, RenderItems(items) + "]")
    ensures pos <= |text| && ParseItems(text, pos, stack) == ScanOf(JudgeItems(items, stack), pos + |RenderItems(items)| + 1)
    decreases items, 1
  {
    hide SkipWs, SkipValue, Render, RenderItems, AllWhitespace, Sits, Judge, ValidValue, AfterItem, IsWhitespace, Delimited;
    ItemPieces(text, pos, items);
    var start := ItemsStart(text, pos, items);
    var end := start + |Render(items.value)|;
    CommaCloses(text, end, items);
    ScansValue(text, start, items.value, stack);
    ScansItems(text, end + |items.after| + 1, items.rest, stack);
  }

  /** The comma after an item, and the items behind it. */
  lemma CommaCloses(text: string, end: nat, items: Items)
    requires items.More? && AllWhitespace(items.after) && Sits(text, end, items.after + AfterItem(items))
    ensures SkipWs(text, end) == end + |items.after| < |text| && text[end + |items.after|] == ',' && Delimited(text, end)
    ensures Sits(text, end + |items.after| + 1, RenderItems(items.rest) + "]")
    ensures |AfterItem(items)| == |RenderItems(items.rest)| + 2
  {
    hide SkipWs, RenderItems, AllWhitespace, Sits, Delimited;
    assert items.after + AfterItem(items) == (items.after + ",") + (RenderItems(items.rest) + "]");
    SitsJoin(text, end, items.after + ",", RenderItems(items.rest) + "]");
    ClosesWith(text, end, items.after, ',');
  }

  lemma {:induction false} ScansObject(text: string, pos: nat, members: Members, stack: seq<string>)
    requires ValidMembers(members) && Sits(text, pos, "{" + RenderMembers(members) + "}")
    ensures pos < |text| && text[pos] == '{'
    ensures ParseObject(text, pos, stack) ==
            ScanOf(if |stack| >= MAX_DEPTH then TooDeep else JudgeMembers(members, stack, {}), pos + |RenderMembers(members)| + 2)
    decreases members, 3
  {
    hide SkipWs, SkipValue, ReadString, RenderMembers, JudgeMembers, ParseMembers, ValidMembers;
    var body := RenderMembers(members) + "}";
    assert "{" + RenderMembers(members) + "}" == "{" + body;
    SitsJoin(text, pos, "{", body);
    SitsAt(text, pos, "{", 0);
    var skipped := MembersStart(text, pos + 1, members);
    ScansMembers(text, pos + 1, members, stack, {});
    ItemsFromSkipped(text, pos + 1, stack);
  }

  function AfterMember(members: Members): string {
    if members.LastMember? then "}" else "," + RenderMembers(members.rest) + "}"
  }

  /** The pieces of the first member, in place. */
  lemma MemberPieces(text: string, pos: nat, members: Members)
    requires ValidMembers(members) && Sits(text, pos, RenderMembers(members) + "}")
    ensures var m := members.member;
            var key := pos + |m.before|;
            var afterKey := key + |Quoted(m.key)|;
            var beforeValue := afterKey + |m.afterKey| + 1;
            var value := beforeValue + |m.beforeValue|;
            var end := value + |Render(m.value)|;
            && Sits(text, pos, m.before) && Sits(text, key, Quoted(m.key)) && Sits(text, afterKey, m.afterKey + ":")
            && Sits(text, beforeValue, m.beforeValue) && Sits(text, value, Render(m.value))
            && Sits(text, end, m.after + AfterMember(members))
            && pos + |RenderMembers(members)| + 1 == end + |m.after| + |AfterMember(members)|
            && AllWhitespace(m.before) && AllWhitespace(m.afterKey) && AllWhitespace(m.beforeValue) && AllWhitespace(m.after)
            && ValidBody(m.key) && ValidValue(m.value)
  {
    hide Render, Quoted, RenderMembers, Sits, AllWhitespace, ValidBody;
    assert ValidMember(members.member);
    var m := members.member;
    var e := m.after + AfterMember(members);
    var d := Render(m.value) + e;
    var c := m.beforeValue + d;
    var b := (m.afterKey + ":") + c;
    var a := Quoted(m.key) + b;
    assert RenderMembers(members) + "}" == m.before + a by { MembersShape(members); }
    SitsJoin(text, pos, m.before, a);
    SitsJoin(text, pos + |m.before|, Quoted(m.key), b);
    SitsJoin(text, pos + |m.before| + |Quoted(m.key)|, m.afterKey + ":", c);
    SitsJoin(text, pos + |m.before| + |Quoted(m.key)| + |m.afterKey| + 1, m.beforeValue, d);
    SitsJoin(text, pos + |m.before| + |Quoted(m.key)| + |m.afterKey| + 1 + |m.beforeValue|, Render(m.value), e);
  }

  lemma MembersShape(members: Members)
    ensures var m := members.member;
            RenderMembers(members) + "}" ==
            m.before + (Quoted(m.key) + ((m.afterKey + ":") + (m.beforeValue + (Render(m.value) + (m.after + AfterMember(members))))))
  {
    hide Render, Quoted;
  }

  lemma MembersStart(text: string, pos: nat, members: Members) returns (start: nat)
    requires ValidMembers(members) && Sits(text, pos, RenderMembers(members) + "}")
    ensures start == SkipWs(text, pos) == pos + |members.member.before| && start < |text| && text[start] == '"'
  {
    hide Render, RenderMembers, Sits, AllWhitespace, ValidMembers;
    MemberPieces(text, pos, members);
    start := pos + |members.member.before|;
    SitsAt(text, start, Quoted(members.member.key), 0);
    SkipsWhitespace(text, pos, members.member.before);
  }

  /** One turn of the member loop, once its key and colon are read. */
  lemma MembersUnfold(text: string, pos: nat, stack: seq<string>, keys: set<string>, read: Read, colon: nat)
    requires pos <= |text| && ReadString(text, SkipWs(text, pos)) == Some(read)
    requires SkipWs(text, read.end) == colon && CharAt(text, colon, ':')
    ensures ParseMembers(text, pos, stack, keys) ==
            if read.key in keys then Found(stack, read.key)
            else
              match SkipValue(text, SkipWs(text, colon + 1), stack + [read.key])
              case GaveUp => GaveUp
              case Found(path, k) => Found(path, k)
              case At(end) =>
                var next := SkipWs(text, end);
                if CharAt(text, next, ',') then ParseMembers(text, next + 1, stack, keys + {read.key})
                else if CharAt(text, next, '}') then At(next + 1)
                else GaveUp
  {
    hide SkipWs, SkipValue, ReadString;
  }

  /** The separator after a member, and that the value before it is delimited. */
  lemma MemberEnds(text: string, end: nat, members: Members)
    requires AllWhitespace(members.member.after) && Sits(text, end, members.member.after + AfterMember(members))
    ensures var next := SkipWs(text, end);
            && next == end + |members.member.after| && Delimited(text, end)
            && CharAt(text, next, if members.LastMember? then '}' else ',')
    ensures members.MoreMembers? ==> Sits(text, SkipWs(text, end) + 1, RenderMembers(members.rest) + "}")
  {
    hide Sits, RenderMembers, AllWhitespace, SkipWs;
    var after := members.member.after;
    if members.LastMember? {
      ClosesWith(text, end, after, '}');
    } else {
      assert after + AfterMember(members) == (after + ",") + (RenderMembers(members.rest) + "}");
      SitsJoin(text, end, after + ",", RenderMembers(members.rest) + "}");
      ClosesWith(text, end, after, ',');
    }
  }

  lemma {:induction false} ScansMembers(text: string, pos: nat, members: Members, stack: seq<string>, keys: set<string>)
    requires ValidMembers(members) && Sits(text, pos, RenderMembers(members) + "}")
    ensures pos <= |text|
    ensures ParseMembers(text, pos, stack, keys) == ScanOf(JudgeMembers(members, stack, keys), pos + |RenderMembers(members)| + 1)
    decreases members, 2
  {
    hide SkipWs, SkipValue, ReadString, Render, RenderMembers, Quoted, AllWhitespace, Seen, Sits, Judge, ValidValue, ValidBody,
         ParseMembers, Delimited;
    var m := members.member;
    var start := MembersStart(text, pos, members);
    MemberPieces(text, pos, members);
    ReadsString(text, start, m.key);
    var read := Read(Seen(m.key), start + |Quoted(m.key)|);
    ClosesWith(text, read.end, m.afterKey, ':');
    MembersUnfold(text, pos, stack, keys, read, read.end + |m.afterKey|);
    if read.key !in keys {
      var value := read.end + |m.afterKey| + 1 + |m.beforeValue|;
      ValueStarts(text, read.end + |m.afterKey| + 1, m.beforeValue, m.value);
      var end := value + |Render(m.value)|;
      MemberEnds(text, end, members);
      ScansValue(text, value, m.value, stack + [read.key]);
      if members.MoreMembers? {
        ScansMembers(text, end + |m.after| + 1, members.rest, stack, keys + {read.key});
      }
    }
  }

  lemma ValueStarts(text: string, pos: nat, ws: string, v: Value)
    requires ValidValue(v) && AllWhitespace(ws) && Sits(text, pos, ws) && Sits(text, pos + |ws|, Render(v))
    ensures SkipWs(text, pos) == pos + |ws|
  {
    SitsAt(text, pos + |ws|, Render(v), 0);
    FirstChar(v);
    SkipsWhitespace(text, pos, ws);
  }

  // ---- what the scan reports ----

  /** A document is an object or an array with whitespace around it. */
  function Document(before: string, v: Value, after: string): string {
    before + Render(v) + after
  }

  predicate IsContainer(v: Value) {
    !v.Str? && !v.Literal?
  }

  /** On every valid JSON text whose root is an object or an array, with any whitespace, the scan reports exactly what the
      walk over the tree does. */
  lemma {:induction false} ScanIsJudgement(before: string, v: Value, after: string)
    requires ValidValue(v) && IsContainer(v) && AllWhitespace(before) && AllWhitespace(after)
    ensures var verdict := Judge(v, []);
            FindDuplicateKey(Document(before, v, after)) ==
            if verdict.Repeated? then Some(Found(verdict.path, verdict.key)) else None
  {
    hide SkipWs, SkipValue, ParseObject, ParseArray, Render, Judge, ValidValue;
    var text, body := Document(before, v, after), Render(v);
    assert text == before + (body + after);
    assert Sits(text, 0, text);
    SitsJoin(text, 0, before, body + after);
    SitsJoin(text, |before|, body, after);
    SitsAt(text, |before|, body, 0);
    FirstChar(v);
    SkipsWhitespace(text, 0, before);
    EndsDelimited(text, |before| + |body|, after);
    ScansValue(text, |before|, v, []);
    ContainerStarts(text, |before|, v);
  }

  lemma EndsDelimited(text: string, pos: nat, after: string)
    requires Sits(text, pos, after) && pos + |after| == |text| && AllWhitespace(after)
    ensures Delimited(text, pos)
  {
    if after != "" { SitsAt(text, pos, after, 0); }
  }

  lemma ContainerStarts(text: string, pos: nat, v: Value)
    requires IsContainer(v) && pos < |text| && text[pos] == Render(v)[0]
    ensures text[pos] == '{' || text[pos] == '['
    ensures SkipValue(text, pos, []) == if text[pos] == '{' then ParseObject(text, pos, []) else ParseArray(text, pos, [])
  {
    hide ParseObject, ParseArray;
  }

  /** How a key is compared: as the scan sees it, or by what it means. */
  datatype View = AsSeen | AsMeant

  function Viewed(view: View, key: string): seq<nat>
    requires ValidBody(key)
  {
    if view.AsMeant? then Meaning(key) else Codes(Seen(key))
  }

  function Codes(s: string): seq<nat> {
    if s == "" then [] else Units(s[0]) + Codes(s[1..])
  }

  /** The first unit tells a lone character from a pair, since no character is a surrogate. */
  lemma UnitsApart(c: char, d: char, rest: seq<nat>, left: seq<nat>)
    requires Units(c) + rest == Units(d) + left
    ensures c == d && rest == left
  {
    var u, v := Units(c) + rest, Units(d) + left;
    assert u[0] == Units(c)[0] && v[0] == Units(d)[0];
    if c as nat >= 0x1_0000 && d as nat >= 0x1_0000 {
      assert u[1] == Units(c)[1] && v[1] == Units(d)[1];
    }
    assert rest == u[|Units(c)|..] && left == v[|Units(d)|..];
  }

  lemma {:induction false} CodesInjective(a: string, b: string)
    requires Codes(a) == Codes(b)
    ensures a == b
    decreases |a|
  {
    hide Units;
    if a != "" && b != "" {
      UnitsApart(a[0], b[0], Codes(a[1..]), Codes(b[1..]));
      CodesInjective(a[1..], b[1..]);
      assert a == [a[0]] + a[1..] && b == [b[0]] + b[1..];
    }
  }

  predicate KeyIn(view: View, key: seq<nat>, members: Members)
    requires ValidMembers(members)
    decreases members
  {
    assert ValidMember(members.member);
    Viewed(view, members.member.key) == key || (members.MoreMembers? && KeyIn(view, key, members.rest))
  }

  /** Some object at any depth repeats a key. */
  predicate Repeats(view: View, v: Value)
    requires ValidValue(v)
    decreases v
  {
    match v
    case Arr(items) => RepeatsInItems(view, items)
    case Obj(members) => RepeatsInMembers(view, members)
    case _ => false
  }

  predicate RepeatsInItems(view: View, items: Items)
    requires ValidItems(items)
    decreases items
  {
    Repeats(view, items.value) || (items.More? && RepeatsInItems(view, items.rest))
  }

  predicate RepeatsInMembers(view: View, members: Members)
    requires ValidMembers(members)
    decreases members
  {
    assert ValidMember(members.member);
    || Repeats(view, members.member.value)
    || (members.MoreMembers? && (KeyIn(view, Viewed(view, members.member.key), members.rest) || RepeatsInMembers(view, members.rest)))
  }

  /** No object or array lies under 100 keys or more. */
  predicate Shallow(v: Value, depth: nat)
    decreases v
  {
    match v
    case EmptyArr(_) => depth < 100
    case EmptyObj(_) => depth < 100
    case Arr(items) => depth < 100 && ShallowItems(items, depth)
    case Obj(members) => depth < 100 && ShallowMembers(members, depth)
    case _ => true
  }

  predicate ShallowItems(items: Items, depth: nat)
    decreases items
  {
    Shallow(items.value, depth) && (items.More? ==> ShallowItems(items.rest, depth))
  }

  predicate ShallowMembers(members: Members, depth: nat)
    decreases members
  {
    Shallow(members.member.value, depth + 1) && (members.MoreMembers? ==> ShallowMembers(members.rest, depth))
  }

  /** What a reader of the whole text notes down: a container under 100 keys or more, a key of its object once more. */
  datatype Mark = Deep | Again

  function DepthMark(depth: nat): seq<Mark> {
    if depth >= 100 then [Deep] else []
  }

  /** The marks of a value in the order of its text: a container's own at its bracket, a key's at the key. */
  function Marks(v: Value, depth: nat): seq<Mark>
    requires ValidValue(v)
    decreases v
  {
    match v
    case Str(_) => []
    case Literal(_) => []
    case EmptyArr(_) => DepthMark(depth)
    case EmptyObj(_) => DepthMark(depth)
    case Arr(items) => DepthMark(depth) + MarksOfItems(items, depth)
    case Obj(members) => DepthMark(depth) + MarksOfMembers(members, depth, {})
  }

  function MarksOfItems(items: Items, depth: nat): seq<Mark>
    requires ValidItems(items)
    decreases items
  {
    Marks(items.value, depth) + (if items.More? then MarksOfItems(items.rest, depth) else [])
  }

  function MarksOfMembers(members: Members, depth: nat, earlier: set<string>): seq<Mark>
    requires ValidMembers(members)
    decreases members
  {
    assert ValidMember(members.member);
    var key := Seen(members.member.key);
    (if key in earlier then [Again] else []) + Marks(members.member.value, depth + 1)
    + (if members.MoreMembers? then MarksOfMembers(members.rest, depth, earlier + {key}) else [])
  }

  /** In the order of the text, a container under 100 keys or more comes before any repeated key. */
  predicate DeepFirst(v: Value)
    requires ValidValue(v)
  {
    var marks := Marks(v, 0);
    exists k :: 0 <= k < |marks| && marks[k] == Deep && Again !in marks[..k]
  }

  /** The verdict the first mark stands for. */
  predicate Decides(marks: seq<Mark>, verdict: Verdict) {
    match verdict
    case Clean => marks == []
    case TooDeep => marks != [] && marks[0] == Deep
    case Repeated(_, _) => marks != [] && marks[0] == Again
  }

  lemma DecidesJoin(a: seq<Mark>, b: seq<Mark>, first: Verdict, second: Verdict)
    requires Decides(a, first) && Decides(b, second)
    ensures Decides(a + b, if first != Clean then first else second)
  {}

  lemma DecidesAlone(verdict: Verdict)
    ensures Decides([], Clean) && Decides([Deep], TooDeep) && (verdict.Repeated? ==> Decides([Again], verdict))
  {}

  lemma {:induction false} FirstMark(v: Value, stack: seq<string>)
    requires ValidValue(v)
    ensures Decides(Marks(v, |stack|), Judge(v, stack))
    decreases v
  {
    hide Decides;
    DecidesAlone(Clean);
    var own, verdict := DepthMark(|stack|), if |stack| >= MAX_DEPTH then TooDeep else Clean;
    if v.Arr? {
      FirstItemMark(v.items, stack);
      DecidesJoin(own, MarksOfItems(v.items, |stack|), verdict, JudgeItems(v.items, stack));
    } else if v.Obj? {
      FirstMemberMark(v.members, stack, {});
      DecidesJoin(own, MarksOfMembers(v.members, |stack|, {}), verdict, JudgeMembers(v.members, stack, {}));
    }
  }

  lemma {:induction false} FirstItemMark(items: Items, stack: seq<string>)
    requires ValidItems(items)
    ensures Decides(MarksOfItems(items, |stack|), JudgeItems(items, stack))
    decreases items
  {
    hide Decides, Marks, Judge;
    DecidesAlone(Clean);
    var marks, first := Marks(items.value, |stack|), Judge(items.value, stack);
    FirstMark(items.value, stack);
    if items.More? {
      FirstItemMark(items.rest, stack);
      DecidesJoin(marks, MarksOfItems(items.rest, |stack|), first, JudgeItems(items.rest, stack));
    } else {
      DecidesJoin(marks, [], first, Clean);
    }
  }

  lemma {:induction false} FirstMemberMark(members: Members, stack: seq<string>, keys: set<string>)
    requires ValidMembers(members)
    ensures Decides(MarksOfMembers(members, |stack|, keys), JudgeMembers(members, stack, keys))
    decreases members
  {
    hide Decides, Marks, Judge, Seen;
    assert ValidMember(members.member);
    var key := Seen(members.member.key);
    var marks, first := Marks(members.member.value, |stack| + 1), Judge(members.member.value, stack + [key]);
    FirstMark(members.member.value, stack + [key]);
    var own, verdict := if key in keys then [Again] else [], if key in keys then Repeated(stack, key) else Clean;
    DecidesAlone(verdict);
    DecidesJoin(own, marks, verdict, first);
    var rest, second := if members.MoreMembers? then MarksOfMembers(members.rest, |stack|, keys + {key}) else [],
                        if members.MoreMembers? then JudgeMembers(members.rest, stack, keys + {key}) else Clean;
    if members.MoreMembers? { FirstMemberMark(members.rest, stack, keys + {key}); }
    DecidesJoin(own + marks, rest, if verdict != Clean then verdict else first, second);
  }

  /** The marks are there exactly for what they stand for. */
  lemma {:induction false} MarksOfValue(v: Value, depth: nat)
    requires ValidValue(v)
    ensures Again in Marks(v, depth) <==> Repeats(AsSeen, v)
    ensures Deep in Marks(v, depth) <==> !Shallow(v, depth)
    decreases v
  {
    if v.Arr? {
      MarksOfItemsAre(v.items, depth);
    } else if v.Obj? {
      MarksOfMembersAre(v.members, depth, {});
      NothingMet(v.members);
    }
  }

  lemma {:induction false} MarksOfItemsAre(items: Items, depth: nat)
    requires ValidItems(items)
    ensures Again in MarksOfItems(items, depth) <==> RepeatsInItems(AsSeen, items)
    ensures Deep in MarksOfItems(items, depth) <==> !ShallowItems(items, depth)
    decreases items
  {
    hide Marks, Repeats, Shallow;
    MarksOfValue(items.value, depth);
    if items.More? { MarksOfItemsAre(items.rest, depth); }
  }

  /** Some member's key is among the keys seen before. */
  predicate Meets(members: Members, keys: set<string>)
    requires ValidMembers(members)
    decreases members
  {
    assert ValidMember(members.member);
    Seen(members.member.key) in keys || (members.MoreMembers? && Meets(members.rest, keys))
  }

  lemma {:induction false} MeetsOneMore(members: Members, keys: set<string>, key: string)
    requires ValidMembers(members)
    ensures Meets(members, keys + {key}) <==> Meets(members, keys) || KeyIn(AsSeen, Codes(key), members)
    decreases members
  {
    assert ValidMember(members.member);
    if Codes(Seen(members.member.key)) == Codes(key) { CodesInjective(Seen(members.member.key), key); }
    if members.MoreMembers? {
      MeetsOneMore(members.rest, keys, key);
    }
  }

  lemma {:induction false} MarksOfMembersAre(members: Members, depth: nat, earlier: set<string>)
    requires ValidMembers(members)
    ensures Again in MarksOfMembers(members, depth, earlier) <==> RepeatsInMembers(AsSeen, members) || Meets(members, earlier)
    ensures Deep in MarksOfMembers(members, depth, earlier) <==> !ShallowMembers(members, depth)
    decreases members
  {
    hide Marks, Repeats, Shallow, Seen, Codes, KeyIn;
    assert ValidMember(members.member);
    var key := Seen(members.member.key);
    MarksOfValue(members.member.value, depth + 1);
    if members.MoreMembers? {
      MarksOfMembersAre(members.rest, depth, earlier + {key});
      MeetsOneMore(members.rest, earlier, key);
    }
  }

  lemma {:induction false} NothingMet(members: Members)
    requires ValidMembers(members)
    ensures !Meets(members, {})
    decreases members
  {
    if members.MoreMembers? {
      NothingMet(members.rest);
    }
  }

  /** On every valid JSON text whose root is an object or an array, at any nesting, the scan reports a duplicate exactly when
      some object has two keys the scan sees as equal and no object or array under 100 keys or more comes before every
      repeated key in the order of the text. Without such a container it never gives up. */
  lemma ScanReports(before: string, v: Value, after: string)
    requires ValidValue(v) && IsContainer(v) && AllWhitespace(before) && AllWhitespace(after)
    ensures FindDuplicateKey(Document(before, v, after)).Some? <==> Repeats(AsSeen, v) && !DeepFirst(v)
    ensures Judge(v, []).TooDeep? <==> DeepFirst(v)
    ensures Again in Marks(v, 0) <==> Repeats(AsSeen, v)
    ensures Deep in Marks(v, 0) <==> !Shallow(v, 0)
    ensures Shallow(v, 0) ==> !DeepFirst(v)
  {
    hide FindDuplicateKey, Judge, Repeats, Shallow, Marks;
    ScanIsJudgement(before, v, after);
    FirstMark(v, []);
    MarksOfValue(v, 0);
    var marks := Marks(v, 0);
    if marks != [] && marks[0] == Deep {
      assert marks[..0] == [];
    }
    if marks != [] && marks[0] == Again {
      assert forall k :: 0 < k < |marks| ==> marks[..k][0] == Again;
    }
  }

  predicate EscapeFree(s: string) {
    forall k :: 0 <= k < |s| ==> s[k] != '\\'
  }

  predicate KeyOf(key: string, members: Members)
    decreases members
  {
    members.member.key == key || (members.MoreMembers? && KeyOf(key, members.rest))
  }

  /** Some object of the value has `a` among its keys and `b` after it. */
  predicate PairIn(a: string, b: string, v: Value)
    decreases v
  {
    match v
    case Arr(items) => PairInItems(a, b, items)
    case Obj(members) => PairInMembers(a, b, members)
    case _ => false
  }

  predicate PairInItems(a: string, b: string, items: Items)
    decreases items
  {
    PairIn(a, b, items.value) || (items.More? && PairInItems(a, b, items.rest))
  }

  predicate PairInMembers(a: string, b: string, members: Members)
    decreases members
  {
    || PairIn(a, b, members.member.value)
    || (members.MoreMembers? && ((members.member.key == a && KeyOf(b, members.rest)) || PairInMembers(a, b, members.rest)))
  }

  /** The scan takes two keys for equal exactly when they are. */
  predicate AlikeAsMeant(a: string, b: string) {
    ValidBody(a) && ValidBody(b) ==> (Seen(a) == Seen(b) <==> Meaning(a) == Meaning(b))
  }

  ghost predicate KeysAlike(v: Value) {
    forall a, b :: PairIn(a, b, v) ==> AlikeAsMeant(a, b)
  }

  ghost predicate ItemsAlike(items: Items) {
    forall a, b :: PairInItems(a, b, items) ==> AlikeAsMeant(a, b)
  }

  ghost predicate MembersAlike(members: Members) {
    forall a, b :: PairInMembers(a, b, members) ==> AlikeAsMeant(a, b)
  }

  lemma {:induction false} ViewsAgree(v: Value)
    requires ValidValue(v) && KeysAlike(v)
    ensures Repeats(AsSeen, v) <==> Repeats(AsMeant, v)
    decreases v
  {
    match v
    case Arr(items) =>
      assert ItemsAlike(items) by { forall a, b | PairInItems(a, b, items) ensures AlikeAsMeant(a, b) { assert PairIn(a, b, v); } }
      ItemViewsAgree(items);
    case Obj(members) =>
      assert MembersAlike(members) by { forall a, b | PairInMembers(a, b, members) ensures AlikeAsMeant(a, b) { assert PairIn(a, b, v); } }
      MemberViewsAgree(members);
    case _ =>
  }

  lemma {:induction false} ItemViewsAgree(items: Items)
    requires ValidItems(items) && ItemsAlike(items)
    ensures RepeatsInItems(AsSeen, items) <==> RepeatsInItems(AsMeant, items)
    decreases items
  {
    hide AlikeAsMeant;
    assert KeysAlike(items.value);
    ViewsAgree(items.value);
    if items.More? {
      assert ItemsAlike(items.rest);
      ItemViewsAgree(items.rest);
    }
  }

  lemma {:induction false} KeyViewsAgree(key: string, members: Members)
    requires ValidBody(key) && ValidMembers(members) && forall b :: KeyOf(b, members) ==> AlikeAsMeant(key, b)
    ensures KeyIn(AsSeen, Codes(Seen(key)), members) <==> KeyIn(AsMeant, Meaning(key), members)
    decreases members
  {
    hide Seen, Meaning, Codes;
    assert ValidMember(members.member);
    var other := members.member.key;
    assert KeyOf(other, members);
    if Codes(Seen(other)) == Codes(Seen(key)) { CodesInjective(Seen(other), Seen(key)); }
    if members.MoreMembers? {
      KeyViewsAgree(key, members.rest);
    }
  }

  lemma {:induction false} MemberViewsAgree(members: Members)
    requires ValidMembers(members) && MembersAlike(members)
    ensures RepeatsInMembers(AsSeen, members) <==> RepeatsInMembers(AsMeant, members)
    decreases members
  {
    hide AlikeAsMeant, Seen, Meaning, Codes;
    assert ValidMember(members.member);
    assert KeysAlike(members.member.value);
    ViewsAgree(members.member.value);
    if members.MoreMembers? {
      var key := members.member.key;
      assert MembersAlike(members.rest);
      forall b | KeyOf(b, members.rest) ensures AlikeAsMeant(key, b) {
        assert PairInMembers(key, b, members);
      }
      KeyViewsAgree(key, members.rest);
      MemberViewsAgree(members.rest);
    }
  }

  /** When in every object two keys look alike exactly when they mean alike, the scan reports a duplicate exactly when some
      object repeats a key (section 4 of RFC 8259) and no container nested too deep comes first. */
  lemma ScanIsExact(before: string, v: Value, after: string)
    requires ValidValue(v) && IsContainer(v) && AllWhitespace(before) && AllWhitespace(after) && KeysAlike(v)
    ensures FindDuplicateKey(Document(before, v, after)).Some? <==> Repeats(AsMeant, v) && !DeepFirst(v)
  {
    hide FindDuplicateKey, Judge, Repeats, KeysAlike, DeepFirst;
    ScanReports(before, v, after);
    ViewsAgree(v);
  }

  /** The condition is exact pair by pair: an object with two keys is judged rightly exactly when they look alike exactly when
      they mean alike. */
  lemma PairIsExact(a: string, b: string)
    requires ValidBody(a) && ValidBody(b)
    ensures ValidValue(TwoFields(a, b)) && (forall x, y :: PairIn(x, y, TwoFields(a, b)) <==> x == a && y == b)
    ensures (FindDuplicateKey(Document("", TwoFields(a, b), "")).Some? <==> Repeats(AsMeant, TwoFields(a, b))) <==> AlikeAsMeant(a, b)
  {
    hide FindDuplicateKey, Judge, Seen, Meaning, Codes, ValidBody, Repeats, Shallow, DeepFirst;
    TwoFieldsRepeat(a, b);
    OnePair(a, b);
    ScanReports("", TwoFields(a, b), "");
  }

  lemma OnePair(a: string, b: string)
    ensures forall x, y :: PairIn(x, y, TwoFields(a, b)) <==> x == a && y == b
  {
    var rest := LastMember(Field(b));
    var members := MoreMembers(Field(a), rest);
    forall x, y ensures PairIn(x, y, TwoFields(a, b)) <==> x == a && y == b {
      assert !PairInMembers(x, y, rest) && (KeyOf(y, rest) <==> y == b);
      assert PairIn(x, y, TwoFields(a, b)) <==> PairInMembers(x, y, members);
    }
  }

  lemma TwoFieldsRepeat(a: string, b: string)
    requires ValidBody(a) && ValidBody(b)
    ensures var v := TwoFields(a, b);
            && ValidValue(v) && IsContainer(v) && Shallow(v, 0)
            && (Repeats(AsSeen, v) <==> Seen(a) == Seen(b)) && (Repeats(AsMeant, v) <==> Meaning(a) == Meaning(b))
  {
    hide Seen, Meaning, Codes, ValidBody;
    var rest := LastMember(Field(b));
    var members := MoreMembers(Field(a), rest);
    assert ValidValue(Literal("1")) && Shallow(Literal("1"), 1);
    assert ValidMember(Field(a)) && ValidMember(Field(b)) && ValidMembers(rest) && ValidMembers(members);
    assert ShallowMembers(rest, 0) && ShallowMembers(members, 0);
    assert !RepeatsInMembers(AsSeen, rest) && !RepeatsInMembers(AsMeant, rest);
    assert RepeatsInMembers(AsSeen, members) <==> KeyIn(AsSeen, Codes(Seen(a)), rest);
    assert RepeatsInMembers(AsMeant, members) <==> KeyIn(AsMeant, Meaning(a), rest);
    if Codes(Seen(a)) == Codes(Seen(b)) { CodesInjective(Seen(a), Seen(b)); }
    assert KeyIn(AsSeen, Codes(Seen(a)), rest) <==> Codes(Seen(b)) == Codes(Seen(a));
    assert KeyIn(AsMeant, Meaning(a), rest) <==> Meaning(b) == Meaning(a);
  }

  predicate PlainKeys(v: Value)
    decreases v
  {
    match v
    case Arr(items) => PlainItems(items)
    case Obj(members) => PlainMembers(members)
    case _ => true
  }

  predicate PlainItems(items: Items)
    decreases items
  {
    PlainKeys(items.value) && (items.More? ==> PlainItems(items.rest))
  }

  predicate PlainMembers(members: Members)
    decreases members
  {
    EscapeFree(members.member.key) && PlainKeys(members.member.value) && (members.MoreMembers? ==> PlainMembers(members.rest))
  }

  lemma {:induction false} PlainMeansItself(s: string)
    requires ValidBody(s) && EscapeFree(s)
    ensures Seen(s) == s && Meaning(s) == Codes(s)
  {
    hide Units;
    if s != "" {
      PlainMeansItself(s[1..]);
      assert s == [s[0]] + s[1..];
    }
  }

  lemma PlainAlike(a: string, b: string)
    requires EscapeFree(a) && EscapeFree(b)
    ensures AlikeAsMeant(a, b)
  {
    hide Seen, Meaning, Codes, EscapeFree, ValidBody;
    if ValidBody(a) && ValidBody(b) {
      PlainMeansItself(a);
      PlainMeansItself(b);
      if Codes(a) == Codes(b) { CodesInjective(a, b); }
    }
  }

  lemma {:induction false} PlainPairs(v: Value, a: string, b: string)
    requires PlainKeys(v) && PairIn(a, b, v)
    ensures EscapeFree(a) && EscapeFree(b)
    decreases v
  {
    hide EscapeFree;
    match v
    case Arr(items) => PlainItemPairs(items, a, b);
    case Obj(members) => PlainMemberPairs(members, a, b);
  }

  lemma {:induction false} PlainItemPairs(items: Items, a: string, b: string)
    requires PlainItems(items) && PairInItems(a, b, items)
    ensures EscapeFree(a) && EscapeFree(b)
    decreases items
  {
    hide EscapeFree;
    if PairIn(a, b, items.value) { PlainPairs(items.value, a, b); } else { PlainItemPairs(items.rest, a, b); }
  }

  lemma {:induction false} PlainMemberPairs(members: Members, a: string, b: string)
    requires PlainMembers(members) && PairInMembers(a, b, members)
    ensures EscapeFree(a) && EscapeFree(b)
    decreases members
  {
    hide EscapeFree;
    if PairIn(a, b, members.member.value) {
      PlainPairs(members.member.value, a, b);
    } else if members.member.key == a && KeyOf(b, members.rest) {
      PlainKeyOf(members.rest, b);
    } else {
      PlainMemberPairs(members.rest, a, b);
    }
  }

  lemma {:induction false} PlainKeyOf(members: Members, key: string)
    requires PlainMembers(members) && KeyOf(key, members)
    ensures EscapeFree(key)
    decreases members
  {
    hide EscapeFree;
    if members.member.key != key { PlainKeyOf(members.rest, key); }
  }

  /** Keys free of escapes satisfy the condition: the report is then exact at every nesting the scan does not give up on. */
  lemma PlainScanIsExact(before: string, v: Value, after: string)
    requires ValidValue(v) && IsContainer(v) && AllWhitespace(before) && AllWhitespace(after) && PlainKeys(v)
    ensures FindDuplicateKey(Document(before, v, after)).Some? <==> Repeats(AsMeant, v) && !DeepFirst(v)
    ensures Shallow(v, 0) ==> (FindDuplicateKey(Document(before, v, after)).Some? <==> Repeats(AsMeant, v))
  {
    hide FindDuplicateKey, Judge, Repeats, Shallow, PlainKeys, AlikeAsMeant, DeepFirst;
    forall a, b | PairIn(a, b, v) ensures AlikeAsMeant(a, b) {
      PlainPairs(v, a, b);
      PlainAlike(a, b);
    }
    ScanIsExact(before, v, after);
    ScanReports(before, v, after);
  }

  function Field(key: string): Member {
    Member("", key, "", "", Literal("1"), "")
  }

  function TwoFields(a: string, b: string): Value {
    Obj(MoreMembers(Field(a), LastMember(Field(b))))
  }

  /** With escapes the scan errs both ways: it does not see that "a" and "\u0061" are the same key, and it takes "\n" for "n". */
  lemma EscapesAreApproximated()
    ensures var missed, invented := TwoFields("a", "\\u0061"), TwoFields("\\n", "n");
            && ValidValue(missed) && ValidValue(invented)
            && Repeats(AsMeant, missed) && FindDuplicateKey(Document("", missed, "")).None?
            && !Repeats(AsMeant, invented) && FindDuplicateKey(Document("", invented, "")).Some?
  {
    hide FindDuplicateKey, Seen, Meaning, ValidBody, Repeats, Shallow, Judge, DeepFirst;
    var missed, invented := TwoFields("a", "\\u0061"), TwoFields("\\n", "n");
    EscapedKeys();
    TwoFieldsRepeat("a", "\\u0061");
    TwoFieldsRepeat("\\n", "n");
    ScanReports("", missed, "");
    ScanReports("", invented, "");
  }

  lemma EscapedKeys()
    ensures ValidBody("a") && Seen("a") == "a" && Meaning("a") == [97]
    ensures ValidBody("n") && Seen("n") == "n" && Meaning("n") == [110]
    ensures ValidBody("\\n") && Seen("\\n") == "n" && Meaning("\\n") == [10]
    ensures ValidBody("\\u0061") && Seen("\\u0061") == "\\u0061" && Meaning("\\u0061") == [97]
  {
    assert "a"[1..] == "" && "n"[1..] == "" && "\\n"[2..] == "";
    var u := "\\u0061";
    assert u[6..] == "" && u[..6] == u;
    assert HexValue('0') == 0 && HexValue('6') == 6 && HexValue('1') == 1;
  }

  /** `n` objects one inside the other, each under the key "k". */
  function Nested(n: nat, core: Value): Value {
    if n == 0 then core else Obj(LastMember(Member("", "k", "", "", Nested(n - 1, core), "")))
  }

  lemma {:induction false} NestedTooDeep(n: nat, core: Value, stack: seq<string>)
    requires ValidValue(core) && core.Obj? && |stack| + n >= MAX_DEPTH
    ensures ValidValue(Nested(n, core)) && Judge(Nested(n, core), stack) == TooDeep
    ensures Repeats(AsMeant, core) ==> Repeats(AsMeant, Nested(n, core))
    decreases n
  {
    if n > 0 {
      assert ValidBody("k") by { assert "k"[1..] == ""; }
      if |stack| < MAX_DEPTH {
        NestedTooDeep(n - 1, core, stack + [Seen("k")]);
      } else {
        NestedTooDeep(n - 1, core, stack);
      }
    }
  }

  /** Below 100 keys the scan gives up, and a repeated key goes unreported. */
  lemma DeepDuplicateMissed()
    ensures var v := Nested(100, TwoFields("a", "a"));
            ValidValue(v) && Repeats(AsMeant, v) && FindDuplicateKey(Document("", v, "")).None?
  {
    hide FindDuplicateKey;
    var core := TwoFields("a", "a");
    EscapedKeys();
    assert Repeats(AsMeant, core);
    NestedTooDeep(MAX_DEPTH, core, []);
    assert IsContainer(Nested(MAX_DEPTH, core));
    ScanIsJudgement("", Nested(MAX_DEPTH, core), "");
  }
}
