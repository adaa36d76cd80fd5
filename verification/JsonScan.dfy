/** The scan for repeated object keys that runs over JSON text before it is parsed. */
module JsonScan {
  import opened Domain

  const MAX_DEPTH := 100

  /** Where scanning a value ended: past it, given up, or at a repeated key with the keys that lead to its object. */
  datatype Scan = At(pos: nat) | GaveUp | Found(path: seq<string>, key: string)

  predicate IsWhitespace(c: char) {
    c == ' ' || c == '\t' || c == '\n' || c == '\r'
  }

  /** The class `\s`, wider than JSON whitespace. */
  predicate IsSpace(c: char) {
    IsWhitespace(c) || c as int in {0x0b, 0x0c, 0xa0, 0x1680, 0x2028, 0x2029, 0x202f, 0x205f, 0x3000, 0xfeff} || 0x2000 <= c as int <= 0x200a
  }

  predicate EndsLiteral(c: char) {
    c == ',' || c == ']' || c == '}' || IsSpace(c)
  }

  predicate CharAt(text: string, pos: nat, c: char) {
    pos < |text| && text[pos] == c
  }

  function SkipWs(text: string, pos: nat): (r: nat)
    ensures pos <= r && (pos <= |text| ==> r <= |text|)
    decreases |text| - pos
  {
    if pos < |text| && IsWhitespace(text[pos]) then SkipWs(text, pos + 1) else pos
  }

  function SkipLiteral(text: string, pos: nat): (r: nat)
    ensures pos <= r && (pos <= |text| ==> r <= |text|)
    decreases |text| - pos
  {
    if pos < |text| && !EndsLiteral(text[pos]) then SkipLiteral(text, pos + 1) else pos
  }

  /** A key as scanned, and the position after its closing quote. */
  datatype Read = Read(key: string, end: nat)

  function Slice(text: string, from: nat, to: nat): string {
    if from > |text| then "" else if to < from then "" else if to > |text| then text[from..] else text[from..to]
  }

  /** The body of a string: escapes are only approximated. A backslash keeps the character after it, and a `\u` escape is
      kept as the six characters it is written with. */
  function ReadBody(text: string, pos: nat, acc: string): (r: Option<Read>)
    ensures r.Some? ==> pos < r.value.end <= |text|
    decreases |text| - pos
  {
    if pos >= |text| then None
    else if text[pos] == '\\' then
      if CharAt(text, pos + 1, 'u') then ReadBody(text, pos + 6, acc + Slice(text, pos, pos + 6))
      else ReadBody(text, pos + 2, acc + Slice(text, pos + 1, pos + 2))
    else if text[pos] == '"' then Some(Read(acc, pos + 1))
    else ReadBody(text, pos + 1, acc + [text[pos]])
  }

  function ReadString(text: string, pos: nat): (r: Option<Read>)
    ensures r.Some? ==> pos < r.value.end <= |text|
  {
    if CharAt(text, pos, '"') then ReadBody(text, pos + 1, "") else None
  }

  function SkipValue(text: string, pos: nat, stack: seq<string>): (r: Scan)
    requires pos <= |text|
    ensures r.At? ==> pos <= r.pos <= |text|
    decreases |text| - pos, 2
  {
    if pos >= |text| then GaveUp
    else if text[pos] == '"' then
      var s := ReadString(text, pos);
      if s.None? then GaveUp else At(s.value.end)
    else if text[pos] == '{' then ParseObject(text, pos, stack)
    else if text[pos] == '[' then ParseArray(text, pos, stack)
    else At(SkipLiteral(text, pos))
  }

  function ParseObject(text: string, pos: nat, stack: seq<string>): (r: Scan)
    requires pos < |text| && text[pos] == '{'
    ensures r.At? ==> pos <= r.pos <= |text|
    decreases |text| - pos, 1
  {
    if |stack| >= MAX_DEPTH then GaveUp
    else
      var first := SkipWs(text, pos + 1);
      if CharAt(text, first, '}') then At(first + 1) else ParseMembers(text, first, stack, {})
  }

  function ParseMembers(text: string, pos: nat, stack: seq<string>, keys: set<string>): (r: Scan)
    requires pos <= |text|
    ensures r.At? ==> pos <= r.pos <= |text|
    decreases |text| - pos, 3
  {
    var key := ReadString(text, SkipWs(text, pos));
    if key.None? then GaveUp
    else
      var colon := SkipWs(text, key.value.end);
      if !CharAt(text, colon, ':') then GaveUp
      else if key.value.key in keys then Found(stack, key.value.key)
      else
        match SkipValue(text, SkipWs(text, colon + 1), stack + [key.value.key])
        case GaveUp => GaveUp
        case Found(path, k) => Found(path, k)
        case At(end) =>
          var next := SkipWs(text, end);
          if CharAt(text, next, ',') then ParseMembers(text, next + 1, stack, keys + {key.value.key})
          else if CharAt(text, next, '}') then At(next + 1)
          else GaveUp
  }

  function ParseArray(text: string, pos: nat, stack: seq<string>): (r: Scan)
    requires pos < |text| && text[pos] == '['
    ensures r.At? ==> pos <= r.pos <= |text|
    decreases |text| - pos, 1
  {
    if |stack| >= MAX_DEPTH then GaveUp
    else
      var first := SkipWs(text, pos + 1);
      if CharAt(text, first, ']') then At(first + 1) else ParseItems(text, first, stack)
  }

  function ParseItems(text: string, pos: nat, stack: seq<string>): (r: Scan)
    requires pos <= |text|
    ensures r.At? ==> pos <= r.pos <= |text|
    decreases |text| - pos, 3
  {
    match SkipValue(text, SkipWs(text, pos), stack)
    case GaveUp => GaveUp
    case Found(path, k) => Found(path, k)
    case At(end) =>
      var next := SkipWs(text, end);
      if CharAt(text, next, ',') then ParseItems(text, next + 1, stack)
      else if CharAt(text, next, ']') then At(next + 1)
      else GaveUp
  }

  /** `findDuplicateKey`. */
  function FindDuplicateKey(text: string): Option<Scan>
    ensures FindDuplicateKey(text).Some? ==> FindDuplicateKey(text).value.Found?
  {
    var root := SkipWs(text, 0);
    var r := if CharAt(text, root, '{') then ParseObject(text, root, [])
             else if CharAt(text, root, '[') then ParseArray(text, root, [])
             else GaveUp;
    if r.Found? then Some(r) else None
  }

  /** The scan over one shared position and key stack. */
  class Scanner {
    const text: string
    var position: nat
    var stack: seq<string>

    constructor (text: string)
      ensures this.text == text && position == 0 && stack == []
    {
      this.text := text;
      position, stack := 0, [];
    }

    method SkipWhitespace()
      modifies this`position
      ensures position == SkipWs(text, old(position))
    {
      while position < |text|
        invariant SkipWs(text, old(position)) == SkipWs(text, position)
        decreases |text| - position
      {
        if !IsWhitespace(text[position]) { break; }
        position := position + 1;
      }
    }

    method ReadKey() returns (r: Option<string>)
      modifies this`position
      ensures match ReadString(text, old(position))
              case Some(read) => r == Some(read.key) && position == read.end
              case None => r.None?
    {
      if !CharAt(text, position, '"') { return None; }
      position := position + 1;
      var result := "";
      while position < |text|
        invariant ReadString(text, old(position)) == ReadBody(text, position, result)
        decreases |text| - position
      {
        var c := text[position];
        if c == '\\' {
          if CharAt(text, position + 1, 'u') {
            result := result + Slice(text, position, position + 6);
            position := position + 6;
          } else {
            result := result + Slice(text, position + 1, position + 2);
            position := position + 2;
          }
          continue;
        }
        if c == '"' {
          position := position + 1;
          return Some(result);
        }
        result := result + [c];
        position := position + 1;
      }
      r := None;
    }

    method ScanValue() returns (r: Scan)
      requires position <= |text|
      modifies this
      ensures r == SkipValue(text, old(position), old(stack))
      ensures r.At? ==> position == r.pos && stack == old(stack)
      decreases |text| - position, 2
    {
      if position >= |text| { return GaveUp; }
      var c := text[position];
      if c == '"' {
        var key := ReadKey();
        return if key.None? then GaveUp else At(position);
      }
      if c == '{' {
        r := ScanObject();
        return;
      }
      if c == '[' {
        r := ScanArray();
        return;
      }
      while position < |text| && !EndsLiteral(text[position])
        invariant old(position) <= position <= |text| && stack == old(stack)
        invariant SkipLiteral(text, old(position)) == SkipLiteral(text, position)
        decreases |text| - position
      {
        position := position + 1;
      }
      r := At(position);
    }

    /** One key and its colon, up to the value. */
    method ScanKey() returns (key: Option<string>)
      modifies this`position
      ensures match ReadString(text, SkipWs(text, old(position)))
              case None => key.None?
              case Some(read) =>
                var colon := SkipWs(text, read.end);
                if CharAt(text, colon, ':')
                then key == Some(read.key) && position == SkipWs(text, colon + 1) && old(position) < position <= |text|
                else key.None?
    {
      SkipWhitespace();
      key := ReadKey();
      if key.None? { return; }
      SkipWhitespace();
      if !CharAt(text, position, ':') { return None; }
      position := position + 1;
      SkipWhitespace();
    }

    method ScanObject() returns (r: Scan)
      requires position < |text| && text[position] == '{'
      modifies this
      ensures r == ParseObject(text, old(position), old(stack))
      ensures r.At? ==> position == r.pos && stack == old(stack)
      decreases |text| - position, 1
    {
      hide ReadString, SkipWs, SkipValue, ParseArray, ParseItems, SkipLiteral, IsWhitespace;
      if |stack| >= MAX_DEPTH { return GaveUp; }
      position := position + 1;
      SkipWhitespace();
      if CharAt(text, position, '}') {
        position := position + 1;
        return At(position);
      }
      var keys: set<string> := {};
      ghost var first := position;
      while true
        invariant old(position) < position <= |text| && stack == old(stack)
        invariant ParseMembers(text, first, stack, {}) == ParseMembers(text, position, stack, keys)
        decreases |text| - position
      {
        var key := ScanKey();
        if key.None? { return GaveUp; }
        if key.value in keys { return Found(stack, key.value); }
        keys := keys + {key.value};
        stack := stack + [key.value];
        var value := ScanValue();
        if !value.At? { return value; }
        stack := stack[..|stack| - 1];
        SkipWhitespace();
        if CharAt(text, position, ',') {
          position := position + 1;
          continue;
        }
        if CharAt(text, position, '}') {
          position := position + 1;
          return At(position);
        }
        return GaveUp;
      }
    }

    method ScanArray() returns (r: Scan)
      requires position < |text| && text[position] == '['
      modifies this
      ensures r == ParseArray(text, old(position), old(stack))
      ensures r.At? ==> position == r.pos && stack == old(stack)
      decreases |text| - position, 1
    {
      if |stack| >= MAX_DEPTH { return GaveUp; }
      position := position + 1;
      SkipWhitespace();
      if CharAt(text, position, ']') {
        position := position + 1;
        return At(position);
      }
      ghost var first := position;
      while true
        invariant old(position) < position <= |text| && stack == old(stack)
        invariant ParseItems(text, first, stack) == ParseItems(text, position, stack)
        decreases |text| - position
      {
        SkipWhitespace();
        var value := ScanValue();
        if value.GaveUp? { return GaveUp; }
        if value.Found? { return value; }
        SkipWhitespace();
        if CharAt(text, position, ',') {
          position := position + 1;
          continue;
        }
        if CharAt(text, position, ']') {
          position := position + 1;
          return At(position);
        }
        return GaveUp;
      }
    }
  }

  method ScanText(text: string) returns (r: Option<Scan>)
    ensures r == FindDuplicateKey(text)
  {
    var scanner := new Scanner(text);
    scanner.SkipWhitespace();
    var scan := GaveUp;
    if CharAt(text, scanner.position, '{') {
      scan := scanner.ScanObject();
    } else if CharAt(text, scanner.position, '[') {
      scan := scanner.ScanArray();
    }
    r := if scan.Found? then Some(scan) else None;
  }
}
