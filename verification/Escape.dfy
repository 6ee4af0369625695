/** DotWriter.escape: four replacements in a row are one substitution, and a reader gets the string back. */
module Escape {

  datatype Option<T> = None | Some(value: T)

  /** str.replace of one character. */
  function ReplaceChar(s: string, c: char, r: string): string {
    if s == [] then [] else (if s[0] == c then r else [s[0]]) + ReplaceChar(s[1..], c, r)
  }

  /** The replacements in the order they are made, then the quotes. */
  function Escape(s: string): string {
    var s1 := ReplaceChar(s, '\\', "\\\\");
    var s2 := ReplaceChar(s1, '\n', "\\n");
    var s3 := ReplaceChar(s2, '\t', "\\t");
    var s4 := ReplaceChar(s3, '"', "\\\"");
    "\"" + s4 + "\""
  }

  /** What stands for one character. */
  function EscapedChar(c: char): string {
    match c
    case '\\' => "\\\\"
    case '\n' => "\\n"
    case '\t' => "\\t"
    case '"' => "\\\""
    case _ => [c]
  }

  function Escaped(s: string): string {
    if s == [] then [] else EscapedChar(s[0]) + Escaped(s[1..])
  }

  lemma {:induction false} ReplacePlus(s: string, t: string, c: char, r: string)
    ensures ReplaceChar(s + t, c, r) == ReplaceChar(s, c, r) + ReplaceChar(t, c, r)
  {
    if s == [] {
      assert s + t == t;
    } else {
      assert (s + t)[1..] == s[1..] + t;
      ReplacePlus(s[1..], t, c, r);
    }
  }

  lemma ReplaceOne(x: char, c: char, r: string)
    ensures ReplaceChar([x], c, r) == if x == c then r else [x]
  {
    assert ReplaceChar([x], c, r) == (if x == c then r else [x]) + ReplaceChar([], c, r);
  }

  lemma ReplaceTwo(x: char, y: char, c: char, r: string)
    ensures ReplaceChar([x, y], c, r) == (if x == c then r else [x]) + (if y == c then r else [y])
  {
    assert [x, y] == [x] + [y];
    ReplacePlus([x], [y], c, r);
    ReplaceOne(x, c, r);
    ReplaceOne(y, c, r);
  }

  /** The four replacements on one character: a later one never touches what an earlier one put in. */
  lemma ChainOnChar(x: char)
    ensures
      var s1 := ReplaceChar([x], '\\', "\\\\");
      var s2 := ReplaceChar(s1, '\n', "\\n");
      var s3 := ReplaceChar(s2, '\t', "\\t");
      ReplaceChar(s3, '"', "\\\"") == EscapedChar(x)
  {
    ReplaceOne(x, '\\', "\\\\");
    ReplaceOne(x, '\n', "\\n");
    ReplaceOne(x, '\t', "\\t");
    ReplaceOne(x, '"', "\\\"");
    ReplaceTwo('\\', '\\', '\n', "\\n");
    ReplaceTwo('\\', '\\', '\t', "\\t");
    ReplaceTwo('\\', '\\', '"', "\\\"");
    ReplaceTwo('\\', 'n', '\t', "\\t");
    ReplaceTwo('\\', 'n', '"', "\\\"");
    ReplaceTwo('\\', 't', '"', "\\\"");
  }

  lemma {:induction false} Chain(s: string)
    ensures
      var s1 := ReplaceChar(s, '\\', "\\\\");
      var s2 := ReplaceChar(s1, '\n', "\\n");
      var s3 := ReplaceChar(s2, '\t', "\\t");
      ReplaceChar(s3, '"', "\\\"") == Escaped(s)
  {
    if s != [] {
      var x, t := [s[0]], s[1..];
      assert s == x + t;
      ReplacePlus(x, t, '\\', "\\\\");
      var x1, t1 := ReplaceChar(x, '\\', "\\\\"), ReplaceChar(t, '\\', "\\\\");
      ReplacePlus(x1, t1, '\n', "\\n");
      var x2, t2 := ReplaceChar(x1, '\n', "\\n"), ReplaceChar(t1, '\n', "\\n");
      ReplacePlus(x2, t2, '\t', "\\t");
      var x3, t3 := ReplaceChar(x2, '\t', "\\t"), ReplaceChar(t2, '\t', "\\t");
      ReplacePlus(x3, t3, '"', "\\\"");
      ChainOnChar(s[0]);
      Chain(t);
    }
  }

  /** The escaped string is one substitution, character by character, between quotes. */
  lemma EscapeIsSubstitution(s: string)
    ensures Escape(s) == "\"" + Escaped(s) + "\""
  {
    Chain(s);
  }

  /** Of a single character, the four special ones get a backslash and a letter or themselves, any other stays. */
  lemma EscapeOne(c: char)
    ensures c != '\\' && c != '\n' && c != '\t' && c != '"' ==> Escape([c]) == ['"', c, '"']
    ensures Escape("\\") == ['"', '\\', '\\', '"'] && Escape("\"") == ['"', '\\', '"', '"']
    ensures Escape("\n") == ['"', '\\', 'n', '"'] && Escape("\t") == ['"', '\\', 't', '"']
  {
    EscapeIsSubstitution([c]);
    EscapeIsSubstitution("\\");
    EscapeIsSubstitution("\"");
    EscapeIsSubstitution("\n");
    EscapeIsSubstitution("\t");
    assert Escaped([c]) == EscapedChar(c) + Escaped([]);
    assert Escaped("\\") == EscapedChar('\\') + Escaped([]);
    assert Escaped("\"") == EscapedChar('"') + Escaped([]);
    assert Escaped("\n") == EscapedChar('\n') + Escaped([]);
    assert Escaped("\t") == EscapedChar('\t') + Escaped([]);
  }

  /** Reads up to the closing quote, which must end the text; a raw newline, tab or other escape is refused. */
  function ReadBody(t: string): Option<string> {
    if t == [] then None
    else if t[0] == '"' then (if |t| == 1 then Some([]) else None)
    else if t[0] == '\n' || t[0] == '\t' then None
    else if t[0] != '\\' then Prepend(t[0], ReadBody(t[1..]))
    else if |t| == 1 then None
    else
      match t[1]
      case '\\' => Prepend('\\', ReadBody(t[2..]))
      case 'n' => Prepend('\n', ReadBody(t[2..]))
      case 't' => Prepend('\t', ReadBody(t[2..]))
      case '"' => Prepend('"', ReadBody(t[2..]))
      case _ => None
  }

  function Prepend(c: char, r: Option<string>): Option<string> {
    match r
    case None => None
    case Some(s) => Some([c] + s)
  }

  function Read(t: string): Option<string> {
    if t != [] && t[0] == '"' then ReadBody(t[1..]) else None
  }

  lemma {:induction false} ReadBodyBack(s: string)
    ensures ReadBody(Escaped(s) + "\"") == Some(s)
  {
    if s == [] {
      assert Escaped(s) + "\"" == "\"";
    } else {
      var e := EscapedChar(s[0]);
      var rest := Escaped(s[1..]) + "\"";
      assert Escaped(s) + "\"" == e + rest;
      assert (e + rest)[|e|..] == rest;
      ReadBodyBack(s[1..]);
      assert [s[0]] + s[1..] == s;
    }
  }

  lemma {:induction false} ReadBodyOnly(t: string)
    requires ReadBody(t).Some?
    ensures t == Escaped(ReadBody(t).value) + "\""
  {
    var s := ReadBody(t).value;
    if t[0] == '"' {
      assert t == Escaped(s) + "\"";
    } else {
      var n := if t[0] == '\\' then 2 else 1;
      ReadBodyOnly(t[n..]);
      assert s[1..] == ReadBody(t[n..]).value;
      assert t == EscapedChar(s[0]) + t[n..];
    }
  }

  /** Reading undoes escaping, and nothing else is read: a text reads as s exactly when it is s escaped. */
  lemma ReadExactly(s: string, t: string)
    ensures Read(t) == Some(s) <==> t == Escape(s)
  {
    EscapeIsSubstitution(s);
    ReadBodyBack(s);
    assert ("\"" + Escaped(s) + "\"")[1..] == Escaped(s) + "\"";
    if Read(t) == Some(s) {
      ReadBodyOnly(t[1..]);
      assert t == [t[0]] + t[1..];
    }
  }
}
