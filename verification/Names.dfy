/** Function.stripped_name: removing paired brackets from the inside out is removing every matched region at once. */
module Names {

  /** A pair of brackets. */
  datatype Pair = Pair(open: char, close: char)

  predicate IsBracket(b: Pair, c: char) {
    c == b.open || c == b.close
  }

  /** The length of the part before the first bracket. */
  function Plain(b: Pair, s: string): (n: nat)
    ensures n <= |s|
    ensures forall i :: 0 <= i < n ==> !IsBracket(b, s[i])
    ensures n < |s| ==> IsBracket(b, s[n])
  {
    if s == [] || IsBracket(b, s[0]) then 0 else 1 + Plain(b, s[1..])
  }

  /** s starts with an opening bracket whose next bracket closes it. */
  predicate StartsPair(b: Pair, s: string) {
    s != [] && s[0] == b.open && 1 + Plain(b, s[1..]) < |s| && s[1 + Plain(b, s[1..])] == b.close
  }

  /** What is left after the innermost pair s starts with. */
  function Rest(b: Pair, s: string): string
    requires StartsPair(b, s)
  {
    s[2 + Plain(b, s[1..])..]
  }

  /** subn: one pass over s from the left, removing the innermost pairs and counting them. */
  function SubPairs(b: Pair, s: string): (r: (string, nat))
    ensures |r.0| + 2 * r.1 <= |s|
  {
    if s == [] then ([], 0)
    else if StartsPair(b, s) then
      var (t, n) := SubPairs(b, Rest(b, s));
      (t, n + 1)
    else
      var (t, n) := SubPairs(b, s[1..]);
      ([s[0]] + t, n)
  }

  /** A matcher that reads once: what it has kept so far, and where the unmatched opening brackets stand in it. */
  datatype Matcher = Matcher(kept: string, marks: seq<nat>) {
    ghost predicate Valid() {
      forall i :: 0 <= i < |marks| ==> marks[i] < |kept|
    }
  }

  /** A closing bracket takes away everything from the last unmatched opening bracket on. */
  function Step(b: Pair, m: Matcher, c: char): (r: Matcher)
    requires m.Valid()
  {
    if c == b.open then Matcher(m.kept + [c], m.marks + [|m.kept|])
    else if c == b.close && m.marks != [] then
      Matcher(m.kept[..m.marks[|m.marks| - 1]], m.marks[..|m.marks| - 1])
    else Matcher(m.kept + [c], m.marks)
  }

  /** The unmatched brackets stand in the order they were read. */
  ghost predicate Ascending(m: Matcher) {
    m.Valid() && forall i, j :: 0 <= i < j < |m.marks| ==> m.marks[i] < m.marks[j]
  }

  lemma StepAscending(b: Pair, m: Matcher, c: char)
    requires Ascending(m)
    ensures Ascending(Step(b, m, c))
  {
  }

  ghost function Feed(b: Pair, m: Matcher, s: string): (r: Matcher)
    requires Ascending(m)
    ensures Ascending(r)
    decreases |s|
  {
    if s == [] then m
    else
      StepAscending(b, m, s[0]);
      Feed(b, Step(b, m, s[0]), s[1..])
  }

  /** s without its matched regions, read once. */
  ghost function Strip(b: Pair, s: string): string {
    Feed(b, Matcher([], []), s).kept
  }

  lemma {:induction false} FeedPlus(b: Pair, m: Matcher, s: string, t: string)
    requires Ascending(m)
    ensures Feed(b, m, s + t) == Feed(b, Feed(b, m, s), t)
    decreases |s|
  {
    if s == [] {
      assert s + t == t;
    } else {
      StepAscending(b, m, s[0]);
      assert (s + t)[1..] == s[1..] + t;
      FeedPlus(b, Step(b, m, s[0]), s[1..], t);
    }
  }

  /** Without brackets everything is kept. */
  lemma {:induction false} FeedPlain(b: Pair, m: Matcher, w: string)
    requires Ascending(m) && forall i :: 0 <= i < |w| ==> !IsBracket(b, w[i])
    ensures Feed(b, m, w) == Matcher(m.kept + w, m.marks)
    decreases |w|
  {
    if w == [] {
      assert m.kept + w == m.kept;
    } else {
      StepAscending(b, m, w[0]);
      FeedPlain(b, Step(b, m, w[0]), w[1..]);
      assert m.kept + [w[0]] + w[1..] == m.kept + w;
    }
  }

  lemma FeedFirst(b: Pair, m: Matcher, c: char, s: string)
    requires Ascending(m)
    ensures Ascending(Step(b, m, c)) && Feed(b, m, [c] + s) == Feed(b, Step(b, m, c), s)
  {
    StepAscending(b, m, c);
    assert ([c] + s)[1..] == s;
  }

  /** An innermost pair leaves the matcher as it was. */
  lemma PairVanishes(b: Pair, m: Matcher, w: string)
    requires Ascending(m) && b.open != b.close && forall i :: 0 <= i < |w| ==> !IsBracket(b, w[i])
    ensures Feed(b, m, [b.open] + w + [b.close]) == m
  {
    hide Feed, IsBracket;
    assert [b.open] + w + [b.close] == [b.open] + (w + [b.close]);
    FeedFirst(b, m, b.open, w + [b.close]);
    var m1 := Step(b, m, b.open);
    FeedPlus(b, m1, w, [b.close]);
    FeedPlain(b, m1, w);
    FeedLast(b, Feed(b, m1, w), b.close);
    var m2 := Matcher(m1.kept + w, m1.marks);
    assert m2.kept[..|m.kept|] == m.kept && m2.marks[..|m.marks|] == m.marks;
  }

  lemma FeedLast(b: Pair, m: Matcher, c: char)
    requires Ascending(m)
    ensures Feed(b, m, [c]) == Step(b, m, c)
  {
    FeedFirst(b, m, c, []);
    assert [c] + [] == [c];
  }

  /** One pass of removals does not change what the matcher makes of the name. */
  lemma {:induction false} SubFeeds(b: Pair, m: Matcher, s: string)
    requires Ascending(m) && b.open != b.close
    ensures Feed(b, m, SubPairs(b, s).0) == Feed(b, m, s)
    decreases |s|
  {
    if s == [] {
    } else if StartsPair(b, s) {
      var n := Plain(b, s[1..]);
      var w := s[1..][..n];
      assert s == ([b.open] + w + [b.close]) + Rest(b, s);
      FeedPlus(b, m, [b.open] + w + [b.close], Rest(b, s));
      PairVanishes(b, m, w);
      SubFeeds(b, m, Rest(b, s));
    } else {
      var t := SubPairs(b, s[1..]).0;
      StepAscending(b, m, s[0]);
      SubFeeds(b, Step(b, m, s[0]), s[1..]);
      assert ([s[0]] + t)[1..] == t;
    }
  }

  /** No opening bracket stands before a closing one. */
  ghost predicate Ordered(b: Pair, s: string) {
    s == [] || ((s[0] == b.open ==> b.close !in s[1..]) && Ordered(b, s[1..]))
  }

  lemma {:induction false} OrderedMeans(b: Pair, s: string, i: nat, j: nat)
    requires Ordered(b, s) && i < j < |s|
    ensures !(s[i] == b.open && s[j] == b.close)
  {
    if i == 0 {
      assert s[j] == s[1..][j - 1];
    } else {
      OrderedMeans(b, s[1..], i - 1, j - 1);
    }
  }

  /** A name is ordered when a pass finds nothing to remove, and then the pass leaves it alone. */
  lemma {:induction false} NothingLeft(b: Pair, s: string)
    requires b.open != b.close && SubPairs(b, s).1 == 0
    ensures SubPairs(b, s).0 == s && Ordered(b, s)
  {
    if s != [] {
      NothingLeft(b, s[1..]);
      if s[0] == b.open && b.close in s[1..] {
        var n := Plain(b, s[1..]);
        var j :| 0 <= j < |s[1..]| && s[1..][j] == b.close;
        assert n <= j;
        assert s[1..][n] == s[1 + n];
        OrderedMeans(b, s[1..], n, j);
      }
    }
  }

  /** The matcher keeps all of an ordered name. */
  lemma {:induction false} FeedOrdered(b: Pair, m: Matcher, s: string)
    requires Ascending(m) && Ordered(b, s) && b.open != b.close && (m.marks == [] || b.close !in s)
    ensures Feed(b, m, s).kept == m.kept + s
    decreases |s|
  {
    if s == [] {
      assert m.kept + s == m.kept;
    } else {
      StepAscending(b, m, s[0]);
      FeedOrdered(b, Step(b, m, s[0]), s[1..]);
      assert m.kept + [s[0]] + s[1..] == m.kept + s;
    }
  }

  lemma {:induction false} SubChars(b: Pair, s: string, c: char)
    ensures c in SubPairs(b, s).0 ==> c in s
  {
    if s != [] {
      if StartsPair(b, s) {
        SubChars(b, Rest(b, s), c);
      } else {
        SubChars(b, s[1..], c);
      }
    }
  }

  /** The end of an ordered name is ordered. */
  lemma {:induction false} OrderedEnd(b: Pair, s: string, i: nat)
    requires Ordered(b, s) && i <= |s|
    ensures Ordered(b, s[i..])
  {
    if i > 0 {
      OrderedEnd(b, s[1..], i - 1);
      assert s[1..][i - 1..] == s[i..];
    }
  }

  /** Removing pairs of one kind keeps the other kind ordered. */
  lemma {:induction false} SubKeepsOrder(b: Pair, other: Pair, s: string)
    requires Ordered(other, s)
    ensures Ordered(other, SubPairs(b, s).0)
    decreases |s|
  {
    if s != [] {
      if StartsPair(b, s) {
        OrderedEnd(other, s, |s| - |Rest(b, s)|);
        SubKeepsOrder(b, other, Rest(b, s));
      } else {
        SubKeepsOrder(b, other, s[1..]);
        SubChars(b, s[1..], other.close);
        assert ([s[0]] + SubPairs(b, s[1..]).0)[1..] == SubPairs(b, s[1..]).0;
      }
    }
  }

  /** Passes until one removes nothing: that ends, and gives what the matcher gives. */
  method StripPairs(b: Pair, name: string, ghost other: Pair) returns (r: string)
    requires b.open != b.close
    ensures r == Strip(b, name) && Ordered(b, r)
    ensures Ordered(other, name) ==> Ordered(other, r)
  {
    r := name;
    while true
      invariant Feed(b, Matcher([], []), r) == Feed(b, Matcher([], []), name)
      invariant Ordered(other, name) ==> Ordered(other, r)
      decreases |r|
    {
      var (next, n) := SubPairs(b, r);
      SubFeeds(b, Matcher([], []), r);
      if Ordered(other, r) {
        SubKeepsOrder(b, other, r);
      }
      if n == 0 {
        NothingLeft(b, r);
        FeedOrdered(b, Matcher([], []), r);
        break;
      }
      r := next;
    }
  }

  /** What the \s of a regular expression matches. */
  predicate IsSpace(c: char) {
    var n := c as int;
    9 <= n <= 13 || 28 <= n <= 32 || n == 0x85 || n == 0xA0 || n == 0x1680 || 0x2000 <= n <= 0x200A ||
    n == 0x2028 || n == 0x2029 || n == 0x202F || n == 0x205F || n == 0x3000
  }

  /** These characters and no others, by their codes. */
  lemma SpacesAre(c: char)
    ensures IsSpace(c) <==>
      (c as int in {0x09, 0x0A, 0x0B, 0x0C, 0x0D, 0x1C, 0x1D, 0x1E, 0x1F, 0x20, 0x85, 0xA0, 0x1680,
                    0x2000, 0x2001, 0x2002, 0x2003, 0x2004, 0x2005, 0x2006, 0x2007, 0x2008, 0x2009, 0x200A,
                    0x2028, 0x2029, 0x202F, 0x205F, 0x3000})
  {
  }

  /** The length of s without the white space at its end. */
  function Trimmed(s: string): (n: nat)
    ensures n <= |s|
    ensures forall i :: n <= i < |s| ==> IsSpace(s[i])
    ensures n > 0 ==> !IsSpace(s[n - 1])
  {
    if s == [] || !IsSpace(s[|s| - 1]) then |s| else Trimmed(s[..|s| - 1])
  }

  /** Where the name ends for the `$` of a regular expression: before a last newline, if there is one. */
  function EndOfName(s: string): nat {
    if s != [] && s[|s| - 1] == '\n' then |s| - 1 else |s|
  }

  /** A trailing const goes, with the white space before it; there must be some. */
  function DropConst(s: string): string {
    var e := EndOfName(s);
    if 5 <= e && s[e - 5..e] == "const" && Trimmed(s[..e - 5]) < e - 5 then s[..Trimmed(s[..e - 5])] + s[e..] else s
  }

  lemma {:induction false} OrderedStart(b: Pair, s: string, i: nat)
    requires Ordered(b, s) && i <= |s|
    ensures Ordered(b, s[..i])
  {
    if i > 0 {
      OrderedStart(b, s[1..], i - 1);
      assert s[1..][..i - 1] == s[..i][1..];
      assert forall c :: c in s[..i][1..] ==> c in s[1..];
    }
  }

  lemma {:induction false} OrderedNewline(b: Pair, s: string)
    requires Ordered(b, s) && b.close != '\n'
    ensures Ordered(b, s + ['\n'])
  {
    if s == [] {
      assert (s + ['\n'])[1..] == [];
    } else {
      OrderedNewline(b, s[1..]);
      assert (s + ['\n'])[1..] == s[1..] + ['\n'];
    }
  }

  const PARENTHESES := Pair('(', ')')
  const ANGLES := Pair('<', '>')

  lemma DropKeepsOrder(s: string)
    requires Ordered(PARENTHESES, s)
    ensures Ordered(PARENTHESES, DropConst(s))
  {
    var e := EndOfName(s);
    if 5 <= e && s[e - 5..e] == "const" && Trimmed(s[..e - 5]) < e - 5 {
      var n := Trimmed(s[..e - 5]);
      OrderedStart(PARENTHESES, s, n);
      if e < |s| {
        assert s[e..] == ['\n'];
        OrderedNewline(PARENTHESES, s[..n]);
      } else {
        assert s[..n] + s[e..] == s[..n];
      }
    }
  }

  /** A name that ends in white space, const and perhaps a newline loses the first two. */
  lemma DropConstIs(s: string, a: string, w: string, t: string)
    requires s == a + w + "const" + t && (t == "" || t == "\n")
    requires w != [] && (forall i :: 0 <= i < |w| ==> IsSpace(w[i])) && (a == [] || !IsSpace(a[|a| - 1]))
    ensures DropConst(s) == a + t
  {
    var e := EndOfName(s);
    assert t == "" ==> s[|s| - 1] == 't';
    assert e == |s| - |t|;
    assert s[e - 5..e] == "const";
    var head := s[..e - 5];
    assert head == a + w;
    var n := Trimmed(head);
    assert |a| > 0 ==> head[|a| - 1] == a[|a| - 1];
    assert forall i :: |a| <= i < |head| ==> head[i] == w[i - |a|];
    assert s[..n] == a && s[e..] == t;
  }

  /** Any other name loses nothing. */
  lemma DropConstOnly(s: string) returns (a: string, w: string, t: string)
    requires DropConst(s) != s
    ensures s == a + w + "const" + t && (t == "" || t == "\n")
    ensures w != [] && (forall i :: 0 <= i < |w| ==> IsSpace(w[i])) && (a == [] || !IsSpace(a[|a| - 1]))
  {
    hide IsSpace, Trimmed, DropConst, EndOfName;
    ConstIsThere(s);
    var e := EndOfName(s);
    var head := s[..e - 5];
    var n := Trimmed(head);
    a, w, t := head[..n], head[n..], s[e..];
    Pieces(s, n, e - 5, e);
    TrimmedParts(head);
  }

  lemma ConstIsThere(s: string)
    requires DropConst(s) != s
    ensures var e := EndOfName(s);
            5 <= e <= |s| && s[e - 5..e] == "const" && (s[e..] == "" || s[e..] == "\n") && Trimmed(s[..e - 5]) < e - 5
  {
    hide Trimmed;
  }

  lemma Pieces(s: string, i: nat, j: nat, k: nat)
    requires i <= j <= k <= |s|
    ensures s == s[..j][..i] + s[..j][i..] + s[j..k] + s[k..]
  {
  }

  lemma TrimmedParts(s: string)
    ensures forall i :: 0 <= i < |s[Trimmed(s)..]| ==> IsSpace(s[Trimmed(s)..][i])
    ensures s[..Trimmed(s)] == [] || !IsSpace(s[..Trimmed(s)][Trimmed(s) - 1])
  {
  }

  /** Parameters, a trailing const, then template arguments. */
  method StrippedName(name: string) returns (r: string)
    ensures r == Strip(Pair('<', '>'), DropConst(Strip(Pair('(', ')'), name)))
    ensures forall i, j :: 0 <= i < j < |r| ==> !(r[i] == '(' && r[j] == ')') && !(r[i] == '<' && r[j] == '>')
  {
    r := StripPairs(PARENTHESES, name, ANGLES);
    DropKeepsOrder(r);
    r := DropConst(r);
    r := StripPairs(ANGLES, r, PARENTHESES);
    forall i, j | 0 <= i < j < |r|
      ensures !(r[i] == '(' && r[j] == ')') && !(r[i] == '<' && r[j] == '>')
    {
      OrderedMeans(PARENTHESES, r, i, j);
      OrderedMeans(ANGLES, r, i, j);
    }
  }
}
