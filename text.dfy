/** Python's string operations used by the scripts, restricted to ASCII letters and ASCII
    whitespace: split()/join, split('\n'), lower(), title(), `in`, count(), slicing, str(int). */
module Text {

  datatype Option<+T> = None | Some(value: T)

  /** str.isspace() on ASCII: space, \t \n \v \f \r and the separators 0x1C..0x1F. */
  predicate IsSpace(c: char)
  {
    c == ' ' || ('\t' <= c <= '\r') || ('\U{1C}' <= c <= '\U{1F}')
  }

  predicate IsUpper(c: char) { 'A' <= c <= 'Z' }
  predicate IsLower(c: char) { 'a' <= c <= 'z' }
  predicate IsLetter(c: char) { IsUpper(c) || IsLower(c) }

  function LowerChar(c: char): char { if IsUpper(c) then (c as int + 32) as char else c }
  function UpperChar(c: char): char { if IsLower(c) then (c as int - 32) as char else c }

  /** str.lower() */
  function Lower(s: string): (r: string)
    ensures |r| == |s|
    ensures forall i :: 0 <= i < |s| ==> r[i] == LowerChar(s[i])
  {
    if s == [] then [] else [LowerChar(s[0])] + Lower(s[1..])
  }

  /** str.title() on one character: a letter is lower-cased when the character before it is a
      letter, upper-cased otherwise; every other character is kept. */
  function TitleChar(c: char, afterLetter: bool): (d: char)
    ensures IsLetter(d) <==> IsLetter(c)
    ensures !IsLetter(c) ==> d == c
  {
    if !IsLetter(c) then c else if afterLetter then LowerChar(c) else UpperChar(c)
  }

  /** str.title() on a string whose preceding character is a letter exactly when afterLetter. */
  function TitleFrom(s: string, afterLetter: bool): (r: string)
    ensures |r| == |s|
    ensures forall i :: 0 <= i < |s| ==>
      r[i] == TitleChar(s[i], if i == 0 then afterLetter else IsLetter(s[i - 1]))
  {
    if s == [] then [] else [TitleChar(s[0], afterLetter)] + TitleFrom(s[1..], IsLetter(s[0]))
  }

  /** str.title() */
  function Title(s: string): (r: string)
    ensures |r| == |s|
    ensures forall i :: 0 <= i < |s| ==> r[i] == TitleChar(s[i], i > 0 && IsLetter(s[i - 1]))
  {
    TitleFrom(s, false)
  }

  /** Title-casing changes letters only, and into letters. */
  lemma TitleKeepsNonLetters(s: string)
    ensures forall i :: 0 <= i < |s| ==>
      (IsLetter(Title(s)[i]) <==> IsLetter(s[i])) && (!IsLetter(s[i]) ==> Title(s)[i] == s[i])
  {
    forall i | 0 <= i < |s|
      ensures (IsLetter(Title(s)[i]) <==> IsLetter(s[i])) && (!IsLetter(s[i]) ==> Title(s)[i] == s[i])
    {
      assert Title(s)[i] == TitleChar(s[i], i > 0 && IsLetter(s[i - 1]));
    }
  }

  /** str.replace(a, b) for single characters. */
  function ReplaceChar(s: string, a: char, b: char): (r: string)
    ensures |r| == |s|
    ensures forall i :: 0 <= i < |s| ==> r[i] == if s[i] == a then b else s[i]
  {
    if s == [] then [] else [if s[0] == a then b else s[0]] + ReplaceChar(s[1..], a, b)
  }

  /** str.replace(ch, ''): every other character is kept, as often as it occurs; the order
      is kept too (RemoveCharAppend). */
  function RemoveChar(s: string, a: char): (r: string)
    ensures a !in r
    ensures multiset(r) == multiset(s)[a := 0]
  {
    if s == [] then []
    else
      assert s == [s[0]] + s[1..];
      (if s[0] == a then [] else [s[0]]) + RemoveChar(s[1..], a)
  }

  /** Removing a character works piece by piece, so the kept characters stay in order. */
  lemma {:induction false} RemoveCharAppend(x: string, y: string, a: char)
    ensures RemoveChar(x + y, a) == RemoveChar(x, a) + RemoveChar(y, a)
  {
    if x != [] {
      assert (x + y)[1..] == x[1..] + y;
      RemoveCharAppend(x[1..], y, a);
    } else {
      assert x + y == y;
    }
  }

  /** `sub in s` */
  predicate Contains(s: string, sub: string)
    decreases |s|
  {
    (|sub| <= |s| && s[..|sub|] == sub) || (|s| > 0 && Contains(s[1..], sub))
  }

  lemma {:induction false} ContainsAt(s: string, sub: string, i: nat)
    requires i + |sub| <= |s| && s[i..i + |sub|] == sub
    ensures Contains(s, sub)
  {
    if i > 0 {
      assert s[1..][i - 1..i - 1 + |sub|] == s[i..i + |sub|];
      ContainsAt(s[1..], sub, i - 1);
    }
  }

  lemma {:induction false} ContainsWitness(s: string, sub: string) returns (i: nat)
    requires Contains(s, sub)
    ensures i + |sub| <= |s| && s[i..i + |sub|] == sub
  {
    if |sub| <= |s| && s[..|sub|] == sub {
      i := 0;
    } else {
      var j := ContainsWitness(s[1..], sub);
      assert s[1..][j..j + |sub|] == s[j + 1..j + 1 + |sub|];
      i := j + 1;
    }
  }

  /** A string contains every piece it is glued from. */
  lemma ContainsMiddle(a: string, b: string, c: string)
    ensures Contains(a + b + c, b)
  {
    assert (a + b + c)[|a|..|a| + |b|] == b;
    ContainsAt(a + b + c, b, |a|);
  }

  lemma ContainsPrefix(a: string, b: string)
    ensures Contains(a + b, a)
  {
    assert (a + b)[..|a|] == a;
  }

  lemma ContainsSuffix(a: string, b: string)
    ensures Contains(a + b, b)
  {
    assert (a + b)[|a|..|a| + |b|] == b;
    ContainsAt(a + b, b, |a|);
  }

  /** Containment is transitive. */
  lemma ContainsTrans(a: string, b: string, c: string)
    requires Contains(a, b) && Contains(b, c)
    ensures Contains(a, c)
  {
    var i := ContainsWitness(a, b);
    var j := ContainsWitness(b, c);
    forall k | 0 <= k < |c| ensures a[i + j + k] == c[k] {
      assert a[i..i + |b|][j + k] == b[j + k];
      assert b[j..j + |c|][k] == b[j + k];
    }
    assert a[i + j..i + j + |c|] == c;
    ContainsAt(a, c, i + j);
  }

  /** Text that occurs in a string also occurs once more is appended. */
  lemma ContainsExtend(a: string, b: string, x: string)
    requires Contains(a, x)
    ensures Contains(a + b, x)
  {
    ContainsPrefix(a, b);
    ContainsTrans(a + b, a, x);
  }

  /** A character occurs in s iff s contains the one-character string. */
  lemma ContainsChar(s: string, c: char)
    ensures Contains(s, [c]) <==> c in s
  {
    if c in s {
      var i :| 0 <= i < |s| && s[i] == c;
      assert s[i..i + 1] == [c];
      ContainsAt(s, [c], i);
    }
    if Contains(s, [c]) {
      var i := ContainsWitness(s, [c]);
      assert s[i] == c;
    }
  }

  /** Every character of a contained string occurs in the containing one. */
  lemma ContainsKeepsChars(s: string, sub: string, c: char)
    requires Contains(s, sub) && c in sub
    ensures c in s
  {
    var i := ContainsWitness(s, sub);
    var k :| 0 <= k < |sub| && sub[k] == c;
    assert s[i..i + |sub|][k] == c;
  }

  /** str.count(c) for a single character. */
  function CountChar(s: string, c: char): (n: nat)
    ensures n == multiset(s)[c]
    ensures n <= |s|
    ensures n == 0 <==> c !in s
  {
    if s == [] then 0
    else
      assert s == [s[0]] + s[1..];
      (if s[0] == c then 1 else 0) + CountChar(s[1..], c)
  }

  /** s[:n] for n >= 0 */
  function Take<T>(s: seq<T>, n: nat): (r: seq<T>)
    ensures |r| == if n <= |s| then n else |s|
    ensures r <= s
  {
    if n <= |s| then s[..n] else s
  }

  /** s[:k] for any integer k, negative k counting from the end. */
  function SliceTo<T>(s: seq<T>, k: int): (r: seq<T>)
    ensures r <= s
    ensures |r| == if k >= 0 then (if k <= |s| then k else |s|)
                   else (if |s| + k >= 0 then |s| + k else 0)
  {
    if k >= 0 then Take(s, k)
    else if |s| + k >= 0 then s[..|s| + k]
    else []
  }

  /** sep.join(parts) */
  function JoinWith(parts: seq<string>, sep: string): string
  {
    if parts == [] then []
    else if |parts| == 1 then parts[0]
    else parts[0] + sep + JoinWith(parts[1..], sep)
  }

  lemma JoinWithCons(p: string, ps: seq<string>, sep: string)
    ensures JoinWith([p] + ps, sep) == if ps == [] then p else p + sep + JoinWith(ps, sep)
  {
    assert ([p] + ps)[1..] == ps;
  }

  /** Every part occurs in the joined string. */
  lemma {:induction false} JoinWithContains(parts: seq<string>, sep: string, k: nat)
    requires k < |parts|
    ensures Contains(JoinWith(parts, sep), parts[k])
  {
    if |parts| == 1 {
      ContainsMiddle([], parts[0], []);
      assert [] + parts[0] + [] == parts[0];
    } else if k == 0 {
      ContainsMiddle([], parts[0], sep + JoinWith(parts[1..], sep));
      assert [] + parts[0] + (sep + JoinWith(parts[1..], sep)) == JoinWith(parts, sep);
    } else {
      JoinWithContains(parts[1..], sep, k - 1);
      var rest := JoinWith(parts[1..], sep);
      ContainsMiddle(parts[0] + sep, rest, []);
      assert parts[0] + sep + rest + [] == JoinWith(parts, sep);
      ContainsTrans(JoinWith(parts, sep), rest, parts[k]);
    }
  }

  /** s.split(c): the pieces between occurrences of c; always at least one piece. */
  function SplitOn(s: string, c: char): (r: seq<string>)
    ensures |r| >= 1
    ensures forall k :: 0 <= k < |r| ==> c !in r[k]
  {
    if s == [] then [[]]
    else if s[0] == c then [[]] + SplitOn(s[1..], c)
    else
      var rest := SplitOn(s[1..], c);
      [[s[0]] + rest[0]] + rest[1..]
  }

  /** The first piece of a split is the longest prefix free of the separator. */
  lemma {:induction false} SplitFirst(s: string, c: char)
    ensures SplitOn(s, c)[0] <= s
    ensures |SplitOn(s, c)[0]| < |s| ==> s[|SplitOn(s, c)[0]|] == c
  {
    if s != [] && s[0] != c {
      SplitFirst(s[1..], c);
    }
  }

  /** Joining the pieces of a split with the separator gives back the string. */
  lemma {:induction false} JoinSplit(s: string, c: char)
    ensures JoinWith(SplitOn(s, c), [c]) == s
  {
    if s == [] {
    } else if s[0] == c {
      JoinSplit(s[1..], c);
      JoinWithCons([], SplitOn(s[1..], c), [c]);
    } else {
      JoinSplit(s[1..], c);
      var rest := SplitOn(s[1..], c);
      JoinWithCons(rest[0], rest[1..], [c]);
      assert [rest[0]] + rest[1..] == rest;
      JoinWithCons([s[0]] + rest[0], rest[1..], [c]);
    }
  }

  /** Splitting a join of separator-free pieces gives back the pieces. */
  lemma {:induction false} SplitJoin(parts: seq<string>, c: char)
    requires |parts| >= 1
    requires forall k :: 0 <= k < |parts| ==> c !in parts[k]
    ensures SplitOn(JoinWith(parts, [c]), c) == parts
  {
    if |parts| == 1 {
      SplitOfFree(parts[0], c);
    } else {
      SplitJoin(parts[1..], c);
      SplitAfterPiece(parts[0], JoinWith(parts[1..], [c]), c);
      assert [parts[0]] + parts[1..] == parts;
    }
  }

  lemma {:induction false} SplitAfterPiece(p: string, rest: string, c: char)
    requires c !in p
    ensures SplitOn(p + [c] + rest, c) == [p] + SplitOn(rest, c)
  {
    if p == [] {
      assert p + [c] + rest == [c] + rest;
      assert ([c] + rest)[1..] == rest;
    } else {
      SplitAfterPiece(p[1..], rest, c);
      assert (p + [c] + rest)[1..] == p[1..] + [c] + rest;
      assert [p[0]] + p[1..] == p;
    }
  }

  lemma {:induction false} SplitOfFree(s: string, c: char)
    requires c !in s
    ensures SplitOn(s, c) == [s]
  {
    if s != [] {
      SplitOfFree(s[1..], c);
      assert [s[0]] + s[1..] == s;
    }
  }

  /** Number of leading non-whitespace characters. */
  function RunLength(s: string): (n: nat)
    ensures n <= |s|
    ensures |s| > 0 && !IsSpace(s[0]) ==> n >= 1
    ensures forall i :: 0 <= i < n ==> !IsSpace(s[i])
    ensures n < |s| ==> IsSpace(s[n])
  {
    if s == [] || IsSpace(s[0]) then 0 else 1 + RunLength(s[1..])
  }

  /** str.split() with no argument: the maximal runs of non-whitespace, in order. */
  function Words(s: string): seq<string>
    decreases |s|
  {
    if s == [] then []
    else if IsSpace(s[0]) then Words(s[1..])
    else
      var n := RunLength(s);
      [s[..n]] + Words(s[n..])
  }

  predicate IsWord(w: string)
  {
    |w| > 0 && forall i :: 0 <= i < |w| ==> !IsSpace(w[i])
  }

  lemma {:induction false} WordsAreWords(s: string)
    ensures forall k :: 0 <= k < |Words(s)| ==> IsWord(Words(s)[k])
    decreases |s|
  {
    if s == [] {
    } else if IsSpace(s[0]) {
      WordsAreWords(s[1..]);
    } else {
      var n := RunLength(s);
      WordsAreWords(s[n..]);
    }
  }

  /** ' '.join(s.split()), computed character by character: whitespace before the first
      and after the last word is dropped, and each run of whitespace between words
      becomes one ' '. */
  function Squeeze(s: string): string
    decreases |s|
  {
    if s == [] then []
    else if IsSpace(s[0]) then Squeeze(s[1..])
    else if |s| > 1 && IsSpace(s[1]) then
      var t := Squeeze(s[2..]);
      if t == [] then [s[0]] else [s[0], ' '] + t
    else [s[0]] + Squeeze(s[1..])
  }

  function SpaceThen(t: string): string { if t == [] then [] else " " + t }

  /** A word of one character, then whitespace or the end. */
  lemma WordsSingle(s: string)
    requires |s| > 0 && !IsSpace(s[0]) && (|s| == 1 || IsSpace(s[1]))
    ensures Words(s) == [[s[0]]] + Words(s[1..])
  {
    assert RunLength(s) == 1;
    assert s[..1] == [s[0]];
  }

  lemma WordsAtRun(s: string)
    requires |s| > 0 && !IsSpace(s[0])
    ensures Words(s) == [s[..RunLength(s)]] + Words(s[RunLength(s)..])
  {
  }

  lemma SliceAfterHead<T>(s: seq<T>, m: nat)
    requires m < |s|
    ensures s[..m + 1] == [s[0]] + s[1..][..m]
    ensures s[1..][m..] == s[m + 1..]
  {
  }

  /** Two non-space characters first: the first word of the rest grows by one character. */
  lemma WordsCons(s: string)
    requires |s| > 1 && !IsSpace(s[0]) && !IsSpace(s[1])
    ensures |Words(s[1..])| > 0
    ensures Words(s) == [[s[0]] + Words(s[1..])[0]] + Words(s[1..])[1..]
  {
    var t := s[1..];
    var m := RunLength(t);
    assert RunLength(s) == m + 1;
    WordsAtRun(t);
    WordsAtRun(s);
    SliceAfterHead(s, m);
    var ws := Words(t);
    assert ws[0] == t[..m];
    assert ws[1..] == Words(t[m..]);
  }

  lemma SqueezeCons(s: string)
    requires |s| > 1 && !IsSpace(s[0]) && !IsSpace(s[1])
    ensures Squeeze(s) == [s[0]] + Squeeze(s[1..])
  {
  }

  /** Putting a character in front of the first part puts it in front of the joined string. */
  lemma JoinWithPrepend(c: char, ws: seq<string>, sep: string)
    requires |ws| > 0
    ensures JoinWith([[c] + ws[0]] + ws[1..], sep) == [c] + JoinWith(ws, sep)
  {
    var first, more := ws[0], ws[1..];
    assert [first] + more == ws;
    JoinWithCons(first, more, sep);
    JoinWithCons([c] + first, more, sep);
    if more != [] {
      var rest := JoinWith(more, sep);
      assert [c] + first + sep + rest == [c] + (first + sep + rest);
    }
  }

  lemma SqueezeSingle(s: string)
    requires |s| > 1 && !IsSpace(s[0]) && IsSpace(s[1])
    ensures Squeeze(s) == [s[0]] + SpaceThen(Squeeze(s[2..]))
  {
  }

  lemma WordsSingleSpace(s: string)
    requires |s| > 1 && !IsSpace(s[0]) && IsSpace(s[1])
    ensures Words(s) == [[s[0]]] + Words(s[2..])
  {
    WordsSingle(s);
    assert s[1..][1..] == s[2..];
  }

  /** A one-character part in front: joined with ' ', it is followed by ' ' exactly when the
      rest joins to something. */
  lemma JoinWithSingle(c: char, ws: seq<string>)
    requires ws == [] <==> JoinWith(ws, " ") == []
    ensures JoinWith([[c]] + ws, " ") == [c] + SpaceThen(JoinWith(ws, " "))
  {
    JoinWithCons([c], ws, " ");
    if ws != [] {
      var rest := JoinWith(ws, " ");
      assert [c] + " " + rest == [c] + (" " + rest);
    }
  }

  lemma JoinedAfterSingle(s: string)
    requires |s| > 1 && !IsSpace(s[0]) && IsSpace(s[1])
    requires Squeeze(s[2..]) == JoinWith(Words(s[2..]), " ")
    ensures Squeeze(s) == JoinWith(Words(s), " ")
  {
    SqueezeSingle(s);
    WordsSingleSpace(s);
    WordsAreWords(s[2..]);
    JoinOfWordsEmpty(Words(s[2..]));
    JoinWithSingle(s[0], Words(s[2..]));
  }

  lemma JoinedAfterCons(s: string)
    requires |s| > 1 && !IsSpace(s[0]) && !IsSpace(s[1])
    requires Squeeze(s[1..]) == JoinWith(Words(s[1..]), " ")
    ensures Squeeze(s) == JoinWith(Words(s), " ")
  {
    SqueezeCons(s);
    WordsCons(s);
    JoinWithPrepend(s[0], Words(s[1..]), " ");
  }

  /** The character-level Squeeze is exactly ' '.join(s.split()). */
  lemma {:induction false} SqueezeIsJoinedWords(s: string)
    ensures Squeeze(s) == JoinWith(Words(s), " ")
    decreases |s|
  {
    if s == [] {
    } else if IsSpace(s[0]) {
      SqueezeIsJoinedWords(s[1..]);
    } else if |s| == 1 {
      WordsSingle(s);
    } else if IsSpace(s[1]) {
      SqueezeIsJoinedWords(s[2..]);
      JoinedAfterSingle(s);
    } else {
      SqueezeIsJoinedWords(s[1..]);
      JoinedAfterCons(s);
    }
  }

  lemma {:induction false} JoinOfWordsEmpty(ws: seq<string>)
    requires forall k :: 0 <= k < |ws| ==> IsWord(ws[k])
    ensures JoinWith(ws, " ") == [] <==> ws == []
  {
    if |ws| > 1 {
      assert |JoinWith(ws, " ")| >= |ws[0]|;
    }
  }

  /** The shape promised by ' '.join(s.split()): only ' ' as whitespace, never at either
      end, never two in a row. */
  predicate Squeezed(t: string)
  {
    && (forall i :: 0 <= i < |t| && IsSpace(t[i]) ==> t[i] == ' ')
    && (|t| > 0 ==> t[0] != ' ' && t[|t| - 1] != ' ')
    && (forall i :: 0 <= i < |t| - 1 ==> !(t[i] == ' ' && t[i + 1] == ' '))
  }

  lemma SqueezedCons(c: char, t: string)
    requires Squeezed(t) && !IsSpace(c)
    ensures Squeezed([c] + t)
  {
    var r := [c] + t;
    assert forall i :: 1 <= i < |r| ==> r[i] == t[i - 1];
  }

  lemma SqueezedSpaceCons(c: char, t: string)
    requires Squeezed(t) && t != [] && !IsSpace(c)
    ensures Squeezed([c, ' '] + t)
  {
    var r := [c, ' '] + t;
    assert forall i :: 2 <= i < |r| ==> r[i] == t[i - 2];
  }

  lemma {:induction false} SqueezeShape(s: string)
    ensures Squeezed(Squeeze(s))
    decreases |s|
  {
    if s == [] {
    } else if IsSpace(s[0]) {
      SqueezeShape(s[1..]);
    } else if |s| > 1 && IsSpace(s[1]) {
      SqueezeShape(s[2..]);
      var t := Squeeze(s[2..]);
      if t != [] {
        SqueezedSpaceCons(s[0], t);
      }
    } else {
      SqueezeShape(s[1..]);
      SqueezedCons(s[0], Squeeze(s[1..]));
    }
  }

  /** Squeezing adds no character but ' '. */
  lemma {:induction false} SqueezeChars(s: string)
    ensures forall c :: c in Squeeze(s) ==> c in s || c == ' '
    decreases |s|
  {
    if s == [] {
    } else if IsSpace(s[0]) {
      SqueezeChars(s[1..]);
    } else if |s| > 1 && IsSpace(s[1]) {
      SqueezeChars(s[2..]);
    } else {
      SqueezeChars(s[1..]);
    }
  }

  /** A cut of a squeezed string keeps its shape except that it may end in one ' '. */
  predicate SqueezedPrefix(t: string)
  {
    && (forall i :: 0 <= i < |t| && IsSpace(t[i]) ==> t[i] == ' ')
    && (|t| > 0 ==> t[0] != ' ')
    && (forall i :: 0 <= i < |t| - 1 ==> !(t[i] == ' ' && t[i + 1] == ' '))
  }

  function DigitChar(d: nat): (c: char)
    requires d < 10
    ensures '0' <= c <= '9' && c as int - '0' as int == d
  {
    ('0' as int + d) as char
  }

  predicate IsDigits(s: string)
  {
    forall i :: 0 <= i < |s| ==> '0' <= s[i] <= '9'
  }

  /** The number a string of decimal digits denotes. */
  function DigitsValue(s: string): nat
    requires IsDigits(s)
  {
    if s == [] then 0 else 10 * DigitsValue(s[..|s| - 1]) + (s[|s| - 1] as int - '0' as int)
  }

  /** str(n) for a natural number: decimal digits that read back as n, with no leading zero. */
  function NatToString(n: nat): (r: string)
    ensures |r| >= 1 && IsDigits(r)
    ensures DigitsValue(r) == n
    ensures |r| > 1 ==> r[0] != '0'
  {
    if n < 10 then [DigitChar(n)]
    else
      var r := NatToString(n / 10) + [DigitChar(n % 10)];
      assert r[..|r| - 1] == NatToString(n / 10);
      r
  }
}
