/** The string operations the endpoints lean on: split, trim, indexOf, decimal. */
module Text {

  /** `s.indexOf(c)`, with `|s|` standing for "not found". */
  function Find(s: string, c: char): (i: nat)
    ensures i <= |s|
    ensures forall k | 0 <= k < i :: s[k] != c
    ensures i < |s| ==> s[i] == c
  {
    if s == "" || s[0] == c then 0 else 1 + Find(s[1..], c)
  }

  /** A cut of `a + [c] + b` at the first `c` falls right after `a`. */
  lemma FindAt(a: string, c: char, b: string)
    requires c !in a
    ensures Find(a + [c] + b, c) == |a|
  {
    var s := a + [c] + b;
    assert s[|a|] == c;
    assert forall k | 0 <= k < |a| :: s[k] == a[k] && a[k] in a;
  }

  /** Two strings joined around a separator that neither left part contains
      determine both parts. */
  lemma JoinInjective(a: string, b: string, a': string, b': string, c: char)
    requires c !in a && c !in a'
    requires a + [c] + b == a' + [c] + b'
    ensures a == a' && b == b'
  {
    var s := a + [c] + b;
    FindAt(a, c, b);
    FindAt(a', c, b');
    assert s[..|a|] == a && s[|a| + 1..] == b;
    assert s[..|a'|] == a' && s[|a'| + 1..] == b';
  }

  /** Nothing right of the last separator is one. */
  lemma NoneRightOf(a: string, b: string, c: char)
    requires c !in b
    ensures forall k | |a| < k < |a + [c] + b| :: (a + [c] + b)[k] != c
  {
    forall k | |a| < k < |a + [c] + b| ensures (a + [c] + b)[k] != c {
      assert (a + [c] + b)[k] == b[k - |a| - 1];
    }
  }

  /** The same when it is the right parts that avoid the separator. */
  lemma JoinInjectiveRight(a: string, b: string, a': string, b': string, c: char)
    requires c !in b && c !in b'
    requires a + [c] + b == a' + [c] + b'
    ensures a == a' && b == b'
  {
    var s := a + [c] + b;
    NoneRightOf(a, b, c);
    NoneRightOf(a', b', c);
    assert s[|a|] == c && s[|a'|] == c;
    assert |a| == |a'|;
    assert s[..|a|] == a && s[|a| + 1..] == b;
    assert s[..|a'|] == a' && s[|a'| + 1..] == b';
  }

  /** `s.split(c)`: never empty, `"".split(c)` is `[""]`. */
  function Split(s: string, c: char): (parts: seq<string>)
    ensures |parts| >= 1
    ensures forall p | p in parts :: c !in p
    decreases |s|
  {
    var i := Find(s, c);
    if i == |s| then [s] else [s[..i]] + Split(s[i + 1..], c)
  }

  lemma SplitJoin(a: string, c: char, b: string)
    requires c !in a
    ensures Split(a + [c] + b, c) == [a] + Split(b, c)
  {
    var s := a + [c] + b;
    FindAt(a, c, b);
    assert s[..|a|] == a && s[|a| + 1..] == b;
  }

  lemma SplitPlain(a: string, c: char)
    requires c !in a
    ensures Split(a, c) == [a]
  {
  }

  function NonEmpty(parts: seq<string>): seq<string> {
    if parts == [] then []
    else (if parts[0] == "" then [] else [parts[0]]) + NonEmpty(parts[1..])
  }

  /** `s.split(" ").filter(Boolean)` */
  function WordList(s: string): seq<string> { NonEmpty(Split(s, ' ')) }

  /** The same as the set that the scope checks consult. */
  function Words(s: string): set<string> { set w | w in WordList(s) }

  // ------------------------------------------------- what a text says, word by word

  /** `s[i..j]` lies between separators or the ends of the text, and has none itself. */
  ghost predicate Piece(s: string, i: int, j: int, c: char) {
    && 0 <= i <= j <= |s| && (i == 0 || s[i - 1] == c) && (j == |s| || s[j] == c)
    && forall k | i <= k < j :: s[k] != c
  }

  ghost predicate HasPiece(s: string, p: string, c: char) { exists i, j :: Piece(s, i, j, c) && s[i..j] == p }

  /** The first piece ends at the first separator; those after it are those of the rest. */
  lemma PieceAfter(s: string, i: int, j: int, n: int, c: char)
    requires 0 < n <= i <= j <= |s| && s[n - 1] == c
    ensures Piece(s, i, j, c) <==> Piece(s[n..], i - n, j - n, c)
    ensures s[n..][i - n..j - n] == s[i..j]
  {
    var rest := s[n..];
    assert forall k | n <= k < |s| :: s[k] == rest[k - n];
    if Piece(rest, i - n, j - n, c) {
      assert forall k | i <= k < j :: s[k] == rest[k - n];
    }
  }

  lemma PiecesAfter(s: string, p: string, n: int, c: char)
    requires 0 <= n < |s| && n == Find(s, c)
    ensures HasPiece(s, p, c) <==> p == s[..n] || HasPiece(s[n + 1..], p, c)
  {
    hide Find;
    if HasPiece(s, p, c) {
      var i, j :| Piece(s, i, j, c) && s[i..j] == p;
      if i > n {
        PieceAfter(s, i, j, n + 1, c);
      }
    }
    if p == s[..n] {
      assert Piece(s, 0, n, c) && s[0..n] == p;
    }
    if HasPiece(s[n + 1..], p, c) {
      var i, j :| Piece(s[n + 1..], i, j, c) && s[n + 1..][i..j] == p;
      PieceAfter(s, i + n + 1, j + n + 1, n + 1, c);
    }
  }

  /** Splitting gives exactly the pieces. */
  lemma {:induction false} SplitExactly(s: string, c: char, p: string)
    ensures p in Split(s, c) <==> HasPiece(s, p, c)
    decreases |s|
  {
    var n := Find(s, c);
    if n < |s| {
      hide HasPiece;
      SplitExactly(s[n + 1..], c, p);
      PiecesAfter(s, p, n, c);
    } else {
      assert Piece(s, 0, |s|, c) && s[0..|s|] == s;
    }
  }

  lemma {:induction false} NonEmptyExactly(parts: seq<string>, p: string)
    ensures p in NonEmpty(parts) <==> p != "" && p in parts
  {
    if parts != [] {
      NonEmptyExactly(parts[1..], p);
      assert parts == [parts[0]] + parts[1..];
    }
  }

  /** `w` stands in the text as a word: some characters, none of them a space, with a
      space or an end of the text on either side. */
  ghost predicate IsWord(s: string, w: string) {
    && w != "" && ' ' !in w
    && exists i, j ::
         0 <= i <= j <= |s| && s[i..j] == w && (i == 0 || s[i - 1] == ' ') && (j == |s| || s[j] == ' ')
  }

  /** A cut has no separator exactly if none stands in its place. */
  lemma NoneBetween(s: string, i: int, j: int, c: char)
    requires 0 <= i <= j <= |s|
    ensures c !in s[i..j] <==> forall k | i <= k < j :: s[k] != c
  {
    if c in s[i..j] {
      var k :| 0 <= k < j - i && s[i..j][k] == c;
      assert s[i + k] == c;
    }
    forall k | i <= k < j ensures s[k] == s[i..j][k - i] && s[k] in s[i..j] {
    }
  }

  lemma WordIsPiece(s: string, w: string)
    ensures IsWord(s, w) <==> w != "" && HasPiece(s, w, ' ')
  {
    if IsWord(s, w) {
      var i, j :| 0 <= i <= j <= |s| && s[i..j] == w && (i == 0 || s[i - 1] == ' ') && (j == |s| || s[j] == ' ');
      NoneBetween(s, i, j, ' ');
      assert Piece(s, i, j, ' ');
    } else if w != "" && HasPiece(s, w, ' ') {
      var i, j :| Piece(s, i, j, ' ') && s[i..j] == w;
      NoneBetween(s, i, j, ' ');
    }
  }

  lemma WordListExactly(s: string, w: string)
    ensures w in WordList(s) <==> IsWord(s, w)
  {
    hide IsWord, HasPiece;
    NonEmptyExactly(Split(s, ' '), w);
    SplitExactly(s, ' ', w);
    WordIsPiece(s, w);
  }

  /** The words that the scope checks consult are the words of the text. */
  lemma WordsExactly(s: string, w: string)
    ensures w in Words(s) <==> IsWord(s, w)
  {
    WordListExactly(s, w);
  }

  /** Every word of the one text is a word of the other. */
  ghost predicate WordsWithin(s: string, t: string) { forall w :: IsWord(s, w) ==> IsWord(t, w) }

  lemma WithinExactly(s: string, t: string)
    ensures Words(s) <= Words(t) <==> WordsWithin(s, t)
  {
    hide IsWord, Words;
    forall w ensures (w in Words(s) <==> IsWord(s, w)) && (w in Words(t) <==> IsWord(t, w)) {
      WordsExactly(s, w);
      WordsExactly(t, w);
    }
  }

  /** `split(" ").includes(w)`, for a word. */
  lemma IncludesExactly(s: string, w: string)
    requires w != ""
    ensures w in Split(s, ' ') <==> IsWord(s, w)
  {
    hide IsWord, HasPiece;
    SplitExactly(s, ' ', w);
    WordIsPiece(s, w);
  }

  /** A word of the text begins here. */
  ghost predicate Begins(s: string, i: int) {
    0 <= i < |s| && s[i] != ' ' && (i == 0 || s[i - 1] == ' ')
  }

  ghost predicate SomeWord(s: string) { exists i :: Begins(s, i) }

  /** Words begin at two places at least. */
  ghost predicate TwoWords(s: string) { exists i, j :: i < j && Begins(s, i) && Begins(s, j) }

  lemma BeginsAfter(s: string, n: int, i: int)
    requires 0 <= n < i < |s| && s[n] == ' '
    ensures Begins(s, i) <==> Begins(s[n + 1..], i - n - 1)
  {
  }

  /** Up to the first space a word begins at the start or nowhere. */
  lemma BeginsFirst(s: string, i: int)
    requires i <= Find(s, ' ')
    ensures Begins(s, i) <==> i == 0 && Find(s, ' ') != 0
  {
  }

  lemma SomeAfter(s: string, n: int)
    requires n == Find(s, ' ') && n < |s|
    ensures SomeWord(s) <==> n != 0 || SomeWord(s[n + 1..])
  {
    hide Begins, Find;
    var rest := s[n + 1..];
    BeginsFirst(s, 0);
    if SomeWord(s) {
      var i :| Begins(s, i);
      InRange(s, i);
      if i > n { BeginsAfter(s, n, i); } else { BeginsFirst(s, i); }
    }
    if SomeWord(rest) {
      var i :| Begins(rest, i);
      InRange(rest, i);
      BeginsAfter(s, n, i + n + 1);
      assert Begins(s, i + n + 1);
    }
  }

  lemma InRange(s: string, i: int)
    requires Begins(s, i)
    ensures 0 <= i < |s|
  {
  }

  lemma TwoAfter(s: string, n: int)
    requires n == Find(s, ' ') && n < |s|
    ensures TwoWords(s) <==> (n != 0 && SomeWord(s[n + 1..])) || TwoWords(s[n + 1..])
  {
    hide Begins, Find;
    var rest := s[n + 1..];
    BeginsFirst(s, 0);
    if TwoWords(s) {
      var i, j :| i < j && Begins(s, i) && Begins(s, j);
      InRange(s, i);
      InRange(s, j);
      if j > n { BeginsAfter(s, n, j); } else { BeginsFirst(s, j); }
      if i > n { BeginsAfter(s, n, i); } else { BeginsFirst(s, i); }
    }
    if SomeWord(rest) {
      var j :| Begins(rest, j);
      InRange(rest, j);
      BeginsAfter(s, n, j + n + 1);
      assert n != 0 ==> 0 < j + n + 1 && Begins(s, 0) && Begins(s, j + n + 1);
    }
    if TwoWords(rest) {
      var i, j :| i < j && Begins(rest, i) && Begins(rest, j);
      InRange(rest, i);
      InRange(rest, j);
      BeginsAfter(s, n, i + n + 1);
      BeginsAfter(s, n, j + n + 1);
      assert i + n + 1 < j + n + 1 && Begins(s, i + n + 1);
    }
  }

  lemma NonEmptyFirst(first: string, rest: seq<string>)
    ensures |NonEmpty([first] + rest)| == (if first == "" then 0 else 1) + |NonEmpty(rest)|
  {
    assert ([first] + rest)[1..] == rest;
  }

  lemma OneWord(s: string)
    requires Find(s, ' ') == |s|
    ensures |WordList(s)| == (if s == "" then 0 else 1) && (SomeWord(s) <==> s != "") && !TwoWords(s)
  {
    NonEmptyFirst(s, []);
    assert [s] + [] == [s];
    assert Begins(s, 0) <==> s != "";
  }

  /** There is a word, or more than one, in the list exactly if there is in the text. */
  lemma {:induction false} WordCount(s: string)
    ensures (|WordList(s)| > 0 <==> SomeWord(s)) && (|WordList(s)| > 1 <==> TwoWords(s))
    decreases |s|
  {
    var n := Find(s, ' ');
    if n < |s| {
      hide NonEmpty, SomeWord, TwoWords;
      WordCount(s[n + 1..]);
      SomeAfter(s, n);
      TwoAfter(s, n);
      NonEmptyFirst(s[..n], Split(s[n + 1..], ' '));
    } else {
      hide WordList, SomeWord, TwoWords;
      OneWord(s);
    }
  }

  /** White space and line terminators, as `String.prototype.trim` strips them. */
  predicate IsSpace(c: char) {
    c in {'\t', '\n', '\r', ' '} ||
    c as int in {0x0b, 0x0c, 0xa0, 0x1680, 0x2028, 0x2029, 0x202f, 0x205f, 0x3000, 0xfeff} ||
    0x2000 <= c as int <= 0x200a
  }

  /** By number: tab to carriage return, the space separators, and the line, paragraph and
      byte-order marks. */
  lemma SpacesExactly(c: char)
    ensures IsSpace(c) <==>
              || 9 <= c as int <= 13 || c as int in {32, 160, 0x1680, 0x202f, 0x205f, 0x3000}
              || 0x2000 <= c as int <= 0x200a || c as int in {0x2028, 0x2029, 0xfeff}
  {
  }

  function TrimLeft(s: string): string {
    if s != "" && IsSpace(s[0]) then TrimLeft(s[1..]) else s
  }

  function TrimRight(s: string): string {
    if s != "" && IsSpace(s[|s| - 1]) then TrimRight(s[..|s| - 1]) else s
  }

  function Trim(s: string): string { TrimRight(TrimLeft(s)) }

  /** What is left after trimming begins and ends with no white space, and all that was
      cut off is white space. */
  lemma TrimExactly(s: string) returns (i: nat, j: nat)
    ensures i <= j <= |s| && Trim(s) == s[i..j]
    ensures forall k | 0 <= k < i || j <= k < |s| :: IsSpace(s[k])
    ensures i < j ==> !IsSpace(s[i]) && !IsSpace(s[j - 1])
  {
    i := LeftTrimmed(s);
    var n := RightTrimmed(s[i..]);
    j := i + n;
    assert s[i..][..j - i] == s[i..j];
    forall k | 0 <= k < i || j <= k < |s| ensures IsSpace(s[k]) {
      if j <= k { assert s[k] == s[i..][k - i]; }
    }
  }

  lemma {:induction false} LeftTrimmed(s: string) returns (i: nat)
    ensures i <= |s| && TrimLeft(s) == s[i..]
    ensures forall k | 0 <= k < i :: IsSpace(s[k])
    ensures i < |s| ==> !IsSpace(s[i])
  {
    i := 0;
    if s != "" && IsSpace(s[0]) {
      var rest := LeftTrimmed(s[1..]);
      i := rest + 1;
      assert s[1..][rest..] == s[i..];
      assert forall k | 1 <= k < i :: s[k] == s[1..][k - 1];
    }
  }

  lemma {:induction false} RightTrimmed(s: string) returns (j: nat)
    ensures j <= |s| && TrimRight(s) == s[..j]
    ensures forall k | j <= k < |s| :: IsSpace(s[k])
    ensures 0 < j ==> !IsSpace(s[j - 1])
  {
    j := |s|;
    if s != "" && IsSpace(s[|s| - 1]) {
      j := RightTrimmed(s[..|s| - 1]);
      assert s[..|s| - 1][..j] == s[..j];
      assert forall k | j <= k < |s| - 1 :: s[k] == s[..|s| - 1][k];
    }
    assert s[..|s|] == s;
  }

  lemma TrimClean(s: string)
    requires forall c | c in s :: !IsSpace(c)
    ensures Trim(s) == s && Trim(" " + s) == s
  {
    assert (" " + s)[1..] == s;
  }

  /** `s.trim() === ""` */
  predicate Blank(s: string) { forall c | c in s :: IsSpace(c) }

  predicate IsDigit(c: char) { '0' <= c <= '9' }

  /** `/^\d+$/` */
  predicate AllDigits(s: string) { s != "" && forall c | c in s :: IsDigit(c) }

  /** `Number(s)` on a digit string. */
  function ParseNat(s: string): nat
    requires forall c | c in s :: IsDigit(c)
  {
    if s == "" then 0
    else
      assert IsDigit(s[|s| - 1]);
      ParseNat(s[..|s| - 1]) * 10 + (s[|s| - 1] as int - '0' as int)
  }

  /** `String(n)` for a natural number. */
  function Decimal(n: nat): (s: string)
    ensures AllDigits(s)
  {
    var d := ('0' as int + n % 10) as char;
    if n < 10 then [d] else Decimal(n / 10) + [d]
  }

  lemma DecimalParses(n: nat)
    ensures ParseNat(Decimal(n)) == n
  {
    if n >= 10 {
      var d := ('0' as int + n % 10) as char;
      DecimalParses(n / 10);
      assert Decimal(n)[..|Decimal(n)| - 1] == Decimal(n / 10);
    }
  }

  lemma DecimalInjective(m: nat, n: nat)
    requires Decimal(m) == Decimal(n)
    ensures m == n
  {
    DecimalParses(m);
    DecimalParses(n);
  }
}
