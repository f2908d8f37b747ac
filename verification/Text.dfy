/** The string operations the protocol is written in: stripping, splitting and joining, decimal
    text, and the ordered set of non-blank items. */
module Text {

  // -------------------------------------------------------------------------------- whitespace

  /** The characters that Python's `str.strip` removes. */
  predicate IsSpace(c: char) {
    var n := c as int;
    || 0x09 <= n <= 0x0D || 0x1C <= n <= 0x20 || n == 0x85 || n == 0xA0 || n == 0x1680
    || 0x2000 <= n <= 0x200A || n == 0x2028 || n == 0x2029 || n == 0x202F || n == 0x205F || n == 0x3000
  }

  function StripLeft(s: string): string {
    if s != [] && IsSpace(s[0]) then StripLeft(s[1..]) else s
  }

  function StripRight(s: string): string {
    if s != [] && IsSpace(s[|s| - 1]) then StripRight(s[..|s| - 1]) else s
  }

  function Strip(s: string): string {
    StripRight(StripLeft(s))
  }

  /** Neither end is whitespace. */
  predicate Trimmed(s: string) {
    s == [] || (!IsSpace(s[0]) && !IsSpace(s[|s| - 1]))
  }

  lemma {:induction false} StripRightKeepsStart(s: string)
    requires s != [] && !IsSpace(s[0])
    ensures StripRight(s) != [] && StripRight(s)[0] == s[0] && !IsSpace(StripRight(s)[|StripRight(s)| - 1])
  {
    if IsSpace(s[|s| - 1]) {
      StripRightKeepsStart(s[..|s| - 1]);
    }
  }

  lemma {:induction false} StripLeftStarts(s: string)
    ensures StripLeft(s) == [] || !IsSpace(StripLeft(s)[0])
  {
    if s != [] && IsSpace(s[0]) {
      StripLeftStarts(s[1..]);
    }
  }

  lemma StripTrims(s: string)
    ensures Trimmed(Strip(s))
  {
    StripLeftStarts(s);
    if StripLeft(s) != [] {
      StripRightKeepsStart(StripLeft(s));
    }
  }

  lemma TrimmedStrip(s: string)
    requires Trimmed(s)
    ensures Strip(s) == s
  {
  }

  lemma StripIdempotent(s: string)
    ensures Strip(Strip(s)) == Strip(s)
  {
    StripTrims(s);
    TrimmedStrip(Strip(s));
  }

  // ------------------------------------------------------------------------- cutting and splitting

  /** Two texts cut at their first separator agree piece by piece. */
  lemma {:induction false} HeadCut(a: string, b: string, a': string, b': string, sep: char)
    requires sep !in a && sep !in a'
    requires a + [sep] + b == a' + [sep] + b'
    ensures a == a' && b == b'
  {
    var t, t' := a + [sep] + b, a' + [sep] + b';
    assert t[0] == (if a == [] then sep else a[0]) && t'[0] == if a' == [] then sep else a'[0];
    assert a == [] <==> a' == [];
    if a == [] {
      assert b == t[1..] && b' == t'[1..];
    } else {
      assert t[1..] == a[1..] + [sep] + b && t'[1..] == a'[1..] + [sep] + b';
      HeadCut(a[1..], b, a'[1..], b', sep);
      assert a == [a[0]] + a[1..] && a' == [a'[0]] + a'[1..];
    }
  }

  /** Two texts cut at their last separator agree piece by piece. */
  lemma {:induction false} TailCut(a: string, b: string, a': string, b': string, sep: char)
    requires sep !in b && sep !in b'
    requires a + [sep] + b == a' + [sep] + b'
    ensures a == a' && b == b'
  {
    var t, t' := a + [sep] + b, a' + [sep] + b';
    assert t[|t| - 1] == if b == [] then sep else b[|b| - 1];
    assert t'[|t'| - 1] == if b' == [] then sep else b'[|b'| - 1];
    assert b == [] <==> b' == [];
    if b == [] {
      assert a == t[..|t| - 1] && a' == t'[..|t'| - 1];
    } else {
      assert t[..|t| - 1] == a + [sep] + b[..|b| - 1];
      assert t'[..|t'| - 1] == a' + [sep] + b'[..|b'| - 1];
      TailCut(a, b[..|b| - 1], a', b'[..|b'| - 1], sep);
      assert b == b[..|b| - 1] + [b[|b| - 1]] && b' == b'[..|b'| - 1] + [b'[|b'| - 1]];
    }
  }

  /** The pieces between separators; always at least one. */
  function Split(s: string, sep: char): (parts: seq<string>)
    ensures |parts| >= 1
  {
    if s == [] then [""]
    else
      var rest := Split(s[1..], sep);
      if s[0] == sep then [""] + rest else [[s[0]] + rest[0]] + rest[1..]
  }

  function Join(parts: seq<string>, sep: char): string
    requires |parts| >= 1
  {
    if |parts| == 1 then parts[0] else parts[0] + [sep] + Join(parts[1..], sep)
  }

  lemma {:induction false} SplitPiece(piece: string, sep: char)
    requires sep !in piece
    ensures Split(piece, sep) == [piece]
  {
    if piece != [] {
      SplitPiece(piece[1..], sep);
      assert piece == [piece[0]] + piece[1..];
    }
  }

  lemma {:induction false} SplitFirst(piece: string, rest: string, sep: char)
    requires sep !in piece
    ensures Split(piece + [sep] + rest, sep) == [piece] + Split(rest, sep)
  {
    var s := piece + [sep] + rest;
    if piece == [] {
      assert s[1..] == rest;
    } else {
      assert s[1..] == piece[1..] + [sep] + rest;
      SplitFirst(piece[1..], rest, sep);
      assert piece == [piece[0]] + piece[1..];
      assert ([piece[1..]] + Split(rest, sep))[1..] == Split(rest, sep);
    }
  }

  /** Joining and splitting again gives the pieces back. */
  lemma {:induction false} SplitJoin(parts: seq<string>, sep: char)
    requires |parts| >= 1 && forall k :: 0 <= k < |parts| ==> sep !in parts[k]
    ensures Split(Join(parts, sep), sep) == parts
  {
    if |parts| == 1 {
      SplitPiece(parts[0], sep);
    } else {
      SplitJoin(parts[1..], sep);
      SplitFirst(parts[0], Join(parts[1..], sep), sep);
    }
  }

  lemma {:induction false} JoinAvoids(parts: seq<string>, sep: char, c: char)
    requires |parts| >= 1 && c != sep && forall k :: 0 <= k < |parts| ==> c !in parts[k]
    ensures c !in Join(parts, sep)
  {
    if |parts| > 1 {
      JoinAvoids(parts[1..], sep, c);
    }
  }

  // ------------------------------------------------------------------------------------- decimals

  function Digit(d: nat): char
    requires d < 10
  {
    ('0' as int + d) as char
  }

  function NatText(n: nat): string {
    if n < 10 then [Digit(n)] else NatText(n / 10) + [Digit(n % 10)]
  }

  function IntText(n: int): string {
    if n < 0 then "-" + NatText(-n) else NatText(n)
  }

  function NatValue(s: string): int {
    if s == [] then 0 else NatValue(s[..|s| - 1]) * 10 + (s[|s| - 1] as int - '0' as int)
  }

  lemma {:induction false} NatTextValue(n: nat)
    ensures NatValue(NatText(n)) == n && NatText(n) != []
    ensures forall k :: 0 <= k < |NatText(n)| ==> '0' <= NatText(n)[k] <= '9'
  {
    if n < 10 {
      assert NatText(n)[..0] == [];
    } else {
      NatTextValue(n / 10);
      var s := NatText(n);
      assert s[..|s| - 1] == NatText(n / 10);
    }
  }

  lemma IntTextInjective(m: int, n: int)
    requires IntText(m) == IntText(n)
    ensures m == n
  {
    NatTextValue(if m < 0 then -m else m);
    NatTextValue(if n < 0 then -n else n);
    assert (IntText(m)[0] == '-' <==> m < 0) && (IntText(n)[0] == '-' <==> n < 0);
    if m < 0 {
      assert IntText(m)[1..] == NatText(-m) && IntText(n)[1..] == NatText(-n);
    }
  }

  lemma IntTextIsOneLine(n: int)
    ensures '\n' !in IntText(n)
  {
    NatTextValue(if n < 0 then -n else n);
  }

  // ------------------------------------------------------------------------- ordered sets of strings

  /** Order by code points, as Python compares strings. */
  predicate Less(a: string, b: string) {
    b != [] && (a == [] || a[0] < b[0] || (a[0] == b[0] && Less(a[1..], b[1..])))
  }

  lemma {:induction false} LessTotal(a: string, b: string)
    ensures a == b || Less(a, b) || Less(b, a)
    ensures !(Less(a, b) && Less(b, a)) && (a == b ==> !Less(a, b))
  {
    if a != [] && b != [] {
      LessTotal(a[1..], b[1..]);
      assert a == [a[0]] + a[1..] && b == [b[0]] + b[1..];
    }
  }

  lemma {:induction false} LessTransitive(a: string, b: string, c: string)
    requires Less(a, b) && Less(b, c)
    ensures Less(a, c)
  {
    if a != [] && a[0] == b[0] && b[0] == c[0] {
      LessTransitive(a[1..], b[1..], c[1..]);
    }
  }

  ghost predicate Ascending(s: seq<string>) {
    forall j, k :: 0 <= j < k < |s| ==> Less(s[j], s[k])
  }

  /** Inserts an item into an ascending sequence unless it is there already. */
  function Insert(x: string, s: seq<string>): seq<string> {
    if s == [] then [x]
    else if x == s[0] then s
    else if Less(x, s[0]) then [x] + s
    else [s[0]] + Insert(x, s[1..])
  }

  lemma {:induction false} InsertSpec(x: string, s: seq<string>)
    requires Ascending(s)
    ensures Ascending(Insert(x, s))
    ensures forall y :: y in Insert(x, s) <==> y == x || y in s
  {
    if s == [] {
    } else {
      LessTotal(x, s[0]);
      assert s == [s[0]] + s[1..];
      if x == s[0] {
      } else if Less(x, s[0]) {
        forall k | 0 <= k < |s| ensures Less(x, s[k]) {
          if k > 0 {
            LessTransitive(x, s[0], s[k]);
          }
        }
      } else {
        InsertSpec(x, s[1..]);
        var rest := Insert(x, s[1..]);
        forall k | 0 <= k < |rest| ensures Less(s[0], rest[k]) {
          assert rest[k] in rest;
          if rest[k] != x {
            var j :| 0 <= j < |s[1..]| && s[1..][j] == rest[k];
            assert s[1..][j] == s[j + 1];
          }
        }
      }
    }
  }

  /** `sorted({item.strip() for item in items if item.strip()})`. */
  function SortedItems(items: seq<string>): seq<string> {
    if items == [] then []
    else
      var rest := SortedItems(items[1..]);
      if Strip(items[0]) == "" then rest else Insert(Strip(items[0]), rest)
  }

  /** `x` is a stripped, non-blank item. */
  ghost predicate ItemOf(x: string, items: seq<string>) {
    x != "" && exists k :: 0 <= k < |items| && Strip(items[k]) == x
  }

  lemma {:induction false} SortedItemsSpec(items: seq<string>)
    ensures Ascending(SortedItems(items))
    ensures forall x :: x in SortedItems(items) <==> ItemOf(x, items)
  {
    if items != [] {
      SortedItemsSpec(items[1..]);
      InsertSpec(Strip(items[0]), SortedItems(items[1..]));
      assert items == [items[0]] + items[1..];
      forall x ensures ItemOf(x, items) <==> (x != "" && (x == Strip(items[0]) || ItemOf(x, items[1..]))) {
        if x != "" && x == Strip(items[0]) {
          assert ItemOf(x, items);
        }
        if ItemOf(x, items[1..]) {
          var k :| 0 <= k < |items[1..]| && Strip(items[1..][k]) == x;
          assert Strip(items[k + 1]) == x;
        }
        if ItemOf(x, items) {
          var k :| 0 <= k < |items| && Strip(items[k]) == x;
          if k > 0 {
            assert Strip(items[1..][k - 1]) == x;
          }
        }
      }
    }
  }

  /** An ascending sequence is determined by its elements. */
  lemma {:induction false} AscendingUnique(s: seq<string>, t: seq<string>)
    requires Ascending(s) && Ascending(t) && forall x :: x in s <==> x in t
    ensures s == t
  {
    assert (s != [] ==> s[0] in t) && (t != [] ==> t[0] in s);
    if s != [] {
      LessTotal(s[0], t[0]);
      assert s[0] == t[0];
      forall x ensures x in s[1..] <==> x in t[1..] {
        LessTotal(s[0], x);
        assert x in s[1..] ==> x in s && x != s[0] && x in t;
        assert x in t[1..] ==> x in t && x != t[0] && x in s;
      }
      AscendingUnique(s[1..], t[1..]);
      assert s == [s[0]] + s[1..] && t == [t[0]] + t[1..];
    }
  }

  /** Sorting items that are sorted already changes nothing. */
  lemma SortedItemsIdempotent(items: seq<string>)
    ensures SortedItems(SortedItems(items)) == SortedItems(items)
  {
    var once := SortedItems(items);
    SortedItemsSpec(items);
    SortedItemsSpec(once);
    forall x ensures ItemOf(x, once) <==> x in once {
      if x in once {
        var k :| 0 <= k < |items| && Strip(items[k]) == x;
        StripIdempotent(items[k]);
        var j :| 0 <= j < |once| && once[j] == x;
        assert Strip(once[j]) == x;
      }
      if ItemOf(x, once) {
        var j :| 0 <= j < |once| && Strip(once[j]) == x;
        assert ItemOf(once[j], items);
        var k :| 0 <= k < |items| && Strip(items[k]) == once[j];
        StripIdempotent(items[k]);
      }
    }
    AscendingUnique(SortedItems(once), once);
  }
}
