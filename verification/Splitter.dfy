/** The two splitters of migration scripts: the plain one of the store and the one of the database
    layer that knows quotes and triggers. */
module Splitter {
  import opened Basics
  import opened Text

  // ----------------------------------------------------------------------------- plain splitter

  function NonBlank(pieces: seq<string>): seq<string> {
    if pieces == [] then []
    else (if Strip(pieces[0]) == "" then [] else [Strip(pieces[0])]) + NonBlank(pieces[1..])
  }

  /** The store: cut at every semicolon, strip, drop blanks. */
  function PlainSplit(script: string): seq<string> {
    NonBlank(Split(script, ';'))
  }

  // ------------------------------------------------------------------------ quote-aware splitter

  function UpperChar(c: char): char {
    if 'a' <= c <= 'z' then (c as int - 32) as char else c
  }

  function Upper(s: string): (u: string)
    ensures |u| == |s|
  {
    seq(|s|, k requires 0 <= k < |s| => UpperChar(s[k]))
  }

  predicate StartsTrigger(statement: string) {
    "CREATE TRIGGER" <= Upper(statement)
  }

  predicate EndsTrigger(statement: string) {
    |statement| >= 4 && Upper(statement)[|statement| - 4..] == "END;"
  }

  /** The scan after a prefix of the script: finished raw segments, the text since then, the open
      quote and whether that text is a trigger body. */
  datatype Scan = Scan(segments: seq<string>, current: string, quote: Option<char>, trigger: bool)

  function Feed(s: Scan, c: char): Scan {
    var current := s.current + [c];
    if s.quote.Some? then s.(current := current, quote := if c == s.quote.value then None else s.quote)
    else if c == '\'' || c == '"' then s.(current := current, quote := Some(c))
    else if c != ';' then s.(current := current)
    else
      var trigger := s.trigger || StartsTrigger(Strip(current));
      if trigger && !EndsTrigger(Strip(current)) then s.(current := current, trigger := true)
      else Scan(s.segments + [current], "", None, false)
  }

  function ScanAll(script: string): Scan {
    if script == [] then Scan([], "", None, false)
    else Feed(ScanAll(script[..|script| - 1]), script[|script| - 1])
  }

  /** The statements of a scan: its segments and the trailing text, stripped, without blanks. */
  function Statements(s: Scan): seq<string> {
    NonBlank(s.segments + [s.current])
  }

  lemma {:induction false} NonBlankAppend(pieces: seq<string>, piece: string)
    ensures NonBlank(pieces + [piece]) == NonBlank(pieces) + (if Strip(piece) == "" then [] else [Strip(piece)])
  {
    if pieces == [] {
      assert pieces + [piece] == [piece];
    } else {
      assert (pieces + [piece])[1..] == pieces[1..] + [piece];
      NonBlankAppend(pieces[1..], piece);
    }
  }

  /** The character loop of the database layer. */
  method SplitStatements(script: string) returns (statements: seq<string>)
    ensures statements == Statements(ScanAll(script))
  {
    statements := [];
    var current: string := "";
    var quote: Option<char> := None;
    var trigger := false;
    for i := 0 to |script|
      invariant var s := ScanAll(script[..i]);
        s.current == current && s.quote == quote && s.trigger == trigger && NonBlank(s.segments) == statements
    {
      ghost var s := ScanAll(script[..i]);
      assert script[..i + 1][..i] == script[..i];
      var c := script[i];
      current := current + [c];
      if quote.Some? {
        if c == quote.value {
          quote := None;
        }
      } else if c == '\'' || c == '"' {
        quote := Some(c);
      } else if c == ';' {
        var statement := Strip(current);
        if !trigger && StartsTrigger(statement) {
          trigger := true;
        }
        if trigger && !EndsTrigger(statement) {
          continue;
        }
        NonBlankAppend(s.segments, current);
        if statement != "" {
          statements := statements + [statement];
        }
        current := "";
        trigger := false;
      }
    }
    assert script[..|script|] == script;
    NonBlankAppend(ScanAll(script).segments, current);
    var trailing := Strip(current);
    if trailing != "" {
      statements := statements + [trailing];
    }
  }

  // ------------------------------------------------------------------------------ nothing is lost

  function Concat(pieces: seq<string>): string {
    if pieces == [] then "" else Concat(pieces[..|pieces| - 1]) + pieces[|pieces| - 1]
  }

  /** The raw segments and the trailing text are the script, character by character. */
  lemma {:induction false} SegmentsAreTheScript(script: string)
    ensures Concat(ScanAll(script).segments) + ScanAll(script).current == script
  {
    if script != [] {
      var init, c := script[..|script| - 1], script[|script| - 1];
      SegmentsAreTheScript(init);
      FeedAddsOne(ScanAll(init), c);
      assert script == init + [c];
    }
  }

  lemma FeedAddsOne(s: Scan, c: char)
    ensures Concat(Feed(s, c).segments) + Feed(s, c).current == Concat(s.segments) + s.current + [c]
  {
    var whole := Concat(s.segments) + s.current + [c];
    assert Concat(s.segments) + (s.current + [c]) == whole;
    var cut := s.segments + [s.current + [c]];
    assert cut[..|cut| - 1] == s.segments;
    assert Concat(cut) + "" == Concat(cut) == whole;
  }

  /** The quote that is open after a text, by the text alone. */
  function OpenQuote(text: string): Option<char> {
    if text == [] then None
    else
      var before := OpenQuote(text[..|text| - 1]);
      var c := text[|text| - 1];
      if before.Some? then (if c == before.value then None else before)
      else if c == '\'' || c == '"' then Some(c)
      else None
  }

  /** The scan tracks exactly the quote that is open, so it never cuts inside one. */
  lemma {:induction false} ScanTracksQuote(script: string)
    ensures ScanAll(script).quote == OpenQuote(script)
  {
    if script != [] {
      ScanTracksQuote(script[..|script| - 1]);
    }
  }

  /** A semicolon inside a quote ends no statement. */
  lemma QuotedSemicolonKept(script: string)
    requires OpenQuote(script).Some?
    ensures ScanAll(script + ";").segments == ScanAll(script).segments
    ensures ScanAll(script + ";").current == ScanAll(script).current + ";"
  {
    assert (script + ";")[..|script|] == script;
    ScanTracksQuote(script);
  }

  /** Every finished segment ends at its semicolon, and a trigger definition at its `END;`. */
  lemma {:induction false} SegmentsAreWhole(script: string, k: nat)
    requires k < |ScanAll(script).segments|
    ensures var segment := ScanAll(script).segments[k];
      && segment != "" && segment[|segment| - 1] == ';'
      && (StartsTrigger(Strip(segment)) ==> EndsTrigger(Strip(segment)))
  {
    if script != [] {
      if k < |ScanAll(script[..|script| - 1]).segments| {
        SegmentsAreWhole(script[..|script| - 1], k);
      }
    }
  }

  // ------------------------------------------------------------------------------------ agreement

  /** No semicolon sits in an open quote. */
  predicate SemicolonsUnquoted(script: string) {
    forall i :: 0 <= i < |script| && script[i] == ';' ==> OpenQuote(script[..i]).None?
  }

  /** Every piece before a semicolon ends its statement. */
  predicate PiecesWhole(pieces: seq<string>) {
    forall k :: 0 <= k < |pieces| - 1 ==> EndsWhole(pieces[k])
  }

  /** The scan's two reasons not to cut at a semicolon, an open quote and a trigger definition that
      goes on, do not occur. */
  predicate Clean(script: string) {
    SemicolonsUnquoted(script) && PiecesWhole(Split(script, ';'))
  }

  /** A piece that ends its statement: no trigger definition, or a complete one. */
  predicate EndsWhole(piece: string) {
    StartsTrigger(Strip(piece + ";")) ==> EndsTrigger(Strip(piece + ";"))
  }

  function Last(pieces: seq<string>): string
    requires |pieces| >= 1
  {
    pieces[|pieces| - 1]
  }

  /** Every piece but the last, each with its terminator. */
  function Terminated(pieces: seq<string>): (segments: seq<string>)
    requires |pieces| >= 1
    ensures |segments| == |pieces| - 1
  {
    seq(|pieces| - 1, k requires 0 <= k < |pieces| - 1 => pieces[k] + ";")
  }

  /** The pieces of a text with one more character in front, and with one more at the end. */
  function Prepended(c: char, parts: seq<string>, sep: char): seq<string>
    requires |parts| >= 1
  {
    if c == sep then [""] + parts else [[c] + parts[0]] + parts[1..]
  }

  function Appended(parts: seq<string>, c: char, sep: char): (longer: seq<string>)
    requires |parts| >= 1
    ensures |longer| >= 1
  {
    if c == sep then parts + [""] else parts[..|parts| - 1] + [Last(parts) + [c]]
  }

  lemma EndsCommute(b: char, parts: seq<string>, c: char, sep: char)
    requires |parts| >= 1
    ensures Prepended(b, Appended(parts, c, sep), sep) == Appended(Prepended(b, parts, sep), c, sep)
  {
    if b != sep && c != sep && |parts| == 1 {
      assert [b] + (parts[0] + [c]) == ([b] + parts[0]) + [c];
    }
  }

  lemma {:induction false} SplitAppend(s: string, c: char, sep: char)
    ensures Split(s + [c], sep) == Appended(Split(s, sep), c, sep)
  {
    if s == [] {
      assert s + [c] == [c] && [c][1..] == [];
      assert [c] + "" == "" + [c];
    } else {
      assert (s + [c])[1..] == s[1..] + [c];
      SplitAppend(s[1..], c, sep);
      EndsCommute(s[0], Split(s[1..], sep), c, sep);
    }
  }

  lemma UnquotedAppend(init: string, c: char)
    ensures SemicolonsUnquoted(init + [c]) <==> SemicolonsUnquoted(init) && (c == ';' ==> OpenQuote(init).None?)
  {
    var script := init + [c];
    assert script[..|init|] == init;
    assert forall i :: 0 <= i < |init| ==> script[i] == init[i] && script[..i] == init[..i];
  }

  lemma WholeAppend(pieces: seq<string>, c: char)
    requires |pieces| >= 1
    ensures PiecesWhole(Appended(pieces, c, ';')) <==> PiecesWhole(pieces) && (c == ';' ==> EndsWhole(Last(pieces)))
  {
    var longer := Appended(pieces, c, ';');
    assert forall k :: 0 <= k < |pieces| - 1 ==> longer[k] == pieces[k];
    if c == ';' {
      assert longer[|pieces| - 1] == Last(pieces);
    }
  }

  /** With one more character a script is clean if it was and, for a semicolon, if that semicolon is
      outside quotes and ends a whole piece. */
  lemma CleanAppend(init: string, c: char)
    ensures Clean(init + [c]) <==>
            Clean(init) && (c == ';' ==> OpenQuote(init).None? && EndsWhole(Last(Split(init, ';'))))
  {
    SplitAppend(init, c, ';');
    UnquotedAppend(init, c);
    WholeAppend(Split(init, ';'), c);
  }

  /** The scan has cut exactly where the plain splitter cuts. */
  predicate CutsAlike(script: string) {
    ScanAll(script).segments == Terminated(Split(script, ';')) && ScanAll(script).current == Last(Split(script, ';'))
  }

  lemma FeedSemicolon(segments: seq<string>, current: string)
    requires EndsWhole(current)
    ensures Feed(Scan(segments, current, None, false), ';') == Scan(segments + [current + ";"], "", None, false)
  {
  }

  lemma FeedOther(segments: seq<string>, current: string, quote: Option<char>, c: char)
    requires c != ';'
    ensures var fed := Feed(Scan(segments, current, quote, false), c);
      fed.segments == segments && fed.current == current + [c] && !fed.trigger
  {
  }

  lemma {:induction false} CleanCutsAlike(script: string)
    requires Clean(script)
    ensures ScanAll(script) == Scan(Terminated(Split(script, ';')), Last(Split(script, ';')), OpenQuote(script), false)
  {
    ScanTracksQuote(script);
    if script == [] {
      assert Terminated([""]) == [];
    } else {
      var init, c := script[..|script| - 1], script[|script| - 1];
      assert script == init + [c];
      CleanAppend(init, c);
      SplitAppend(init, c, ';');
      var before, after := Split(init, ';'), Split(script, ';');
      CleanCutsAlike(init);
      if c == ';' {
        assert Terminated(after) == Terminated(before) + [Last(before) + ";"];
        FeedSemicolon(Terminated(before), Last(before));
      } else {
        assert Terminated(after) == Terminated(before);
        FeedOther(Terminated(before), Last(before), OpenQuote(init), c);
      }
    }
  }

  /** The scan never cuts more often than the plain splitter, and as often only on clean scripts. */
  lemma {:induction false} ScanCutsNoMore(script: string)
    ensures |ScanAll(script).segments| <= |Split(script, ';')| - 1
    ensures |ScanAll(script).segments| == |Split(script, ';')| - 1 ==> Clean(script)
  {
    if script != [] {
      var init, c := script[..|script| - 1], script[|script| - 1];
      assert script == init + [c];
      SplitAppend(init, c, ';');
      CleanAppend(init, c);
      ScanCutsNoMore(init);
      if |ScanAll(init).segments| == |Split(init, ';')| - 1 {
        CleanCutsAlike(init);
      }
    }
  }

  /** For every script: the two splitters cut at the same places if and only if it is clean. */
  lemma CutsAlikeIff(script: string)
    ensures CutsAlike(script) <==> Clean(script)
  {
    ScanCutsNoMore(script);
    if Clean(script) {
      CleanCutsAlike(script);
    }
  }

  /** A statement without its terminator; the trailing text has none. */
  function DropTerminator(statement: string): string {
    if statement != "" && statement[|statement| - 1] == ';' then Strip(statement[..|statement| - 1]) else statement
  }

  /** The statements without terminators and blanks. */
  function Bare(statements: seq<string>): seq<string> {
    if statements == [] then []
    else (if DropTerminator(statements[0]) == "" then [] else [DropTerminator(statements[0])]) + Bare(statements[1..])
  }

  lemma {:induction false} StripLeftTerminated(p: string)
    ensures StripLeft(p + ";") == StripLeft(p) + ";"
  {
    if p != [] && IsSpace(p[0]) {
      assert (p + ";")[1..] == p[1..] + ";";
      StripLeftTerminated(p[1..]);
    }
  }

  lemma StripTerminated(p: string)
    ensures Strip(p + ";") == StripLeft(p) + ";" && DropTerminator(Strip(p + ";")) == Strip(p)
  {
    StripLeftTerminated(p);
    StripLeftIdempotent(p);
    assert (StripLeft(p) + ";")[..|StripLeft(p)|] == StripLeft(p);
  }

  lemma {:induction false} StripLeftIdempotent(p: string)
    ensures StripLeft(StripLeft(p)) == StripLeft(p)
  {
    if p != [] && IsSpace(p[0]) {
      StripLeftIdempotent(p[1..]);
    }
  }

  function Ended(pieces: seq<string>): (segments: seq<string>)
    ensures |segments| == |pieces|
  {
    seq(|pieces|, k requires 0 <= k < |pieces| => pieces[k] + ";")
  }

  lemma BareCons(first: string, rest: seq<string>)
    ensures Bare([first] + rest) == (if DropTerminator(first) == "" then [] else [DropTerminator(first)]) + Bare(rest)
    ensures NonBlank([first] + rest) == (if Strip(first) == "" then [] else [Strip(first)]) + NonBlank(rest)
  {
    assert ([first] + rest)[1..] == rest;
  }

  lemma {:induction false} BareEnded(pieces: seq<string>, trailing: string)
    requires ';' !in trailing
    ensures Bare(NonBlank(Ended(pieces) + [trailing])) == NonBlank(pieces + [trailing])
  {
    if pieces == [] {
      assert Ended(pieces) + [trailing] == [trailing] && pieces + [trailing] == [trailing];
      StripDropsOnly(trailing);
      BareCons(Strip(trailing), []);
      BareCons(trailing, []);
      assert [trailing] + [] == [trailing] && [Strip(trailing)] + [] == [Strip(trailing)];
    } else {
      var tail := Ended(pieces[1..]) + [trailing];
      assert Ended(pieces) + [trailing] == [pieces[0] + ";"] + tail;
      assert pieces + [trailing] == [pieces[0]] + (pieces[1..] + [trailing]);
      BareEnded(pieces[1..], trailing);
      StripTerminated(pieces[0]);
      BareCons(pieces[0] + ";", tail);
      BareCons(Strip(pieces[0] + ";"), NonBlank(tail));
      BareCons(pieces[0], pieces[1..] + [trailing]);
    }
  }

  lemma {:induction false} StripLeftDropsOnly(p: string)
    ensures forall c :: c in StripLeft(p) ==> c in p
  {
    if p != [] && IsSpace(p[0]) {
      StripLeftDropsOnly(p[1..]);
    }
  }

  lemma {:induction false} StripRightDropsOnly(p: string)
    ensures forall c :: c in StripRight(p) ==> c in p
  {
    if p != [] && IsSpace(p[|p| - 1]) {
      StripRightDropsOnly(p[..|p| - 1]);
    }
  }

  lemma StripDropsOnly(p: string)
    ensures forall c :: c in Strip(p) ==> c in p
  {
    StripLeftDropsOnly(p);
    StripRightDropsOnly(StripLeft(p));
  }

  lemma {:induction false} LastPieceBare(script: string)
    ensures ';' !in Last(Split(script, ';'))
  {
    if script != [] {
      SplitAppend(script[..|script| - 1], script[|script| - 1], ';');
      assert script == script[..|script| - 1] + [script[|script| - 1]];
      LastPieceBare(script[..|script| - 1]);
    }
  }

  /** On clean scripts, quotes and complete triggers included, the two splitters return the same
      statements, up to terminators and blanks. */
  lemma SplittersAgree(script: string)
    requires Clean(script)
    ensures Bare(Statements(ScanAll(script))) == PlainSplit(script)
  {
    var parts := Split(script, ';');
    CleanCutsAlike(script);
    LastPieceBare(script);
    var init := parts[..|parts| - 1];
    assert Terminated(parts) == Ended(init);
    assert init + [Last(parts)] == parts;
    BareEnded(init, Last(parts));
  }

  // ------------------------------------------------------------------------------------ disagreement

  /** A quote that is never closed swallows every semicolon after it. */
  lemma {:induction false} OpenQuoteSwallows(head: string, rest: string)
    requires OpenQuote(head).Some? && OpenQuote(head).value !in rest
    ensures ScanAll(head + rest).segments == ScanAll(head).segments && OpenQuote(head + rest) == OpenQuote(head)
  {
    if rest == [] {
      assert head + rest == head;
    } else {
      var init := rest[..|rest| - 1];
      OpenQuoteSwallows(head, init);
      assert (head + rest)[..|head + rest| - 1] == head + init;
      ScanTracksQuote(head + init);
    }
  }

  lemma FeedUncut(current: string, quote: Option<char>, c: char)
    requires c == ';' ==> quote.Some?
    ensures var fed := Feed(Scan([], current, quote, false), c);
      fed.segments == [] && fed.current == current + [c] && !fed.trigger
  {
  }

  /** The third migration: when every semicolon sits in an open quote, the scan never cuts, and the
      whole script is one statement. */
  lemma {:induction false} AllQuotedIsOne(script: string)
    requires forall i :: 0 <= i < |script| && script[i] == ';' ==> OpenQuote(script[..i]).Some?
    ensures ScanAll(script) == Scan([], script, OpenQuote(script), false)
  {
    ScanTracksQuote(script);
    if script != [] {
      var init, c := script[..|script| - 1], script[|script| - 1];
      assert forall i :: 0 <= i < |init| ==> init[i] == script[i] && init[..i] == script[..i];
      AllQuotedIsOne(init);
      FeedUncut(init, OpenQuote(init), c);
      assert script == init + [c];
    }
  }

  lemma NonBlankNoLonger(pieces: seq<string>)
    ensures |NonBlank(pieces)| <= |pieces|
  {
  }

  lemma ApostropheOpens()
    ensures OpenQuote("-- caller's") == Some('\'') && ScanAll("-- caller's").segments == []
  {
    var s := "-- caller's";
    assert s[..1] == "-" && s[..2] == "--" && s[..3] == "-- " && s[..4] == "-- c" && s[..5] == "-- ca" && s[..6] == "-- cal"
      && s[..7] == "-- call" && s[..8] == "-- calle" && s[..9] == "-- caller" && s[..10] == "-- caller'";
    QuietPrefix("-- caller");
    assert s == "-- caller" + "'" + "s";
  }

  /** Text without quotes and semicolons stays in one piece. */
  lemma {:induction false} QuietPrefix(text: string)
    requires '\'' !in text && '"' !in text && ';' !in text
    ensures ScanAll(text) == Scan([], text, None, false) && OpenQuote(text).None?
  {
    if text != [] {
      QuietPrefix(text[..|text| - 1]);
      assert text == text[..|text| - 1] + [text[|text| - 1]];
    }
  }

  /** An apostrophe in a comment, as in the third migration, opens a quote for the scan: whatever
      follows without another apostrophe is one statement to it, and as many as it holds to the
      plain splitter. */
  lemma CommentApostropheSwallows(rest: string)
    requires '\'' !in rest
    ensures |Statements(ScanAll("-- caller's" + rest))| <= 1
  {
    ApostropheOpens();
    OpenQuoteSwallows("-- caller's", rest);
    NonBlankNoLonger([ScanAll("-- caller's" + rest).current]);
    assert [] + [ScanAll("-- caller's" + rest).current] == [ScanAll("-- caller's" + rest).current];
  }

  /** The plain splitter on two terminated statements. */
  lemma PlainSplitsInTwo(a: string, b: string)
    requires ';' !in a && ';' !in b && a != "" && b != "" && Trimmed(a) && Trimmed(b)
    ensures PlainSplit(a + ";" + (b + ";" + "")) == [a, b]
  {
    SplitFirst(a, b + ";" + "", ';');
    SplitFirst(b, "", ';');
    TrimmedStrip(a);
    TrimmedStrip(b);
    BareCons(a, [b] + [""]);
    BareCons(b, [""]);
  }

  /** Hence two statements after such a comment are two to the plain splitter and one to the scan. */
  lemma SplittersDisagree(a: string, b: string)
    requires '\'' !in a && '\'' !in b && ';' !in a && ';' !in b
    requires b != "" && Trimmed(b) && Trimmed("-- caller's" + a)
    ensures var script := "-- caller's" + a + ";" + (b + ";" + "");
      && |Statements(ScanAll(script))| <= 1
      && PlainSplit(script) == ["-- caller's" + a, b]
      && !SemicolonsUnquoted(script)
  {
    var head := "-- caller's";
    var rest := a + ";" + (b + ";" + "");
    assert head + a + ";" + (b + ";" + "") == head + rest;
    PlainSplitsInTwo(head + a, b);
    CommentApostropheSwallows(rest);
    ApostropheOpens();
    OpenQuoteSwallows(head, a);
    assert (head + rest)[..|head + a|] == head + a && (head + rest)[|head + a|] == ';';
  }
}
