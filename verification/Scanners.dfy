/**
 The comment scanners of the repository's comment guard, for shell text, TOML text and one line
 of YAML (comments as in section 6.6 of YAML 1.2.2). Each is an index-driven automaton.
 */
module CommentScanners {
  import opened Common

  /** A comment, the line it is reported on and where it starts. */
  datatype Finding = Finding(line: nat, start: nat, text: string)

  function LineEnd(text: string, i: nat): (e: nat)
    requires i <= |text|
    ensures i <= e <= |text| && (e < |text| ==> text[e] == '\n')
    ensures forall k | i <= k < e :: text[k] != '\n'
    decreases |text| - i
  {
    if i == |text| || text[i] == '\n' then i else LineEnd(text, i + 1)
  }

  function Newlines(text: string): nat {
    if text == [] then 0 else Newlines(text[..|text| - 1]) + if text[|text| - 1] == '\n' then 1 else 0
  }

  lemma NewlinesStep(text: string, i: nat)
    requires i < |text|
    ensures Newlines(text[..i + 1]) == Newlines(text[..i]) + if text[i] == '\n' then 1 else 0
  {
    assert text[..i + 1][..i] == text[..i];
  }

  lemma {:induction false} NewlinesSpan(text: string, i: nat, e: nat)
    requires i <= e <= |text| && forall k | i <= k < e :: text[k] != '\n'
    ensures Newlines(text[..e]) == Newlines(text[..i])
  {
    if i < e {
      NewlinesStep(text, e - 1);
      NewlinesSpan(text, i, e - 1);
    }
  }

  /** The text from `from` on with the reported spans deleted. */
  function Delete(text: string, found: seq<Finding>, from: nat): string {
    if found == [] then if from <= |text| then text[from..] else ""
    else
      var f := found[0];
      (if from <= f.start <= |text| then text[from..f.start] else "") + Delete(text, found[1..], f.start + |f.text|)
  }

  /** Each finding is a `#` up to the end of its line, on the line the newlines before it count to. */
  ghost predicate Located(text: string, first: nat, f: Finding) {
    && f.start < |text| && text[f.start] == '#'
    && f.text == text[f.start..LineEnd(text, f.start)]
    && f.line == first + Newlines(text[..f.start])
  }

  // ---------------------------------------------------------------- shell and TOML

  /** What the scanner is inside of: an open shell quote, or an open TOML delimiter ("" for none). */
  datatype Mode = Shell(quote: Option<char>) | Toml(delimiter: string)

  predicate WordBreak(c: char) {
    c in " \t;&|(\n"
  }

  predicate StartsWith(text: string, i: nat, prefix: string) {
    i + |prefix| <= |text| && text[i..i + |prefix|] == prefix
  }

  const TRIPLE_DOUBLE := "\"\"\""
  const TRIPLE_SINGLE := "'''"

  predicate IsTriple(text: string, i: nat) {
    StartsWith(text, i, TRIPLE_DOUBLE) || StartsWith(text, i, TRIPLE_SINGLE)
  }

  predicate IsQuote(c: char) {
    c == '"' || c == '\''
  }

  predicate IsComment(text: string, i: nat, m: Mode)
    requires i < |text|
  {
    && text[i] == '#'
    && match m
       case Shell(quote) => quote.None? && (i == 0 || WordBreak(text[i - 1]))
       case Toml(delimiter) => delimiter == ""
  }

  function ShellTurn(text: string, i: nat, quote: Option<char>): (r: (nat, Option<char>))
    requires i < |text|
  {
    var c := text[i];
    if c == '\n' then (i + 1, quote)
    else if c == '\\' && quote != Some('\'') then (i + 2, quote)
    else if quote.Some? then (i + 1, if c == quote.value then None else quote)
    else if IsQuote(c) then (i + 1, Some(c))
    else (i + 1, None)
  }

  function TomlTurn(text: string, i: nat, delimiter: string): (r: (nat, string))
    requires i < |text|
  {
    if delimiter != "" then
      if StartsWith(text, i, delimiter) then (i + |delimiter|, "")
      else if text[i] == '\\' && delimiter[0] == '"' then (i + 2, delimiter)
      else (i + 1, delimiter)
    else if IsTriple(text, i) then (i + 3, text[i..i + 3])
    else if IsQuote(text[i]) then (i + 1, [text[i]])
    else (i + 1, "")
  }

  /** One turn of the scanner's loop away from a comment: the next index and mode. */
  function Turn(text: string, i: nat, m: Mode): (r: (nat, Mode))
    requires i < |text|
    ensures r.0 > i
  {
    match m
    case Shell(quote) => var t := ShellTurn(text, i, quote); (t.0, Shell(t.1))
    case Toml(delimiter) => var t := TomlTurn(text, i, delimiter); (t.0, Toml(t.1))
  }

  function Min(a: nat, b: nat): nat {
    if a < b then a else b
  }

  /** The newlines the scanner counts between two indices. */
  function Passed(text: string, i: nat, next: nat): nat
    decreases next - i
  {
    if i < next && i < |text| then (if text[i] == '\n' then 1 else 0) + Passed(text, i + 1, next) else 0
  }

  function Scan(text: string, i: nat, m: Mode, line: nat): (found: seq<Finding>)
    decreases |text| - i
  {
    if i >= |text| then []
    else if IsComment(text, i, m) then
      [Finding(line, i, text[i..LineEnd(text, i)])] + Scan(text, LineEnd(text, i), m, line)
    else
      var (next, mode) := Turn(text, i, m);
      Scan(text, next, mode, line + Passed(text, i, next))
  }

  lemma ScanTurn(text: string, i: nat, m: Mode, line: nat, next: nat, mode: Mode, passed: nat)
    requires i < |text| && !IsComment(text, i, m) && Turn(text, i, m) == (next, mode)
    requires next == i + 1 || next == i + 2 || passed == Passed(text, i, next)
    requires next == i + 1 ==> passed == if text[i] == '\n' then 1 else 0
    requires next == i + 2 ==> text[i] != '\n' && passed == if i + 1 < |text| && text[i + 1] == '\n' then 1 else 0
    ensures Scan(text, i, m, line) == Scan(text, next, mode, line + passed)
  {
    if next == i + 2 && i + 1 < |text| {
      assert Passed(text, i + 1, i + 2) == passed;
    }
  }

  method ShellFindings(text: string, first: nat) returns (found: seq<Finding>)
    ensures found == Scan(text, 0, Shell(None), first)
  {
    found := [];
    var quote: Option<char> := None;
    var line, index := first, 0;
    while index < |text|
      invariant found + Scan(text, index, Shell(quote), line) == Scan(text, 0, Shell(None), first)
      decreases |text| - index
    {
      ghost var i, before, startLine := index, Shell(quote), line;
      var c := text[index];
      if c == '\n' {
        line := line + 1;
      } else if c == '\\' && quote != Some('\'') {
        index := index + 1;
        if index < |text| && text[index] == '\n' {
          line := line + 1;
        }
      } else if quote.Some? {
        if c == quote.value {
          quote := None;
        }
      } else if c == '"' || c == '\'' {
        quote := Some(c);
      } else if c == '#' && (index == 0 || WordBreak(text[index - 1])) {
        var end := LineEnd(text, index);
        found := found + [Finding(line, index, text[index..end])];
        index := end - 1;
      }
      index := index + 1;
      if !IsComment(text, i, before) {
        ScanTurn(text, i, before, startLine, index, Shell(quote), line - startLine);
      }
    }
  }

  lemma {:induction false} NothingPassed(text: string, i: nat, next: nat)
    requires forall k | i <= k < next && k < |text| :: text[k] != '\n'
    ensures Passed(text, i, next) == 0
    decreases next - i
  {
    if i < next { NothingPassed(text, i + 1, next); }
  }

  predicate AllQuotes(d: string) {
    forall k | 0 <= k < |d| :: IsQuote(d[k])
  }

  lemma QuotesPass(text: string, i: nat, d: string)
    requires AllQuotes(d) && StartsWith(text, i, d)
    ensures Passed(text, i, i + |d|) == 0
  {
    assert forall k | i <= k < i + |d| :: text[k] == d[k - i];
    NothingPassed(text, i, i + |d|);
  }

  lemma TripleQuotes(text: string, i: nat)
    requires IsTriple(text, i)
    ensures AllQuotes(text[i..i + 3]) && Passed(text, i, i + 3) == 0 && IsQuote(text[i])
  {
    assert text[i] == text[i..i + 3][0];
    QuotesPass(text, i, text[i..i + 3]);
  }

  lemma ScanComment(text: string, i: nat, m: Mode, line: nat)
    requires i < |text| && IsComment(text, i, m)
    ensures Scan(text, i, m, line)
         == [Finding(line, i, text[i..LineEnd(text, i)])] + Scan(text, LineEnd(text, i), m, line)
  {
  }

  lemma ScanEnd(text: string, i: nat, m: Mode, line: nat)
    requires i >= |text|
    ensures Scan(text, i, m, line) == []
  {
  }

  method TomlFindings(source: string) returns (found: seq<Finding>)
    ensures found == Scan(source, 0, Toml(""), 1)
  {
    hide Scan, LineEnd, Passed;
    found := [];
    var line, index := 1, 0;
    var delimiter := "";
    ghost var expected := Scan(source, 0, Toml(""), 1);
    while index < |source|
      invariant AllQuotes(delimiter)
      invariant found + Scan(source, index, Toml(delimiter), line) == expected
      decreases |source| - index
    {
      ghost var i, before, startLine := index, Toml(delimiter), line;
      if delimiter != "" {
        if StartsWith(source, index, delimiter) {
          QuotesPass(source, index, delimiter);
          assert source[index] == source[index..index + |delimiter|][0];
          index, delimiter := index + |delimiter|, "";
          ScanTurn(source, i, before, line, index, Toml(""), 0);
          continue;
        }
        if source[index] == '\\' && delimiter[0] == '"' {
          index := index + 1;
        }
      } else if StartsWith(source, index, TRIPLE_DOUBLE) || StartsWith(source, index, TRIPLE_SINGLE) {
        TripleQuotes(source, index);
        delimiter := source[index..index + 3];
        index := index + 3;
        ScanTurn(source, i, before, line, index, Toml(delimiter), 0);
        continue;
      } else if source[index] == '"' || source[index] == '\'' {
        delimiter := [source[index]];
      } else if source[index] == '#' {
        ScanComment(source, index, before, line);
        var end := LineEnd(source, index);
        found := found + [Finding(line, index, source[index..end])];
        index := end;
        continue;
      }
      if index < |source| && source[index] == '\n' {
        line := line + 1;
      }
      index := index + 1;
      ScanTurn(source, i, before, startLine, index, Toml(delimiter), line - startLine);
    }
    ScanEnd(source, index, Toml(delimiter), line);
  }

  /** What is left of the text from `i` on once the scanner's comments are cut out. */
  function Kept(text: string, i: nat, m: Mode): string
    decreases |text| - i
  {
    if i >= |text| then ""
    else if IsComment(text, i, m) then Kept(text, LineEnd(text, i), m)
    else text[i..Min(Turn(text, i, m).0, |text|)] + Kept(text, Turn(text, i, m).0, Turn(text, i, m).1)
  }

  lemma {:induction false} FoundLater(text: string, i: nat, m: Mode, line: nat)
    ensures var found := Scan(text, i, m, line);
            found != [] ==> i <= found[0].start < |text|
    decreases |text| - i
  {
    if i < |text| && !IsComment(text, i, m) {
      var (next, mode) := Turn(text, i, m);
      FoundLater(text, next, mode, line + Passed(text, i, next));
    }
  }

  lemma DeleteOne(text: string, found: seq<Finding>, from: nat)
    requires found != [] && from <= found[0].start <= |text|
    ensures Delete(text, found, from)
         == text[from..found[0].start] + Delete(text, found[1..], found[0].start + |found[0].text|)
  {
  }

  lemma SliceSplit(text: string, a: nat, b: nat, c: nat)
    requires a <= b <= c <= |text|
    ensures text[a..c] == text[a..b] + text[b..c]
  {
  }

  lemma DeletePrefix(text: string, found: seq<Finding>, from: nat, to: nat)
    requires from <= to && from < |text| && (found != [] ==> to <= found[0].start < |text|)
    ensures Delete(text, found, from) == text[from..Min(to, |text|)] + Delete(text, found, to)
  {
    if found == [] {
      if to <= |text| { SliceSplit(text, from, to, |text|); }
    } else {
      hide Delete;
      var rest := Delete(text, found[1..], found[0].start + |found[0].text|);
      DeleteOne(text, found, from);
      DeleteOne(text, found, to);
      SliceSplit(text, from, to, found[0].start);
      assert (text[from..to] + text[to..found[0].start]) + rest == text[from..to] + (text[to..found[0].start] + rest);
    }
  }

  lemma DeleteNothing(text: string, from: nat)
    requires from >= |text|
    ensures Delete(text, [], from) == ""
  {
  }

  lemma DeleteComment(text: string, f: Finding, found: seq<Finding>)
    requires f.start <= |text|
    ensures Delete(text, [f] + found, f.start) == Delete(text, found, f.start + |f.text|)
  {
    hide Delete;
    DeleteOne(text, [f] + found, f.start);
    assert ([f] + found)[1..] == found;
  }

  lemma {:induction false} DeleteIsKept(text: string, i: nat, m: Mode, line: nat)
    ensures Delete(text, Scan(text, i, m, line), i) == Kept(text, i, m)
    decreases |text| - i
  {
    hide Delete;
    hide Turn;
    if i >= |text| {
      DeleteNothing(text, i);
    }
    if i < |text| {
      if IsComment(text, i, m) {
        var e := LineEnd(text, i);
        DeleteIsKept(text, e, m, line);
        DeleteComment(text, Finding(line, i, text[i..e]), Scan(text, e, m, line));
      } else {
        var (next, mode) := Turn(text, i, m);
        var l := line + Passed(text, i, next);
        DeleteIsKept(text, next, mode, l);
        FoundLater(text, next, mode, l);
        DeletePrefix(text, Scan(text, next, mode, l), i, next);
      }
    }
  }
  /** The modes the two scanners can be in. */
  predicate Formed(m: Mode) {
    m.Toml? ==> |m.delimiter| <= 3 && |m.delimiter| != 2 && AllQuotes(m.delimiter)
                && forall k | 0 <= k < |m.delimiter| :: m.delimiter[k] == m.delimiter[0]
  }

  lemma TurnForms(text: string, i: nat, m: Mode)
    requires i < |text| && Formed(m)
    ensures Formed(Turn(text, i, m).1)
  {
    if m.Toml? && m.delimiter == "" && IsTriple(text, i) {
      TripleQuotes(text, i);
    }
  }

  lemma KeptFirst(text: string, i: nat, m: Mode)
    requires i < |text| && !IsComment(text, i, m)
    ensures Kept(text, i, m) != "" && Kept(text, i, m)[0] == text[i]
  {
  }

  lemma KeptTurn(text: string, i: nat, m: Mode)
    requires i < |text| && !IsComment(text, i, m)
    ensures Kept(text, i, m)
         == text[i..Min(Turn(text, i, m).0, |text|)] + Kept(text, Turn(text, i, m).0, Turn(text, i, m).1)
  {
  }

  /** A quote that is kept next was next in the text: a cut comment is followed by a line end. */
  lemma KeptQuote(text: string, i: nat, m: Mode)
    requires Kept(text, i, m) != "" && IsQuote(Kept(text, i, m)[0])
    ensures i < |text| && text[i] == Kept(text, i, m)[0]
  {
    if !IsComment(text, i, m) {
      KeptFirst(text, i, m);
    } else if LineEnd(text, i) < |text| {
      KeptFirst(text, LineEnd(text, i), m);
    }
  }

  predicate Three(text: string, i: nat, q: char) {
    i + 2 < |text| && text[i] == q && text[i + 1] == q && text[i + 2] == q
  }

  lemma ThreeStart(text: string, i: nat, q: char)
    ensures Three(text, i, q) <==> StartsWith(text, i, [q, q, q])
  {
    if i + 2 < |text| {
      assert text[i..i + 3] == [text[i], text[i + 1], text[i + 2]];
    }
  }

  lemma OneStart(text: string, i: nat, q: char)
    ensures StartsWith(text, i, [q]) <==> i < |text| && text[i] == q
  {
    if i < |text| {
      assert text[i..i + 1] == [text[i]];
    }
  }

  lemma ThreeClosing(text: string, i: nat, q: char)
    requires i < |text| && IsQuote(q) && Three(Kept(text, i, Toml([q, q, q])), 0, q)
    ensures Three(text, i, q)
  {
    hide Kept;
    var m := Toml([q, q, q]);
    ThreeStart(text, i, q);
    ThreeStart(text, i + 1, q);
    KeptQuote(text, i, m);
    if !Three(text, i, q) {
      KeptTurn(text, i, m);
      KeptQuote(text, i + 1, m);
      if !Three(text, i + 1, q) {
        KeptTurn(text, i + 1, m);
        KeptQuote(text, i + 2, m);
      }
    }
  }

  lemma ThreeOpening(text: string, i: nat, q: char)
    requires i < |text| && IsQuote(q) && Three(Kept(text, i, Toml("")), 0, q)
    ensures Three(text, i, q)
  {
    hide Kept;
    var m := Toml("");
    ThreeStart(text, i, '"');
    ThreeStart(text, i, '\'');
    KeptQuote(text, i, m);
    if !Three(text, i, q) {
      KeptTurn(text, i, m);
      KeptQuote(text, i + 1, Toml([q]));
      OneStart(text, i + 1, q);
      KeptTurn(text, i + 1, Toml([q]));
      KeptQuote(text, i + 2, m);
    }
  }

  lemma KeptSpan(text: string, i: nat, m: Mode, d: string)
    requires i < |text| && !IsComment(text, i, m) && StartsWith(text, i, d) && Turn(text, i, m).0 == i + |d|
    ensures StartsWith(Kept(text, i, m), 0, d)
  {
    KeptTurn(text, i, m);
    var (next, mode) := Turn(text, i, m);
    hide Kept, Turn;
    assert (text[i..next] + Kept(text, next, mode))[0..|d|] == text[i..next];
  }

  /** Cutting comments out makes no closing delimiter of an open TOML string, and breaks none. */
  lemma SameClosing(text: string, i: nat, m: Mode)
    requires i < |text| && m.Toml? && m.delimiter != "" && Formed(m)
    ensures StartsWith(Kept(text, i, m), 0, m.delimiter) <==> StartsWith(text, i, m.delimiter)
  {
    hide Kept;
    var d, kept := m.delimiter, Kept(text, i, m);
    if StartsWith(text, i, d) {
      KeptSpan(text, i, m, d);
    } else if |d| == 1 {
      KeptFirst(text, i, m);
      OneStart(text, i, d[0]);
      OneStart(kept, 0, d[0]);
      assert d == [d[0]];
    } else {
      assert d == [d[0], d[0], d[0]];
      ThreeStart(text, i, d[0]);
      ThreeStart(kept, 0, d[0]);
      if Three(kept, 0, d[0]) { ThreeClosing(text, i, d[0]); }
    }
  }

  /** The same for the three quotes that open a TOML string. */
  lemma SameOpening(text: string, i: nat, q: char)
    requires i < |text| && text[i] != '#' && IsQuote(q)
    ensures StartsWith(Kept(text, i, Toml("")), 0, [q, q, q]) <==> StartsWith(text, i, [q, q, q])
  {
    hide Kept;
    ThreeStart(text, i, q);
    ThreeStart(Kept(text, i, Toml("")), 0, q);
    if Three(text, i, q) {
      KeptSpan(text, i, Toml(""), [q, q, q]);
    } else if Three(Kept(text, i, Toml("")), 0, q) {
      ThreeOpening(text, i, q);
    }
  }

  lemma StartsWithin(kept: string, rest: string, d: string)
    ensures StartsWith(kept + rest, |kept|, d) <==> StartsWith(rest, 0, d)
  {
    if |d| <= |rest| {
      assert (kept + rest)[|kept|..|kept| + |d|] == rest[0..|d|];
    }
  }

  /** The character before `i` is the last one kept, or a line ends at `i` and it is never asked for. */
  predicate SamePrevious(kept: string, text: string, i: nat) {
    if i == 0 then kept == ""
    else
      || i >= |text| || text[i] == '\n'
      || (kept != "" && kept[|kept| - 1] == text[i - 1])
  }

  lemma SameShellTurn(kept: string, text: string, i: nat, quote: Option<char>)
    requires i < |text| && !IsComment(text, i, Shell(quote)) && SamePrevious(kept, text, i)
    ensures var again := kept + Kept(text, i, Shell(quote));
            && |kept| < |again| && !IsComment(again, |kept|, Shell(quote))
            && ShellTurn(again, |kept|, quote) == (|kept| + ShellTurn(text, i, quote).0 - i, ShellTurn(text, i, quote).1)
  {
    hide Kept;
    KeptFirst(text, i, Shell(quote));
  }

  lemma SameTomlTurn(kept: string, text: string, i: nat, delimiter: string)
    requires i < |text| && !IsComment(text, i, Toml(delimiter)) && Formed(Toml(delimiter))
    ensures var again := kept + Kept(text, i, Toml(delimiter));
            && |kept| < |again| && !IsComment(again, |kept|, Toml(delimiter))
            && TomlTurn(again, |kept|, delimiter) == (|kept| + TomlTurn(text, i, delimiter).0 - i, TomlTurn(text, i, delimiter).1)
  {
    hide Kept;
    var rest := Kept(text, i, Toml(delimiter));
    KeptFirst(text, i, Toml(delimiter));
    if delimiter == "" {
      StartsWithin(kept, rest, TRIPLE_DOUBLE);
      StartsWithin(kept, rest, TRIPLE_SINGLE);
      SameOpening(text, i, '"');
      SameOpening(text, i, '\'');
    } else {
      StartsWithin(kept, rest, delimiter);
      SameClosing(text, i, Toml(delimiter));
    }
  }

  /** The scanner takes the same turn on the stripped text. */
  lemma SameTurn(kept: string, text: string, i: nat, m: Mode)
    requires i < |text| && !IsComment(text, i, m) && SamePrevious(kept, text, i) && Formed(m)
    ensures var again := kept + Kept(text, i, m);
            && |kept| < |again| && !IsComment(again, |kept|, m)
            && Turn(again, |kept|, m) == (|kept| + Turn(text, i, m).0 - i, Turn(text, i, m).1)
  {
    hide Kept, ShellTurn, TomlTurn;
    match m
    case Shell(quote) => SameShellTurn(kept, text, i, quote);
    case Toml(delimiter) => SameTomlTurn(kept, text, i, delimiter);
  }

  lemma KeptSkip(text: string, i: nat, m: Mode)
    requires i < |text| && IsComment(text, i, m)
    ensures Kept(text, i, m) == Kept(text, LineEnd(text, i), m)
    ensures LineEnd(text, i) > i && forall kept | SamePrevious(kept, text, i) :: SamePrevious(kept, text, LineEnd(text, i))
  {
  }

  lemma ScanNext(text: string, i: nat, m: Mode, line: nat)
    requires i < |text| && !IsComment(text, i, m)
    ensures Scan(text, i, m, line) == Scan(text, Turn(text, i, m).0, Turn(text, i, m).1, line + Passed(text, i, Turn(text, i, m).0))
  {
  }

  lemma {:induction false} Rescan(kept: string, text: string, i: nat, m: Mode, line: nat)
    requires SamePrevious(kept, text, i) && Formed(m)
    ensures Scan(kept + Kept(text, i, m), |kept|, m, line) == []
    decreases |text| - i
  {
    hide Kept, Scan, Turn, Passed, LineEnd, SamePrevious, IsComment, Formed;
    var again := kept + Kept(text, i, m);
    if i >= |text| {
      KeptEnd(text, i, m);
      ScanEnd(again, |kept|, m, line);
    } else if IsComment(text, i, m) {
      KeptSkip(text, i, m);
      Rescan(kept, text, LineEnd(text, i), m, line);
    } else {
      var (next, mode) := Turn(text, i, m);
      SameTurn(kept, text, i, m);
      TurnForms(text, i, m);
      RescanRest(kept, text, i, m);
      ScanNext(again, |kept|, m, line);
      var l := line + Passed(again, |kept|, |kept| + next - i);
      if next <= |text| {
        Rescan(kept + text[i..next], text, next, mode, l);
      } else {
        ScanEnd(again, |kept| + next - i, mode, l);
      }
    }
  }

  lemma RescanRest(kept: string, text: string, i: nat, m: Mode)
    requires i < |text| && !IsComment(text, i, m)
    ensures var (next, mode) := Turn(text, i, m);
            var more := kept + text[i..Min(next, |text|)];
            && SamePrevious(more, text, next)
            && kept + Kept(text, i, m) == more + Kept(text, next, mode)
            && (next > |text| ==> |kept| + next - i > |kept + Kept(text, i, m)|)
  {
    KeptTurn(text, i, m);
    var (next, mode) := Turn(text, i, m);
    hide Kept, Turn;
    assert kept + (text[i..Min(next, |text|)] + Kept(text, next, mode)) == kept + text[i..Min(next, |text|)] + Kept(text, next, mode);
    if next > |text| { KeptEnd(text, next, mode); }
  }

  lemma KeptEnd(text: string, i: nat, m: Mode)
    requires i >= |text|
    ensures Kept(text, i, m) == ""
  {
  }

  lemma {:induction false} PassedNewlines(text: string, i: nat, next: nat)
    requires i <= next && i <= |text|
    ensures Newlines(text[..i]) + Passed(text, i, next) == Newlines(text[..Min(next, |text|)])
    decreases next - i
  {
    if i < next && i < |text| {
      NewlinesStep(text, i);
      PassedNewlines(text, i + 1, next);
    }
  }

  lemma {:induction false} AllLocated(text: string, i: nat, m: Mode, first: nat, line: nat)
    requires line == first + Newlines(text[..Min(i, |text|)])
    ensures forall f | f in Scan(text, i, m, line) :: Located(text, first, f)
    decreases |text| - i
  {
    if i < |text| {
      if IsComment(text, i, m) {
        NewlinesSpan(text, i, LineEnd(text, i));
        AllLocated(text, LineEnd(text, i), m, first, line);
      } else {
        var (next, mode) := Turn(text, i, m);
        PassedNewlines(text, i, next);
        AllLocated(text, next, mode, first, line + Passed(text, i, next));
      }
    }
  }

  lemma Stripped(text: string, m: Mode, first: nat, again: nat)
    requires Formed(m)
    ensures Scan(Delete(text, Scan(text, 0, m, first), 0), 0, m, again) == []
    ensures forall f | f in Scan(text, 0, m, first) :: Located(text, first, f)
  {
    DeleteIsKept(text, 0, m, first);
    Rescan("", text, 0, m, again);
    hide Scan, Delete, Kept;
    assert "" + Kept(text, 0, m) == Kept(text, 0, m);
    assert text[..0] == "";
    AllLocated(text, 0, m, first, first);
  }

  /** Cutting out every shell comment leaves text with no comment; each is on its true line. */
  lemma ShellStripped(text: string, first: nat, again: nat)
    ensures Scan(Delete(text, Scan(text, 0, Shell(None), first), 0), 0, Shell(None), again) == []
    ensures forall f | f in Scan(text, 0, Shell(None), first) :: Located(text, first, f)
  {
    Stripped(text, Shell(None), first, again);
  }

  /** The same of TOML comments. */
  lemma TomlStripped(text: string)
    ensures Scan(Delete(text, Scan(text, 0, Toml(""), 1), 0), 0, Toml(""), 1) == []
    ensures forall f | f in Scan(text, 0, Toml(""), 1) :: Located(text, 1, f)
  {
    Stripped(text, Toml(""), 1, 1);
  }

  // ---------------------------------------------------------------- one line of YAML

  predicate Blank(c: char) {
    c == ' ' || c == '\t'
  }

  /** Is there nothing, or a blank, right after `i`? */
  predicate BlankAfter(line: string, i: nat) {
    i + 1 >= |line| || Blank(line[i + 1])
  }

  /** The last index of the tag or anchor that starts at `i`. */
  function TagEnd(line: string, i: nat): (e: nat)
    requires i < |line|
    ensures i <= e < |line| && BlankAfter(line, e)
    ensures forall k | i < k <= e :: !Blank(line[k])
    decreases |line| - i
  {
    if BlankAfter(line, i) then i else TagEnd(line, i + 1)
  }

  datatype YamlMode = YamlMode(quote: Option<char>, nodeStart: bool, depth: nat)

  predicate YamlComment(line: string, i: nat, m: YamlMode)
    requires i < |line|
  {
    m.quote.None? && line[i] == '#' && (i == 0 || Blank(line[i - 1]))
  }

  /** One turn of the scanner's loop away from a comment: the next index and mode. */
  function YamlTurn(line: string, i: nat, m: YamlMode): (r: (nat, YamlMode))
    requires i < |line|
    ensures r.0 > i
  {
    var c := line[i];
    if m.quote.Some? then
      if m.quote.value == '"' && c == '\\' then (i + 2, m)
      else if c == m.quote.value && c == '\'' && i + 1 < |line| && line[i + 1] == '\'' then (i + 2, m)
      else if c == m.quote.value then (i + 1, m.(quote := None))
      else (i + 1, m)
    else if c == ':' && (m.depth > 0 || BlankAfter(line, i)) then (i + 1, m.(nodeStart := true))
    else if c == ',' && m.depth > 0 then (i + 1, m.(nodeStart := true))
    else if (c == '[' || c == '{') && (m.nodeStart || m.depth > 0) then
      (i + 1, m.(depth := m.depth + 1, nodeStart := true))
    else if (c == ']' || c == '}') && m.depth > 0 then (i + 1, m.(depth := m.depth - 1))
    else if m.nodeStart && (c == '-' || c == '?') && BlankAfter(line, i) then (i + 1, m)
    else if m.nodeStart && (c == '!' || c == '&') then (TagEnd(line, i) + 1, m)
    else if m.nodeStart && (c == '"' || c == '\'') then (i + 1, m.(quote := Some(c), nodeStart := false))
    else if !Blank(c) then (i + 1, m.(nodeStart := false))
    else (i + 1, m)
  }

  function YamlColumn(line: string, i: nat, m: YamlMode): (column: Option<nat>)
    ensures column.Some? ==> i <= column.value < |line| && line[column.value] == '#'
                             && (column.value == 0 || Blank(line[column.value - 1]))
    decreases |line| - i
  {
    if i >= |line| then None
    else if YamlComment(line, i, m) then Some(i)
    else YamlColumn(line, YamlTurn(line, i, m).0, YamlTurn(line, i, m).1)
  }

  const YAML_START := YamlMode(None, true, 0)

  method YamlCommentColumn(line: string) returns (column: Option<nat>)
    ensures column == YamlColumn(line, 0, YAML_START)
  {
    var quote: Option<char> := None;
    var nodeStart, depth, index := true, 0, 0;
    while index < |line|
      invariant YamlColumn(line, index, YamlMode(quote, nodeStart, depth)) == YamlColumn(line, 0, YAML_START)
      decreases |line| - index
    {
      var c := line[index];
      if quote.Some? {
        if quote.value == '"' && c == '\\' {
          index := index + 1;
        } else if c == quote.value && quote.value == '\'' && index + 1 < |line| && line[index + 1] == '\'' {
          index := index + 1;
        } else if c == quote.value {
          quote := None;
        }
      } else if c == '#' && (index == 0 || Blank(line[index - 1])) {
        return Some(index);
      } else if c == ':' && (depth > 0 || BlankAfter(line, index)) {
        nodeStart := true;
      } else if c == ',' && depth > 0 {
        nodeStart := true;
      } else if (c == '[' || c == '{') && (nodeStart || depth > 0) {
        depth, nodeStart := depth + 1, true;
      } else if (c == ']' || c == '}') && depth > 0 {
        depth := depth - 1;
      } else if nodeStart && (c == '-' || c == '?') && BlankAfter(line, index) {
      } else if nodeStart && (c == '!' || c == '&') {
        ghost var start := index;
        while index + 1 < |line| && !Blank(line[index + 1])
          invariant start <= index < |line| && TagEnd(line, index) == TagEnd(line, start)
          decreases |line| - index
        {
          index := index + 1;
        }
      } else if nodeStart && (c == '"' || c == '\'') {
        quote, nodeStart := Some(c), false;
      } else if !Blank(c) {
        nodeStart := false;
      }
      index := index + 1;
    }
    column := None;
  }

  lemma {:induction false} TagEndInPrefix(line: string, i: nat, column: nat)
    requires i < column - 1 < |line| - 1 && Blank(line[column - 1]) && !Blank(line[i])
    ensures TagEnd(line[..column], i) == TagEnd(line, i) < column - 1
    decreases column - i
  {
    if !BlankAfter(line, i) {
      TagEndInPrefix(line, i + 1, column);
    }
  }

  lemma {:induction false} YamlRescan(line: string, i: nat, m: YamlMode, column: nat)
    requires YamlColumn(line, i, m) == Some(column)
    ensures YamlColumn(line[..column], i, m) == None
    decreases |line| - i
  {
    if i < column {
      var (next, mode) := YamlTurn(line, i, m);
      assert Blank(line[column - 1]);
      if m.quote.None? && m.nodeStart && (line[i] == '!' || line[i] == '&') && next != i + 1 {
        TagEndInPrefix(line, i, column);
      }
      YamlRescan(line, next, mode, column);
      assert next <= column;
      assert YamlTurn(line[..column], i, m) == (next, mode);
    }
  }

  /** Cutting a YAML line at its comment column leaves a line with no comment. */
  lemma YamlStripped(line: string)
    ensures var column := YamlColumn(line, 0, YAML_START);
            column.Some? ==> YamlColumn(line[..column.value], 0, YAML_START) == None
  {
    var column := YamlColumn(line, 0, YAML_START);
    if column.Some? {
      YamlRescan(line, 0, YAML_START, column.value);
    }
  }
}
