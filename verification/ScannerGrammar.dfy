/**
 What the comment scanners find, against a grammar of the text: shell and TOML text is a sequence
 of plain characters, escapes, quoted strings and comments, and the findings are its comments.
 */
module CommentGrammar {
  import opened Common
  import opened CommentScanners

  datatype Language = ShellText | TomlText

  datatype Kind = Plain | Escape | Quotation | Comment

  /** A part of the text, from an index up to another. */
  datatype Piece = Piece(kind: Kind, from: nat, end: nat)

  /** A comment starts at the start of a shell text or after a space, tab, line end or one of `;&|(`; in TOML anywhere. */
  predicate MayComment(lang: Language, text: string, i: nat)
    requires i < |text|
  {
    text[i] == '#' && (lang.ShellText? ==> i == 0 || text[i - 1] in " \t\n;&|(")
  }

  predicate SameAt(text: string, i: nat, d: string) {
    i + |d| <= |text| && forall k | 0 <= k < |d| :: text[i + k] == d[k]
  }

  /** A quotation with delimiter `d`, read from `i` on, ends at `end`: after its first unescaped delimiter, or with the text. */
  predicate Closes(text: string, i: nat, d: string, end: nat)
    decreases |text| - i
  {
    if i >= |text| then end == |text|
    else if d != "" && SameAt(text, i, d) then end == i + |d|
    else if d != "" && d[0] == '"' && text[i] == '\\' then Closes(text, i + 2, d, end)
    else Closes(text, i + 1, d, end)
  }

  /** The delimiter a quote at `i` opens: in TOML three of a kind count as one. */
  function Opens(lang: Language, text: string, i: nat): string
    requires i < |text|
  {
    var q := text[i];
    if lang.TomlText? && SameAt(text, i, [q, q, q]) then [q, q, q] else [q]
  }

  predicate IsPiece(lang: Language, text: string, p: Piece) {
    && p.from < p.end <= |text|
    && var c := text[p.from];
       match p.kind
       case Plain => p.end == p.from + 1 && c != '"' && c != '\'' && !MayComment(lang, text, p.from) && (lang.ShellText? ==> c != '\\')
       case Escape => lang.ShellText? && c == '\\' && (p.end == p.from + 2 || p.end == |text| == p.from + 1)
       case Quotation => (c == '"' || c == '\'') && Closes(text, p.from + |Opens(lang, text, p.from)|, Opens(lang, text, p.from), p.end)
       case Comment => MayComment(lang, text, p.from) && '\n' !in text[p.from..p.end] && (p.end < |text| ==> text[p.end] == '\n')
  }

  /** The pieces make up the text from `i` on. */
  ghost predicate Reads(lang: Language, text: string, i: nat, pieces: seq<Piece>)
    decreases |pieces|
  {
    if pieces == [] then i >= |text|
    else pieces[0].from == i && IsPiece(lang, text, pieces[0]) && Reads(lang, text, pieces[0].end, pieces[1..])
  }

  function Comments(pieces: seq<Piece>): seq<nat> {
    if pieces == [] then []
    else (if pieces[0].kind.Comment? then [pieces[0].from] else []) + Comments(pieces[1..])
  }

  function Starts(found: seq<Finding>): seq<nat> {
    if found == [] then [] else [found[0].start] + Starts(found[1..])
  }

  // ---------------------------------------------------------------- where the scanner reports

  function Outside(lang: Language): Mode {
    if lang.ShellText? then Shell(None) else Toml("")
  }

  /** Where the scanner reports comments from `i` on. */
  function Marks(text: string, i: nat, m: Mode): seq<nat>
    decreases |text| - i
  {
    if i >= |text| then []
    else if IsComment(text, i, m) then [i] + Marks(text, LineEnd(text, i), m)
    else Marks(text, Turn(text, i, m).0, Turn(text, i, m).1)
  }

  lemma {:induction false} MarksAreStarts(text: string, i: nat, m: Mode, line: nat)
    ensures Starts(Scan(text, i, m, line)) == Marks(text, i, m)
    decreases |text| - i
  {
    if i < |text| {
      if IsComment(text, i, m) {
        MarksAreStarts(text, LineEnd(text, i), m, line);
      } else {
        var (next, mode) := Turn(text, i, m);
        MarksAreStarts(text, next, mode, line + Passed(text, i, next));
      }
    }
  }

  lemma SameStart(text: string, i: nat, d: string)
    ensures SameAt(text, i, d) <==> StartsWith(text, i, d)
  {
    if i + |d| <= |text| {
      var w := text[i..i + |d|];
      assert forall k | 0 <= k < |d| :: w[k] == text[i + k];
    }
  }

  lemma PastEnd(text: string, i: nat, m: Mode)
    requires i >= |text|
    ensures Marks(text, i, m) == []
  {
  }

  /** Inside a shell quotation nothing is reported up to its end. */
  lemma {:induction false} ShellQuotation(text: string, i: nat, q: char, end: nat)
    requires IsQuote(q) && Closes(text, i, [q], end)
    ensures Marks(text, i, Shell(Some(q))) == Marks(text, end, Shell(None))
    decreases |text| - i
  {
    assert i < |text| ==> (SameAt(text, i, [q]) <==> text[i] == [q][0]);
    if i < |text| && !SameAt(text, i, [q]) {
      ShellQuotation(text, if q == '"' && text[i] == '\\' then i + 2 else i + 1, q, end);
    }
  }

  /** Nor inside a TOML string. */
  lemma {:induction false} TomlQuotation(text: string, i: nat, d: string, end: nat)
    requires d != "" && Closes(text, i, d, end)
    ensures Marks(text, i, Toml(d)) == Marks(text, end, Toml(""))
    decreases |text| - i
  {
    SameStart(text, i, d);
    if i < |text| && !SameAt(text, i, d) {
      TomlQuotation(text, if d[0] == '"' && text[i] == '\\' then i + 2 else i + 1, d, end);
    }
  }

  lemma OpensTriple(text: string, i: nat)
    requires i < |text| && IsQuote(text[i])
    ensures var d := Opens(TomlText, text, i);
            (IsTriple(text, i) <==> d == [text[i], text[i], text[i]]) && (IsTriple(text, i) ==> text[i..i + 3] == d) && (!IsTriple(text, i) ==> d == [text[i]])
  {
    var q := text[i];
    SameStart(text, i, [q, q, q]);
    SameStart(text, i, TRIPLE_DOUBLE);
    SameStart(text, i, TRIPLE_SINGLE);
    assert q == '"' ==> [q, q, q] == TRIPLE_DOUBLE;
    assert q == '\'' ==> [q, q, q] == TRIPLE_SINGLE;
  }

  /** A comment runs to the end of its line. */
  lemma CommentEnds(text: string, from: nat, end: nat)
    requires from < end <= |text| && '\n' !in text[from..end] && (end < |text| ==> text[end] == '\n')
    ensures LineEnd(text, from) == end
  {
    assert forall k | from <= k < end :: text[k] == text[from..end][k - from];
  }

  lemma NotTriple(text: string, i: nat)
    requires i < |text| && !IsQuote(text[i])
    ensures !IsTriple(text, i)
  {
    SameStart(text, i, TRIPLE_DOUBLE);
    SameStart(text, i, TRIPLE_SINGLE);
  }

  lemma ShellPiece(text: string, p: Piece)
    requires IsPiece(ShellText, text, p)
    ensures Marks(text, p.from, Shell(None)) == (if p.kind.Comment? then [p.from] else []) + Marks(text, p.end, Shell(None))
  {
    match p.kind
    case Comment => CommentEnds(text, p.from, p.end);
    case Quotation => ShellQuotation(text, p.from + 1, text[p.from], p.end);
    case _ =>
  }

  lemma TomlPiece(text: string, p: Piece)
    requires IsPiece(TomlText, text, p)
    ensures Marks(text, p.from, Toml("")) == (if p.kind.Comment? then [p.from] else []) + Marks(text, p.end, Toml(""))
  {
    match p.kind
    case Comment => CommentEnds(text, p.from, p.end); NotTriple(text, p.from);
    case Quotation =>
      var d := Opens(TomlText, text, p.from);
      OpensTriple(text, p.from);
      TomlQuotation(text, p.from + |d|, d, p.end);
    case Plain => NotTriple(text, p.from);
    case Escape =>
  }

  lemma {:induction false} MarksAreComments(lang: Language, text: string, i: nat, pieces: seq<Piece>)
    requires Reads(lang, text, i, pieces)
    ensures Marks(text, i, Outside(lang)) == Comments(pieces)
    decreases |pieces|
  {
    hide Marks, IsPiece;
    if pieces == [] {
      PastEnd(text, i, Outside(lang));
    } else {
      var p := pieces[0];
      if lang.ShellText? { ShellPiece(text, p); } else { TomlPiece(text, p); }
      MarksAreComments(lang, text, p.end, pieces[1..]);
    }
  }

  // ---------------------------------------------------------------- every text can be read

  lemma {:induction false} QuotationEnd(text: string, i: nat, d: string) returns (end: nat)
    requires i <= |text| && d != ""
    ensures Closes(text, i, d, end) && i <= end <= |text|
    decreases |text| - i
  {
    if i == |text| {
      end := i;
    } else if SameAt(text, i, d) {
      end := i + |d|;
    } else if d[0] == '"' && text[i] == '\\' {
      if i + 2 <= |text| { end := QuotationEnd(text, i + 2, d); } else { end := |text|; }
    } else {
      end := QuotationEnd(text, i + 1, d);
    }
  }

  lemma NextPiece(lang: Language, text: string, i: nat) returns (p: Piece)
    requires i < |text|
    ensures p.from == i && IsPiece(lang, text, p)
  {
    var c := text[i];
    if MayComment(lang, text, i) {
      p := Piece(Comment, i, LineEnd(text, i));
    } else if IsQuote(c) {
      var d := Opens(lang, text, i);
      var end := QuotationEnd(text, i + |d|, d);
      p := Piece(Quotation, i, end);
    } else if c == '\\' && lang.ShellText? {
      p := Piece(Escape, i, if i + 2 <= |text| then i + 2 else i + 1);
    } else {
      p := Piece(Plain, i, i + 1);
    }
  }

  /** Every text can be read, so what is said of its pieces is never empty. */
  lemma {:induction false} EveryTextReads(lang: Language, text: string, i: nat) returns (pieces: seq<Piece>)
    requires i <= |text|
    ensures Reads(lang, text, i, pieces)
    decreases |text| - i
  {
    hide IsPiece;
    pieces := [];
    if i < |text| {
      var p := NextPiece(lang, text, i);
      PieceWithin(lang, text, p);
      var rest := EveryTextReads(lang, text, p.end);
      pieces := [p] + rest;
      assert pieces[1..] == rest;
    }
  }

  lemma PieceWithin(lang: Language, text: string, p: Piece)
    requires IsPiece(lang, text, p)
    ensures p.from < p.end <= |text|
  {
  }

  // ---------------------------------------------------------------- the findings are the comments

  /** However a shell text is read, the scanner finds its comments and nothing else. */
  lemma ShellFindsComments(text: string, first: nat, pieces: seq<Piece>)
    requires Reads(ShellText, text, 0, pieces)
    ensures Starts(Scan(text, 0, Shell(None), first)) == Comments(pieces)
  {
    MarksAreStarts(text, 0, Shell(None), first);
    MarksAreComments(ShellText, text, 0, pieces);
  }

  /** However a TOML text is read, the scanner finds its comments and nothing else. */
  lemma TomlFindsComments(text: string, pieces: seq<Piece>)
    requires Reads(TomlText, text, 0, pieces)
    ensures Starts(Scan(text, 0, Toml(""), 1)) == Comments(pieces)
  {
    MarksAreStarts(text, 0, Toml(""), 1);
    MarksAreComments(TomlText, text, 0, pieces);
  }

  // ---------------------------------------------------------------- one line of YAML

  /** A `#` at the start of a line or after a blank. */
  predicate YamlMark(line: string, k: nat) {
    k < |line| && line[k] == '#' && (k == 0 || line[k - 1] == ' ' || line[k - 1] == '\t')
  }

  /** No quotation can be open before `k`. */
  predicate NoQuoteBefore(line: string, k: nat)
    requires k <= |line|
  {
    '"' !in line[..k] && '\'' !in line[..k]
  }

  lemma {:induction false} YamlFinds(line: string, i: nat, m: YamlMode, k: nat)
    requires i <= k && YamlMark(line, k) && NoQuoteBefore(line, k) && m.quote.None?
    ensures YamlColumn(line, i, m).Some? && YamlColumn(line, i, m).value <= k
    decreases |line| - i
  {
    if !YamlComment(line, i, m) {
      var (next, mode) := YamlTurn(line, i, m);
      assert line[i] == line[..k][i];
      assert next <= k;
      YamlFinds(line, next, mode, k);
    }
  }

  /**
   With no quote before it, the first `#` at the start or after a blank is the comment; and a line
   is cut only at such a `#`.
   */
  lemma YamlFindsFirst(line: string, k: nat)
    requires YamlMark(line, k) && NoQuoteBefore(line, k) && forall j | 0 <= j < k :: !YamlMark(line, j)
    ensures YamlColumn(line, 0, YAML_START) == Some(k)
  {
    YamlFinds(line, 0, YAML_START, k);
    assert YamlMark(line, YamlColumn(line, 0, YAML_START).value);
  }

  lemma YamlCutsAtMarks(line: string)
    ensures var column := YamlColumn(line, 0, YAML_START); column.Some? ==> YamlMark(line, column.value)
  {
  }

  /** Inside a quoted scalar that starts the line nothing is reported before its end. */
  lemma {:induction false} YamlInside(line: string, i: nat, m: YamlMode, q: char, end: nat)
    requires IsQuote(q) && m.quote == Some(q) && YamlCloses(line, i, q, end)
    ensures YamlColumn(line, i, m) == YamlColumn(line, end, if YamlClosed(line, i, q) then m.(quote := None) else m)
    decreases |line| - i
  {
    if i < |line| {
      if line[i] == q && !(q == '\'' && i + 1 < |line| && line[i + 1] == q) {
      } else if (q == '"' && line[i] == '\\') || line[i] == q {
        YamlInside(line, i + 2, m, q, end);
      } else {
        YamlInside(line, i + 1, m, q, end);
      }
    }
  }

  /** Does the quotation read from `i` on have an end in this line? */
  predicate YamlClosed(line: string, i: nat, q: char)
    decreases |line| - i
  {
    if i >= |line| then false
    else if line[i] == q && !(q == '\'' && i + 1 < |line| && line[i + 1] == q) then true
    else if (q == '"' && line[i] == '\\') || line[i] == q then YamlClosed(line, i + 2, q)
    else YamlClosed(line, i + 1, q)
  }

  /** The index after the quotation's closing quote (two single quotes are one character), or the end of the line. */
  predicate YamlCloses(line: string, i: nat, q: char, end: nat)
    decreases |line| - i
  {
    if i >= |line| then end == |line|
    else if line[i] == q && !(q == '\'' && i + 1 < |line| && line[i + 1] == q) then end == i + 1
    else if (q == '"' && line[i] == '\\') || line[i] == q then YamlCloses(line, i + 2, q, end)
    else YamlCloses(line, i + 1, q, end)
  }

  /** A line that is a quoted scalar: no `#` inside the quotes is a comment. */
  lemma YamlQuotedScalar(line: string, end: nat)
    requires line != "" && IsQuote(line[0]) && YamlCloses(line, 1, line[0], end)
    ensures var column := YamlColumn(line, 0, YAML_START); column.Some? ==> column.value >= end
  {
    var q := line[0];
    var m := YamlMode(Some(q), false, 0);
    assert YamlTurn(line, 0, YAML_START) == (1, m);
    assert YamlColumn(line, 0, YAML_START) == YamlColumn(line, 1, m);
    YamlInside(line, 1, m, q, end);
  }

  /** A quote at `from` would open a quotation that ends at `end`. */
  predicate YamlSpan(line: string, from: nat, end: nat) {
    from < |line| && IsQuote(line[from]) && YamlCloses(line, from + 1, line[from], end)
  }

  /** A quotation that opens before `k` runs past it. */
  ghost predicate YamlQuoted(line: string, k: nat) {
    exists from: nat, end: nat :: YamlSpan(line, from, end) && from < k < end
  }

  lemma {:induction false} YamlEnd(line: string, i: nat, q: char) returns (end: nat)
    requires i <= |line|
    ensures YamlCloses(line, i, q, end) && i <= end <= |line| && (YamlClosed(line, i, q) || end == |line|)
    decreases |line| - i
  {
    if i == |line| {
      end := i;
    } else if line[i] == q && !(q == '\'' && i + 1 < |line| && line[i + 1] == q) {
      end := i + 1;
    } else if (q == '"' && line[i] == '\\') || line[i] == q {
      if i + 2 <= |line| { end := YamlEnd(line, i + 2, q); } else { end := |line|; }
    } else {
      end := YamlEnd(line, i + 1, q);
    }
  }

  lemma {:induction false} YamlPasses(line: string, i: nat, m: YamlMode, k: nat)
    requires i <= k && YamlMark(line, k) && m.quote.None?
    requires YamlColumn(line, i, m).None? || YamlColumn(line, i, m).value > k
    ensures YamlQuoted(line, k)
    decreases |line| - i
  {
    var (next, mode) := YamlTurn(line, i, m);
    if mode.quote.Some? {
      var q := line[i];
      var end := YamlEnd(line, i + 1, q);
      assert YamlSpan(line, i, end);
      if end <= k {
        YamlInside(line, i + 1, mode, q, end);
        YamlPasses(line, end, mode.(quote := None), k);
      }
    } else {
      assert next <= k;
      YamlPasses(line, next, mode, k);
    }
  }

  /** Completeness: every `#` at the start or after a blank that the scanner passes over is inside a quotation. */
  lemma YamlPassesOnlyQuoted(line: string, k: nat)
    requires YamlMark(line, k)
    ensures var column := YamlColumn(line, 0, YAML_START); (column.Some? && column.value <= k) || YamlQuoted(line, k)
  {
    var column := YamlColumn(line, 0, YAML_START);
    if column.None? || column.value > k { YamlPasses(line, 0, YAML_START, k); }
  }
}
