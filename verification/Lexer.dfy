/** The batch-line lexer: shell-like words with single quotes, double quotes, backslash
    escapes and comments, described by a grammar of lines (`Reading`). */
module BatchLexer {
  import opened Protocol

  datatype Flaw = IncompleteEscape | UnterminatedQuote

  datatype Lexed = Words(words: seq<string>) | Failed(flaw: Flaw)

  /** The characters Unicode calls white space. */
  predicate IsWhitespace(c: char) {
    var n := c as int;
    || 0x9 <= n <= 0xd || n == 0x20 || n == 0x85 || n == 0xa0 || n == 0x1680
    || 0x2000 <= n <= 0x200a || n == 0x2028 || n == 0x2029 || n == 0x202f || n == 0x205f || n == 0x3000
  }

  /** The same, as a list. */
  lemma WhitespaceTable(c: char)
    ensures IsWhitespace(c) <==>
            c as int in [0x9, 0xa, 0xb, 0xc, 0xd, 0x20, 0x85, 0xa0, 0x1680, 0x2000, 0x2001, 0x2002, 0x2003, 0x2004,
                         0x2005, 0x2006, 0x2007, 0x2008, 0x2009, 0x200a, 0x2028, 0x2029, 0x202f, 0x205f, 0x3000]
  {}

  // ---- the scan ------------------------------------------------------------------------

  datatype Quote = Unquoted | SingleQuote | DoubleQuote

  datatype Scanner = Scanner(
    words: seq<string>, word: string, quote: Quote, escaped: bool, started: bool, ended: bool)

  function Scanned(s: Scanner, c: char): Scanner {
    if s.ended then s
    else if s.escaped then s.(word := s.word + [c], started := true, escaped := false)
    else match s.quote
      case SingleQuote =>
        if c == '\'' then s.(quote := Unquoted, started := true) else s.(word := s.word + [c], started := true)
      case DoubleQuote =>
        if c == '"' then s.(quote := Unquoted, started := true)
        else if c == '\\' then s.(escaped := true, started := true)
        else s.(word := s.word + [c], started := true)
      case Unquoted =>
        if c == '#' then s.(ended := true)
        else if IsWhitespace(c) then
          if s.started then s.(words := s.words + [s.word], word := "", started := false) else s
        else if c == '\'' then s.(quote := SingleQuote, started := true)
        else if c == '"' then s.(quote := DoubleQuote, started := true)
        else if c == '\\' then s.(escaped := true, started := true)
        else s.(word := s.word + [c], started := true)
  }

  function Scan(line: string): Scanner {
    if line == [] then Scanner([], "", Unquoted, false, false, false)
    else Scanned(Scan(line[..|line| - 1]), line[|line| - 1])
  }

  function Concluded(s: Scanner): Lexed {
    if s.escaped then Failed(IncompleteEscape)
    else if s.quote != Unquoted then Failed(UnterminatedQuote)
    else if s.started then Words(s.words + [s.word])
    else Words(s.words)
  }

  lemma ScanOne(t: string, c: char)
    ensures Scan(t + [c]) == Scanned(Scan(t), c)
  {
    assert (t + [c])[..|t|] == t;
  }

  lemma {:induction false} CommentsAreIgnored(t: string, rest: string)
    requires Scan(t).ended
    ensures Scan(t + rest) == Scan(t)
  {
    if rest == [] {
      assert t + rest == t;
    } else {
      var front, c := rest[..|rest| - 1], rest[|rest| - 1];
      CommentsAreIgnored(t, front);
      assert t + rest == t + front + [c];
      ScanOne(t + front, c);
    }
  }

  method LexLine(line: string) returns (r: Lexed)
    ensures r == Concluded(Scan(line))
  {
    var words: seq<string>, word, quote, escaped, started := [], "", Unquoted, false, false;
    var i := 0;
    while i < |line|
      invariant i <= |line|
      invariant Scan(line[..i]) == Scanner(words, word, quote, escaped, started, false)
    {
      var c := line[i];
      assert line[..i + 1] == line[..i] + [c];
      ScanOne(line[..i], c);
      i := i + 1;
      if escaped {
        word, started, escaped := word + [c], true, false;
        continue;
      }
      match quote
      case SingleQuote =>
        if c == '\'' { quote := Unquoted; } else { word := word + [c]; }
        started := true;
      case DoubleQuote =>
        if c == '"' { quote := Unquoted; } else if c == '\\' { escaped := true; } else { word := word + [c]; }
        started := true;
      case Unquoted =>
        if c == '#' {
          CommentsAreIgnored(line[..i], line[i..]);
          assert line == line[..i] + line[i..];
          return if started then Words(words + [word]) else Words(words);
        } else if IsWhitespace(c) {
          if started { words, word, started := words + [word], "", false; }
        } else if c == '\'' {
          quote, started := SingleQuote, true;
        } else if c == '"' {
          quote, started := DoubleQuote, true;
        } else if c == '\\' {
          escaped, started := true, true;
        } else {
          word, started := word + [c], true;
        }
    }
    assert line[..i] == line;
    if escaped { return Failed(IncompleteEscape); }
    if quote != Unquoted { return Failed(UnterminatedQuote); }
    if started { words := words + [word]; }
    r := Words(words);
  }

  // ---- the grammar ------------------------------------------------------------------------

  /** Inside double quotes. */
  datatype Item = Literal(c: char) | Quoted(c: char)

  datatype Piece = Bare(c: char) | Escaped(c: char) | Single(text: string) | Double(items: seq<Item>)

  datatype Entry = Entry(gap: string, word: seq<Piece>)

  /** What the end of the line leaves open. */
  datatype Open =
    | Closed
    | InEscape
    | InSingle(text: string)
    | InDouble(items: seq<Item>)
    | InDoubleEscape(items: seq<Item>)
    | InComment(text: string)

  /** A line: separated words, then white space, possibly a last word, and what is open. */
  datatype Reading = Reading(entries: seq<Entry>, gap: string, word: seq<Piece>, open: Open)

  predicate ValidItem(i: Item) { i.Literal? ==> i.c != '"' && i.c != '\\' }

  ghost predicate ValidPiece(p: Piece) {
    match p
    case Bare(c) => !IsWhitespace(c) && c != '#' && c != '\'' && c != '"' && c != '\\'
    case Escaped(_) => true
    case Single(text) => '\'' !in text
    case Double(items) => forall i <- items :: ValidItem(i)
  }

  ghost predicate ValidWord(w: seq<Piece>) { forall p <- w :: ValidPiece(p) }

  ghost predicate Blank(gap: string) { forall c <- gap :: IsWhitespace(c) }

  ghost predicate ValidEntry(e: Entry) { Blank(e.gap) && ValidWord(e.word) && e.word != [] }

  ghost predicate ValidEntries(es: seq<Entry>) {
    (forall e <- es :: ValidEntry(e)) && (forall k :: 0 < k < |es| ==> es[k].gap != "")
  }

  ghost predicate ValidOpen(o: Open) {
    match o
    case InSingle(text) => '\'' !in text
    case InDouble(items) => forall i <- items :: ValidItem(i)
    case InDoubleEscape(items) => forall i <- items :: ValidItem(i)
    case _ => true
  }

  ghost predicate Valid(r: Reading) {
    && ValidEntries(r.entries) && Blank(r.gap) && (r.entries != [] ==> r.gap != "")
    && ValidWord(r.word) && ValidOpen(r.open)
  }

  // ---- printing -----------------------------------------------------------------------------

  function PrintItem(i: Item): string { if i.Literal? then [i.c] else ['\\', i.c] }

  function PrintItems(items: seq<Item>): string {
    if items == [] then "" else PrintItems(items[..|items| - 1]) + PrintItem(items[|items| - 1])
  }

  function PrintPiece(p: Piece): string {
    match p
    case Bare(c) => [c]
    case Escaped(c) => ['\\', c]
    case Single(text) => "'" + text + "'"
    case Double(items) => "\"" + PrintItems(items) + "\""
  }

  function PrintWord(w: seq<Piece>): string {
    if w == [] then "" else PrintWord(w[..|w| - 1]) + PrintPiece(w[|w| - 1])
  }

  function PrintEntries(es: seq<Entry>): string {
    if es == [] then "" else PrintEntries(es[..|es| - 1]) + es[|es| - 1].gap + PrintWord(es[|es| - 1].word)
  }

  function PrintOpen(o: Open): string {
    match o
    case Closed => ""
    case InEscape => "\\"
    case InSingle(text) => "'" + text
    case InDouble(items) => "\"" + PrintItems(items)
    case InDoubleEscape(items) => "\"" + PrintItems(items) + "\\"
    case InComment(text) => "#" + text
  }

  function Print(r: Reading): string {
    PrintEntries(r.entries) + r.gap + PrintWord(r.word) + PrintOpen(r.open)
  }

  // ---- meaning --------------------------------------------------------------------------------

  function ItemsText(items: seq<Item>): string {
    if items == [] then "" else ItemsText(items[..|items| - 1]) + [items[|items| - 1].c]
  }

  function PieceText(p: Piece): string {
    match p
    case Bare(c) => [c]
    case Escaped(c) => [c]
    case Single(text) => text
    case Double(items) => ItemsText(items)
  }

  function WordText(w: seq<Piece>): string {
    if w == [] then "" else WordText(w[..|w| - 1]) + PieceText(w[|w| - 1])
  }

  function Texts(es: seq<Entry>): (ts: seq<string>)
    ensures |ts| == |es|
  {
    if es == [] then [] else Texts(es[..|es| - 1]) + [WordText(es[|es| - 1].word)]
  }

  function Meaning(r: Reading): Lexed {
    match r.open
    case InEscape => Failed(IncompleteEscape)
    case InDoubleEscape(_) => Failed(IncompleteEscape)
    case InSingle(_) => Failed(UnterminatedQuote)
    case InDouble(_) => Failed(UnterminatedQuote)
    case _ => Words(Texts(r.entries) + if r.word == [] then [] else [WordText(r.word)])
  }

  // ---- a printed line lexes to its meaning -----------------------------------------------------

  predicate Ready(s: Scanner) { s.quote == Unquoted && !s.escaped && !s.ended }

  predicate Inside(s: Scanner, q: Quote) { s.quote == q && !s.escaped && !s.ended && s.started }

  /** The scanner after more text for the current word. */
  function Taking(s: Scanner, text: string): Scanner { s.(word := s.word + text) }

  lemma TakingMore(s: Scanner, a: string, b: string)
    ensures Taking(s, "") == s && Taking(Taking(s, a), b) == Taking(s, a + b)
  {
    assert s.word + "" == s.word;
    assert s.word + a + b == s.word + (a + b);
  }

  lemma Assoc<T>(a: seq<T>, b: seq<T>, c: seq<T>)
    ensures a + (b + c) == a + b + c && a + [] == a
  {}

  lemma {:induction false} SingleScans(t: string, text: string)
    requires Inside(Scan(t), SingleQuote) && '\'' !in text
    ensures Scan(t + text) == Taking(Scan(t), text)
  {
    hide Scan;
    if text == [] {
      Assoc(t, [], []);
      TakingMore(Scan(t), [], []);
    } else {
      var front, c := text[..|text| - 1], text[|text| - 1];
      assert c in text && text == front + [c];
      SingleScans(t, front);
      Assoc(t, front, [c]);
      ScanOne(t + front, c);
      TakingMore(Scan(t), front, [c]);
    }
  }

  lemma ItemScans(t: string, i: Item)
    requires Inside(Scan(t), DoubleQuote) && ValidItem(i)
    ensures Scan(t + PrintItem(i)) == Taking(Scan(t), [i.c])
  {
    hide Scan;
    if i.Literal? {
      ScanOne(t, i.c);
    } else {
      ScanOne(t, '\\');
      ScanOne(t + ['\\'], i.c);
      assert PrintItem(i) == ['\\'] + [i.c];
      Assoc(t, ['\\'], [i.c]);
    }
  }

  lemma {:induction false} ItemsScan(t: string, items: seq<Item>)
    requires Inside(Scan(t), DoubleQuote)
    requires forall i <- items :: ValidItem(i)
    ensures Scan(t + PrintItems(items)) == Taking(Scan(t), ItemsText(items))
  {
    hide Scan, ValidItem, PrintItem;
    if items == [] {
      Assoc(t, [], []);
      TakingMore(Scan(t), [], []);
    } else {
      var front, i := items[..|items| - 1], items[|items| - 1];
      assert i in items;
      ItemsScan(t, front);
      ItemScans(t + PrintItems(front), i);
      Assoc(t, PrintItems(front), PrintItem(i));
      TakingMore(Scan(t), ItemsText(front), [i.c]);
    }
  }

  lemma OpenSingleScans(t: string, text: string)
    requires Ready(Scan(t)) && '\'' !in text
    ensures Scan(t + ("'" + text)) == Taking(Scan(t), text).(quote := SingleQuote, started := true)
  {
    hide Scan;
    ScanOne(t, '\'');
    SingleScans(t + "'", text);
    Assoc(t, "'", text);
  }

  lemma OpenDoubleScans(t: string, items: seq<Item>)
    requires Ready(Scan(t)) && forall i <- items :: ValidItem(i)
    ensures Scan(t + ("\"" + PrintItems(items))) ==
            Taking(Scan(t), ItemsText(items)).(quote := DoubleQuote, started := true)
  {
    hide Scan, PrintItems, ItemsText, ValidItem;
    ScanOne(t, '"');
    ItemsScan(t + "\"", items);
    Assoc(t, "\"", PrintItems(items));
  }

  lemma PieceScans(t: string, p: Piece)
    requires Ready(Scan(t)) && ValidPiece(p)
    ensures Scan(t + PrintPiece(p)) == Taking(Scan(t), PieceText(p)).(started := true)
  {
    hide Scan, PrintItems, ItemsText, ValidItem;
    match p
    case Bare(c) =>
      ScanOne(t, c);
    case Escaped(c) =>
      ScanOne(t, '\\');
      ScanOne(t + ['\\'], c);
      assert PrintPiece(p) == ['\\'] + [c];
      Assoc(t, ['\\'], [c]);
    case Single(text) =>
      OpenSingleScans(t, text);
      ScanOne(t + ("'" + text), '\'');
      Assoc(t, "'" + text, "'");
    case Double(items) =>
      OpenDoubleScans(t, items);
      ScanOne(t + ("\"" + PrintItems(items)), '"');
      Assoc(t, "\"" + PrintItems(items), "\"");
  }

  lemma {:induction false} WordScans(t: string, w: seq<Piece>)
    requires Ready(Scan(t)) && ValidWord(w)
    ensures Scan(t + PrintWord(w)) == Taking(Scan(t), WordText(w)).(started := Scan(t).started || w != [])
  {
    hide Scan, PrintPiece, PieceText, ValidPiece;
    if w == [] {
      Assoc(t, [], []);
      TakingMore(Scan(t), [], []);
    } else {
      var front, p := w[..|w| - 1], w[|w| - 1];
      assert p in w;
      WordScans(t, front);
      PieceScans(t + PrintWord(front), p);
      Assoc(t, PrintWord(front), PrintPiece(p));
      TakingMore(Scan(t), WordText(front), PieceText(p));
    }
  }

  lemma {:induction false} GapScans(t: string, gap: string)
    requires Ready(Scan(t)) && Blank(gap)
    ensures Scan(t + gap) ==
            if gap == "" || !Scan(t).started then Scan(t)
            else Scan(t).(words := Scan(t).words + [Scan(t).word], word := "", started := false)
  {
    hide Scan;
    if gap == "" {
      assert t + gap == t;
    } else {
      var front, c := gap[..|gap| - 1], gap[|gap| - 1];
      assert c in gap;
      GapScans(t, front);
      ScanOne(t + front, c);
      assert t + gap == t + front + [c];
    }
  }

  /** After separated words, the last one is still pending. */
  ghost predicate Pending(s: Scanner, es: seq<Entry>) {
    Ready(s) &&
    if es == [] then s == Scan("")
    else s.started && s.word == WordText(es[|es| - 1].word) && s.words == Texts(es[..|es| - 1])
  }

  lemma GapFlushes(t: string, es: seq<Entry>, gap: string)
    requires Pending(Scan(t), es) && Blank(gap) && (es != [] ==> gap != "")
    ensures Scan(t + gap) == Scan("").(words := Texts(es))
  {
    GapScans(t, gap);
  }

  lemma {:induction false} EntriesScan(es: seq<Entry>)
    requires ValidEntries(es)
    ensures Pending(Scan(PrintEntries(es)), es)
  {
    if es != [] {
      var front, e := es[..|es| - 1], es[|es| - 1];
      assert e in es && ValidEntry(e);
      assert forall k :: 0 < k < |front| ==> front[k].gap == es[k].gap;
      EntriesScan(front);
      var t := PrintEntries(front);
      GapFlushes(t, front, e.gap);
      WordScans(t + e.gap, e.word);
      assert "" + WordText(e.word) == WordText(e.word);
    }
  }

  lemma OpenScans(t: string, o: Open)
    requires Ready(Scan(t)) && ValidOpen(o)
    ensures var s, e := Scan(t), Scan(t + PrintOpen(o));
      match o
      case Closed => e == s
      case InComment(_) => e == s.(ended := true)
      case InEscape => e.escaped
      case InDoubleEscape(_) => e.escaped
      case InSingle(_) => !e.escaped && e.quote == SingleQuote
      case InDouble(_) => !e.escaped && e.quote == DoubleQuote
  {
    hide Scan, PrintItems, ItemsText, ValidItem;
    match o
    case Closed =>
      Assoc(t, [], []);
    case InEscape =>
      ScanOne(t, '\\');
    case InSingle(text) =>
      OpenSingleScans(t, text);
    case InDouble(items) =>
      OpenDoubleScans(t, items);
    case InDoubleEscape(items) =>
      OpenDoubleScans(t, items);
      ScanOne(t + ("\"" + PrintItems(items)), '\\');
      Assoc(t, "\"" + PrintItems(items), ['\\']);
    case InComment(text) =>
      ScanOne(t, '#');
      CommentsAreIgnored(t + "#", text);
      Assoc(t, "#", text);
  }

  /** Every valid line, in every mixture of quoting styles, lexes to what it means; in
      particular the lexer fails exactly on lines that end inside an escape or a quote. */
  lemma PrintedLineLexes(r: Reading)
    requires Valid(r)
    ensures Concluded(Scan(Print(r))) == Meaning(r)
  {
    hide PrintEntries, PrintWord, PrintOpen, Texts, WordText;
    var t := PrintEntries(r.entries);
    EntriesScan(r.entries);
    GapFlushes(t, r.entries, r.gap);
    WordScans(t + r.gap, r.word);
    OpenScans(t + r.gap + PrintWord(r.word), r.open);
    assert "" + WordText(r.word) == WordText(r.word);
    assert Texts(r.entries) + [] == Texts(r.entries);
  }

  // ---- every string is a printed line -------------------------------------------------------------

  function Grown(r: Reading, c: char): Reading {
    match r.open
    case InComment(text) => r.(open := InComment(text + [c]))
    case InEscape => r.(word := r.word + [Escaped(c)], open := Closed)
    case InSingle(text) =>
      if c == '\'' then r.(word := r.word + [Single(text)], open := Closed) else r.(open := InSingle(text + [c]))
    case InDouble(items) =>
      if c == '"' then r.(word := r.word + [Double(items)], open := Closed)
      else if c == '\\' then r.(open := InDoubleEscape(items))
      else r.(open := InDouble(items + [Literal(c)]))
    case InDoubleEscape(items) => r.(open := InDouble(items + [Quoted(c)]))
    case Closed =>
      if c == '#' then r.(open := InComment(""))
      else if c == '\'' then r.(open := InSingle(""))
      else if c == '"' then r.(open := InDouble([]))
      else if c == '\\' then r.(open := InEscape)
      else if !IsWhitespace(c) then r.(word := r.word + [Bare(c)])
      else if r.word == [] then r.(gap := r.gap + [c])
      else Reading(r.entries + [Entry(r.gap, r.word)], [c], [], Closed)
  }

  lemma WordGrows(w: seq<Piece>, p: Piece)
    ensures PrintWord(w + [p]) == PrintWord(w) + PrintPiece(p)
  {
    assert (w + [p])[..|w|] == w;
  }

  lemma ItemsGrow(items: seq<Item>, i: Item)
    ensures PrintItems(items + [i]) == PrintItems(items) + PrintItem(i)
  {
    assert (items + [i])[..|items|] == items;
  }

  lemma GrownPrints(r: Reading, c: char)
    ensures Print(Grown(r, c)) == Print(r) + [c]
  {
    hide PrintEntries, PrintWord, PrintItems, IsWhitespace;
    EmptyWord();
    match r.open
    case InEscape => WordGrows(r.word, Escaped(c));
    case InSingle(text) => WordGrows(r.word, Single(text));
    case InDouble(items) => DoubleGrows(r, c);
    case InDoubleEscape(items) => DoubleGrows(r, c);
    case InComment(text) =>
    case Closed => ClosedGrows(r, c);
  }

  lemma DoubleGrows(r: Reading, c: char)
    requires r.open.InDouble? || r.open.InDoubleEscape?
    ensures Print(Grown(r, c)) == Print(r) + [c]
  {
    hide PrintEntries, PrintWord, PrintItems;
    WordGrows(r.word, Double(r.open.items));
    ItemsGrow(r.open.items, Literal(c));
    ItemsGrow(r.open.items, Quoted(c));
  }

  lemma ClosedGrows(r: Reading, c: char)
    requires r.open == Closed
    ensures Print(Grown(r, c)) == Print(r) + [c]
  {
    hide PrintEntries, PrintWord, PrintItems, IsWhitespace;
    EmptyWord();
    WordGrows(r.word, Bare(c));
    EntriesGrow(r.entries, Entry(r.gap, r.word));
  }

  lemma EmptyWord()
    ensures PrintWord([]) == "" && PrintItems([]) == ""
  {}

  lemma EntriesGrow(es: seq<Entry>, e: Entry)
    ensures PrintEntries(es + [e]) == PrintEntries(es) + e.gap + PrintWord(e.word)
  {
    assert (es + [e])[..|es|] == es;
  }

  lemma GrownIsValid(r: Reading, c: char)
    requires Valid(r)
    ensures Valid(Grown(r, c))
  {
    hide IsWhitespace;
    if r.open == Closed && IsWhitespace(c) && r.word != [] {
      var e := Entry(r.gap, r.word);
      assert ValidEntry(e);
    }
  }

  lemma {:induction false} EveryLineIsPrinted(line: string) returns (r: Reading)
    ensures Valid(r) && Print(r) == line
  {
    if line == [] {
      r := Reading([], "", [], Closed);
    } else {
      var front := EveryLineIsPrinted(line[..|line| - 1]);
      var c := line[|line| - 1];
      GrownIsValid(front, c);
      GrownPrints(front, c);
      r := Grown(front, c);
      assert line == line[..|line| - 1] + [c];
    }
  }

  /** So the grammar describes the lexer on every input, errors included. */
  lemma LexerIsExact(line: string, result: Lexed)
    ensures Concluded(Scan(line)) == result <==> exists r :: Valid(r) && Print(r) == line && Meaning(r) == result
  {
    hide Scan, Concluded, Valid, Print, Meaning;
    var r := EveryLineIsPrinted(line);
    PrintedLineLexes(r);
    forall q | Valid(q) && Print(q) == line ensures Meaning(q) == Concluded(Scan(line)) {
      PrintedLineLexes(q);
    }
  }

  // ---- quoting words ------------------------------------------------------------------------------

  function Escape(w: string): string {
    if w == "" then ""
    else
      var c := w[|w| - 1];
      Escape(w[..|w| - 1]) + if c == '"' || c == '\\' then ['\\', c] else [c]
  }

  /** Each word in double quotes after its gap. */
  function QuotedWords(words: seq<string>, gaps: seq<string>): string
    requires |words| == |gaps|
  {
    if words == [] then ""
    else
      var n := |words| - 1;
      QuotedWords(words[..n], gaps[..n]) + gaps[n] + ("\"" + Escape(words[n]) + "\"")
  }

  function Comment(comment: Option<string>): string { if comment == None then "" else "#" + comment.value }

  function ItemsOf(w: string): seq<Item> {
    if w == "" then []
    else
      var c := w[|w| - 1];
      ItemsOf(w[..|w| - 1]) + [if c == '"' || c == '\\' then Quoted(c) else Literal(c)]
  }

  lemma {:induction false} ItemsOfWord(w: string)
    ensures forall i <- ItemsOf(w) :: ValidItem(i)
    ensures PrintItems(ItemsOf(w)) == Escape(w) && ItemsText(ItemsOf(w)) == w
  {
    if w != "" {
      var front := w[..|w| - 1];
      ItemsOfWord(front);
      assert ItemsOf(w)[..|ItemsOf(w)| - 1] == ItemsOf(front);
      assert w == front + [w[|w| - 1]];
    }
  }

  function QuotedEntry(w: string, gap: string): Entry { Entry(gap, [Double(ItemsOf(w))]) }

  lemma QuotedEntryReads(w: string, gap: string)
    requires Blank(gap)
    ensures ValidEntry(QuotedEntry(w, gap))
    ensures PrintWord(QuotedEntry(w, gap).word) == "\"" + Escape(w) + "\"" && WordText(QuotedEntry(w, gap).word) == w
  {
    ItemsOfWord(w);
    var p := Double(ItemsOf(w));
    assert [p][..0] == [];
  }

  ghost predicate Separates(gaps: seq<string>) {
    (forall g <- gaps :: Blank(g)) && forall k :: 0 < k < |gaps| ==> gaps[k] != ""
  }

  function QuotedEntries(words: seq<string>, gaps: seq<string>): (es: seq<Entry>)
    requires |words| == |gaps|
    ensures |es| == |words| && forall k :: 0 <= k < |es| ==> es[k] == QuotedEntry(words[k], gaps[k])
  {
    if words == [] then []
    else
      var n := |words| - 1;
      QuotedEntries(words[..n], gaps[..n]) + [QuotedEntry(words[n], gaps[n])]
  }

  lemma QuotedEntriesAreValid(words: seq<string>, gaps: seq<string>)
    requires |words| == |gaps| && Separates(gaps)
    ensures ValidEntries(QuotedEntries(words, gaps))
  {
    hide ValidEntry, QuotedEntries;
    var es := QuotedEntries(words, gaps);
    forall k | 0 <= k < |es| ensures ValidEntry(es[k]) && es[k].gap == gaps[k] {
      assert gaps[k] in gaps;
      QuotedEntryReads(words[k], gaps[k]);
    }
  }

  lemma {:induction false} QuotedEntriesRead(words: seq<string>, gaps: seq<string>)
    requires |words| == |gaps| && forall g <- gaps :: Blank(g)
    ensures PrintEntries(QuotedEntries(words, gaps)) == QuotedWords(words, gaps)
    ensures Texts(QuotedEntries(words, gaps)) == words
  {
    hide ValidEntry, PrintWord, WordText, Escape, Blank, PrintEntries, Texts, ItemsOf;
    NoEntries();
    if words != [] {
      var n := |words| - 1;
      var es, e := QuotedEntries(words[..n], gaps[..n]), QuotedEntry(words[n], gaps[n]);
      assert gaps[n] in gaps && (forall x <- gaps[..n] :: x in gaps);
      QuotedEntriesRead(words[..n], gaps[..n]);
      QuotedEntryReads(words[n], gaps[n]);
      assert QuotedEntries(words, gaps) == es + [e];
      EntriesGrow(es, e);
      TextsGrow(es, e);
      assert words == words[..n] + [words[n]];
    }
  }

  lemma NoEntries()
    ensures PrintEntries([]) == "" && Texts([]) == []
  {}

  lemma TextsGrow(es: seq<Entry>, e: Entry)
    ensures Texts(es + [e]) == Texts(es) + [WordText(e.word)]
  {
    assert (es + [e])[..|es|] == es;
  }

  /** Quoting any words, with any separating white space, and adding white space and a
      comment, lexes back to exactly those words. */
  lemma QuotedLineLexes(words: seq<string>, gaps: seq<string>, tail: string, comment: Option<string>)
    requires |words| == |gaps| && Separates(gaps) && Blank(tail)
    ensures Concluded(Scan(QuotedWords(words, gaps) + tail + Comment(comment))) == Words(words)
  {
    if words == [] || tail != "" {
      SpacedTailLexes(words, gaps, tail, comment);
    } else {
      LastWordLexes(words, gaps, comment);
      assert QuotedWords(words, gaps) + tail == QuotedWords(words, gaps);
    }
  }

  function OpenAfter(comment: Option<string>): (o: Open)
    ensures PrintOpen(o) == Comment(comment) && ValidOpen(o)
  {
    if comment == None then Closed else InComment(comment.value)
  }

  lemma SpacedTailLexes(words: seq<string>, gaps: seq<string>, tail: string, comment: Option<string>)
    requires |words| == |gaps| && Separates(gaps) && Blank(tail) && (words == [] || tail != "")
    ensures Concluded(Scan(QuotedWords(words, gaps) + tail + Comment(comment))) == Words(words)
  {
    hide Scan, Concluded, ValidEntries, PrintEntries, Texts, QuotedWords, QuotedEntries, PrintOpen, Comment, Blank;
    QuotedEntriesAreValid(words, gaps);
    QuotedEntriesRead(words, gaps);
    var r := Reading(QuotedEntries(words, gaps), tail, [], OpenAfter(comment));
    PrintedLineLexes(r);
    assert PrintWord([]) == "";
    Assoc(QuotedWords(words, gaps) + tail, [], []);
    Assoc(words, [], []);
  }

  lemma LastWordLexes(words: seq<string>, gaps: seq<string>, comment: Option<string>)
    requires words != [] && |words| == |gaps| && Separates(gaps)
    ensures Concluded(Scan(QuotedWords(words, gaps) + Comment(comment))) == Words(words)
  {
    hide Scan, Concluded, PrintWord, WordText, PrintEntries, Texts, ValidEntries, QuotedEntries, PrintOpen, Comment,
         Blank, Escape, ValidPiece, ItemsOf;
    var n := |words| - 1;
    assert gaps[n] in gaps && (forall x <- gaps[..n] :: x in gaps);
    QuotedEntriesAreValid(words[..n], gaps[..n]);
    QuotedEntriesRead(words[..n], gaps[..n]);
    var e := QuotedEntry(words[n], gaps[n]);
    QuotedEntryReads(words[n], gaps[n]);
    var r := Reading(QuotedEntries(words[..n], gaps[..n]), gaps[n], e.word, OpenAfter(comment));
    PrintedLineLexes(r);
    assert words == words[..n] + [words[n]];
  }
}
