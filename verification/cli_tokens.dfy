/** The command line tokenizer: white space separates words, quotes keep it, a bar is a word of its own. */
module CliTokens {
  predicate IsSpace(c: char) { c == ' ' || '\t' <= c <= '\r' }

  predicate IsQuote(c: char) { c == '"' || c == '\'' }

  /** The white space of the C locale, and the two quotes. */
  lemma CharacterCodes(c: char)
    ensures IsSpace(c) <==> c as int in {9, 10, 11, 12, 13, 32}
    ensures IsQuote(c) <==> c as int in {34, 39}
  {}

  /** Where the scan is: between words, or in a bare or quoted word of which `word` is read. */
  datatype Mode = Between | Bare(word: string) | Quoted(quote: char, word: string)

  /** The words of the rest of a line. One kind of step does not advance: the end of a bare word. */
  function Tokens(rest: string, m: Mode): (words: seq<string>)
    decreases |rest|, if m.Bare? then 1 else 0
  {
    if rest == "" then (if m.Between? then [] else [m.word])
    else
      var c, tail := rest[0], rest[1..];
      if m.Quoted? && c == m.quote then [m.word] + Tokens(tail, Between)
      else if m.Bare? && (IsSpace(c) || c == '|') then [m.word] + Tokens(rest, Between)
      else if IsQuote(c) then Tokens(tail, Quoted(c, ""))
      else if !m.Between? then Tokens(tail, m.(word := m.word + [c]))
      else if c == '|' then ["|"] + Tokens(tail, Between)
      else if IsSpace(c) then Tokens(tail, Between)
      else Tokens(tail, Bare([c]))
  }

  function SkipSpaces(s: string): (r: string)
    ensures r != "" ==> !IsSpace(r[0])
  {
    if s != "" && IsSpace(s[0]) then SkipSpaces(s[1..]) else s
  }

  /** The first character that is not white space already counts as the start of a bare word. */
  function LineTokens(line: string): (words: seq<string>) {
    var rest := SkipSpaces(line);
    Tokens(rest, if rest == "" then Between else Bare(""))
  }

  function Prefix(words: seq<string>, n: int): (r: seq<string>) {
    if n <= 0 then [] else if n <= |words| then words[..n] else words
  }

  function ModeOf(line: string, p: nat, wordStart: int, inquote: char): Mode
    requires wordStart <= p <= |line|
  {
    if wordStart < 0 then Between
    else if inquote == '\0' then Bare(line[wordStart..p])
    else Quoted(inquote, line[wordStart..p])
  }

  lemma Store(words: seq<string>, w: string, left: seq<string>, all: seq<string>)
    requires words + left == all && left != [] && left[0] == w
    ensures (words + [w]) + left[1..] == all
  {}

  method FindStart(line: string) returns (p: nat, wordStart: int)
    ensures p <= |line| && line[p..] == SkipSpaces(line) && wordStart == if p < |line| then p else -1
  {
    p, wordStart := 0, -1;
    assert line[0..] == line;
    while p < |line|
      invariant p <= |line| && SkipSpaces(line) == SkipSpaces(line[p..])
    {
      if !IsSpace(line[p]) {
        wordStart := p;
        break;
      }
      p := p + 1;
    }
  }

  /** The words still to come at a position of the scan. */
  ghost function Left(line: string, p: nat, wordStart: int, inquote: char): (words: seq<string>)
    requires wordStart <= p <= |line|
  {
    Tokens(line[p..], ModeOf(line, p, wordStart, inquote))
  }

  /** The scan stands on the end of a word, or on the end of the line. */
  predicate AtEnd(line: string, p: nat, wordStart: int, inquote: char)
    requires p <= |line|
  {
    p == |line| || line[p] == inquote || (wordStart >= 0 && inquote == '\0' && (IsSpace(line[p]) || line[p] == '|'))
  }

  ghost predicate Scanning(line: string, p: nat, wordStart: int, inquote: char) {
    wordStart <= p <= |line| && (wordStart < 0 ==> inquote == '\0') && '\0' !in line
  }

  lemma LeftAtEnd(line: string, p: nat, wordStart: int, inquote: char)
    requires Scanning(line, p, wordStart, inquote) && AtEnd(line, p, wordStart, inquote)
    ensures p == |line| ==> Left(line, p, wordStart, inquote) == if wordStart >= 0 then [line[wordStart..p]] else []
    ensures p < |line| ==>
      && wordStart >= 0
      && Left(line, p, wordStart, inquote) != [] && Left(line, p, wordStart, inquote)[0] == line[wordStart..p]
      && Left(line, p, wordStart, inquote)[1..] == Left(line, if inquote == '\0' then p else p + 1, -1, '\0')
  {
    if p < |line| {
      assert line[p] in line;
      assert line[p..][1..] == line[p + 1..];
    }
  }

  lemma LeftAtQuote(line: string, p: nat, wordStart: int, inquote: char)
    requires Scanning(line, p, wordStart, inquote) && !AtEnd(line, p, wordStart, inquote) && IsQuote(line[p])
    ensures Left(line, p, wordStart, inquote) == Left(line, p + 1, p + 1, line[p])
  {
    assert line[p..][1..] == line[p + 1..] && line[p + 1..p + 1] == "";
  }

  lemma LeftInside(line: string, p: nat, wordStart: int, inquote: char)
    requires Scanning(line, p, wordStart, inquote) && !AtEnd(line, p, wordStart, inquote) && !IsQuote(line[p])
    ensures wordStart >= 0 ==> Left(line, p, wordStart, inquote) == Left(line, p + 1, wordStart, inquote)
    ensures wordStart < 0 && line[p] == '|' ==>
      && Left(line, p, wordStart, inquote) != [] && Left(line, p, wordStart, inquote)[0] == "|"
      && Left(line, p, wordStart, inquote)[1..] == Left(line, p + 1, -1, inquote)
    ensures wordStart < 0 && IsSpace(line[p]) ==>
      Left(line, p, wordStart, inquote) == Left(line, p + 1, wordStart, inquote)
    ensures wordStart < 0 && line[p] != '|' && !IsSpace(line[p]) ==>
      Left(line, p, wordStart, inquote) == Left(line, p + 1, p, inquote)
  {
    assert line[p..][1..] == line[p + 1..];
    if wordStart >= 0 {
      assert line[wordStart..p + 1] == line[wordStart..p] + [line[p]];
    } else {
      assert line[p..p + 1] == [line[p]];
    }
  }

  /** The words stored and the words to come are those of the line. */
  ghost predicate Good(line: string, p: nat, wordStart: int, inquote: char, words: seq<string>, all: seq<string>) {
    Scanning(line, p, wordStart, inquote) && words + Left(line, p, wordStart, inquote) == all
  }

  lemma EndKeepsGood(line: string, p: nat, wordStart: int, inquote: char, words: seq<string>, all: seq<string>)
    requires Good(line, p, wordStart, inquote, words, all) && AtEnd(line, p, wordStart, inquote)
    ensures p == |line| ==> all == if wordStart >= 0 then words + [line[wordStart..p]] else words
    ensures p < |line| ==>
      wordStart >= 0 && Good(line, if inquote == '\0' then p else p + 1, -1, '\0', words + [line[wordStart..p]], all)
  {
    LeftAtEnd(line, p, wordStart, inquote);
    if p < |line| {
      Store(words, line[wordStart..p], Left(line, p, wordStart, inquote), all);
    }
  }

  lemma InsideKeepsGood(line: string, p: nat, wordStart: int, inquote: char, words: seq<string>, all: seq<string>)
    requires Good(line, p, wordStart, inquote, words, all) && !AtEnd(line, p, wordStart, inquote) && !IsQuote(line[p])
    ensures
      var bar, start := wordStart < 0 && line[p] == '|', wordStart < 0 && line[p] != '|' && !IsSpace(line[p]);
      Good(line, p + 1, if start then p else wordStart, inquote, if bar then words + ["|"] else words, all)
  {
    LeftInside(line, p, wordStart, inquote);
    if wordStart < 0 && line[p] == '|' {
      Store(words, "|", Left(line, p, wordStart, inquote), all);
    }
  }

  /** At most `maxWords - 1` words are stored. */
  method ParseLine(line: string, maxWords: int) returns (words: seq<string>)
    requires '\0' !in line
    ensures words == Prefix(LineTokens(line), maxWords - 1)
  {
    words := [];
    var inquote := '\0';
    var p: nat, wordStart: int := FindStart(line);
    ghost var all := LineTokens(line);
    assert line[p..p] == "" && all == Left(line, p, wordStart, inquote);
    while |words| < maxWords - 1
      invariant wordStart <= p <= |line| && (wordStart < 0 ==> inquote == '\0')
      invariant Good(line, p, wordStart, inquote, words, all)
      invariant |words| <= maxWords - 1 || words == []
      decreases |line| - p, if wordStart >= 0 && inquote == '\0' then 1 else 0
    {
      if AtEnd(line, p, wordStart, inquote) {
        EndKeepsGood(line, p, wordStart, inquote, words, all);
        if wordStart >= 0 {
          words := words + [line[wordStart..p]];
        }
        if p == |line| {
          return;
        }
        if inquote != '\0' {
          p := p + 1;
        }
        inquote := '\0';
        wordStart := -1;
      } else if IsQuote(line[p]) {
        LeftAtQuote(line, p, wordStart, inquote);
        inquote := line[p];
        p := p + 1;
        wordStart := p;
      } else {
        InsideKeepsGood(line, p, wordStart, inquote, words, all);
        if wordStart < 0 {
          if line[p] == '|' {
            words := words + ["|"];
          } else if !IsSpace(line[p]) {
            wordStart := p;
          }
        }
        p := p + 1;
      }
    }
  }

  // Round trips.

  /** One word as a user may write it. */
  datatype Piece = Plain(word: string) | InQuotes(word: string, quote: char) | Bar

  predicate Writable(x: Piece) {
    match x
    case Plain(w) => w != "" && forall c :: c in w ==> !IsSpace(c) && !IsQuote(c) && c != '|'
    case InQuotes(w, q) => IsQuote(q) && forall c :: c in w ==> !IsQuote(c)
    case Bar => true
  }

  predicate AllWritable(xs: seq<Piece>) {
    xs == [] || (Writable(xs[0]) && AllWritable(xs[1..]))
  }

  function Text(x: Piece): string {
    match x
    case Plain(w) => w
    case InQuotes(w, q) => [q] + w + [q]
    case Bar => "|"
  }

  function Word(x: Piece): string {
    match x
    case Plain(w) => w
    case InQuotes(w, _) => w
    case Bar => "|"
  }

  /** The pieces, each followed by its gap. */
  function Written(xs: seq<Piece>, gaps: seq<string>): (line: string)
    requires |gaps| == |xs|
  {
    if xs == [] then "" else Text(xs[0]) + (gaps[0] + Written(xs[1..], gaps[1..]))
  }

  predicate Blank(gap: string) { forall c :: c in gap ==> IsSpace(c) }

  /** Gaps are white space, of which there is some between a plain word and a next one that is not a bar. */
  predicate Spaced(xs: seq<Piece>, gaps: seq<string>) {
    && |gaps| == |xs|
    && (forall i :: 0 <= i < |gaps| ==> Blank(gaps[i]))
    && forall i :: 0 <= i < |xs| - 1 && xs[i].Plain? && !xs[i + 1].Bar? ==> gaps[i] != ""
  }

  function Words(xs: seq<Piece>): (words: seq<string>) {
    if xs == [] then [] else [Word(xs[0])] + Words(xs[1..])
  }

  lemma {:induction false} QuotedRun(w: string, q: char, tail: string, read: string)
    requires IsQuote(q) && forall c :: c in w ==> !IsQuote(c)
    ensures Tokens(w + ([q] + tail), Quoted(q, read)) == [read + w] + Tokens(tail, Between)
    decreases w
  {
    var text := w + ([q] + tail);
    if w == "" {
      assert text[1..] == tail && read + w == read;
    } else {
      assert w[0] in w && text[1..] == w[1..] + ([q] + tail);
      assert forall c :: c in w[1..] ==> c in w;
      QuotedRun(w[1..], q, tail, read + [w[0]]);
      assert read + [w[0]] + w[1..] == read + w;
    }
  }

  ghost predicate EndsWord(tail: string) { tail == "" || IsSpace(tail[0]) || tail[0] == '|' }

  lemma {:induction false} BlankRun(gap: string, tail: string)
    requires Blank(gap)
    ensures Tokens(gap + tail, Between) == Tokens(tail, Between)
  {
    if gap == "" {
      assert gap + tail == tail;
    } else {
      assert gap[0] in gap && (gap + tail)[1..] == gap[1..] + tail;
      BlankRun(gap[1..], tail);
    }
  }

  lemma {:induction false} BareRun(w: string, tail: string, read: string)
    requires EndsWord(tail) && forall c :: c in w ==> !IsSpace(c) && !IsQuote(c) && c != '|'
    ensures Tokens(w + tail, Bare(read)) == [read + w] + Tokens(tail, Between)
    decreases w
  {
    if w == "" {
      assert w + tail == tail && read + w == read;
    } else {
      assert w[0] in w && (w + tail)[1..] == w[1..] + tail;
      assert forall c :: c in w[1..] ==> c in w;
      BareRun(w[1..], tail, read + [w[0]]);
      assert read + [w[0]] + w[1..] == read + w;
    }
  }

  /** Between words, or at the very start of a bare one. */
  predicate Fresh(m: Mode) { m.Between? || m == Bare("") }

  lemma {:induction false} PlainPiece(w: string, tail: string, m: Mode)
    requires Writable(Plain(w)) && EndsWord(tail) && Fresh(m)
    ensures Tokens(w + tail, m) == [w] + Tokens(tail, Between)
  {
    if m.Bare? {
      BareRun(w, tail, "");
      assert "" + w == w;
    } else {
      assert w[0] in w && (w + tail)[1..] == w[1..] + tail;
      assert forall c :: c in w[1..] ==> c in w;
      BareRun(w[1..], tail, [w[0]]);
      assert [w[0]] + w[1..] == w;
    }
  }

  lemma {:induction false} QuotedPiece(w: string, q: char, tail: string, m: Mode)
    requires Writable(InQuotes(w, q)) && Fresh(m)
    ensures Tokens([q] + w + [q] + tail, m) == [w] + Tokens(tail, Between)
  {
    assert ([q] + w + [q] + tail)[1..] == w + ([q] + tail);
    QuotedRun(w, q, tail, "");
    assert "" + w == w;
  }

  /** A piece is read as its word, provided that a plain one ends there. */
  lemma {:induction false} OnePiece(x: Piece, tail: string, m: Mode)
    requires Writable(x) && (x.Plain? ==> EndsWord(tail)) && Fresh(m) && (m.Bare? ==> !x.Bar?)
    ensures Tokens(Text(x) + tail, m) == [Word(x)] + Tokens(tail, Between)
  {
    match x
    case Plain(w) => PlainPiece(w, tail, m);
    case InQuotes(w, q) => QuotedPiece(w, q, tail, m);
    case Bar => assert ("|" + tail)[1..] == tail;
  }

  lemma PlainEnds(xs: seq<Piece>, gaps: seq<string>)
    requires xs != [] && Spaced(xs, gaps) && xs[0].Plain?
    ensures EndsWord(gaps[0] + Written(xs[1..], gaps[1..]))
  {
    var rest := Written(xs[1..], gaps[1..]);
    if gaps[0] != "" {
      assert gaps[0][0] in gaps[0];
    } else {
      assert gaps[0] + rest == rest;
    }
  }

  lemma SpacedTail(xs: seq<Piece>, gaps: seq<string>)
    requires xs != [] && Spaced(xs, gaps)
    ensures Spaced(xs[1..], gaps[1..])
  {
    var ys, hs := xs[1..], gaps[1..];
    forall i | 0 <= i < |ys| - 1 && ys[i].Plain? && !ys[i + 1].Bar? ensures hs[i] != "" {
      assert ys[i] == xs[i + 1] && ys[i + 1] == xs[i + 2] && hs[i] == gaps[i + 1];
    }
  }

  lemma {:induction false} TokensOfWritten(xs: seq<Piece>, gaps: seq<string>, m: Mode)
    requires AllWritable(xs) && Spaced(xs, gaps) && Fresh(m) && (m.Bare? ==> xs != [] && !xs[0].Bar?)
    ensures Tokens(Written(xs, gaps), m) == Words(xs)
    decreases |xs|
  {
    if xs != [] {
      var rest := Written(xs[1..], gaps[1..]);
      if xs[0].Plain? {
        PlainEnds(xs, gaps);
      }
      OnePiece(xs[0], gaps[0] + rest, m);
      BlankRun(gaps[0], rest);
      SpacedTail(xs, gaps);
      TokensOfWritten(xs[1..], gaps[1..], Between);
    }
  }

  lemma {:induction false} SkipsLead(lead: string, text: string)
    requires Blank(lead) && text != "" && !IsSpace(text[0])
    ensures SkipSpaces(lead + text) == text
  {
    if lead == "" {
      assert lead + text == text;
    } else {
      assert lead[0] in lead && (lead + text)[1..] == lead[1..] + text;
      SkipsLead(lead[1..], text);
    }
  }

  lemma {:induction false} NothingToSkip(xs: seq<Piece>, gaps: seq<string>)
    requires xs != [] && |gaps| == |xs| && Writable(xs[0])
    ensures Written(xs, gaps) != "" && !IsSpace(Written(xs, gaps)[0])
  {
    var text := Text(xs[0]);
    assert Written(xs, gaps)[0] == text[0];
    if xs[0].Plain? {
      assert text[0] in text;
    }
  }

  /** A line written from pieces, with white space in front and after each and not starting with a bar, is read back
      as their words; only between a plain word and another word is white space needed. */
  lemma {:induction false} WrittenReadsBack(lead: string, xs: seq<Piece>, gaps: seq<string>)
    requires AllWritable(xs) && Spaced(xs, gaps) && Blank(lead)
    requires xs != [] && !xs[0].Bar?
    ensures LineTokens(lead + Written(xs, gaps)) == Words(xs)
  {
    NothingToSkip(xs, gaps);
    SkipsLead(lead, Written(xs, gaps));
    TokensOfWritten(xs, gaps, Bare(""));
  }

  /** A line that starts with a bar is read with an empty word in front. */
  lemma {:induction false} LeadingBarAddsAWord(lead: string, xs: seq<Piece>, gaps: seq<string>)
    requires AllWritable(xs) && Spaced(xs, gaps) && Blank(lead)
    requires xs != [] && xs[0].Bar?
    ensures LineTokens(lead + Written(xs, gaps)) == [""] + Words(xs)
  {
    NothingToSkip(xs, gaps);
    SkipsLead(lead, Written(xs, gaps));
    assert Written(xs, gaps)[0] == '|';
    TokensOfWritten(xs, gaps, Between);
  }

  lemma {:induction false} BlankLine(line: string)
    requires Blank(line)
    ensures LineTokens(line) == []
  {
    if line != "" {
      assert line[0] in line;
      BlankLine(line[1..]);
    }
  }

  lemma {:induction false} BareIsDropped(w: string, q: char, tail: string, read: string)
    requires IsQuote(q) && forall c :: c in w ==> !IsSpace(c) && !IsQuote(c) && c != '|'
    ensures Tokens(w + ([q] + tail), Bare(read)) == Tokens(tail, Quoted(q, ""))
    decreases w
  {
    var text := w + ([q] + tail);
    if w == "" {
      assert text[1..] == tail;
    } else {
      assert w[0] in w && text[1..] == w[1..] + ([q] + tail);
      assert forall c :: c in w[1..] ==> c in w;
      BareIsDropped(w[1..], q, tail, read + [w[0]]);
    }
  }

  /** Without white space between them, a plain word is lost to the quoted one behind it. */
  lemma GluedWordIsLost(w: string, v: string, q: char)
    requires Writable(Plain(w)) && Writable(InQuotes(v, q))
    ensures LineTokens(w + ([q] + (v + [q]))) == [v]
  {
    assert w[0] in w;
    var line := w + ([q] + (v + [q]));
    assert line[0] == w[0] && SkipSpaces(line) == line;
    BareIsDropped(w, q, v + [q], "");
    assert [q] + "" == [q];
    QuotedRun(v, q, "", "");
    assert "" + v == v;
  }

  method ParseWritten(lead: string, xs: seq<Piece>, gaps: seq<string>, maxWords: int) returns (words: seq<string>)
    requires AllWritable(xs) && Spaced(xs, gaps) && Blank(lead)
    requires xs != [] && !xs[0].Bar?
    requires '\0' !in lead + Written(xs, gaps)
    ensures |xs| < maxWords ==> words == Words(xs)
  {
    WrittenReadsBack(lead, xs, gaps);
    words := ParseLine(lead + Written(xs, gaps), maxWords);
    WordCount(xs);
  }

  lemma {:induction false} WordCount(xs: seq<Piece>)
    ensures |Words(xs)| == |xs| && forall i :: 0 <= i < |xs| ==> Words(xs)[i] == Word(xs[i])
  {
    if xs != [] {
      WordCount(xs[1..]);
    }
  }
}
