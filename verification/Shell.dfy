/** How /bin/sh splits a command line into words: POSIX.1-2017 Shell Command Language, section
    2.3 (token recognition), section 2.2 (quoting) and section 2.6.7 (quote removal). Pathname
    expansion is taken to find no matching file. */
module Shell {
  import opened Options
  import opened Decimal

  /** Characters that stand for themselves outside quotes, wherever they occur in a word. */
  predicate Plain(c: char) {
    || IsDigit(c) || 'a' <= c <= 'z' || 'A' <= c <= 'Z'
    || c in {'_', '-', '.', '/', ':', '@', '%', '+', ',', '='}
  }

  /** Characters that start an expansion. */
  predicate Expands(c: char) {
    c == '$' || c == '`'
  }

  /** Characters before which a backslash inside double quotes is removed. */
  predicate Escapable(c: char) {
    Expands(c) || c == '"' || c == '\\' || c == '\n'
  }

  predicate Blank(c: char) {
    c == ' ' || c == '\t'
  }

  predicate Redirects(c: char) {
    c == '<' || c == '>'
  }

  /** Characters that end a command. */
  predicate Operator(c: char) {
    c == ';' || c == '&' || c == '|' || c == '(' || c == ')' || c == '\n'
  }

  predicate EndsWord(c: char) {
    Blank(c) || Operator(c) || Redirects(c)
  }

  predicate AllPlain(s: string) {
    forall i | 0 <= i < |s| :: Plain(s[i])
  }

  /** Texts that stand for themselves inside double quotes: no double quote, no expansion, and
      every backslash before a character that it does not escape. */
  predicate AllQuotable(s: string) {
    forall i | 0 <= i < |s| :: QuotableAt(s, i)
  }

  predicate QuotableAt(s: string, i: nat)
    requires i < |s|
  {
    s[i] != '"' && !Expands(s[i]) && (s[i] == '\\' ==> i + 1 < |s| && !Escapable(s[i + 1]))
  }

  lemma QuotableFrom(s: string, n: nat)
    requires n <= |s|
    ensures AllQuotable(s) <==> AllQuotable(s[n..]) && forall i: nat | i < n :: QuotableAt(s, i)
  {
    var t := s[n..];
    assert forall i: nat | i < |t| :: QuotableAt(t, i) == QuotableAt(s, n + i);
    assert forall i: nat | n <= i < |s| :: QuotableAt(s, i) == QuotableAt(t, i - n);
  }

  /** No character that starts an expansion. */
  predicate Literal(s: string) {
    forall i | 0 <= i < |s| :: !Expands(s[i])
  }

  /** Outside quotes, inside them, or right after a backslash outside or inside double quotes. */
  datatype Mode = Bare | InDouble | InSingle | Escape | EscapeInDouble

  /** The quoting of what follows a character. */
  function Next(mode: Mode, c: char): Mode {
    match mode
    case Bare => if c == '"' then InDouble else if c == '\'' then InSingle else if c == '\\' then Escape else Bare
    case InDouble => if c == '"' then Bare else if c == '\\' then EscapeInDouble else InDouble
    case InSingle => if c == '\'' then Bare else InSingle
    case Escape => Bare
    case EscapeInDouble => InDouble
  }

  /** What a character leaves in its word: quotes vanish, a backslash waits for its successor. */
  function Emit(mode: Mode, c: char): string {
    match mode
    case Bare => if c == '"' || c == '\'' || c == '\\' then "" else [c]
    case InDouble => if c == '"' || c == '\\' then "" else [c]
    case InSingle => if c == '\'' then "" else [c]
    case Escape => if c == '\n' then "" else [c]
    case EscapeInDouble => if c == '\n' then "" else if Escapable(c) then [c] else ['\\', c]
  }

  /** The words so far, and the word being read, if one has been started. */
  datatype Reader = Reader(words: seq<string>, word: Option<string>) {
    function Add(text: string): Reader {
      this.(word := Some(word.GetOr("") + text))
    }

    function EndWord(): Reader {
      if word.Some? then Reader(words + [word.value], None) else this
    }
  }

  /** What is known of the first command on a line. Complete: the line is this one command,
      perhaps run in the background. Followed: the command has exactly these words, if what
      follows it has no syntax error. Cut: it starts with these words, if the rest has none.
      Unbalanced: a quote is not closed, and nothing is run. */
  datatype Outcome = Complete(words: seq<string>) | Followed(words: seq<string>) | Cut(words: seq<string>) | Unbalanced

  predicate Comment(s: string) {
    s != "" && s[0] == '#' && '\n' !in s
  }

  /** No further command: blanks, and perhaps a comment. */
  predicate NothingMore(s: string) {
    s == "" || Comment(s) || (Blank(s[0]) && NothingMore(s[1..]))
  }

  /** What a character outside quotes, with `rest` after it, does at the end of a command. */
  function EndCommand(c: char, rest: string, r: Reader): Outcome {
    var words := r.EndWord().words;
    if Comment([c] + rest) || ((c == '&' || c == ';' || c == '\n') && NothingMore(rest)) then Complete(words)
    else if c == '(' || c == ')' then Cut(words)
    else if Redirects(c) then Cut(if AllDigits(r.word.GetOr("")) then r.words else words)
    else if c == '~' then Cut(r.words)
    else Followed(words)
  }

  function Scan(s: string, mode: Mode, r: Reader): Outcome {
    if s == "" then (if mode == Bare then Complete(r.EndWord().words) else Unbalanced)
    else
      var (c, rest) := (s[0], s[1..]);
      if Expands(c) && (mode == Bare || mode == InDouble) then Cut(r.words)
      else if (mode == Bare && c == '\\') || (mode == Escape && c == '\n') then Scan(rest, Next(mode, c), r)
      else if mode != Bare || c == '"' || c == '\'' then Scan(rest, Next(mode, c), r.Add(Emit(mode, c)))
      else if Blank(c) then Scan(rest, Bare, r.EndWord())
      else if Operator(c) || Redirects(c) || ((c == '#' || c == '~') && r.word.None?) then EndCommand(c, rest, r)
      else Scan(rest, Bare, r.Add([c]))
  }

  function Words(text: string): Outcome {
    Scan(text, Bare, Reader([], None))
  }

  lemma ScanPlainChar(s: string, r: Reader)
    requires s != "" && Plain(s[0])
    ensures Scan(s, Bare, r) == Scan(s[1..], Bare, r.Add([s[0]]))
  {
  }

  lemma {:induction false} ScanPlain(p: string, rest: string, r: Reader)
    requires AllPlain(p) && p != ""
    ensures Scan(p + rest, Bare, r) == Scan(rest, Bare, r.Add(p))
  {
    hide Scan, Plain;
    ScanPlainChar(p + rest, r);
    assert (p + rest)[1..] == p[1..] + rest;
    if |p| == 1 {
      assert p[1..] + rest == rest && [p[0]] == p;
    } else {
      ScanPlain(p[1..], rest, r.Add([p[0]]));
      assert r.word.GetOr("") + [p[0]] + p[1..] == r.word.GetOr("") + p;
    }
  }

  lemma ScanOneQuoted(s: string, r: Reader)
    requires s != "" && r.word.Some? && s[0] != '"' && s[0] != '\\' && !Expands(s[0])
    ensures Scan(s, InDouble, r) == Scan(s[1..], InDouble, r.Add([s[0]]))
  {
  }

  lemma ScanKeptBackslash(s: string, r: Reader)
    requires |s| >= 2 && r.word.Some? && s[0] == '\\' && !Escapable(s[1])
    ensures Scan(s, InDouble, r) == Scan(s[2..], InDouble, r.Add(s[..2]))
  {
    var rest := s[1..];
    assert rest[1..] == s[2..] && rest[0] == s[1];
    assert Scan(s, InDouble, r) == Scan(rest, EscapeInDouble, r.Add(""));
    assert r.word.value + "" == r.word.value;
    assert ['\\', s[1]] == s[..2];
  }

  lemma {:induction false} ScanInQuotes(q: string, rest: string, r: Reader)
    requires AllQuotable(q) && r.word.Some?
    ensures Scan(q + "\"" + rest, InDouble, r) == Scan(rest, Bare, r.Add(q))
    decreases |q|
  {
    var s := q + "\"" + rest;
    if q == "" {
      assert s[1..] == rest;
      assert r.word.value + "" == r.word.value;
    } else if q[0] == '\\' {
      assert QuotableAt(q, 0);
      QuotableFrom(q, 2);
      ScanKeptBackslash(s, r);
      assert s[2..] == q[2..] + "\"" + rest && s[..2] == q[..2];
      ScanInQuotes(q[2..], rest, r.Add(q[..2]));
      assert r.word.value + q[..2] + q[2..] == r.word.value + q;
    } else {
      assert QuotableAt(q, 0);
      QuotableFrom(q, 1);
      ScanOneQuoted(s, r);
      assert s[1..] == q[1..] + "\"" + rest;
      ScanInQuotes(q[1..], rest, r.Add([q[0]]));
      assert r.word.value + [q[0]] + q[1..] == r.word.value + q;
    }
  }

  lemma ScanQuoted(q: string, rest: string, r: Reader)
    requires AllQuotable(q)
    ensures Scan("\"" + q + "\"" + rest, Bare, r) == Scan(rest, Bare, r.Add(q))
  {
    var s := "\"" + q + "\"" + rest;
    assert s[1..] == q + "\"" + rest;
    ScanInQuotes(q, rest, r.Add(""));
    assert r.word.GetOr("") + "" + q == r.word.GetOr("") + q;
  }

  /** The text with a backslash before every character that is special inside double quotes. */
  function Escaped(s: string): string {
    if s == "" then ""
    else
      (if s[0] == '"' || s[0] == '\\' || s[0] == '$' || s[0] == '`' then ['\\', s[0]] else [s[0]]) + Escaped(s[1..])
  }

  lemma ScanEscape(c: char, rest: string, r: Reader)
    requires r.word.Some? && (c == '"' || c == '\\' || c == '$' || c == '`')
    ensures Scan(['\\', c] + rest, InDouble, r) == Scan(rest, InDouble, r.Add([c]))
  {
    var s := ['\\', c] + rest;
    assert s[1..] == [c] + rest && s[1..][1..] == rest;
    assert r.word.value + "" == r.word.value;
  }

  /** Quoting round trip: any text at all, escaped and put between double quotes, comes back. */
  lemma {:induction false} ScanEscaped(text: string, rest: string, r: Reader)
    requires r.word.Some?
    ensures Scan(Escaped(text) + "\"" + rest, InDouble, r) == Scan(rest, Bare, r.Add(text))
    decreases |text|
  {
    var s := Escaped(text) + "\"" + rest;
    if text == "" {
      assert s[1..] == rest && r.word.value + "" == r.word.value;
    } else {
      var c, more := text[0], Escaped(text[1..]) + "\"" + rest;
      if c == '"' || c == '\\' || c == '$' || c == '`' {
        assert s == ['\\', c] + more;
        ScanEscape(c, more, r);
      } else {
        assert s == [c] + more && s[1..] == more;
        ScanOneQuoted(s, r);
      }
      ScanEscaped(text[1..], rest, r.Add([c]));
      assert r.word.value + [c] + text[1..] == r.word.value + text;
    }
  }

  lemma {:induction false} ScanInSingle(q: string, rest: string, r: Reader)
    requires '\'' !in q && r.word.Some?
    ensures Scan(q + "'" + rest, InSingle, r) == Scan(rest, Bare, r.Add(q))
    decreases |q|
  {
    var s := q + "'" + rest;
    if q == "" {
      assert s[1..] == rest && r.word.value + "" == r.word.value;
    } else {
      assert s[1..] == q[1..] + "'" + rest;
      ScanInSingle(q[1..], rest, r.Add([q[0]]));
      assert r.word.value + [q[0]] + q[1..] == r.word.value + q;
    }
  }

  lemma ScanSingleQuoted(q: string, rest: string, r: Reader)
    requires '\'' !in q
    ensures Scan("'" + q + "'" + rest, Bare, r) == Scan(rest, Bare, r.Add(q))
  {
    var s := "'" + q + "'" + rest;
    assert s[1..] == q + "'" + rest;
    assert Scan(s, Bare, r) == Scan(s[1..], InSingle, r.Add(""));
    ScanInSingle(q, rest, r.Add(""));
    assert r.word.GetOr("") + "" + q == r.word.GetOr("") + q;
  }

  lemma ScanBackslash(c: char, rest: string, r: Reader)
    ensures Scan(['\\', c] + rest, Bare, r) == if c == '\n' then Scan(rest, Bare, r) else Scan(rest, Bare, r.Add([c]))
  {
    var s := ['\\', c] + rest;
    assert s[1..] == [c] + rest && ([c] + rest)[1..] == rest;
    assert Scan(s, Bare, r) == Scan([c] + rest, Escape, r);
  }

  lemma ScanQuotedLineEnd(rest: string, r: Reader)
    requires r.word.Some?
    ensures Scan("\\\n" + rest, InDouble, r) == Scan(rest, InDouble, r)
  {
    var s := "\\\n" + rest;
    assert s[1..] == "\n" + rest && ("\n" + rest)[1..] == rest;
    assert Scan(s, InDouble, r) == Scan("\n" + rest, EscapeInDouble, r.Add(""));
    assert r.word.value + "" + "" == r.word.value;
  }

  /** The other ways to spell a text: single quotes keep everything but themselves, a backslash
      keeps the next character, and a backslash before a newline vanishes with it. */
  lemma OtherQuoting(q: string, c: char, rest: string, r: Reader)
    ensures '\'' !in q ==> Scan("'" + q + "'" + rest, Bare, r) == Scan(rest, Bare, r.Add(q))
    ensures c != '\n' ==> Scan(['\\', c] + rest, Bare, r) == Scan(rest, Bare, r.Add([c]))
    ensures Scan("\\\n" + rest, Bare, r) == Scan(rest, Bare, r)
    ensures r.word.Some? ==> Scan("\\\n" + rest, InDouble, r) == Scan(rest, InDouble, r)
  {
    hide Scan;
    if '\'' !in q {
      ScanSingleQuoted(q, rest, r);
    }
    ScanBackslash(c, rest, r);
    ScanBackslash('\n', rest, r);
    if r.word.Some? {
      ScanQuotedLineEnd(rest, r);
    }
  }

  /** What ends a command outside quotes; whatever follows, its words are the ones read so far. */
  lemma CommandEnds(c: char, rest: string, r: Reader)
    requires c == ';' || c == '&' || c == '|' || c == '\n' || (c == '#' && r.word.None?)
    ensures var o := Scan([c] + rest, Bare, r);
            && (o == Complete(r.EndWord().words) || o == Followed(r.EndWord().words))
            && (c != '|' && rest == "" ==> o.Complete?)
            && (c == '|' ==> o.Followed?)
  {
    assert ([c] + rest)[1..] == rest;
  }

  /** What cuts a command short: a redirection or a parenthesis, and outside single quotes whatever
      starts an expansion. All that is known are words read before. */
  lemma CommandCut(c: char, rest: string, r: Reader)
    ensures c == '<' || c == '>' || c == '(' || c == ')' || c == '$' || c == '`' ==>
              var o := Scan([c] + rest, Bare, r); o.Cut? && r.words <= o.words <= r.EndWord().words
    ensures c == '$' || c == '`' ==> Scan([c] + rest, InDouble, r) == Cut(r.words)
    ensures c == '~' && r.word.None? ==> Scan([c] + rest, Bare, r) == Cut(r.words)
  {
    assert ([c] + rest)[1..] == rest;
  }

  /** A blank, a plain start and a quoted end make one word. */
  lemma ScanWord(p: string, q: string, rest: string, r: Reader)
    requires AllPlain(p) && p != "" && AllQuotable(q)
    ensures Scan(" " + p + "\"" + q + "\"" + rest, Bare, r) == Scan(rest, Bare, r.EndWord().Add(p + q))
  {
    var s := " " + p + "\"" + q + "\"" + rest;
    assert s[1..] == p + ("\"" + q + "\"" + rest);
    ScanPlain(p, "\"" + q + "\"" + rest, r.EndWord());
    ScanQuoted(q, rest, r.EndWord().Add(p));
    var head := r.EndWord().word.GetOr("");
    assert head + p + q == head + (p + q);
  }

  lemma ScanPlainWord(p: string, rest: string, r: Reader)
    requires AllPlain(p) && p != ""
    ensures Scan(" " + p + rest, Bare, r) == Scan(rest, Bare, r.EndWord().Add(p))
  {
    var s := " " + p + rest;
    assert s[1..] == p + rest;
    ScanPlain(p, rest, r.EndWord());
  }

  /** Where the word that is being read ends, if its quotes are ever closed. */
  function WordEnd(s: string, mode: Mode): (k: Option<nat>)
    ensures k.Some? ==> k.value <= |s|
  {
    if s == "" then (if mode == Bare then Some(0) else None)
    else if mode == Bare && EndsWord(s[0]) then Some(0)
    else
      var k := WordEnd(s[1..], Next(mode, s[0]));
      if k.None? then None else Some(k.value + 1)
  }

  /** Quote removal. */
  function Unquote(raw: string, mode: Mode): string {
    if raw == "" then "" else Emit(mode, raw[0]) + Unquote(raw[1..], Next(mode, raw[0]))
  }

  /** The words known of the command. */
  function Known(o: Outcome): seq<string> {
    if o.Unbalanced? then [] else o.words
  }

  /** Words once read stay. */
  lemma {:induction false} ScanExtends(s: string, mode: Mode, r: Reader)
    ensures Scan(s, mode, r).Unbalanced? || r.words <= Known(Scan(s, mode, r))
    decreases s
  {
    if s != "" {
      var (c, rest) := (s[0], s[1..]);
      ScanExtends(rest, Next(mode, c), r);
      ScanExtends(rest, Next(mode, c), r.Add(Emit(mode, c)));
      ScanExtends(rest, Next(mode, c), r.EndWord());
      ScanExtends(rest, Next(mode, c), r.Add([c]));
    }
  }

  lemma ScanWordEnds(s: string, r: Reader)
    requires r.word.Some? && !AllDigits(r.word.value) && (s == "" || EndsWord(s[0]))
    ensures var o := Scan(s, Bare, r); o.Unbalanced? || r.words + [r.word.value] <= Known(o)
  {
    if s != "" && Blank(s[0]) {
      ScanExtends(s[1..], Bare, r.EndWord());
    }
  }

  /** Inside a word the scanner adds what each character leaves. */
  lemma ScanInWord(s: string, mode: Mode, r: Reader)
    requires s != "" && r.word.Some? && !Expands(s[0]) && (mode == Bare ==> !EndsWord(s[0]))
    ensures Scan(s, mode, r) == Scan(s[1..], Next(mode, s[0]), r.Add(Emit(mode, s[0])))
  {
    assert r.word.value + "" == r.word.value;
  }

  /** The next word is what quote removal leaves of the text up to its end. */
  lemma {:induction false} ScanNextWord(s: string, mode: Mode, r: Reader)
    requires r.word.Some? && !AllDigits(r.word.value) && Literal(s)
    ensures var (k, o) := (WordEnd(s, mode), Scan(s, mode, r));
            || o.Unbalanced?
            || (k.Some? && r.words + [r.word.value + Unquote(s[..k.value], mode)] <= Known(o))
    decreases s
  {
    hide Emit, Next;
    var word := r.word.value;
    if s == "" || (mode == Bare && EndsWord(s[0])) {
      if mode == Bare {
        ScanWordEnds(s, r);
        assert word + Unquote(s[..0], mode) == word;
      }
    } else {
      var (c, rest) := (s[0], s[1..]);
      ScanInWord(s, mode, r);
      NotDigits(word, Emit(mode, c));
      ScanNextWord(rest, Next(mode, c), r.Add(Emit(mode, c)));
      var k := WordEnd(rest, Next(mode, c));
      if k.Some? {
        var raw := s[..k.value + 1];
        assert raw[1..] == rest[..k.value];
        assert word + Emit(mode, c) + Unquote(raw[1..], Next(mode, c)) == word + Unquote(raw, mode);
      }
    }
  }

  lemma NotDigits(word: string, more: string)
    requires !AllDigits(word)
    ensures !AllDigits(word + more)
  {
    var i :| 0 <= i < |word| && !IsDigit(word[i]);
    assert (word + more)[i] == word[i];
  }

  function ModeAfter(s: string, mode: Mode): Mode {
    if s == "" then mode else ModeAfter(s[1..], Next(mode, s[0]))
  }

  /** A backslash that is still owed to the word. */
  function Owed(mode: Mode): nat {
    if mode == EscapeInDouble then 1 else 0
  }

  /** How many characters quote removal takes away for good. */
  function Lost(s: string, mode: Mode): nat {
    if s == "" then 0
    else
      var next := Next(mode, s[0]);
      1 + Owed(mode) - |Emit(mode, s[0])| - Owed(next) + Lost(s[1..], next)
  }

  function Spaces(s: string): nat {
    if s == "" then 0 else (if s[0] == ' ' then 1 else 0) + Spaces(s[1..])
  }

  lemma {:induction false} SpacesOfJoin(s: string, t: string)
    ensures Spaces(s + t) == Spaces(s) + Spaces(t)
  {
    if s == "" {
      assert s + t == t;
    } else {
      assert (s + t)[1..] == s[1..] + t;
      SpacesOfJoin(s[1..], t);
    }
  }

  lemma SpacesEmitted(mode: Mode, c: char)
    ensures Spaces(Emit(mode, c)) == if c == ' ' then 1 else 0
  {
    assert [c][1..] == "";
    assert Spaces([c]) == if c == ' ' then 1 else 0;
    assert ['\\', c][1..] == [c];
  }

  lemma {:induction false} UnquoteCounts(raw: string, mode: Mode)
    ensures |Unquote(raw, mode)| + Lost(raw, mode) + Owed(ModeAfter(raw, mode)) == |raw| + Owed(mode)
    ensures Spaces(Unquote(raw, mode)) == Spaces(raw)
    decreases raw
  {
    if raw != "" {
      var next := Next(mode, raw[0]);
      UnquoteCounts(raw[1..], next);
      SpacesOfJoin(Emit(mode, raw[0]), Unquote(raw[1..], next));
      SpacesEmitted(mode, raw[0]);
    }
  }

  lemma {:induction false} WordEndIsBare(s: string, mode: Mode)
    requires WordEnd(s, mode).Some?
    ensures ModeAfter(s[..WordEnd(s, mode).value], mode) == Bare
    decreases s
  {
    var k := WordEnd(s, mode).value;
    if k > 0 {
      WordEndIsBare(s[1..], Next(mode, s[0]));
      assert s[..k][1..] == s[1..][..k - 1];
    } else {
      assert s[..0] == "";
    }
  }

  lemma {:induction false} LostOfJoin(s: string, t: string, mode: Mode)
    ensures ModeAfter(s + t, mode) == ModeAfter(t, ModeAfter(s, mode))
    ensures Lost(s + t, mode) == Lost(s, mode) + Lost(t, ModeAfter(s, mode))
    decreases s
  {
    if s == "" {
      assert s + t == t;
    } else {
      assert (s + t)[1..] == s[1..] + t;
      LostOfJoin(s[1..], t, Next(mode, s[0]));
    }
  }

  /** How many characters it takes to get from inside double quotes to a mode. */
  function Cost(mode: Mode): nat {
    if mode == Bare then 1 else if mode == Escape || mode == InSingle then 2 else 0
  }

  lemma {:induction false} ModesCost(s: string, mode: Mode)
    ensures Lost(s, mode) + Cost(mode) >= Cost(ModeAfter(s, mode))
    decreases s
  {
    if s != "" {
      ModesCost(s[1..], Next(mode, s[0]));
    }
  }

  /** Only quotable texts pass through double quotes without a loss. */
  lemma {:induction false} NothingLost(s: string)
    requires Literal(s) && Lost(s, InDouble) == 0 && ModeAfter(s, InDouble) == InDouble
    ensures AllQuotable(s)
    decreases |s|
  {
    if s != "" {
      if s[0] == '\\' {
        assert |s| >= 2 && s[1..][1..] == s[2..];
        NothingLost(s[2..]);
        QuotableFrom(s, 2);
      } else {
        NothingLost(s[1..]);
        QuotableFrom(s, 1);
      }
    }
  }

  lemma LostOnQuote(mode: Mode)
    ensures ModeAfter("\"", mode) == Next(mode, '"')
    ensures Lost("\"", mode) == if mode == InSingle || mode == Escape then 0 else 1
  {
    assert "\""[1..] == "";
  }

  /** A text that is not quotable, put between double quotes and followed by a blank and more, is
      never read back as it was: the word is shorter, or has more blanks. */
  lemma UnquotableNeverSurvives(c: string, rest: string)
    requires Literal(c) && !AllQuotable(c) && rest != "" && rest[0] == ' '
    ensures var s := c + "\"" + rest;
            WordEnd(s, InDouble).Some? ==> Unquote(s[..WordEnd(s, InDouble).value], InDouble) != c
  {
    var s := c + "\"" + rest;
    if WordEnd(s, InDouble).Some? {
      var k := WordEnd(s, InDouble).value;
      var raw := s[..k];
      WordEndIsBare(s, InDouble);
      UnquoteCounts(raw, InDouble);
      if k <= |c| {
        ModesCost(raw, InDouble);
      } else if k == |c| + 1 {
        assert raw == c + "\"";
        LostOfJoin(c, "\"", InDouble);
        LostOnQuote(ModeAfter(c, InDouble));
        ModesCost(c, InDouble);
        if Lost(c, InDouble) == 0 && ModeAfter(c, InDouble) == InDouble {
          NothingLost(c);
        }
      } else {
        var more := s[|c| + 2..k];
        assert raw == c + ("\" " + more);
        SpacesOfJoin(c, "\" " + more);
        SpacesOfJoin("\" ", more);
        assert "\" "[1..] == " " && " "[1..] == "";
      }
    }
  }
}
