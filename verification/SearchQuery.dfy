/**
 The search text sent to Datadog: how terms translated from SQL are joined to the user's query, and
 a grammar for that text under which the joined query means what it should.
 */
module SearchQuery {
  import opened Prelude
  import opened Text

  // ----- the grammar -----

  datatype Token = LParen | RParen | Word(text: string)

  datatype Query =
    | Term(text: string)
    | Not(q: Query)
    | And(left: Query, right: Query)
    | Or(left: Query, right: Query)

  /** Whether a query selects something, given which terms do; a bare `*` selects everything. */
  predicate Selects(q: Query, judge: string -> bool) {
    match q
    case Term(text) => text == "*" || judge(text)
    case Not(inner) => !Selects(inner, judge)
    case And(left, right) => Selects(left, judge) && Selects(right, judge)
    case Or(left, right) => Selects(left, judge) || Selects(right, judge)
  }

  // Tokens are separated by white space and parentheses. A double-quoted stretch is part of its
  // word, whatever it holds, and a backslash makes the next character part of the word.

  datatype Mode = Plain | Quoted | EscapedPlain | EscapedQuoted

  datatype Lexer = Lexer(tokens: seq<Token>, word: string, mode: Mode)

  const START := Lexer([], "", Plain)

  function Flushed(lx: Lexer): seq<Token> {
    if lx.word == "" then lx.tokens else lx.tokens + [Word(lx.word)]
  }

  predicate IsWordChar(c: char) {
    !IsSpace(c) && c != '(' && c != ')' && c != '"' && c != '\\'
  }

  function Step(lx: Lexer, c: char): Lexer {
    match lx.mode
    case Plain =>
      if IsSpace(c) then Lexer(Flushed(lx), "", Plain)
      else if c == '(' then Lexer(Flushed(lx) + [LParen], "", Plain)
      else if c == ')' then Lexer(Flushed(lx) + [RParen], "", Plain)
      else if c == '"' then lx.(word := lx.word + [c], mode := Quoted)
      else if c == '\\' then lx.(word := lx.word + [c], mode := EscapedPlain)
      else lx.(word := lx.word + [c])
    case Quoted =>
      if c == '"' then lx.(word := lx.word + [c], mode := Plain)
      else if c == '\\' then lx.(word := lx.word + [c], mode := EscapedQuoted)
      else lx.(word := lx.word + [c])
    case EscapedPlain => lx.(word := lx.word + [c], mode := Plain)
    case EscapedQuoted => lx.(word := lx.word + [c], mode := Quoted)
  }

  function Run(s: string, lx: Lexer): Lexer {
    if s == "" then lx else Run(s[1..], Step(lx, s[0]))
  }

  /** None for an open quotation or a trailing backslash. */
  function Lex(s: string): Option<seq<Token>> {
    var lx := Run(s, START);
    if lx.mode == Plain then Some(Flushed(lx)) else None
  }

  const AND_WORD := Word("AND")
  const OR_WORD := Word("OR")

  predicate IsNegation(t: Token) {
    t == Word("NOT") || t == Word("-")
  }

  // Recursive descent. OR binds loosest; two operands side by side are conjoined like AND.

  function ParseOr(ts: seq<Token>): (r: Option<(Query, seq<Token>)>)
    ensures r.Some? ==> |r.value.1| < |ts|
    decreases |ts|, 3
  {
    match ParseAnd(ts)
    case None => None
    case Some((a, rest)) => OrTail(a, rest)
  }

  function OrTail(a: Query, ts: seq<Token>): (r: Option<(Query, seq<Token>)>)
    ensures r.Some? ==> |r.value.1| <= |ts|
    decreases |ts|, 0
  {
    if ts == [] || ts[0] != OR_WORD then Some((a, ts))
    else
      match ParseAnd(ts[1..])
      case None => None
      case Some((b, rest)) => OrTail(Or(a, b), rest)
  }

  function ParseAnd(ts: seq<Token>): (r: Option<(Query, seq<Token>)>)
    ensures r.Some? ==> |r.value.1| < |ts|
    decreases |ts|, 2
  {
    match ParseUnary(ts)
    case None => None
    case Some((a, rest)) => AndTail(a, rest)
  }

  function AndTail(a: Query, ts: seq<Token>): (r: Option<(Query, seq<Token>)>)
    ensures r.Some? ==> |r.value.1| <= |ts|
    decreases |ts|, 2
  {
    if ts == [] || ts[0] == RParen || ts[0] == OR_WORD then Some((a, ts))
    else
      match ParseUnary(if ts[0] == AND_WORD then ts[1..] else ts)
      case None => None
      case Some((b, rest)) => AndTail(And(a, b), rest)
  }

  function ParseUnary(ts: seq<Token>): (r: Option<(Query, seq<Token>)>)
    ensures r.Some? ==> |r.value.1| < |ts|
    decreases |ts|, 1
  {
    if ts == [] || ts[0] == RParen || ts[0] == AND_WORD || ts[0] == OR_WORD then None
    else if ts[0] == LParen then
      match ParseOr(ts[1..])
      case None => None
      case Some((a, rest)) => if rest != [] && rest[0] == RParen then Some((a, rest[1..])) else None
    else if IsNegation(ts[0]) then
      match ParseUnary(ts[1..])
      case None => None
      case Some((a, rest)) => Some((Not(a), rest))
    else Some((Term(ts[0].text), ts[1..]))
  }

  /** The meaning of a search text; None when it is malformed. */
  function ParseQuery(s: string): Option<Query> {
    match Lex(s)
    case None => None
    case Some(tokens) =>
      match ParseOr(tokens)
      case Some((q, rest)) => if rest == [] then Some(q) else None
      case None => None
  }

  // ----- joining terms to the user's query -----

  function JoinTerms(terms: seq<string>): string {
    if |terms| == 0 then ""
    else if |terms| == 1 then terms[0]
    else JoinTerms(terms[..|terms| - 1]) + " AND " + terms[|terms| - 1]
  }

  function SearchText(query: string, terms: seq<string>): string {
    if terms == [] then query
    else if query == "*" then JoinTerms(terms)
    else "(" + query + ") AND " + JoinTerms(terms)
  }

  method BuildDatadogSearchQuery(query: string, queryTerms: seq<string>) returns (r: string)
    ensures r == SearchText(query, queryTerms)
  {
    if queryTerms == [] {
      return query;
    }
    var pushedQuery := "";
    for i := 0 to |queryTerms|
      invariant pushedQuery == JoinTerms(queryTerms[..i])
    {
      assert queryTerms[..i + 1][..i] == queryTerms[..i];
      if i > 0 {
        pushedQuery := pushedQuery + " AND ";
      }
      pushedQuery := pushedQuery + queryTerms[i];
    }
    assert queryTerms[..|queryTerms|] == queryTerms;
    if query == "*" {
      return pushedQuery;
    }
    return "(" + query + ") AND " + pushedQuery;
  }

  // ----- lexing pieces of text -----

  lemma {:induction false} RunAppend(a: string, b: string, lx: Lexer)
    ensures Run(a + b, lx) == Run(b, Run(a, lx))
  {
    if a == "" {
      assert a + b == b;
    } else {
      assert (a + b)[0] == a[0] && (a + b)[1..] == a[1..] + b;
      RunAppend(a[1..], b, Step(lx, a[0]));
    }
  }

  function After(pre: seq<Token>, lx: Lexer): Lexer {
    lx.(tokens := pre + lx.tokens)
  }

  lemma StepAfter(pre: seq<Token>, lx: Lexer, c: char)
    ensures Step(After(pre, lx), c) == After(pre, Step(lx, c))
  {
    assert pre + (lx.tokens + [Word(lx.word)]) == pre + lx.tokens + [Word(lx.word)];
    var t := if c == '(' then LParen else RParen;
    assert pre + (Flushed(lx) + [t]) == pre + Flushed(lx) + [t];
    assert Flushed(After(pre, lx)) == pre + Flushed(lx);
  }

  /** Tokens already produced stay in front. */
  lemma {:induction false} RunAfter(s: string, pre: seq<Token>, lx: Lexer)
    ensures Run(s, After(pre, lx)) == After(pre, Run(s, lx))
  {
    if s != "" {
      StepAfter(pre, lx, s[0]);
      RunAfter(s[1..], pre, Step(lx, s[0]));
    }
  }

  lemma {:induction false} RunWord(s: string, lx: Lexer)
    requires lx.mode == Plain
    requires forall i :: 0 <= i < |s| ==> IsWordChar(s[i])
    ensures Run(s, lx) == lx.(word := lx.word + s)
  {
    if s == "" {
      assert lx.word + s == lx.word;
    } else {
      RunWord(s[1..], Step(lx, s[0]));
      assert lx.word + s == (lx.word + [s[0]]) + s[1..];
    }
  }

  /** A pushed term is one word and not an operator. */
  predicate IsPlainTerm(t: string) {
    && t != "" && t != "*" && t != "AND" && t != "OR" && t != "NOT" && t != "-"
    && forall i :: 0 <= i < |t| ==> IsWordChar(t[i])
  }

  predicate ArePlainTerms(terms: seq<string>) {
    forall i :: 0 <= i < |terms| ==> IsPlainTerm(terms[i])
  }

  /** The tokens of joined terms. */
  function TermTokens(terms: seq<string>): seq<Token> {
    if |terms| == 0 then []
    else if |terms| == 1 then [Word(terms[0])]
    else TermTokens(terms[..|terms| - 1]) + [AND_WORD, Word(terms[|terms| - 1])]
  }

  lemma RunThree(a: string, b: string, c: string, lx: Lexer)
    ensures Run(a + b + c, lx) == Run(c, Run(b, Run(a, lx)))
  {
    RunAppend(a + b, c, lx);
    RunAppend(a, b, lx);
  }

  lemma RunOne(c: char, lx: Lexer)
    ensures Run([c], lx) == Step(lx, c)
  {
    assert [c][1..] == [];
  }

  lemma RunKeyword(keyword: string, tokens: seq<Token>)
    requires keyword == "AND" || keyword == "OR"
    ensures Run(keyword, Lexer(tokens, "", Plain)) == Lexer(tokens, keyword, Plain)
  {
    RunWord(keyword, Lexer(tokens, "", Plain));
    assert "" + keyword == keyword;
  }

  lemma RunSeparator(lx: Lexer)
    requires lx.mode == Plain && lx.word != ""
    ensures Run(" AND ", lx) == Lexer(Flushed(lx) + [AND_WORD], "", Plain)
  {
    var ended := lx.tokens + [Word(lx.word)];
    assert " AND " == " " + "AND" + " ";
    RunThree(" ", "AND", " ", lx);
    RunOne(' ', lx);
    RunKeyword("AND", ended);
    RunOne(' ', Lexer(ended, "AND", Plain));
  }

  lemma ThenTerm(pre: seq<Token>, tokens: seq<Token>, term: string)
    ensures pre + tokens + [AND_WORD] + [Word(term)] == pre + (tokens + [AND_WORD, Word(term)])
  {
  }

  /** After joined terms the lexer holds the last one as its current word. */
  lemma {:induction false} RunTerms(terms: seq<string>, pre: seq<Token>)
    requires terms != [] && ArePlainTerms(terms)
    ensures var lx := Run(JoinTerms(terms), Lexer(pre, "", Plain));
            lx.mode == Plain && lx.word == terms[|terms| - 1] && Flushed(lx) == pre + TermTokens(terms)
  {
    var last := terms[|terms| - 1];
    if |terms| == 1 {
      RunWord(last, Lexer(pre, "", Plain));
      assert "" + last == last;
    } else {
      var init := terms[..|terms| - 1];
      RunTerms(init, pre);
      var lx := Run(JoinTerms(init), Lexer(pre, "", Plain));
      RunSeparator(lx);
      var l2 := Lexer(Flushed(lx) + [AND_WORD], "", Plain);
      RunWord(last, l2);
      assert "" + last == last;
      RunThree(JoinTerms(init), " AND ", last, Lexer(pre, "", Plain));
      ThenTerm(pre, TermTokens(init), last);
    }
  }

  lemma RunTwo(c: char, d: char, lx: Lexer)
    ensures Run([c, d], lx) == Step(Step(lx, c), d)
  {
    assert [c, d][1..] == [d];
    RunOne(d, Step(lx, c));
  }

  /** A closing parenthesis and a blank end the current word. */
  lemma RunClose(lx: Lexer)
    requires lx.mode == Plain
    ensures Run(") ", lx) == Lexer(Flushed(lx) + [RParen], "", Plain)
  {
    RunTwo(')', ' ', lx);
  }

  lemma RunClosing(lx: Lexer)
    requires lx.mode == Plain
    ensures Run(") AND ", lx) == Lexer(Flushed(lx) + [RParen, AND_WORD], "", Plain)
  {
    var closed := Flushed(lx) + [RParen];
    assert ") AND " == ") " + "AND" + " ";
    RunThree(") ", "AND", " ", lx);
    RunClose(lx);
    RunKeyword("AND", closed);
    RunOne(' ', Lexer(closed, "AND", Plain));
    assert closed + [AND_WORD] == Flushed(lx) + [RParen, AND_WORD];
  }

  /** The tokens of the composed text, when the user's query has tokens. */
  lemma LexComposed(query: string, terms: seq<string>)
    requires Lex(query).Some? && terms != [] && ArePlainTerms(terms)
    ensures Lex("(" + query + ") AND " + JoinTerms(terms)) ==
            Some([LParen] + Lex(query).value + [RParen, AND_WORD] + TermTokens(terms))
  {
    var tokens := Lex(query).value;
    var entered := Lexer([LParen], "", Plain);
    assert [] + [LParen] == [LParen];
    assert Run("(", START) == entered;
    RunAppend("(", query, START);
    RunAfter(query, [LParen], START);
    assert After([LParen], START) == entered;
    var inner := Run("(" + query, START);
    assert inner.mode == Plain && Flushed(inner) == [LParen] + tokens;
    RunClosing(inner);
    RunAppend("(" + query, ") AND ", START);
    var l2 := Lexer(Flushed(inner) + [RParen, AND_WORD], "", Plain);
    RunTerms(terms, l2.tokens);
    assert "(" + query + ") AND " + JoinTerms(terms) == ("(" + query + ") AND ") + JoinTerms(terms);
    RunAppend("(" + query + ") AND ", JoinTerms(terms), START);
  }

  // ----- parsing with more input behind -----

  predicate Closes(more: seq<Token>) {
    more != [] && more[0] == RParen
  }

  /** A closing parenthesis stops the parser exactly where the end of input did. */
  lemma {:induction false} ParseOrThen(ts: seq<Token>, more: seq<Token>)
    requires ParseOr(ts).Some? && Closes(more)
    ensures var (q, rest) := ParseOr(ts).value; ParseOr(ts + more) == Some((q, rest + more))
    decreases |ts|, 3
  {
    ParseAndThen(ts, more);
    var (a, rest) := ParseAnd(ts).value;
    OrTailThen(a, rest, more);
  }

  lemma {:induction false} OrTailThen(a: Query, ts: seq<Token>, more: seq<Token>)
    requires OrTail(a, ts).Some? && Closes(more)
    ensures var (q, rest) := OrTail(a, ts).value; OrTail(a, ts + more) == Some((q, rest + more))
    decreases |ts|, 0
  {
    if ts != [] && ts[0] == OR_WORD {
      ParseAndThen(ts[1..], more);
      assert (ts + more)[1..] == ts[1..] + more;
      var (b, rest) := ParseAnd(ts[1..]).value;
      OrTailThen(Or(a, b), rest, more);
    }
  }

  lemma {:induction false} ParseAndThen(ts: seq<Token>, more: seq<Token>)
    requires ParseAnd(ts).Some? && Closes(more)
    ensures var (q, rest) := ParseAnd(ts).value; ParseAnd(ts + more) == Some((q, rest + more))
    decreases |ts|, 2
  {
    ParseUnaryThen(ts, more);
    var (a, rest) := ParseUnary(ts).value;
    AndTailThen(a, rest, more);
  }

  lemma {:induction false} AndTailThen(a: Query, ts: seq<Token>, more: seq<Token>)
    requires AndTail(a, ts).Some? && Closes(more)
    ensures var (q, rest) := AndTail(a, ts).value; AndTail(a, ts + more) == Some((q, rest + more))
    decreases |ts|, 2
  {
    if ts != [] && ts[0] != RParen && ts[0] != OR_WORD {
      var body := if ts[0] == AND_WORD then ts[1..] else ts;
      ParseUnaryThen(body, more);
      assert (ts + more)[1..] == ts[1..] + more;
      var (b, rest) := ParseUnary(body).value;
      AndTailThen(And(a, b), rest, more);
    }
  }

  lemma {:induction false} ParseUnaryThen(ts: seq<Token>, more: seq<Token>)
    requires ParseUnary(ts).Some? && Closes(more)
    ensures var (q, rest) := ParseUnary(ts).value; ParseUnary(ts + more) == Some((q, rest + more))
    decreases |ts|, 1
  {
    assert (ts + more)[0] == ts[0] && (ts + more)[1..] == ts[1..] + more;
    if ts[0] == LParen {
      ParseOrThen(ts[1..], more);
      var (a, rest) := ParseOr(ts[1..]).value;
      assert (rest + more)[1..] == rest[1..] + more;
    } else if IsNegation(ts[0]) {
      ParseUnaryThen(ts[1..], more);
    }
  }

  // ----- what the composed query means -----

  function Conjoined(a: Query, terms: seq<string>): Query {
    if terms == [] then a else And(Conjoined(a, terms[..|terms| - 1]), Term(terms[|terms| - 1]))
  }

  function AndTerms(terms: seq<string>): seq<Token> {
    if terms == [] then [] else AndTerms(terms[..|terms| - 1]) + [AND_WORD, Word(terms[|terms| - 1])]
  }

  /** The conjunction loop takes in every `AND term`, then goes on with what follows. */
  lemma {:induction false} AndTailTerms(a: Query, terms: seq<string>, rest: seq<Token>)
    requires ArePlainTerms(terms)
    ensures AndTail(a, AndTerms(terms) + rest) == AndTail(Conjoined(a, terms), rest)
  {
    if terms == [] {
      assert AndTerms(terms) + rest == rest;
    } else {
      var init, last := terms[..|terms| - 1], terms[|terms| - 1];
      var tail := [AND_WORD, Word(last)] + rest;
      assert AndTerms(terms) + rest == AndTerms(init) + tail;
      AndTailTerms(a, init, tail);
      assert tail[1..] == [Word(last)] + rest && ([Word(last)] + rest)[1..] == rest;
    }
  }

  lemma Reassociate(first: Token, tokens: seq<Token>, last: seq<Token>)
    ensures [first] + (tokens + last) == [first] + tokens + last
  {
  }

  lemma {:induction false} TermTokensAfterAnd(terms: seq<string>)
    requires terms != []
    ensures [AND_WORD] + TermTokens(terms) == AndTerms(terms)
  {
    if |terms| == 1 {
      assert AndTerms(terms[..0]) == [];
      assert [] + [AND_WORD, Word(terms[0])] == [AND_WORD] + [Word(terms[0])];
    } else {
      TermTokensAfterAnd(terms[..|terms| - 1]);
      Reassociate(AND_WORD, TermTokens(terms[..|terms| - 1]), [AND_WORD, Word(terms[|terms| - 1])]);
    }
  }

  lemma {:induction false} TermTokensAfterFirst(terms: seq<string>)
    requires terms != []
    ensures TermTokens(terms) == [Word(terms[0])] + AndTerms(terms[1..])
  {
    if |terms| == 1 {
      assert AndTerms(terms[1..]) == [];
    } else {
      var init, rest := terms[..|terms| - 1], terms[1..];
      TermTokensAfterFirst(init);
      assert init[0] == terms[0] && rest[..|rest| - 1] == init[1..] && rest[|rest| - 1] == terms[|terms| - 1];
      Reassociate(Word(terms[0]), AndTerms(init[1..]), [AND_WORD, Word(terms[|terms| - 1])]);
    }
  }

  lemma {:induction false} ConjoinedSelects(a: Query, terms: seq<string>, judge: string -> bool)
    requires ArePlainTerms(terms)
    ensures Selects(Conjoined(a, terms), judge) <==> Selects(a, judge) && forall t :: t in terms ==> judge(t)
  {
    if terms != [] {
      var init := terms[..|terms| - 1];
      ConjoinedSelects(a, init, judge);
      assert terms == init + [terms[|terms| - 1]];
    }
  }

  /** A text whose tokens are one whole conjunction. */
  lemma ConjunctionParses(s: string, ts: seq<Token>, q: Query)
    requires Lex(s) == Some(ts) && ParseAnd(ts) == Some((q, []))
    ensures ParseQuery(s) == Some(q)
  {
    assert OrTail(q, []) == Some((q, []));
    assert ParseOr(ts) == Some((q, []));
  }

  lemma ParseGroup(tokens: seq<Token>, a: Query, rest: seq<Token>)
    requires ParseOr(tokens) == Some((a, []))
    ensures ParseUnary([LParen] + (tokens + ([RParen] + rest))) == Some((a, rest))
  {
    var more := [RParen] + rest;
    ParseOrThen(tokens, more);
    assert [] + more == more && more[1..] == rest;
    var all := [LParen] + (tokens + more);
    assert all[1..] == tokens + more;
  }

  lemma ParseTerms(ts: seq<Token>, a: Query, terms: seq<string>)
    requires ParseUnary(ts) == Some((a, AndTerms(terms))) && ArePlainTerms(terms)
    ensures ParseAnd(ts) == Some((Conjoined(a, terms), []))
  {
    AndTailTerms(a, terms, []);
    assert AndTerms(terms) + [] == AndTerms(terms);
  }

  /** Parsing the composed text yields the user's query conjoined with every term. */
  lemma ComposedQueryParses(query: string, terms: seq<string>)
    requires ParseQuery(query).Some? && query != "*" && terms != [] && ArePlainTerms(terms)
    ensures ParseQuery(SearchText(query, terms)) == Some(Conjoined(ParseQuery(query).value, terms))
  {
    var tokens, a := Lex(query).value, ParseQuery(query).value;
    LexComposed(query, terms);
    TermTokensAfterAnd(terms);
    var all := [LParen] + (tokens + ([RParen] + AndTerms(terms)));
    assert [LParen] + tokens + [RParen, AND_WORD] + TermTokens(terms) == all by {
      assert [RParen, AND_WORD] == [RParen] + [AND_WORD];
    }
    ParseGroup(tokens, a, AndTerms(terms));
    ParseTerms(all, a, terms);
    ConjunctionParses(SearchText(query, terms), all, Conjoined(a, terms));
  }

  lemma ParseWord(t: string, rest: seq<Token>)
    requires IsPlainTerm(t)
    ensures ParseUnary([Word(t)] + rest) == Some((Term(t), rest))
  {
    assert ([Word(t)] + rest)[1..] == rest;
  }

  /** With the bare `*`, the text is the terms alone. */
  lemma StarQueryParses(terms: seq<string>)
    requires terms != [] && ArePlainTerms(terms)
    ensures ParseQuery(SearchText("*", terms)) == Some(Conjoined(Term(terms[0]), terms[1..]))
  {
    RunTerms(terms, []);
    assert [] + TermTokens(terms) == TermTokens(terms);
    TermTokensAfterFirst(terms);
    var all := [Word(terms[0])] + AndTerms(terms[1..]);
    ParseWord(terms[0], AndTerms(terms[1..]));
    ParseTerms(all, Term(terms[0]), terms[1..]);
    ConjunctionParses(JoinTerms(terms), all, Conjoined(Term(terms[0]), terms[1..]));
  }

  lemma StarParses()
    ensures ParseQuery("*") == Some(Term("*"))
  {
    RunWord("*", START);
    assert "" + "*" == "*" && [] + [Word("*")] == [Word("*")];
    var ts := [Word("*")];
    assert ts[1..] == [];
    assert ParseUnary(ts) == Some((Term("*"), []));
    ConjunctionParses("*", ts, Term("*"));
  }

  lemma FirstAndOthers(terms: seq<string>, first: string, others: seq<string>, judge: string -> bool)
    requires terms == [first] + others
    ensures (forall t :: t in terms ==> judge(t)) <==> judge(first) && forall t :: t in others ==> judge(t)
  {
    assert first in terms && forall t :: t in others ==> t in terms;
  }

  lemma TermsSelect(terms: seq<string>, judge: string -> bool)
    requires terms != [] && ArePlainTerms(terms)
    ensures Selects(Conjoined(Term(terms[0]), terms[1..]), judge) <==> forall t :: t in terms ==> judge(t)
  {
    ConjoinedSelects(Term(terms[0]), terms[1..], judge);
    FirstAndOthers(terms, terms[0], terms[1..], judge);
  }

  lemma StarQueryMeaning(terms: seq<string>, judge: string -> bool)
    requires terms != [] && ArePlainTerms(terms)
    ensures ParseQuery("*") == Some(Term("*")) && ParseQuery(SearchText("*", terms)).Some?
    ensures Selects(ParseQuery(SearchText("*", terms)).value, judge) <==> forall t :: t in terms ==> judge(t)
  {
    StarParses();
    StarQueryParses(terms);
    TermsSelect(terms, judge);
  }

  /**
   The composed query selects exactly what the user's well-formed query and all terms select; the
   order and the repetition of terms do not matter.
   */
  lemma ComposedQueryMeaning(query: string, terms: seq<string>, judge: string -> bool)
    requires ParseQuery(query).Some? && ArePlainTerms(terms)
    ensures ParseQuery(SearchText(query, terms)).Some?
    ensures Selects(ParseQuery(SearchText(query, terms)).value, judge) <==>
            Selects(ParseQuery(query).value, judge) && forall t :: t in terms ==> judge(t)
  {
    if terms == [] {
    } else if query == "*" {
      StarQueryMeaning(terms, judge);
    } else {
      ComposedQueryParses(query, terms);
      ConjoinedSelects(ParseQuery(query).value, terms, judge);
    }
  }

  // ----- malformed user queries -----

  lemma RunOr(lx: Lexer)
    requires lx.mode == Plain
    ensures Run(") OR (", lx) == Lexer(Flushed(lx) + [RParen, OR_WORD, LParen], "", Plain)
  {
    var closed := Flushed(lx) + [RParen];
    assert ") OR (" == ") " + "OR" + " (";
    RunThree(") ", "OR", " (", lx);
    RunClose(lx);
    RunKeyword("OR", closed);
    RunTwo(' ', '(', Lexer(closed, "OR", Plain));
    assert closed + [OR_WORD] + [LParen] == Flushed(lx) + [RParen, OR_WORD, LParen];
  }

  lemma LexUnbalanced(x: string, y: string)
    requires IsPlainTerm(x) && IsPlainTerm(y)
    ensures Lex(x + ") OR (" + y) == Some([Word(x), RParen, OR_WORD, LParen, Word(y)])
  {
    RunAppend(x + ") OR (", y, START);
    RunAppend(x, ") OR (", START);
    RunWord(x, START);
    assert "" + x == x && "" + y == y;
    var l1 := Run(x, START);
    RunOr(l1);
    assert Flushed(l1) == [Word(x)];
    RunWord(y, Run(") OR (", l1));
    assert [Word(x)] + [RParen, OR_WORD, LParen] + [Word(y)] == [Word(x), RParen, OR_WORD, LParen, Word(y)];
  }

  lemma WordThenStop(x: string, rest: seq<Token>)
    requires IsPlainTerm(x) && (rest == [] || rest[0] == RParen)
    ensures ParseOr([Word(x)] + rest) == Some((Term(x), rest))
  {
    ParseWord(x, rest);
    assert ParseAnd([Word(x)] + rest) == Some((Term(x), rest));
  }

  lemma ParseWordGroup(x: string, rest: seq<Token>)
    requires IsPlainTerm(x)
    ensures ParseUnary([LParen, Word(x), RParen] + rest) == Some((Term(x), rest))
  {
    WordThenStop(x, []);
    assert [Word(x)] + [] == [Word(x)];
    ParseGroup([Word(x)], Term(x), rest);
    assert [LParen] + ([Word(x)] + ([RParen] + rest)) == [LParen, Word(x), RParen] + rest;
  }

  lemma ParseEither(x: string, group: seq<Token>, b: Query)
    requires IsPlainTerm(x) && ParseAnd(group) == Some((b, []))
    ensures ParseOr([LParen, Word(x), RParen] + ([OR_WORD] + group)) == Some((Or(Term(x), b), []))
  {
    var rest := [OR_WORD] + group;
    ParseWordGroup(x, rest);
    assert ParseAnd([LParen, Word(x), RParen] + rest) == Some((Term(x), rest));
    assert rest[1..] == group;
    assert OrTail(Or(Term(x), b), []) == Some((Or(Term(x), b), []));
  }

  /**
   An unbalanced query turns the added parentheses around: the query alone is malformed, the text
   built from it is not, and it selects what `x` selects whether or not the pushed term does.
   */
  lemma UnbalancedQueryEscapes(x: string, y: string, t: string)
    requires IsPlainTerm(x) && IsPlainTerm(y) && IsPlainTerm(t)
    ensures ParseQuery(x + ") OR (" + y) == None
    ensures ParseQuery(SearchText(x + ") OR (" + y, [t])) == Some(Or(Term(x), And(Term(y), Term(t))))
  {
    var query := x + ") OR (" + y;
    LexUnbalanced(x, y);
    assert [Word(x), RParen, OR_WORD, LParen, Word(y)] == [Word(x)] + [RParen, OR_WORD, LParen, Word(y)];
    WordThenStop(x, [RParen, OR_WORD, LParen, Word(y)]);
    LexComposed(query, [t]);
    assert query != "*" by {
      assert |query| > 1;
    }
    var group := [LParen, Word(y), RParen] + AndTerms([t]);
    var all := [LParen, Word(x), RParen] + ([OR_WORD] + group);
    assert AndTerms([t]) == [AND_WORD, Word(t)] by {
      assert AndTerms([t][..0]) == [];
    }
    assert [LParen] + [Word(x), RParen, OR_WORD, LParen, Word(y)] + [RParen, AND_WORD] + TermTokens([t]) == all;
    ParseWordGroup(y, AndTerms([t]));
    ParseTerms(group, Term(y), [t]);
    assert Conjoined(Term(y), [t]) == And(Term(y), Term(t)) by {
      assert [t][..0] == [];
    }
    ParseEither(x, group, And(Term(y), Term(t)));
  }

  /** An empty user query is malformed, and so is every text built from it. */
  lemma EmptyQueryDoesNotCompose(terms: seq<string>)
    requires terms != [] && ArePlainTerms(terms)
    ensures ParseQuery("") == None
    ensures ParseQuery(SearchText("", terms)) == None
  {
    LexComposed("", terms);
    var all := [LParen] + ([RParen, AND_WORD] + TermTokens(terms));
    assert [LParen] + [] + [RParen, AND_WORD] + TermTokens(terms) == all;
    var inner := [RParen, AND_WORD] + TermTokens(terms);
    assert all[1..] == inner && inner[0] == RParen;
    assert ParseUnary(inner) == None;
    assert ParseOr(inner) == None;
    assert ParseUnary(all) == None;
    assert ParseAnd(all) == None;
    assert SearchText("", terms) == "(" + "" + ") AND " + JoinTerms(terms);
    assert Lex("").value == [] && ParseAnd([]) == None;
  }
}
