// coordinator/src/safety_rules_loader.ts: a blocked term becomes the source of a regular expression, which is then
// read as a pattern of ECMA-262, section 22.2. A character is a Unicode scalar value; where the pattern reader sees
// the two code units of one beyond U+FFFF, each stands for itself, as the character does here. The word boundaries
// around a term, the case-insensitive flag and hand-written patterns are not part of this model.
module SafetyTerms {
  import opened Options

  const CURLY: char := '\U{2019}'

  predicate IsQuote(c: char) { c == '\'' || c == CURLY }

  // What the compiler escapes.
  predicate IsSpecial(c: char) { c in ".*+?^${}()|[]\\" }

  // SyntaxCharacter, section 22.2.1.
  predicate IsSyntax(c: char) {
    || c == '^' || c == '$' || c == '\\' || c == '.' || c == '*' || c == '+' || c == '?' || c == '('
    || c == ')' || c == '[' || c == ']' || c == '{' || c == '}' || c == '|'
  }

  // Exactly the characters that have a meaning of their own in a pattern are escaped.
  lemma {:induction false} SyntaxIsEscaped(c: char)
    ensures IsSpecial(c) <==> IsSyntax(c)
  {
  }

  // What \s matches: WhiteSpace and LineTerminator, sections 12.2 and 12.3.
  predicate IsWhite(c: char) {
    || '\t' <= c <= '\r' || c == ' ' || c == '\U{A0}' || c == '\U{FEFF}' || c == '\U{1680}'
    || '\U{2000}' <= c <= '\U{200A}'
    || c == '\U{2028}' || c == '\U{2029}' || c == '\U{202F}' || c == '\U{205F}' || c == '\U{3000}'
  }

  // ---------------------------------------------------------------- the compiler

  function EscapeRegExp(literal: string): string {
    if literal == "" then ""
    else (if IsSpecial(literal[0]) then ['\\', literal[0]] else [literal[0]]) + EscapeRegExp(literal[1..])
  }

  const EITHER_QUOTE: string := ['[', '\'', CURLY, ']']

  function WidenApostrophes(escaped: string): string {
    if escaped == "" then ""
    else (if IsQuote(escaped[0]) then EITHER_QUOTE else [escaped[0]]) + WidenApostrophes(escaped[1..])
  }

  // The length of the run of spaces in front.
  function Run(s: string): (n: nat)
    ensures n <= |s| && (n < |s| ==> s[n] != ' ')
  {
    if s == "" || s[0] != ' ' then 0 else 1 + Run(s[1..])
  }

  function WidenWhitespace(escaped: string): string
    decreases |escaped|
  {
    if escaped == "" then ""
    else if escaped[0] == ' ' then "\\s+" + WidenWhitespace(escaped[Run(escaped)..])
    else [escaped[0]] + WidenWhitespace(escaped[1..])
  }

  function CompileTerm(term: string): string {
    WidenWhitespace(WidenApostrophes(EscapeRegExp(term)))
  }

  // ---------------------------------------------------------------- patterns

  datatype Atom = Exactly(c: char) | OneOf(cs: string) | White

  // An atom, possibly under the quantifier +.
  datatype Piece = Piece(atom: Atom, plus: bool)

  function ClassEnd(s: string): (n: nat)
    ensures n <= |s|
  {
    if s == "" || s[0] == ']' then 0 else 1 + ClassEnd(s[1..])
  }

  // One atom and the text behind it; None for constructs no compiled term holds, and for malformed patterns.
  function ParseAtom(p: string): (r: Option<(Atom, string)>)
    ensures r.Some? ==> |r.value.1| < |p|
  {
    if p == "" then None
    else if p[0] == '\\' then
      if |p| < 2 then None
      else if p[1] == 's' then Some((White, p[2..]))
      else if IsSyntax(p[1]) then Some((Exactly(p[1]), p[2..]))
      else None
    else if p[0] == '[' then
      var n := ClassEnd(p[1..]);
      var cs := p[1..][..n];
      if 1 + n == |p| || cs == "" || '\\' in cs || '-' in cs || cs[0] == '^' then None
      else Some((OneOf(cs), p[n + 2..]))
    else if IsSyntax(p[0]) then None
    else Some((Exactly(p[0]), p[1..]))
  }

  function ParsePattern(p: string): Option<seq<Piece>>
    decreases |p|
  {
    if p == "" then Some([])
    else match ParseAtom(p)
         case None => None
         case Some((atom, rest)) =>
           var plus := rest != "" && rest[0] == '+';
           match ParsePattern(if plus then rest[1..] else rest)
           case None => None
           case Some(more) => Some([Piece(atom, plus)] + more)
  }

  predicate AtomMatches(a: Atom, c: char) {
    match a
    case Exactly(d) => c == d
    case OneOf(cs) => c in cs
    case White => IsWhite(c)
  }

  // The pattern matches exactly this text.
  ghost predicate Matches(ps: seq<Piece>, s: string)
    decreases |ps|
  {
    if ps == [] then s == ""
    else if !ps[0].plus then s != "" && AtomMatches(ps[0].atom, s[0]) && Matches(ps[1..], s[1..])
    else exists k ::
           1 <= k <= |s|
           && (forall i :: 0 <= i < k ==> AtomMatches(ps[0].atom, s[i]))
           && Matches(ps[1..], s[k..])
  }

  // ---------------------------------------------------------------- what a term stands for

  // The straight apostrophe and the right single quotation mark.
  const APOSTROPHES: set<char> := {'\'', '\U{2019}'}

  // Each apostrophe is either quote, each run of spaces is one or more whitespace characters, and every other
  // character is itself.
  ghost predicate StandsFor(term: string, s: string)
    decreases |term|
  {
    if term == "" then s == ""
    else if term[0] == ' ' then
      exists k :: 1 <= k <= |s| && (forall i :: 0 <= i < k ==> IsWhite(s[i])) && StandsFor(term[Run(term)..], s[k..])
    else
      && s != "" && (if term[0] in APOSTROPHES then s[0] in APOSTROPHES else s[0] == term[0])
      && StandsFor(term[1..], s[1..])
  }

  // The pieces a term compiles to.
  function TermPieces(term: string): seq<Piece>
    decreases |term|
  {
    if term == "" then []
    else if term[0] == ' ' then [Piece(White, true)] + TermPieces(term[Run(term)..])
    else [Piece(if IsQuote(term[0]) then OneOf(['\'', CURLY]) else Exactly(term[0]), false)] + TermPieces(term[1..])
  }

  // ---------------------------------------------------------------- the compiled source, character by character

  function Widened(term: string): string { WidenApostrophes(EscapeRegExp(term)) }

  function Image(c: char): string {
    if IsQuote(c) then EITHER_QUOTE else if IsSpecial(c) then ['\\', c] else [c]
  }

  lemma {:induction false} WidenedFront(term: string)
    requires term != ""
    ensures Widened(term) == Image(term[0]) + Widened(term[1..])
  {
    var c, more := term[0], EscapeRegExp(term[1..]);
    if IsSpecial(c) {
      var e := ['\\', c] + more;
      assert e[1..] == [c] + more && ([c] + more)[1..] == more;
      assert !IsQuote(c) && !IsQuote('\\');
      assert WidenApostrophes(e) == ['\\'] + WidenApostrophes([c] + more);
      assert ['\\'] + ([c] + WidenApostrophes(more)) == ['\\', c] + WidenApostrophes(more);
    } else {
      assert ([c] + more)[1..] == more;
    }
  }

  // Nothing but a space of the term is a space of its widened form, so runs stay runs.
  lemma {:induction false} WidenedRun(term: string)
    ensures Run(Widened(term)) == Run(term) && Widened(term)[Run(term)..] == Widened(term[Run(term)..])
  {
    if term != "" {
      WidenedFront(term);
      var w := Widened(term);
      assert w[0] == Image(term[0])[0];
      if term[0] == ' ' {
        assert w[1..] == Widened(term[1..]);
        WidenedRun(term[1..]);
        var n := Run(term[1..]);
        assert w[1 + n..] == w[1..][n..] && term[1 + n..] == term[1..][n..];
      }
    }
  }

  lemma {:induction false} NoSpacesPass(a: string, b: string)
    requires ' ' !in a
    ensures WidenWhitespace(a + b) == a + WidenWhitespace(b)
  {
    if a == "" {
      assert a + b == b;
    } else {
      assert (a + b)[1..] == a[1..] + b;
      NoSpacesPass(a[1..], b);
      assert [a[0]] + (a[1..] + WidenWhitespace(b)) == a + WidenWhitespace(b);
    }
  }

  lemma {:induction false} CompiledFront(term: string)
    requires term != ""
    ensures CompileTerm(term) ==
            if term[0] == ' ' then "\\s+" + CompileTerm(term[Run(term)..]) else Image(term[0]) + CompileTerm(term[1..])
  {
    WidenedFront(term);
    if term[0] == ' ' {
      WidenedRun(term);
      assert Widened(term)[0] == ' ';
    } else {
      NoSpacesPass(Image(term[0]), Widened(term[1..]));
    }
  }

  // What follows a piece is no quantifier.
  lemma {:induction false} CompiledStart(term: string)
    ensures CompileTerm(term) != "" ==> CompileTerm(term)[0] != '+'
  {
  }

  lemma {:induction false} ParseImage(c: char, rest: string)
    requires c != ' '
    ensures ParseAtom(Image(c) + rest) == Some((if IsQuote(c) then OneOf(['\'', CURLY]) else Exactly(c), rest))
  {
    var p := Image(c) + rest;
    if IsQuote(c) {
      var t := p[1..];
      assert t[0] == '\'' && t[1..][0] == CURLY && t[1..][1..][0] == ']';
      assert ClassEnd(t[1..][1..]) == 0 && ClassEnd(t[1..]) == 1 && ClassEnd(t) == 2;
      assert t[..2] == ['\'', CURLY] && p[4..] == rest;
    } else if IsSpecial(c) {
      assert p[0] == '\\' && p[1] == c && p[2..] == rest;
    } else {
      assert p[0] == c && p[1..] == rest;
    }
  }

  lemma {:induction false} ParseSpaces(rest: string)
    ensures ParseAtom("\\s+" + rest) == Some((White, "+" + rest)) && ("+" + rest)[1..] == rest
  {
    var p := "\\s+" + rest;
    assert p[0] == '\\' && p[1] == 's' && p[2..] == "+" + rest;
  }

  lemma {:induction false} ParseCompiled(term: string)
    ensures ParsePattern(CompileTerm(term)) == Some(TermPieces(term))
    decreases |term|
  {
    if term != "" {
      CompiledFront(term);
      if term[0] == ' ' {
        hide ParseAtom, CompileTerm;
        ParseSpaces(CompileTerm(term[Run(term)..]));
        ParseCompiled(term[Run(term)..]);
      } else {
        CompiledStart(term[1..]);
        hide ParseAtom, CompileTerm;
        ParseImage(term[0], CompileTerm(term[1..]));
        ParseCompiled(term[1..]);
      }
    }
  }

  lemma {:induction false} PiecesMatchTerm(term: string, s: string)
    ensures Matches(TermPieces(term), s) <==> StandsFor(term, s)
    decreases |term|
  {
    if term != "" {
      var ps := TermPieces(term);
      if term[0] == ' ' {
        var later := term[Run(term)..];
        assert ps[1..] == TermPieces(later);
        forall k | 1 <= k <= |s| ensures Matches(ps[1..], s[k..]) <==> StandsFor(later, s[k..]) {
          PiecesMatchTerm(later, s[k..]);
        }
      } else if s != "" {
        assert ps[1..] == TermPieces(term[1..]);
        PiecesMatchTerm(term[1..], s[1..]);
      }
    }
  }

  // The source that a term compiles to is a well-formed pattern, and it matches exactly the texts that the term
  // stands for.
  lemma {:induction false} CompiledTermMatches(term: string, s: string)
    ensures ParsePattern(CompileTerm(term)).Some?
    ensures Matches(ParsePattern(CompileTerm(term)).value, s) <==> StandsFor(term, s)
  {
    ParseCompiled(term);
    PiecesMatchTerm(term, s);
  }
}
