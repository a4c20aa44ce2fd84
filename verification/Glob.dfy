/**
 The path glob compiler: globs are compiled to regular-expression source, and that source, read back by a grammar for
 the regular expressions it may contain, accepts exactly the paths a direct matcher accepts.
 */
module Glob {
  import opened Wrappers

  // ------------------------------------------------------------------ regular expressions

  datatype Regex =
    | Empty
    | Literal(c: char)
    | Dot
    | NotSlash
    | Cat(first: Regex, second: Regex)
    | Star(body: Regex)
    | Optional(body: Regex)

  /** `.` stands for any character but these. */
  predicate LineTerminator(c: char) {
    c == '\n' || c == '\r' || c == '\U{2028}' || c == '\U{2029}'
  }

  /** Which whole strings an expression matches. */
  predicate Matches(regex: Regex, s: string)
    decreases |s|, regex
  {
    match regex
    case Empty => s == ""
    case Literal(c) => s == [c]
    case Dot => |s| == 1 && !LineTerminator(s[0])
    case NotSlash => |s| == 1 && s[0] != '/'
    case Cat(first, second) => exists k :: 0 <= k <= |s| && Matches(first, s[..k]) && Matches(second, s[k..])
    case Star(body) => s == "" || exists k :: 0 < k <= |s| && Matches(body, s[..k]) && Matches(regex, s[k..])
    case Optional(body) => s == "" || Matches(body, s)
  }

  // ------------------------------------------------------------------ reading expressions back

  datatype Parsed = Parsed(regex: Regex, rest: string)

  const SPECIAL: string := ".+^${}()|[]\\"

  predicate IsSpecial(c: char) {
    c in SPECIAL
  }

  /** A sequence of terms up to the end, a closing parenthesis or the end anchor. */
  function ParseSequence(s: string): (parsed: Option<Parsed>)
    ensures parsed.Some? ==> |parsed.value.rest| <= |s|
    decreases |s|, 2
  {
    if |s| == 0 || s[0] == ')' || s[0] == '$' then Some(Parsed(Empty, s))
    else
      var term := ParseTerm(s);
      if term.None? then None
      else
        var others := ParseSequence(term.value.rest);
        if others.None? then None else Some(Parsed(Cat(term.value.regex, others.value.regex), others.value.rest))
  }

  /** An atom and its repetition mark, if any. */
  function ParseTerm(s: string): (parsed: Option<Parsed>)
    requires |s| > 0
    ensures parsed.Some? ==> |parsed.value.rest| < |s|
    decreases |s|, 1
  {
    var atom := ParseAtom(s);
    if atom.None? then None
    else if |atom.value.rest| > 0 && atom.value.rest[0] == '*' then
      Some(Parsed(Star(atom.value.regex), atom.value.rest[1..]))
    else if |atom.value.rest| > 0 && atom.value.rest[0] == '?' then
      Some(Parsed(Optional(atom.value.regex), atom.value.rest[1..]))
    else atom
  }

  function ParseAtom(s: string): (parsed: Option<Parsed>)
    requires |s| > 0
    ensures parsed.Some? ==> |parsed.value.rest| < |s|
    decreases |s|, 0
  {
    if s[0] == '\\' then if |s| > 1 then Some(Parsed(Literal(s[1]), s[2..])) else None
    else if s[0] == '.' then Some(Parsed(Dot, s[1..]))
    else if "[^/]" <= s then Some(Parsed(NotSlash, s[4..]))
    else if "(?:" <= s then
      var inner := ParseSequence(s[3..]);
      if inner.Some? && |inner.value.rest| > 0 && inner.value.rest[0] == ')' then
        Some(Parsed(inner.value.regex, inner.value.rest[1..]))
      else None
    else if IsSpecial(s[0]) || s[0] == '*' || s[0] == '?' then None
    else Some(Parsed(Literal(s[0]), s[1..]))
  }

  /** An expression anchored at both ends. */
  function ParseAnchored(source: string): Option<Regex> {
    if |source| == 0 || source[0] != '^' then None
    else
      var parsed := ParseSequence(source[1..]);
      if parsed.Some? && parsed.value.rest == "$" then Some(parsed.value.regex) else None
  }

  // ------------------------------------------------------------------ the compiler

  /** What the front of a glob stands for. */
  datatype Piece = AnyDirectories | Anything | WithinSegment | OneCharacter | Exactly(c: char)

  function FrontPiece(glob: string): Piece
    requires |glob| > 0
  {
    if |glob| > 2 && glob[0] == '*' && glob[1] == '*' && glob[2] == '/' then AnyDirectories
    else if |glob| > 1 && glob[0] == '*' && glob[1] == '*' then Anything
    else if glob[0] == '*' then WithinSegment
    else if glob[0] == '?' then OneCharacter
    else Exactly(glob[0])
  }

  function Consumed(piece: Piece): nat {
    match piece case AnyDirectories => 3 case Anything => 2 case _ => 1
  }

  function PieceSource(piece: Piece): string {
    match piece
    case AnyDirectories => "(?:.*/)?"
    case Anything => ".*"
    case WithinSegment => "[^/]*"
    case OneCharacter => "[^/]"
    case Exactly(c) => if IsSpecial(c) then ['\\', c] else [c]
  }

  /** The pieces of a glob, written one after another. */
  function Written(glob: string, write: Piece -> string): string {
    if |glob| == 0 then "" else write(FrontPiece(glob)) + Written(glob[Consumed(FrontPiece(glob))..], write)
  }

  function Compiled(glob: string): string {
    Written(glob, PieceSource)
  }

  /** The front of a suffix, read by index as the compiler reads it. */
  lemma FrontAt(glob: string, index: nat)
    requires index < |glob|
    ensures var rest := glob[index..];
      var doubled := glob[index] == '*' && index + 1 < |glob| && glob[index + 1] == '*';
      var followedBySlash := index + 2 < |glob| && glob[index + 2] == '/';
      && FrontPiece(rest) == (if doubled then if followedBySlash then AnyDirectories else Anything
                              else if glob[index] == '*' then WithinSegment
                              else if glob[index] == '?' then OneCharacter
                              else Exactly(glob[index]))
      && index + Consumed(FrontPiece(rest)) <= |glob|
      && rest[Consumed(FrontPiece(rest))..] == glob[index + Consumed(FrontPiece(rest))..]
  {
  }

  lemma Associates(a: string, b: string, c: string)
    ensures a + (b + c) == a + b + c
  {
  }

  lemma WrittenUnfolds(glob: string, index: nat, write: Piece -> string)
    requires index < |glob|
    ensures var piece := FrontPiece(glob[index..]);
      && index + Consumed(piece) <= |glob|
      && Written(glob[index..], write) == write(piece) + Written(glob[index + Consumed(piece)..], write)
  {
    FrontAt(glob, index);
  }

  lemma WrittenNext(glob: string, index: nat, source: string, whole: string, write: Piece -> string)
    requires index < |glob| && source + Written(glob[index..], write) == whole
    ensures var piece := FrontPiece(glob[index..]);
      && index + Consumed(piece) <= |glob|
      && source + write(piece) + Written(glob[index + Consumed(piece)..], write) == whole
  {
    var piece := FrontPiece(glob[index..]);
    WrittenUnfolds(glob, index, write);
    Associates(source, write(piece), Written(glob[index + Consumed(piece)..], write));
  }

  method GlobToRegExp(glob: string) returns (source: string)
    ensures source == "^" + Compiled(glob) + "$"
  {
    source := "";
    var index := 0;
    assert glob[0..] == glob;
    while index < |glob|
      invariant 0 <= index <= |glob|
      invariant source + Compiled(glob[index..]) == Compiled(glob)
    {
      FrontAt(glob, index);
      WrittenNext(glob, index, source, Compiled(glob), PieceSource);
      var character := glob[index];
      if character == '*' && index + 1 < |glob| && glob[index + 1] == '*' {
        var followedBySlash := index + 2 < |glob| && glob[index + 2] == '/';
        source := source + if followedBySlash then "(?:.*/)?" else ".*";
        index := index + if followedBySlash then 2 else 1;
      } else if character == '*' {
        source := source + "[^/]*";
      } else if character == '?' {
        source := source + "[^/]";
      } else {
        source := source + if IsSpecial(character) then ['\\', character] else [character];
      }
      index := index + 1;
    }
    assert glob[index..] == "" && Compiled("") == "";
    source := "^" + source + "$";
  }

  // ------------------------------------------------------------------ the direct matcher

  predicate OneLine(s: string) {
    forall i :: 0 <= i < |s| ==> !LineTerminator(s[i])
  }

  predicate OneSegment(s: string) {
    forall i :: 0 <= i < |s| ==> s[i] != '/'
  }

  /** Which paths a glob accepts, without any regular expression. */
  predicate Accepts(glob: string, path: string)
    decreases |glob|
  {
    if |glob| == 0 then path == ""
    else
      var rest := glob[Consumed(FrontPiece(glob))..];
      match FrontPiece(glob)
      case AnyDirectories =>
        || Accepts(rest, path)
        || exists k :: 0 <= k < |path| && path[k] == '/' && OneLine(path[..k]) && Accepts(rest, path[k + 1..])
      case Anything => exists k :: 0 <= k <= |path| && OneLine(path[..k]) && Accepts(rest, path[k..])
      case WithinSegment => exists k :: 0 <= k <= |path| && OneSegment(path[..k]) && Accepts(rest, path[k..])
      case OneCharacter => |path| > 0 && path[0] != '/' && Accepts(rest, path[1..])
      case Exactly(c) => |path| > 0 && path[0] == c && Accepts(rest, path[1..])
  }

  // ------------------------------------------------------------------ reading the compiled source back

  const DIRECTORIES: Regex := Optional(Cat(Star(Dot), Cat(Literal('/'), Empty)))

  function PieceRegex(piece: Piece): Regex {
    match piece
    case AnyDirectories => DIRECTORIES
    case Anything => Star(Dot)
    case WithinSegment => Star(NotSlash)
    case OneCharacter => NotSlash
    case Exactly(c) => Literal(c)
  }

  function RegexOf(glob: string): Regex {
    if |glob| == 0 then Empty else Cat(PieceRegex(FrontPiece(glob)), RegexOf(glob[Consumed(FrontPiece(glob))..]))
  }

  /** No compiled glob, followed by the anchor, begins with a repetition mark. */
  lemma NoMarkInFront(glob: string)
    ensures var source := Compiled(glob) + "$"; |source| > 0 && source[0] != '*' && source[0] != '?'
  {
  }

  /** Nothing after a term repeats it. */
  predicate NoMark(rest: string) {
    |rest| > 0 && rest[0] != '*' && rest[0] != '?'
  }

  lemma DotStarParses(rest: string)
    ensures ParseTerm(".*" + rest) == Some(Parsed(Star(Dot), rest))
  {
    var s := ".*" + rest;
    assert s[1..] == "*" + rest;
    assert s[1..][1..] == rest;
  }

  lemma NotSlashParses(rest: string)
    requires NoMark(rest)
    ensures ParseTerm("[^/]*" + rest) == Some(Parsed(Star(NotSlash), rest))
    ensures ParseTerm("[^/]" + rest) == Some(Parsed(NotSlash, rest))
  {
    var starred, single := "[^/]*" + rest, "[^/]" + rest;
    assert "[^/]" <= starred && starred[4..] == "*" + rest && starred[4..][1..] == rest;
    assert "[^/]" <= single && single[4..] == rest;
  }

  lemma CharacterParses(c: char, rest: string)
    requires NoMark(rest) && c != '*' && c != '?'
    ensures !IsSpecial(c) ==> ParseTerm([c] + rest) == Some(Parsed(Literal(c), rest))
    ensures IsSpecial(c) ==> ParseTerm(['\\', c] + rest) == Some(Parsed(Literal(c), rest))
  {
    var plain, escaped := [c] + rest, ['\\', c] + rest;
    assert plain[1..] == rest && escaped[2..] == rest;
    if !IsSpecial(c) {
      assert c != '[' && c != '(' && c != '.' && c != '\\' by {
        SpecialsAreSpecial();
      }
      assert !("[^/]" <= plain) && !("(?:" <= plain);
    }
  }

  lemma SpecialsAreSpecial()
    ensures IsSpecial('[') && IsSpecial('(') && IsSpecial(')') && IsSpecial('$') && IsSpecial('.') && IsSpecial('\\')
  {
    assert SPECIAL[0] == '.' && SPECIAL[3] == '$' && SPECIAL[6] == '(' && SPECIAL[7] == ')' && SPECIAL[9] == '['
      && SPECIAL[11] == '\\';
  }

  lemma SequenceNext(s: string, term: Regex, rest: string, others: Regex, end: string)
    requires |s| > 0 && s[0] != ')' && s[0] != '$'
    requires ParseTerm(s) == Some(Parsed(term, rest)) && ParseSequence(rest) == Some(Parsed(others, end))
    ensures ParseSequence(s) == Some(Parsed(Cat(term, others), end))
  {
  }

  /** The inside of the optional group. */
  lemma GroupBodyParses(rest: string)
    ensures ParseSequence(".*/)" + rest) == Some(Parsed(Cat(Star(Dot), Cat(Literal('/'), Empty)), ")" + rest))
  {
    var close := ")" + rest;
    var slash := "/" + close;
    SpecialsAreSpecial();
    assert NoMark(close);
    assert ['/'] + close == slash;
    CharacterParses('/', close);
    assert !IsSpecial('/');
    SequenceNext(slash, Literal('/'), close, Empty, close);
    DotStarParses(slash);
    SequenceNext(".*" + slash, Star(Dot), slash, Cat(Literal('/'), Empty), close);
    assert ".*" + slash == ".*/)" + rest;
  }

  lemma DirectoriesParse(rest: string)
    ensures ParseTerm("(?:.*/)?" + rest) == Some(Parsed(DIRECTORIES, rest))
  {
    var s := "(?:.*/)?" + rest;
    var marked := "?" + rest;
    GroupBodyParses(marked);
    assert s[3..] == ".*/)" + marked;
    assert "(?:" <= s;
    assert !("[^/]" <= s);
    assert (")" + marked)[1..] == marked && marked[1..] == rest;
  }

  lemma PieceParses(piece: Piece, rest: string)
    requires NoMark(rest) && (piece.Exactly? ==> piece.c != '*' && piece.c != '?')
    ensures ParseTerm(PieceSource(piece) + rest) == Some(Parsed(PieceRegex(piece), rest))
  {
    match piece {
      case AnyDirectories => DirectoriesParse(rest);
      case Anything => DotStarParses(rest);
      case WithinSegment => NotSlashParses(rest);
      case OneCharacter => NotSlashParses(rest);
      case Exactly(c) => CharacterParses(c, rest);
    }
  }

  lemma PieceBegins(piece: Piece, rest: string)
    ensures var s := PieceSource(piece) + rest; |s| > 0 && s[0] != ')' && s[0] != '$'
  {
    SpecialsAreSpecial();
  }

  lemma PieceThenRest(piece: Piece, rest: string, others: Regex)
    requires NoMark(rest) && (piece.Exactly? ==> piece.c != '*' && piece.c != '?')
    requires ParseSequence(rest) == Some(Parsed(others, "$"))
    ensures ParseSequence(PieceSource(piece) + rest) == Some(Parsed(Cat(PieceRegex(piece), others), "$"))
  {
    PieceParses(piece, rest);
    PieceBegins(piece, rest);
    SequenceNext(PieceSource(piece) + rest, PieceRegex(piece), rest, others, "$");
  }

  lemma WrittenFront(glob: string, write: Piece -> string, end: string)
    requires |glob| > 0
    ensures Written(glob, write) + end
            == write(FrontPiece(glob)) + (Written(glob[Consumed(FrontPiece(glob))..], write) + end)
  {
  }

  lemma {:induction false} CompiledParses(glob: string)
    ensures ParseSequence(Compiled(glob) + "$") == Some(Parsed(RegexOf(glob), "$"))
  {
    if |glob| == 0 {
      assert Compiled(glob) + "$" == "$";
    } else {
      var others := glob[Consumed(FrontPiece(glob))..];
      CompiledParses(others);
      NoMarkInFront(others);
      PieceThenRest(FrontPiece(glob), Compiled(others) + "$", RegexOf(others));
      WrittenFront(glob, PieceSource, "$");
    }
  }

  // ------------------------------------------------------------------ the two meanings agree

  lemma {:induction false} StarOfDot(s: string)
    ensures Matches(Star(Dot), s) <==> OneLine(s)
  {
    if s != "" {
      StarOfDot(s[1..]);
      assert Matches(Dot, s[..1]) <==> !LineTerminator(s[0]);
      if OneLine(s) {
        assert Matches(Star(Dot), s[1..]);
      }
      if Matches(Star(Dot), s) {
        var k :| 0 < k <= |s| && Matches(Dot, s[..k]) && Matches(Star(Dot), s[k..]);
        assert k == 1;
        assert forall i :: 0 < i < |s| ==> s[i] == s[1..][i - 1];
      }
    }
  }

  lemma {:induction false} StarOfNotSlash(s: string)
    ensures Matches(Star(NotSlash), s) <==> OneSegment(s)
  {
    if s != "" {
      StarOfNotSlash(s[1..]);
      assert Matches(NotSlash, s[..1]) <==> s[0] != '/';
      if OneSegment(s) {
        assert Matches(Star(NotSlash), s[1..]);
      }
      if Matches(Star(NotSlash), s) {
        var k :| 0 < k <= |s| && Matches(NotSlash, s[..k]) && Matches(Star(NotSlash), s[k..]);
        assert k == 1;
        assert forall i :: 0 < i < |s| ==> s[i] == s[1..][i - 1];
      }
    }
  }

  lemma SlashMatches(s: string)
    requires |s| == 1 && s[0] == '/'
    ensures Matches(Cat(Literal('/'), Empty), s)
  {
    assert s[..1] == ['/'] && Matches(Literal('/'), s[..1]);
    assert s[1..] == "" && Matches(Empty, s[1..]);
  }

  lemma OnlySlashMatches(s: string)
    requires Matches(Cat(Literal('/'), Empty), s)
    ensures s == "/"
  {
    var k :| 0 <= k <= |s| && Matches(Literal('/'), s[..k]) && Matches(Empty, s[k..]);
    assert s == s[..k] + s[k..];
  }

  /** Directories up to and including a slash. */
  lemma SlashedMatches(s: string)
    ensures Matches(Cat(Star(Dot), Cat(Literal('/'), Empty)), s)
            <==> s != "" && s[|s| - 1] == '/' && OneLine(s[..|s| - 1])
  {
    var slash := Cat(Literal('/'), Empty);
    if s != "" && s[|s| - 1] == '/' && OneLine(s[..|s| - 1]) {
      StarOfDot(s[..|s| - 1]);
      SlashMatches(s[|s| - 1..]);
    }
    if Matches(Cat(Star(Dot), slash), s) {
      var k :| 0 <= k <= |s| && Matches(Star(Dot), s[..k]) && Matches(slash, s[k..]);
      OnlySlashMatches(s[k..]);
      StarOfDot(s[..k]);
      assert k == |s| - 1 && s[k..][0] == s[k];
    }
  }

  lemma DirectoriesMatch(s: string)
    ensures Matches(DIRECTORIES, s) <==> s == "" || (s[|s| - 1] == '/' && OneLine(s[..|s| - 1]))
  {
    SlashedMatches(s);
  }

  /** What each piece matches, as a set of prefixes. */
  predicate PieceAccepts(piece: Piece, s: string) {
    match piece
    case AnyDirectories => s == "" || (s[|s| - 1] == '/' && OneLine(s[..|s| - 1]))
    case Anything => OneLine(s)
    case WithinSegment => OneSegment(s)
    case OneCharacter => |s| == 1 && s[0] != '/'
    case Exactly(c) => s == [c]
  }

  lemma PieceMeaning(piece: Piece, s: string)
    ensures Matches(PieceRegex(piece), s) <==> PieceAccepts(piece, s)
  {
    match piece
    case AnyDirectories => DirectoriesMatch(s);
    case Anything => StarOfDot(s);
    case WithinSegment => StarOfNotSlash(s);
    case OneCharacter =>
    case Exactly(_) =>
  }

  /** Some prefix is taken by the front piece and the rest of the path by the rest of the glob. */
  predicate Splits(piece: Piece, rest: string, path: string) {
    exists k :: 0 <= k <= |path| && SplitsAt(piece, rest, path, k)
  }

  predicate SplitsAt(piece: Piece, rest: string, path: string, k: nat)
    requires k <= |path|
  {
    PieceAccepts(piece, path[..k]) && Accepts(rest, path[k..])
  }

  lemma DirectoriesSplit(rest: string, path: string)
    ensures (Accepts(rest, path)
             || exists k :: 0 <= k < |path| && path[k] == '/' && OneLine(path[..k]) && Accepts(rest, path[k + 1..]))
       <==> Splits(AnyDirectories, rest, path)
  {
    if Accepts(rest, path) {
      assert path[0..] == path;
      assert SplitsAt(AnyDirectories, rest, path, 0);
    }
    forall k | 0 <= k < |path|
      ensures SplitsAt(AnyDirectories, rest, path, k + 1)
              <==> path[k] == '/' && OneLine(path[..k]) && Accepts(rest, path[k + 1..])
    {
      assert path[..k + 1][..k] == path[..k] && path[..k + 1][k] == path[k];
    }
    if Splits(AnyDirectories, rest, path) {
      var k :| 0 <= k <= |path| && SplitsAt(AnyDirectories, rest, path, k);
      if k == 0 {
        assert path[0..] == path;
      } else {
        assert SplitsAt(AnyDirectories, rest, path, (k - 1) + 1);
      }
    }
  }

  lemma RunsSplit(rest: string, path: string)
    ensures (exists k :: 0 <= k <= |path| && OneLine(path[..k]) && Accepts(rest, path[k..]))
            <==> Splits(Anything, rest, path)
    ensures (exists k :: 0 <= k <= |path| && OneSegment(path[..k]) && Accepts(rest, path[k..]))
            <==> Splits(WithinSegment, rest, path)
  {
    forall k | 0 <= k <= |path|
      ensures SplitsAt(Anything, rest, path, k) <==> OneLine(path[..k]) && Accepts(rest, path[k..])
      ensures SplitsAt(WithinSegment, rest, path, k) <==> OneSegment(path[..k]) && Accepts(rest, path[k..])
    {
    }
  }

  lemma CharactersSplit(c: char, rest: string, path: string)
    ensures (|path| > 0 && path[0] != '/' && Accepts(rest, path[1..])) <==> Splits(OneCharacter, rest, path)
    ensures (|path| > 0 && path[0] == c && Accepts(rest, path[1..])) <==> Splits(Exactly(c), rest, path)
  {
    if |path| > 0 {
      assert path[..1] == [path[0]];
      assert SplitsAt(OneCharacter, rest, path, 1) <==> path[0] != '/' && Accepts(rest, path[1..]);
      assert SplitsAt(Exactly(c), rest, path, 1) <==> path[0] == c && Accepts(rest, path[1..]);
    }
    forall k | 0 <= k <= |path| && k != 1
      ensures !SplitsAt(OneCharacter, rest, path, k) && !SplitsAt(Exactly(c), rest, path, k)
    {
      assert |path[..k]| == k;
    }
  }

  /** The direct matcher splits a path into what the front piece takes and what the rest of the glob takes. */
  lemma AcceptsSplits(glob: string, path: string)
    requires |glob| > 0
    ensures Accepts(glob, path) <==> Splits(FrontPiece(glob), glob[Consumed(FrontPiece(glob))..], path)
  {
    var piece := FrontPiece(glob);
    var rest := glob[Consumed(piece)..];
    match piece
    case AnyDirectories => DirectoriesSplit(rest, path);
    case Anything => RunsSplit(rest, path);
    case WithinSegment => RunsSplit(rest, path);
    case OneCharacter => CharactersSplit('/', rest, path);
    case Exactly(c) => CharactersSplit(c, rest, path);
  }

  lemma {:induction false} RegexMeansGlob(glob: string, path: string)
    ensures Matches(RegexOf(glob), path) <==> Accepts(glob, path)
    decreases |glob|
  {
    if |glob| > 0 {
      var piece := FrontPiece(glob);
      var rest := glob[Consumed(piece)..];
      AcceptsSplits(glob, path);
      forall k | 0 <= k <= |path|
        ensures Matches(PieceRegex(piece), path[..k]) && Matches(RegexOf(rest), path[k..])
                <==> SplitsAt(piece, rest, path, k)
      {
        PieceMeaning(piece, path[..k]);
        RegexMeansGlob(rest, path[k..]);
      }
    }
  }

  /** The compiled source is a well-formed anchored expression that accepts exactly the paths the glob accepts. */
  lemma CompilerPreservesMeaning(glob: string, path: string)
    ensures var regex := ParseAnchored("^" + Compiled(glob) + "$");
      regex.Some? && (Matches(regex.value, path) <==> Accepts(glob, path))
  {
    CompiledParses(glob);
    assert ("^" + Compiled(glob) + "$")[1..] == Compiled(glob) + "$";
    RegexMeansGlob(glob, path);
  }

  // ------------------------------------------------------------------ two common globs

  /** Characters a glob takes literally. */
  predicate Plain(s: string) {
    forall i :: 0 <= i < |s| ==> s[i] != '*' && s[i] != '?'
  }

  lemma PlainFront(name: string)
    requires Plain(name) && |name| > 0
    ensures FrontPiece(name) == Exactly(name[0])
  {
  }

  lemma {:induction false} PlainAcceptsItself(name: string, path: string)
    requires Plain(name)
    ensures Accepts(name, path) <==> path == name
  {
    if |name| > 0 {
      PlainFront(name);
      if |path| > 0 {
        PlainAcceptsItself(name[1..], path[1..]);
        assert path == name <==> path[0] == name[0] && path[1..] == name[1..];
      }
    }
  }

  /**
   For a path on one line, `**` followed by a slash and a plain name accepts exactly the paths whose last segment is
   that name.
   */
  lemma NameAnywhere(name: string, path: string)
    requires Plain(name) && OneLine(path) && OneSegment(name)
    ensures Accepts("**/" + name, path) <==>
      path == name || (|path| > |name| && path[|path| - |name|..] == name && path[|path| - |name| - 1] == '/')
  {
    var glob := "**/" + name;
    assert glob[3..] == name;
    PlainAcceptsItself(name, path);
    forall end: string ensures Accepts(name, end) <==> end == name {
      PlainAcceptsItself(name, end);
    }
    if |path| > |name| && path[|path| - |name|..] == name && path[|path| - |name| - 1] == '/' {
      var k := |path| - |name| - 1;
      assert path[k + 1..] == name && OneLine(path[..k]);
    }
  }

  lemma {:induction false} PlainThen(dir: string, rest: string, path: string)
    requires Plain(dir)
    ensures Accepts(dir + "/" + rest, path) <==> dir + "/" <= path && Accepts(rest, path[|dir| + 1..])
  {
    var glob := dir + "/" + rest;
    if |dir| == 0 {
      assert glob == "/" + rest && glob[1..] == rest;
      assert FrontPiece(glob) == Exactly('/');
    } else {
      assert glob[0] == dir[0] && glob[1..] == dir[1..] + "/" + rest;
      assert FrontPiece(glob) == Exactly(dir[0]) by {
        assert glob[0] != '*';
      }
      if |path| > 0 {
        PlainThen(dir[1..], rest, path[1..]);
        assert dir + "/" <= path <==> dir[0] == path[0] && dir[1..] + "/" <= path[1..] by {
          assert dir + "/" == [dir[0]] + (dir[1..] + "/");
          assert path == [path[0]] + path[1..];
        }
        if dir[1..] + "/" <= path[1..] {
          assert path[1..][|dir[1..]| + 1..] == path[|dir| + 1..];
        }
      }
    }
  }

  /** For a path on one line, a plain directory followed by `**` accepts exactly the paths below that directory. */
  lemma EverythingBelow(dir: string, path: string)
    requires Plain(dir) && OneLine(path)
    ensures Accepts(dir + "/**", path) <==> dir + "/" <= path
  {
    assert dir + "/**" == dir + "/" + "**";
    PlainThen(dir, "**", path);
    if dir + "/" <= path {
      var below := path[|dir| + 1..];
      assert FrontPiece("**") == Anything && "**"[2..] == "";
      assert OneLine(below[..|below|]) && Accepts("", below[|below|..]);
      assert Accepts("**", below);
    }
  }

  // ------------------------------------------------------------------ marks between plain text

  lemma {:induction false} PlainPrefix(before: string, rest: string, path: string)
    requires Plain(before)
    ensures Accepts(before + rest, path) <==> before <= path && Accepts(rest, path[|before|..])
  {
    if |before| == 0 {
      assert before + rest == rest;
    } else {
      var glob := before + rest;
      assert glob[0] == before[0] && glob[1..] == before[1..] + rest;
      assert FrontPiece(glob) == Exactly(before[0]) by {
        assert glob[0] != '*' && glob[0] != '?';
      }
      if |path| > 0 {
        PlainPrefix(before[1..], rest, path[1..]);
        assert path == [path[0]] + path[1..] && before == [before[0]] + before[1..];
        if before[1..] <= path[1..] {
          assert path[1..][|before[1..]|..] == path[|before|..];
        }
      }
    }
  }

  lemma StarThen(after: string, path: string)
    requires Plain(after)
    ensures Accepts("*" + after, path) <==>
      |path| >= |after| && path[|path| - |after|..] == after && OneSegment(path[..|path| - |after|])
  {
    var glob := "*" + after;
    assert FrontPiece(glob) == WithinSegment && glob[1..] == after;
    forall end: string ensures Accepts(after, end) <==> end == after {
      PlainAcceptsItself(after, end);
    }
    assert Accepts(glob, path) <==> exists k :: 0 <= k <= |path| && OneSegment(path[..k]) && Accepts(after, path[k..]);
  }

  /** A star between plain texts stands for any text without a slash. */
  lemma StarWithin(before: string, after: string, path: string)
    requires Plain(before) && Plain(after)
    ensures Accepts(before + ("*" + after), path) <==>
      && |path| >= |before| + |after| && before <= path && path[|path| - |after|..] == after
      && OneSegment(path[|before|..|path| - |after|])
  {
    hide Accepts, Plain, OneSegment;
    PlainPrefix(before, "*" + after, path);
    if before <= path {
      var below := path[|before|..];
      StarThen(after, below);
      if |below| >= |after| {
        assert below[|below| - |after|..] == path[|path| - |after|..];
        assert below[..|below| - |after|] == path[|before|..|path| - |after|];
      }
    }
  }

  lemma MarkThen(after: string, path: string)
    requires Plain(after)
    ensures Accepts("?" + after, path) <==> |path| == 1 + |after| && path[0] != '/' && path[1..] == after
  {
    var glob := "?" + after;
    assert FrontPiece(glob) == OneCharacter && glob[1..] == after;
    if |path| > 0 {
      PlainAcceptsItself(after, path[1..]);
    }
  }

  /** A question mark between plain texts stands for one character that is no slash. */
  lemma MarkWithin(before: string, after: string, path: string)
    requires Plain(before) && Plain(after)
    ensures Accepts(before + ("?" + after), path) <==>
      |path| == |before| + 1 + |after| && before <= path && path[|before|] != '/' && path[|before| + 1..] == after
  {
    hide Accepts, Plain;
    PlainPrefix(before, "?" + after, path);
    if before <= path && |path| > |before| {
      var below := path[|before|..];
      MarkThen(after, below);
      assert below[1..] == path[|before| + 1..];
    } else if before <= path {
      MarkThen(after, path[|before|..]);
    }
  }
}
