/**
  textutil.ExtractJSON: the brace scanner that finds the first JSON object in model output,
  against two independent readings: brace counting outside string lexemes, and the grammar of
  RFC 8259 (sections 2 to 7).  One char stands for one byte.
 */
module JsonScan {
  import opened Wrappers

  // ---------------------------------------------------------------------------
  // The scanner
  // ---------------------------------------------------------------------------

  datatype Scan = Scan(depth: int, inString: bool, escaped: bool)

  function Next(st: Scan, c: char): Scan {
    if st.escaped then st.(escaped := false)
    else if st.inString then
      if c == '\\' then st.(escaped := true)
      else if c == '"' then st.(inString := false)
      else st
    else if c == '"' then st.(inString := true)
    else if c == '{' then st.(depth := st.depth + 1)
    else if c == '}' then st.(depth := st.depth - 1)
    else st
  }

  function After(st: Scan, t: string): Scan {
    if t == "" then st else Next(After(st, t[..|t| - 1]), t[|t| - 1])
  }

  // Outside any string, at depth d.
  function At(d: int): Scan { Scan(d, false, false) }

  lemma {:induction false} AfterConcat(st: Scan, a: string, b: string)
    ensures After(st, a + b) == After(After(st, a), b)
    decreases |b|
  {
    if b == "" {
      assert a + b == a;
    } else {
      var front := b[..|b| - 1];
      AfterConcat(st, a, front);
      assert (a + b)[..|a + b| - 1] == a + front;
    }
  }

  lemma AfterOne(st: Scan, c: char)
    ensures After(st, [c]) == Next(st, c)
  {
    assert [c][..0] == "";
    assert After(st, "") == st;
  }

  lemma AfterSnoc(st: Scan, t: string, n: nat)
    requires n < |t|
    ensures After(st, t[..n + 1]) == Next(After(st, t[..n]), t[n])
  {
    assert t[..n + 1][..n] == t[..n];
  }

  // ---------------------------------------------------------------------------
  // What the extraction returns
  // ---------------------------------------------------------------------------

  // The braces of t close: t is a complete span.
  predicate Balanced(t: string) { t != "" && After(At(0), t).depth == 0 }

  predicate NoShorter(t: string, n: nat)
    requires n <= |t|
  {
    forall k :: 0 < k < n ==> !Balanced(t[..k])
  }

  // r is the shortest balanced span at the front of t, or all of t when there is none.
  predicate IsSpan(t: string, r: string) {
    r <= t && NoShorter(t, |r|) && (Balanced(r) || (r == t && !Balanced(t)))
  }

  predicate FirstBrace(s: string, start: nat) {
    start < |s| && s[start] == '{' && forall k :: 0 <= k < start ==> s[k] != '{'
  }

  ghost predicate IsExtract(s: string, r: string) {
    if '{' in s then exists start: nat :: FirstBrace(s, start) && IsSpan(s[start..], r)
    else r == s
  }

  method ExtractJSON(s: string) returns (r: string)
    ensures IsExtract(s, r)
  {
    var start := 0;
    while start < |s| && s[start] != '{'
      invariant 0 <= start <= |s|
      invariant forall k :: 0 <= k < start ==> s[k] != '{'
    {
      start := start + 1;
    }
    if start == |s| {
      return s;
    }
    assert FirstBrace(s, start);
    ghost var t := s[start..];
    var depth, inString, escaped := 0, false, false;
    var i := start;
    while i < |s|
      invariant start <= i <= |s|
      invariant After(At(0), t[..i - start]) == Scan(depth, inString, escaped)
      invariant if i == start then depth == 0 && !inString && !escaped else depth > 0
      invariant forall k :: 0 < k <= i - start ==> !Balanced(t[..k])
    {
      var c := s[i];
      AfterSnoc(At(0), t, i - start);
      ghost var now := Next(Scan(depth, inString, escaped), c);
      i := i + 1;
      assert After(At(0), t[..i - start]) == now;
      if escaped {
        escaped := false;
        continue;
      }
      if inString {
        if c == '\\' {
          escaped := true;
        } else if c == '"' {
          inString := false;
        }
        continue;
      }
      if c == '"' {
        inString := true;
      } else if c == '{' {
        depth := depth + 1;
      } else if c == '}' {
        depth := depth - 1;
        if depth == 0 {
          assert s[start..i] == t[..i - start];
          assert IsSpan(t, s[start..i]);
          return s[start..i];
        }
      }
    }
    assert t[..|t|] == t;
    assert IsSpan(t, t);
    return s[start..];
  }

  lemma SpanUnique(t: string, r: string, r': string)
    requires t != "" && IsSpan(t, r) && IsSpan(t, r')
    ensures r == r'
  {
    var a, b := if |r| <= |r'| then r else r', if |r| <= |r'| then r' else r;
    assert a == t[..|a|] && b == t[..|b|];
    assert |a| == 0 ==> !Balanced(a);
    assert |a| == |b|;
  }

  lemma ExtractUnique(s: string, r: string, r': string)
    requires IsExtract(s, r) && IsExtract(s, r')
    ensures r == r'
  {
    if '{' in s {
      var i: nat :| FirstBrace(s, i) && IsSpan(s[i..], r);
      var j: nat :| FirstBrace(s, j) && IsSpan(s[j..], r');
      SpanUnique(s[i..], r, r');
    }
  }

  // Extracting again changes nothing.
  lemma ExtractIdempotent(s: string, r: string)
    requires IsExtract(s, r)
    ensures IsExtract(r, r)
  {
    if '{' in s {
      var i: nat :| FirstBrace(s, i) && IsSpan(s[i..], r);
      var t := s[i..];
      assert r != "" by {
        assert r == t || Balanced(r);
      }
      assert r[0] == t[0] == '{' && r[..0] == "" && r[0..] == r;
      assert FirstBrace(r, 0);
      forall k | 0 < k < |r| ensures !Balanced(r[..k]) {
        assert r[..k] == t[..k];
      }
      assert IsSpan(r[0..], r);
    }
  }

  // A span that starts at the first '{' of the input is what the extraction returns.
  lemma SpanIsExtract(p: string, t: string, r: string)
    requires '{' !in p && t != "" && t[0] == '{' && IsSpan(t, r)
    ensures IsExtract(p + t, r)
  {
    var s := p + t;
    assert s[..|p|] == p && s[|p|..] == t && s[|p|] == '{';
    assert FirstBrace(s, |p|);
  }

  // ---------------------------------------------------------------------------
  // Reading one: braces outside string lexemes
  // ---------------------------------------------------------------------------

  // Inside a string: an ordinary byte, or a backslash with the byte it escapes.
  datatype Piece = Plain(c: char) | Escaped(c: char)

  predicate Lexical(p: Piece) { p.Escaped? || (p.c != '"' && p.c != '\\') }

  function PieceText(p: Piece): string { if p.Plain? then [p.c] else ['\\', p.c] }

  function PiecesText(ps: seq<Piece>): string
    decreases |ps|
  {
    if ps == [] then "" else PieceText(ps[0]) + PiecesText(ps[1..])
  }

  datatype Lexeme = Quoted(ps: seq<Piece>) | Mark(c: char)

  predicate LexicalString(ps: seq<Piece>) { forall p :: p in ps ==> Lexical(p) }

  predicate ValidLexeme(x: Lexeme) {
    match x
    case Quoted(ps) => LexicalString(ps)
    case Mark(c) => c != '"'
  }

  function LexemeText(x: Lexeme): string {
    match x
    case Quoted(ps) => "\"" + PiecesText(ps) + "\""
    case Mark(c) => [c]
  }

  function LexemesText(xs: seq<Lexeme>): string
    decreases |xs|
  {
    if xs == [] then "" else LexemesText(xs[..|xs| - 1]) + LexemeText(xs[|xs| - 1])
  }

  function Weight(x: Lexeme): int {
    if x == Mark('{') then 1 else if x == Mark('}') then -1 else 0
  }

  // '{' minus '}' among the lexemes
  function Braces(xs: seq<Lexeme>): int
    decreases |xs|
  {
    if xs == [] then 0 else Braces(xs[..|xs| - 1]) + Weight(xs[|xs| - 1])
  }

  // A string that has started and not ended; `half` when it stops after a backslash.
  function Unfinished(ps: seq<Piece>, half: bool): string {
    "\"" + PiecesText(ps) + if half then "\\" else ""
  }

  lemma {:induction false} PiecesSnoc(ps: seq<Piece>, p: Piece)
    ensures PiecesText(ps + [p]) == PiecesText(ps) + PieceText(p)
    decreases |ps|
  {
    if ps == [] {
      assert PiecesText([p]) == PieceText(p) + PiecesText([p][1..]);
    } else {
      PiecesSnoc(ps[1..], p);
      assert (ps + [p])[1..] == ps[1..] + [p];
    }
  }

  // How the scanner sees t: complete lexemes, then possibly an unfinished string.
  datatype View = View(xs: seq<Lexeme>, open: Option<(seq<Piece>, bool)>)

  function ViewText(v: View): string {
    LexemesText(v.xs) + if v.open.Some? then Unfinished(v.open.value.0, v.open.value.1) else ""
  }

  predicate ValidView(v: View) {
    (forall x :: x in v.xs ==> ValidLexeme(x)) && (v.open.Some? ==> LexicalString(v.open.value.0))
  }

  predicate Sees(t: string, v: View) {
    ValidView(v) && t == ViewText(v) && After(At(0), t) == Scan(Braces(v.xs), v.open.Some?, v.open.Some? && v.open.value.1)
  }

  function Read(v: View, c: char): View {
    match v.open
    case Some((ps, true)) => v.(open := Some((ps + [Escaped(c)], false)))
    case Some((ps, false)) =>
      if c == '\\' then v.(open := Some((ps, true)))
      else if c == '"' then View(v.xs + [Quoted(ps)], None)
      else v.(open := Some((ps + [Plain(c)], false)))
    case None => if c == '"' then v.(open := Some(([], false))) else v.(xs := v.xs + [Mark(c)])
  }

  lemma ReadText(v: View, c: char)
    ensures ViewText(Read(v, c)) == ViewText(v) + [c]
  {
    match v.open
    case Some((ps, true)) =>
      PiecesSnoc(ps, Escaped(c));
      UnfinishedSnoc(PiecesText(ps), c);
    case Some((ps, false)) =>
      if c == '"' {
        LexemesSnoc(v.xs, Quoted(ps));
      } else if c != '\\' {
        PiecesSnoc(ps, Plain(c));
        UnfinishedSnoc(PiecesText(ps), c);
      }
    case None =>
      if c != '"' {
        LexemesSnoc(v.xs, Mark(c));
      }
  }

  lemma LexemesSnoc(xs: seq<Lexeme>, x: Lexeme)
    ensures LexemesText(xs + [x]) == LexemesText(xs) + LexemeText(x)
    ensures Braces(xs + [x]) == Braces(xs) + Weight(x)
  {
    assert (xs + [x])[..|xs|] == xs;
  }

  lemma UnfinishedSnoc(text: string, c: char)
    ensures "\"" + (text + ['\\', c]) + "" == ("\"" + text + "\\") + [c]
    ensures "\"" + (text + [c]) + "" == ("\"" + text + "") + [c]
  {
  }

  lemma ReadState(v: View, c: char)
    requires ValidView(v)
    ensures ValidView(Read(v, c))
    ensures var w := Read(v, c);
            Scan(Braces(w.xs), w.open.Some?, w.open.Some? && w.open.value.1)
            == Next(Scan(Braces(v.xs), v.open.Some?, v.open.Some? && v.open.value.1), c)
  {
    match v.open
    case Some((ps, true)) =>
    case Some((ps, false)) =>
      if c == '"' {
        assert (v.xs + [Quoted(ps)])[..|v.xs|] == v.xs;
      }
    case None =>
      if c != '"' {
        assert (v.xs + [Mark(c)])[..|v.xs|] == v.xs;
      }
  }

  // Every text splits into lexemes and at most one unfinished string, and the scanner's depth
  // is the number of '{' minus the number of '}' that lie outside strings.
  lemma {:induction false} DepthCountsBraces(t: string) returns (v: View)
    ensures Sees(t, v)
    decreases |t|
  {
    if t == "" {
      v := View([], None);
    } else {
      var u := DepthCountsBraces(t[..|t| - 1]);
      v := Read(u, t[|t| - 1]);
      ReadText(u, t[|t| - 1]);
      ReadState(u, t[|t| - 1]);
      assert t == t[..|t| - 1] + [t[|t| - 1]];
    }
  }

  // Conversely, however a text is split into lexemes, the count is the scanner's depth.
  lemma {:induction false} CountIsDepth(v: View)
    requires ValidView(v)
    ensures After(At(0), ViewText(v)) == Scan(Braces(v.xs), v.open.Some?, v.open.Some? && v.open.value.1)
    decreases |v.xs|, v.open.Some?
  {
    if v.open.Some? {
      var (ps, half) := v.open.value;
      CountIsDepth(View(v.xs, None));
      assert ViewText(View(v.xs, None)) == LexemesText(v.xs);
      AfterConcat(At(0), LexemesText(v.xs), Unfinished(ps, half));
      UnfinishedState(Braces(v.xs), ps, half);
    } else if v.xs != [] {
      var front, x := v.xs[..|v.xs| - 1], v.xs[|v.xs| - 1];
      CountIsDepth(View(front, None));
      assert ViewText(View(front, None)) == LexemesText(front);
      assert ViewText(v) == LexemesText(front) + LexemeText(x);
      AfterConcat(At(0), LexemesText(front), LexemeText(x));
      LexemeState(Braces(front), x);
    }
  }

  lemma UnfinishedState(d: int, ps: seq<Piece>, half: bool)
    requires LexicalString(ps)
    ensures After(At(d), Unfinished(ps, half)) == Scan(d, true, half)
  {
    StringStays(d, ps);
    var inner := Scan(d, true, false);
    AfterOne(At(d), '"');
    AfterConcat(At(d), "\"", PiecesText(ps));
    if half {
      AfterConcat(At(d), "\"" + PiecesText(ps), "\\");
      AfterOne(inner, '\\');
    } else {
      assert Unfinished(ps, half) == "\"" + PiecesText(ps);
    }
  }

  lemma LexemeState(d: int, x: Lexeme)
    requires ValidLexeme(x)
    ensures After(At(d), LexemeText(x)) == At(d + Weight(x))
  {
    match x
    case Quoted(ps) =>
      StringStays(d, ps);
      WrapStays(At(d), Scan(d, true, false), '"', PiecesText(ps), '"');
    case Mark(c) =>
      AfterOne(At(d), c);
  }

  // ---------------------------------------------------------------------------
  // Text that leaves the scanner where it was
  // ---------------------------------------------------------------------------

  // t brings the scanner back to st and never takes it below st's depth.
  predicate Stays(st: Scan, t: string) {
    After(st, t) == st && forall k :: 0 <= k <= |t| ==> After(st, t[..k]).depth >= st.depth
  }

  lemma StaysConcat(st: Scan, a: string, b: string)
    requires Stays(st, a) && Stays(st, b)
    ensures Stays(st, a + b)
  {
    AfterConcat(st, a, b);
    forall k | 0 <= k <= |a + b| ensures After(st, (a + b)[..k]).depth >= st.depth {
      if k <= |a| {
        assert (a + b)[..k] == a[..k];
      } else {
        assert (a + b)[..k] == a + b[..k - |a|];
        AfterConcat(st, a, b[..k - |a|]);
      }
    }
  }

  lemma StaysChar(st: Scan, c: char)
    requires Next(st, c) == st
    ensures Stays(st, [c])
  {
    AfterOne(st, c);
    assert [c][..0] == "" && [c][..1] == [c];
  }

  // Enclosed text: every proper prefix past the opening byte is at least as deep as inside.
  lemma WrapStays(st: Scan, inner: Scan, a: char, t: string, b: char)
    requires Next(st, a) == inner && Next(inner, b) == st && Stays(inner, t) && inner.depth >= st.depth
    ensures Stays(st, [a] + t + [b])
    ensures forall k :: 0 < k <= |t| + 1 ==> After(st, ([a] + t + [b])[..k]).depth >= inner.depth
  {
    var whole := [a] + t + [b];
    AfterOne(st, a);
    AfterOne(inner, b);
    AfterConcat(st, [a], t);
    AfterConcat(st, [a] + t, [b]);
    forall k | 0 < k <= |t| + 1 ensures After(st, whole[..k]).depth >= inner.depth {
      assert whole[..k] == [a] + t[..k - 1];
      AfterConcat(st, [a], t[..k - 1]);
    }
    assert whole[..0] == "" && whole[..|whole|] == whole;
  }

  lemma {:induction false} PiecesStay(d: int, ps: seq<Piece>)
    requires LexicalString(ps)
    ensures Stays(Scan(d, true, false), PiecesText(ps))
    decreases |ps|
  {
    var inner := Scan(d, true, false);
    if ps == [] {
      assert ""[..0] == "";
    } else {
      PiecesStay(d, ps[1..]);
      var p := ps[0];
      assert Lexical(p);
      if p.Plain? {
        StaysChar(inner, p.c);
      } else {
        AfterOne(inner, '\\');
        assert ['\\', p.c] == ['\\'] + [p.c];
        AfterConcat(inner, ['\\'], [p.c]);
        AfterOne(Scan(d, true, true), p.c);
        forall k | 0 <= k <= 2 ensures After(inner, ['\\', p.c][..k]).depth >= d {
          assert k == 0 ==> ['\\', p.c][..k] == "";
          assert k == 1 ==> ['\\', p.c][..k] == ['\\'];
          assert k == 2 ==> ['\\', p.c][..k] == ['\\', p.c];
        }
      }
      StaysConcat(inner, PieceText(p), PiecesText(ps[1..]));
    }
  }

  lemma StringStays(d: int, ps: seq<Piece>)
    requires LexicalString(ps)
    ensures Stays(Scan(d, true, false), PiecesText(ps))
    ensures Stays(At(d), StringText(ps))
  {
    PiecesStay(d, ps);
    WrapStays(At(d), Scan(d, true, false), '"', PiecesText(ps), '"');
  }

  // Bytes that mean nothing to the scanner outside strings
  predicate Inert(s: string) { forall c :: c in s ==> c != '"' && c != '{' && c != '}' }

  lemma {:induction false} InertStays(d: int, s: string)
    requires Inert(s)
    ensures Stays(At(d), s)
    decreases |s|
  {
    if s == "" {
      assert ""[..0] == "";
    } else {
      assert s[0] in s && forall c :: c in s[1..] ==> c in s;
      InertStays(d, s[1..]);
      StaysChar(At(d), s[0]);
      StaysConcat(At(d), [s[0]], s[1..]);
      assert [s[0]] + s[1..] == s;
    }
  }

  // ---------------------------------------------------------------------------
  // Reading two: the grammar of RFC 8259
  // ---------------------------------------------------------------------------

  // Section 2: whitespace
  predicate Blank(s: string) { forall c :: c in s ==> c == ' ' || c == '\t' || c == '\n' || c == '\r' }

  predicate Digits(s: string) { s != "" && forall c :: c in s ==> '0' <= c <= '9' }

  predicate HexDigit(c: char) { '0' <= c <= '9' || 'a' <= c <= 'f' || 'A' <= c <= 'F' }

  // Section 6: [ minus ] int [ frac ] [ exp ]
  datatype Exponent = Exponent(e: char, sign: string, digits: string)
  datatype Number = Number(minus: bool, whole: string, frac: Option<string>, exp: Option<Exponent>)

  predicate ValidNumber(n: Number) {
    && Digits(n.whole) && (n.whole[0] == '0' ==> |n.whole| == 1)
    && (n.frac.Some? ==> Digits(n.frac.value))
    && (n.exp.Some? ==>
          && (n.exp.value.e == 'e' || n.exp.value.e == 'E')
          && (n.exp.value.sign == "" || n.exp.value.sign == "+" || n.exp.value.sign == "-")
          && Digits(n.exp.value.digits))
  }

  function NumberText(n: Number): string {
    (if n.minus then "-" else "") + n.whole
    + (if n.frac.Some? then "." + n.frac.value else "")
    + (if n.exp.Some? then [n.exp.value.e] + n.exp.value.sign + n.exp.value.digits else "")
  }

  // Section 7: characters below U+0020, '"' and '\' are escaped; \u takes four hex digits.
  predicate ValidPiece(p: Piece) {
    if p.Plain? then p.c as int >= 0x20 && Lexical(p) else p.c in "\"\\/bfnrtu"
  }

  predicate ValidString(ps: seq<Piece>) {
    && (forall p :: p in ps ==> ValidPiece(p))
    && forall i :: 0 <= i < |ps| && ps[i] == Escaped('u') ==>
         i + 4 < |ps| && forall j :: i < j <= i + 4 ==> ps[j].Plain? && HexDigit(ps[j].c)
  }

  function StringText(ps: seq<Piece>): string { ['"'] + PiecesText(ps) + ['"'] }

  // Sections 3 to 5.  `pad` is the whitespace of an empty array or object; otherwise each item
  // carries the whitespace around its parts.
  datatype Json =
    | Name(name: string)
    | Num(n: Number)
    | Str(ps: seq<Piece>)
    | Array(pad: string, items: Items)
    | Object(pad: string, members: Members)

  datatype Items = NoItems | Item(before: string, value: Json, after: string, more: Items)

  datatype Members =
    | NoMembers
    | Member(before: string, key: seq<Piece>, colonL: string, colonR: string, value: Json, after: string, more: Members)

  predicate ValidJson(v: Json) {
    match v
    case Name(name) => name == "false" || name == "null" || name == "true"
    case Num(n) => ValidNumber(n)
    case Str(ps) => ValidString(ps)
    case Array(pad, items) => Blank(pad) && ValidItems(items)
    case Object(pad, members) => Blank(pad) && ValidMembers(members)
  }

  predicate ValidItems(xs: Items) {
    xs.Item? ==> Blank(xs.before) && ValidJson(xs.value) && Blank(xs.after) && ValidItems(xs.more)
  }

  predicate ValidMembers(ms: Members) {
    ms.Member? ==>
      && Blank(ms.before) && ValidString(ms.key) && Blank(ms.colonL) && Blank(ms.colonR)
      && ValidJson(ms.value) && Blank(ms.after) && ValidMembers(ms.more)
  }

  function Render(v: Json): string {
    match v
    case Name(name) => name
    case Num(n) => NumberText(n)
    case Str(ps) => StringText(ps)
    case Array(pad, items) => ['['] + (if items.NoItems? then pad else RenderItems(items)) + [']']
    case Object(pad, members) => ['{'] + Inside(v) + ['}']
  }

  function Inside(v: Json): string
    requires v.Object?
    decreases v, 0
  {
    if v.members.NoMembers? then v.pad else RenderMembers(v.members)
  }

  function RenderItems(xs: Items): string
    requires xs.Item?
  {
    xs.before + Render(xs.value) + xs.after + if xs.more.NoItems? then "" else "," + RenderItems(xs.more)
  }

  function RenderMembers(ms: Members): string
    requires ms.Member?
  {
    ms.before + StringText(ms.key) + (ms.colonL + ":" + ms.colonR) + Render(ms.value) + ms.after
    + if ms.more.NoMembers? then "" else "," + RenderMembers(ms.more)
  }

  // ---------------------------------------------------------------------------
  // The extraction finds exactly the object
  // ---------------------------------------------------------------------------

  lemma ValidStringIsLexical(ps: seq<Piece>)
    requires ValidString(ps)
    ensures LexicalString(ps)
  {
    forall p | p in ps ensures Lexical(p) {
      assert ValidPiece(p);
    }
  }

  lemma NumberInert(n: Number)
    requires ValidNumber(n)
    ensures Inert(NumberText(n))
  {
    var minus := if n.minus then "-" else "";
    var frac := if n.frac.Some? then "." + n.frac.value else "";
    var exp := if n.exp.Some? then [n.exp.value.e] + n.exp.value.sign + n.exp.value.digits else "";
    assert Inert(minus) && Inert(n.whole) && Inert(frac) && Inert(exp);
    assert NumberText(n) == minus + n.whole + frac + exp;
  }

  lemma {:induction false} RenderStays(d: int, v: Json)
    requires ValidJson(v)
    ensures Stays(At(d), Render(v))
    decreases v
  {
    match v
    case Name(name) => InertStays(d, name);
    case Num(n) =>
      NumberInert(n);
      InertStays(d, NumberText(n));
    case Str(ps) =>
      ValidStringIsLexical(ps);
      StringStays(d, ps);
    case Array(pad, items) =>
      var t := if items.NoItems? then pad else RenderItems(items);
      if items.NoItems? { InertStays(d, pad); } else { ItemsStay(d, items); }
      WrapStays(At(d), At(d), '[', t, ']');
    case Object(pad, members) =>
      if members.NoMembers? { InertStays(d + 1, pad); } else { MembersStay(d + 1, members); }
      WrapStays(At(d), At(d + 1), '{', Inside(v), '}');
  }

  lemma {:induction false} ItemsStay(d: int, xs: Items)
    requires xs.Item? && ValidItems(xs)
    ensures Stays(At(d), RenderItems(xs))
    decreases xs
  {
    InertStays(d, xs.before);
    RenderStays(d, xs.value);
    InertStays(d, xs.after);
    StaysConcat(At(d), xs.before, Render(xs.value));
    StaysConcat(At(d), xs.before + Render(xs.value), xs.after);
    InertStays(d, "");
    InertStays(d, ",");
    if xs.more.Item? {
      ItemsStay(d, xs.more);
      StaysConcat(At(d), ",", RenderItems(xs.more));
    }
    StaysConcat(At(d), xs.before + Render(xs.value) + xs.after,
                if xs.more.NoItems? then "" else "," + RenderItems(xs.more));
  }

  lemma {:induction false} MembersStay(d: int, ms: Members)
    requires ms.Member? && ValidMembers(ms)
    ensures Stays(At(d), RenderMembers(ms))
    decreases ms
  {
    var st := At(d);
    var colon := ms.colonL + ":" + ms.colonR;
    InertStays(d, ms.before);
    ValidStringIsLexical(ms.key);
    StringStays(d, ms.key);
    InertStays(d, colon);
    RenderStays(d, ms.value);
    InertStays(d, ms.after);
    StaysConcat(st, ms.before, StringText(ms.key));
    StaysConcat(st, ms.before + StringText(ms.key), colon);
    StaysConcat(st, ms.before + StringText(ms.key) + colon, Render(ms.value));
    StaysConcat(st, ms.before + StringText(ms.key) + colon + Render(ms.value), ms.after);
    InertStays(d, "");
    InertStays(d, ",");
    if ms.more.Member? {
      MembersStay(d, ms.more);
      StaysConcat(st, ",", RenderMembers(ms.more));
    }
    StaysConcat(st, ms.before + StringText(ms.key) + colon + Render(ms.value) + ms.after,
                if ms.more.NoMembers? then "" else "," + RenderMembers(ms.more));
  }

  // No proper prefix of an object text is balanced; the whole text is.
  lemma ObjectSpan(o: Json)
    requires o.Object? && ValidJson(o)
    ensures Balanced(Render(o)) && NoShorter(Render(o), |Render(o)|)
  {
    if o.members.NoMembers? { InertStays(1, o.pad); } else { MembersStay(1, o.members); }
    WrapStays(At(0), At(1), '{', Inside(o), '}');
  }

  // The object is found whatever precedes it (without a brace) and whatever follows it.
  lemma ExtractsObject(p: string, o: Json, q: string, r: string)
    requires '{' !in p && o.Object? && ValidJson(o)
    ensures IsExtract(p + (Render(o) + q), r) <==> r == Render(o)
  {
    var text := Render(o);
    var t := text + q;
    ObjectSpan(o);
    forall k | 0 < k < |text| ensures !Balanced(t[..k]) {
      assert t[..k] == text[..k];
    }
    SpanIsExtract(p, t, text);
    if IsExtract(p + t, r) {
      ExtractUnique(p + t, r, text);
    }
  }

  // An object cut off anywhere is returned up to the end of the input.
  lemma ExtractsTruncated(p: string, o: Json, k: nat, r: string)
    requires '{' !in p && o.Object? && ValidJson(o) && 0 < k < |Render(o)|
    ensures IsExtract(p + Render(o)[..k], r) <==> r == Render(o)[..k]
  {
    var text := Render(o);
    var t := text[..k];
    ObjectSpan(o);
    forall j | 0 < j <= k ensures !Balanced(t[..j]) {
      assert t[..j] == text[..j];
    }
    assert t[..k] == t;
    SpanIsExtract(p, t, t);
    if IsExtract(p + t, r) {
      ExtractUnique(p + t, r, t);
    }
  }
}
