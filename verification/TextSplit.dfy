/**
  Splitting text for the embedding server: ChunkText (memory/save.go) cuts at a byte budget,
  embedWithFallback (memory/embedding.go) halves what the server finds too large.
  One char stands for one byte of UTF-8.
 */
module TextSplit {
  import opened Wrappers

  const MIN_CHUNK_BYTES: nat := 50
  const MIN_SPLIT_BYTES: nat := 100

  // ---------------------------------------------------------------------------
  // White space
  // ---------------------------------------------------------------------------

  predicate Bytes2(e: string, x: int, y: int) { |e| == 2 && e[0] as int == x && e[1] as int == y }

  predicate Bytes3(e: string, x: int, y: int, z: int) {
    |e| == 3 && e[0] as int == x && e[1] as int == y && e[2] as int == z
  }

  // e is the UTF-8 encoding of a character for which unicode.IsSpace holds: the ASCII ones,
  // U+0085, U+00A0, U+1680, U+2000 to U+200A, U+2028, U+2029, U+202F, U+205F and U+3000.
  predicate IsSpace(e: string) {
    || (|e| == 1 && (e[0] == ' ' || 9 <= e[0] as int <= 13))
    || Bytes2(e, 0xC2, 0x85) || Bytes2(e, 0xC2, 0xA0)
    || Bytes3(e, 0xE1, 0x9A, 0x80) || Bytes3(e, 0xE2, 0x81, 0x9F) || Bytes3(e, 0xE3, 0x80, 0x80)
    || (|e| == 3 && Bytes3(e, 0xE2, 0x80, e[2] as int)
        && (0x80 <= e[2] as int <= 0x8A || e[2] as int in {0xA8, 0xA9, 0xAF}))
  }

  // The length of the white-space character at the front, zero when there is none
  function FrontSpace(s: string): (n: nat)
    ensures n <= |s| && (n > 0 ==> IsSpace(s[..n]))
  {
    if |s| >= 1 && IsSpace(s[..1]) then 1
    else if |s| >= 2 && IsSpace(s[..2]) then 2
    else if |s| >= 3 && IsSpace(s[..3]) then 3
    else 0
  }

  function BackSpace(s: string): (n: nat)
    ensures n <= |s| && (n > 0 ==> IsSpace(s[|s| - n..]))
  {
    if |s| >= 1 && IsSpace(s[|s| - 1..]) then 1
    else if |s| >= 2 && IsSpace(s[|s| - 2..]) then 2
    else if |s| >= 3 && IsSpace(s[|s| - 3..]) then 3
    else 0
  }

  function TrimLeft(s: string): (r: string)
    ensures |r| <= |s|
    decreases |s|
  {
    if FrontSpace(s) > 0 then TrimLeft(s[FrontSpace(s)..]) else s
  }

  function TrimRight(s: string): (r: string)
    ensures |r| <= |s|
    decreases |s|
  {
    if BackSpace(s) > 0 then TrimRight(s[..|s| - BackSpace(s)]) else s
  }

  // strings.TrimSpace
  function TrimSpace(s: string): (r: string)
    ensures |r| <= |s|
  {
    TrimRight(TrimLeft(s))
  }

  // r is t without some of its white-space characters.
  ghost predicate Deletes(t: string, r: string)
    decreases |t|
  {
    if t == "" then r == ""
    else
      || (r != "" && r[0] == t[0] && Deletes(t[1..], r[1..]))
      || (FrontSpace(t) > 0 && Deletes(t[FrontSpace(t)..], r))
  }

  lemma FrontSpaceMore(a: string, b: string)
    requires FrontSpace(a) > 0
    ensures FrontSpace(a + b) == FrontSpace(a)
  {
    assert forall k :: 0 <= k <= |a| ==> (a + b)[..k] == a[..k];
  }

  lemma SpaceIsFront(e: string)
    requires IsSpace(e)
    ensures FrontSpace(e) == |e|
  {
    assert e[..|e|] == e;
  }

  lemma {:induction false} DeletesConcat(a: string, a': string, b: string, b': string)
    requires Deletes(a, a') && Deletes(b, b')
    ensures Deletes(a + b, a' + b')
    decreases |a|
  {
    if a == "" {
      assert a + b == b && a' + b' == b';
    } else if a' != "" && a'[0] == a[0] && Deletes(a[1..], a'[1..]) {
      DeletesConcat(a[1..], a'[1..], b, b');
      assert (a + b)[1..] == a[1..] + b && (a' + b')[1..] == a'[1..] + b';
    } else {
      var n := FrontSpace(a);
      DeletesConcat(a[n..], a', b, b');
      FrontSpaceMore(a, b);
      assert (a + b)[n..] == a[n..] + b;
    }
  }

  lemma {:induction false} DeletesRefl(t: string)
    ensures Deletes(t, t)
  {
    if t != "" {
      DeletesRefl(t[1..]);
    }
  }

  lemma {:induction false} DeletesShrinks(t: string, r: string)
    requires Deletes(t, r)
    ensures |r| <= |t|
    decreases |t|
  {
    if t != "" {
      if r != "" && r[0] == t[0] && Deletes(t[1..], r[1..]) {
        DeletesShrinks(t[1..], r[1..]);
      } else {
        DeletesShrinks(t[FrontSpace(t)..], r);
      }
    }
  }

  // A text of white space only
  ghost predicate Blank(s: string) { Deletes(s, "") }

  lemma BlankFront(e: string, rest: string)
    requires IsSpace(e) && Blank(rest)
    ensures Blank(e + rest)
  {
    SpaceIsFront(e);
    FrontSpaceMore(e, rest);
    assert (e + rest)[|e|..] == rest;
  }

  lemma BlankBack(rest: string, e: string)
    requires IsSpace(e) && Blank(rest)
    ensures Blank(rest + e)
  {
    BlankFront(e, "");
    assert e + "" == e;
    DeletesConcat(rest, "", e, "");
  }

  lemma {:induction false} TrimLeftIsSuffix(s: string)
    ensures TrimLeft(s) == s[|s| - |TrimLeft(s)|..]
    decreases |s|
  {
    if FrontSpace(s) > 0 {
      TrimLeftIsSuffix(s[FrontSpace(s)..]);
    }
  }

  lemma FrontSplit(s: string, n: nat, k: nat)
    requires n + k <= |s|
    ensures s[..n + k] == s[..n] + s[n..][..k]
  {
  }

  lemma {:induction false} TrimLeftBlank(s: string)
    ensures Blank(s[..|s| - |TrimLeft(s)|])
    decreases |s|
  {
    var n := FrontSpace(s);
    if n > 0 {
      var t := s[n..];
      var k := |t| - |TrimLeft(t)|;
      TrimLeftBlank(t);
      BlankFront(s[..n], t[..k]);
      FrontSplit(s, n, k);
    }
  }

  lemma Halves(s: string, k: nat)
    requires k <= |s|
    ensures s == s[..k] + s[k..]
  {
  }

  lemma TrimLeftParts(s: string) returns (l: string)
    ensures s == l + TrimLeft(s) && Blank(l)
  {
    l := s[..|s| - |TrimLeft(s)|];
    TrimLeftIsSuffix(s);
    TrimLeftBlank(s);
    Halves(s, |s| - |TrimLeft(s)|);
  }

  lemma {:induction false} TrimRightParts(s: string) returns (r: string)
    ensures s == TrimRight(s) + r && Blank(r)
    decreases |s|
  {
    var k := |s| - BackSpace(s);
    if k == |s| {
      r := "";
    } else {
      var rest := TrimRightParts(s[..k]);
      r := rest + s[k..];
      BlankBack(rest, s[k..]);
      ConcatAssoc(TrimRight(s[..k]), rest, s[k..]);
      assert s == s[..k] + s[k..];
    }
  }

  // What trimming takes away is white space at both ends.
  lemma TrimParts(s: string) returns (l: string, r: string)
    ensures s == l + TrimSpace(s) + r && Blank(l) && Blank(r)
  {
    l := TrimLeftParts(s);
    r := TrimRightParts(TrimLeft(s));
    ConcatAssoc(l, TrimSpace(s), r);
  }

  lemma {:induction false} TrimLeftEnds(s: string)
    ensures FrontSpace(TrimLeft(s)) == 0
    decreases |s|
  {
    if FrontSpace(s) > 0 {
      TrimLeftEnds(s[FrontSpace(s)..]);
    }
  }

  lemma {:induction false} TrimRightEnds(s: string)
    ensures BackSpace(TrimRight(s)) == 0
    decreases |s|
  {
    if BackSpace(s) > 0 {
      TrimRightEnds(s[..|s| - BackSpace(s)]);
    }
  }

  // The trimmed text is the middle of the text, between white space that is all gone from its ends.
  lemma TrimmedExactly(s: string) returns (l: string, r: string)
    ensures s == l + TrimSpace(s) + r && Blank(l) && Blank(r)
    ensures FrontSpace(TrimSpace(s)) == 0 && BackSpace(TrimSpace(s)) == 0
  {
    l, r := TrimParts(s);
    TrimLeftEnds(s);
    TrimRightEnds(TrimLeft(s));
    var back := TrimRightParts(TrimLeft(s));
    if FrontSpace(TrimSpace(s)) > 0 {
      FrontSpaceMore(TrimSpace(s), back);
    }
  }

  // Deleting inside the trimmed text is deleting inside the text.
  lemma DeletesAround(s: string, r: string)
    requires Deletes(TrimSpace(s), r)
    ensures Deletes(s, r)
  {
    var l, back := TrimParts(s);
    DeletesConcat(l, "", TrimSpace(s), r);
    DeletesConcat(l + TrimSpace(s), "" + r, back, "");
    assert "" + r + "" == r;
  }

  // strings.LastIndex(s, "\n")
  function LastNewline(s: string): (i: int)
    ensures -1 <= i < |s|
    ensures i >= 0 ==> s[i] == '\n'
    ensures forall j :: i < j < |s| ==> s[j] != '\n'
  {
    if s == "" then -1 else if s[|s| - 1] == '\n' then |s| - 1 else LastNewline(s[..|s| - 1])
  }

  function Flat(ss: seq<string>): string
    decreases |ss|
  {
    if ss == [] then "" else ss[0] + Flat(ss[1..])
  }

  lemma {:induction false} FlatConcat(a: seq<string>, b: seq<string>)
    ensures Flat(a + b) == Flat(a) + Flat(b)
    decreases |a|
  {
    if a == [] {
      assert a + b == b;
    } else {
      FlatConcat(a[1..], b);
      assert (a + b)[1..] == a[1..] + b;
    }
  }

  // ---------------------------------------------------------------------------
  // ChunkText
  // ---------------------------------------------------------------------------

  // Where the next piece ends
  function CutEnd(text: string, maxBytes: nat): (end: nat)
    ensures end <= |text| && end <= maxBytes
    ensures text != "" ==> (end == 0 <==> maxBytes == 0)
  {
    if maxBytes >= |text| then |text|
    else
      var nl := LastNewline(text[..maxBytes]);
      if nl > 0 then nl + 1 else maxBytes
  }

  function Pieces(text: string, maxBytes: nat): seq<string>
    requires maxBytes > 0
    decreases |text|
  {
    if text == "" then [] else
      var end := CutEnd(text, maxBytes);
      [text[..end]] + Pieces(text[end..], maxBytes)
  }

  // The pieces worth an embedding, trimmed
  function Kept(pieces: seq<string>): seq<string>
    decreases |pieces|
  {
    if pieces == [] then [] else ChunkOf(TrimSpace(pieces[0])) + Kept(pieces[1..])
  }

  function ChunkOf(trimmed: string): seq<string> { if |trimmed| >= MIN_CHUNK_BYTES then [trimmed] else [] }

  function Chunks(text: string, maxBytes: int): seq<string>
    requires maxBytes > 0 || text == ""
  {
    if |text| <= maxBytes then [text]
    else
      var kept := if text == "" then [] else Kept(Pieces(text, maxBytes));
      if kept == [] then [TrimSpace(text)] else kept
  }

  // One turn of the loop
  lemma NextPiece(text: string, maxBytes: nat)
    requires maxBytes > 0 && text != ""
    ensures var end := CutEnd(text, maxBytes);
            Kept(Pieces(text, maxBytes)) == ChunkOf(TrimSpace(text[..end])) + Kept(Pieces(text[end..], maxBytes))
  {
    var end := CutEnd(text, maxBytes);
    var ps, rest := Pieces(text, maxBytes), Pieces(text[end..], maxBytes);
    assert ps == [text[..end]] + rest;
    assert ps[0] == text[..end] && ps[1..] == rest;
  }

  // For a budget of zero bytes the loop makes no progress and for a negative one the slice is
  // out of range, so there only the empty text is accepted.
  method ChunkText(text: string, maxBytes: int) returns (chunks: seq<string>)
    requires maxBytes > 0 || text == ""
    ensures chunks == Chunks(text, maxBytes)
  {
    if |text| <= maxBytes {
      return [text];
    }
    chunks := KeepChunks(text, maxBytes);
    if |chunks| == 0 {
      return [TrimSpace(text)];
    }
  }

  // The loop of ChunkText
  method KeepChunks(text: string, maxBytes: int) returns (chunks: seq<string>)
    requires maxBytes > 0 || text == ""
    ensures chunks == if text == "" then [] else Kept(Pieces(text, maxBytes))
  {
    var rest := text;
    chunks := [];
    while |rest| > 0
      invariant text == "" ==> rest == "" && chunks == []
      invariant text != "" ==> Kept(Pieces(text, maxBytes)) == chunks + Kept(Pieces(rest, maxBytes))
      decreases |rest|
    {
      var end := NextEnd(rest, maxBytes);
      NextPiece(rest, maxBytes);
      var chunk := TrimSpace(rest[..end]);
      var more := if |chunk| >= MIN_CHUNK_BYTES then [chunk] else [];
      ConcatAssoc(chunks, more, Kept(Pieces(rest[end..], maxBytes)));
      chunks := chunks + more;
      rest := rest[end..];
    }
  }

  method NextEnd(text: string, maxBytes: nat) returns (end: nat)
    requires maxBytes > 0
    ensures end == CutEnd(text, maxBytes)
  {
    end := maxBytes;
    if end > |text| {
      end := |text|;
    }
    if end < |text| {
      var nl := LastNewline(text[..end]);
      if nl > 0 {
        end := nl + 1;
      }
    }
  }

  // The pieces are the text, cut only where the budget forces it: at the last newline of the
  // window when there is one past its first byte, otherwise at the budget.
  predicate CutWell(pieces: seq<string>, i: nat, maxBytes: nat)
    requires i < |pieces|
  {
    var p := pieces[i];
    && 0 < |p| <= maxBytes
    && (i + 1 < |pieces| ==>
          || (|p| >= 2 && p[|p| - 1] == '\n' && NoLaterNewline(Flat(pieces[i..]), |p|, maxBytes))
          || (|p| == maxBytes && forall j :: 1 <= j < |p| ==> p[j] != '\n'))
  }

  predicate NoLaterNewline(text: string, from: nat, to: nat) {
    to < |text| && forall j :: from <= j < to ==> text[j] != '\n'
  }

  lemma {:induction false} PiecesFlat(text: string, maxBytes: nat)
    requires maxBytes > 0
    ensures Flat(Pieces(text, maxBytes)) == text
    decreases |text|
  {
    if text != "" {
      var end := CutEnd(text, maxBytes);
      PiecesFlat(text[end..], maxBytes);
      var ps, qs := Pieces(text, maxBytes), Pieces(text[end..], maxBytes);
      assert ps == [text[..end]] + qs && ps[1..] == qs;
      assert text == text[..end] + text[end..];
    }
  }

  lemma {:induction false} PieceCutWell(text: string, maxBytes: nat, i: nat)
    requires maxBytes > 0 && i < |Pieces(text, maxBytes)|
    ensures CutWell(Pieces(text, maxBytes), i, maxBytes)
    decreases i
  {
    if i == 0 {
      PiecesFlat(text, maxBytes);
      FirstCut(text, maxBytes);
    } else {
      var rest := text[CutEnd(text, maxBytes)..];
      var ps, qs := Pieces(text, maxBytes), Pieces(rest, maxBytes);
      assert ps[1..] == qs;
      PieceCutWell(rest, maxBytes, i - 1);
      LaterCut(ps, qs, i, maxBytes);
    }
  }

  lemma PiecesAreText(text: string, maxBytes: nat)
    requires maxBytes > 0
    ensures Flat(Pieces(text, maxBytes)) == text
    ensures forall i :: 0 <= i < |Pieces(text, maxBytes)| ==> CutWell(Pieces(text, maxBytes), i, maxBytes)
  {
    PiecesFlat(text, maxBytes);
    forall i | 0 <= i < |Pieces(text, maxBytes)| ensures CutWell(Pieces(text, maxBytes), i, maxBytes) {
      PieceCutWell(text, maxBytes, i);
    }
  }

  lemma LaterCut(ps: seq<string>, qs: seq<string>, i: nat, maxBytes: nat)
    requires 1 <= i < |ps| && ps[1..] == qs && CutWell(qs, i - 1, maxBytes)
    ensures CutWell(ps, i, maxBytes)
  {
    assert ps[i..] == qs[i - 1..] && ps[i] == qs[i - 1];
  }

  lemma FirstCut(text: string, maxBytes: nat)
    requires maxBytes > 0 && text != "" && Flat(Pieces(text, maxBytes)) == text
    ensures CutWell(Pieces(text, maxBytes), 0, maxBytes)
  {
    var ps, end := Pieces(text, maxBytes), CutEnd(text, maxBytes);
    var window := if maxBytes < |text| then text[..maxBytes] else text;
    assert ps[0] == text[..end] && ps[0..] == ps;
    assert end == |text| ==> |ps| == 1;
    assert forall j :: 0 <= j < |window| ==> window[j] == text[j];
  }

  lemma {:induction false} KeptSizes(pieces: seq<string>)
    ensures forall c :: c in Kept(pieces) ==> |c| >= 50 && exists p :: p in pieces && c == TrimSpace(p)
    ensures |Kept(pieces)| <= |pieces|
    ensures Kept(pieces) == [] <==> forall p :: p in pieces ==> |TrimSpace(p)| < 50
    decreases |pieces|
  {
    if pieces != [] {
      KeptSizes(pieces[1..]);
      assert forall p :: p in pieces <==> p == pieces[0] || p in pieces[1..];
    }
  }

  lemma KeptWithinBudget(text: string, maxBytes: nat)
    requires maxBytes > 0
    ensures forall c :: c in Kept(Pieces(text, maxBytes)) ==> |c| <= maxBytes
  {
    var ps := Pieces(text, maxBytes);
    PiecesAreText(text, maxBytes);
    KeptSizes(ps);
    forall c | c in Kept(ps) ensures |c| <= maxBytes {
      var p :| p in ps && c == TrimSpace(p);
      var i :| 0 <= i < |ps| && ps[i] == p;
      assert CutWell(ps, i, maxBytes);
    }
  }

  // No chunk exceeds the budget but the one returned when every piece was too short to keep.
  lemma ChunksWithinBudget(text: string, maxBytes: nat)
    requires maxBytes > 0
    ensures (forall c :: c in Chunks(text, maxBytes) ==> |c| <= maxBytes)
            <==> |text| <= maxBytes || Kept(Pieces(text, maxBytes)) != [] || |TrimSpace(text)| <= maxBytes
  {
    KeptWithinBudget(text, maxBytes);
    if |text| > maxBytes && Kept(Pieces(text, maxBytes)) == [] {
      assert Chunks(text, maxBytes) == [TrimSpace(text)];
      assert TrimSpace(text) in Chunks(text, maxBytes);
    }
  }

  function TrimAll(pieces: seq<string>): seq<string>
    decreases |pieces|
  {
    if pieces == [] then [] else [TrimSpace(pieces[0])] + TrimAll(pieces[1..])
  }

  lemma {:induction false} TrimAllDeletes(pieces: seq<string>)
    ensures Deletes(Flat(pieces), Flat(TrimAll(pieces)))
    decreases |pieces|
  {
    if pieces != [] {
      var p := pieces[0];
      TrimAllDeletes(pieces[1..]);
      DeletesRefl(TrimSpace(p));
      DeletesAround(p, TrimSpace(p));
      DeletesConcat(p, TrimSpace(p), Flat(pieces[1..]), Flat(TrimAll(pieces[1..])));
      assert TrimAll(pieces)[1..] == TrimAll(pieces[1..]);
    }
  }

  // Dropping loses at most 49 bytes for each dropped piece.
  lemma {:induction false} KeptLoss(pieces: seq<string>)
    ensures |Kept(pieces)| <= |pieces|
    ensures |Flat(TrimAll(pieces))| <= |Flat(Kept(pieces))| + (MIN_CHUNK_BYTES - 1) * (|pieces| - |Kept(pieces)|)
    ensures |Kept(pieces)| == |pieces| ==> Kept(pieces) == TrimAll(pieces)
    decreases |pieces|
  {
    if pieces != [] {
      var t, rest := TrimSpace(pieces[0]), pieces[1..];
      KeptLoss(rest);
      FlatConcat(ChunkOf(t), Kept(rest));
      FlatConcat([t], TrimAll(rest));
      assert Flat([t]) == t + Flat([]) == t;
    }
  }

  // Trimming the pieces deletes white space and nothing else; dropping short pieces then loses at
  // most 49 bytes for each, and none when none is dropped.
  lemma ChunksKeepText(text: string, maxBytes: nat)
    requires maxBytes > 0
    ensures var ps := Pieces(text, maxBytes); var kept := Kept(ps);
            var trimmed, shown := Flat(TrimAll(ps)), Flat(Chunks(text, maxBytes));
            && Deletes(text, trimmed) && |trimmed| <= |shown| + 49 * (|ps| - |kept|)
            && (|text| <= maxBytes || kept == [] || |kept| == |ps| ==> Deletes(text, shown))
  {
    var ps := Pieces(text, maxBytes);
    PiecesAreText(text, maxBytes);
    TrimAllDeletes(ps);
    DeletesShrinks(text, Flat(TrimAll(ps)));
    KeptLoss(ps);
    DeletesRefl(text);
    DeletesRefl(TrimSpace(text));
    DeletesAround(text, TrimSpace(text));
    assert Flat([text]) == text + Flat([]) == text;
    assert Flat([TrimSpace(text)]) == TrimSpace(text) + Flat([]) == TrimSpace(text);
  }

  // ---------------------------------------------------------------------------
  // embedWithFallback
  // ---------------------------------------------------------------------------

  datatype Reply = Embedded | TooLarge | Failed

  // A call of embedWithFallback: the halves taken to get there, and the text it asks for.
  datatype Call = Call(path: seq<bool>, text: string)

  predicate Splits(server: Call -> Reply, c: Call) {
    server(c).TooLarge? && |c.text| > MIN_SPLIT_BYTES
  }

  function Middle(text: string): (mid: nat)
    requires |text| > MIN_SPLIT_BYTES
    ensures 0 < mid < |text|
  {
    var nl := LastNewline(text[..|text| / 2]);
    if nl > 0 then nl + 1 else |text| / 2
  }

  function Left(c: Call): (l: Call)
    requires |c.text| > MIN_SPLIT_BYTES
    ensures |l.text| < |c.text|
  {
    Call(c.path + [false], TrimSpace(c.text[..Middle(c.text)]))
  }

  function Right(c: Call): (r: Call)
    requires |c.text| > MIN_SPLIT_BYTES
    ensures |r.text| < |c.text|
  {
    Call(c.path + [true], TrimSpace(c.text[Middle(c.text)..]))
  }

  // The texts that were embedded, or None for an error
  function EmbedWithFallback(server: Call -> Reply, c: Call): Option<seq<string>>
    decreases |c.text|
  {
    if Splits(server, c) then
      match EmbedWithFallback(server, Left(c))
      case None => None
      case Some(left) =>
        match EmbedWithFallback(server, Right(c))
        case None => None
        case Some(right) => Some(left + right)
    else if server(c).Embedded? then Some([c.text])
    else None
  }

  // The calls that are not split further, from left to right
  function Leaves(server: Call -> Reply, c: Call): seq<Call>
    decreases |c.text|
  {
    if Splits(server, c) then Leaves(server, Left(c)) + Leaves(server, Right(c)) else [c]
  }

  function Texts(cs: seq<Call>): seq<string>
    decreases |cs|
  {
    if cs == [] then [] else [cs[0].text] + Texts(cs[1..])
  }

  lemma {:induction false} TextsConcat(a: seq<Call>, b: seq<Call>)
    ensures Texts(a + b) == Texts(a) + Texts(b)
    decreases |a|
  {
    if a == [] {
      assert a + b == b;
    } else {
      TextsConcat(a[1..], b);
      assert (a + b)[1..] == a[1..] + b;
    }
  }

  lemma HalvesDelete(text: string, mid: nat, left: seq<string>, right: seq<string>)
    requires mid <= |text|
    requires Deletes(TrimSpace(text[..mid]), Flat(left)) && Deletes(TrimSpace(text[mid..]), Flat(right))
    ensures Deletes(text, Flat(left + right))
  {
    DeletesAround(text[..mid], Flat(left));
    DeletesAround(text[mid..], Flat(right));
    DeletesConcat(text[..mid], Flat(left), text[mid..], Flat(right));
    FlatConcat(left, right);
    assert text == text[..mid] + text[mid..];
  }

  // Splitting deletes white space and nothing else, and keeps the order.
  lemma {:induction false} LeavesKeepText(server: Call -> Reply, c: Call)
    ensures Deletes(c.text, Flat(Texts(Leaves(server, c))))
    decreases |c.text|
  {
    if Splits(server, c) {
      LeavesKeepText(server, Left(c));
      LeavesKeepText(server, Right(c));
      TextsConcat(Leaves(server, Left(c)), Leaves(server, Right(c)));
      HalvesDelete(c.text, Middle(c.text), Texts(Leaves(server, Left(c))), Texts(Leaves(server, Right(c))));
    } else {
      DeletesRefl(c.text);
      assert Texts([c]) == [c.text] + Texts([]) == [c.text];
      assert Flat([c.text]) == c.text + Flat([]) == c.text;
    }
  }

  predicate AllEmbedded(server: Call -> Reply, cs: seq<Call>) { forall c :: c in cs ==> server(c).Embedded? }

  lemma {:induction false} EmbedsLeaves(server: Call -> Reply, c: Call)
    ensures EmbedWithFallback(server, c)
         == if AllEmbedded(server, Leaves(server, c)) then Some(Texts(Leaves(server, c))) else None
    decreases |c.text|
  {
    if Splits(server, c) {
      var left, right := Leaves(server, Left(c)), Leaves(server, Right(c));
      EmbedsLeaves(server, Left(c));
      EmbedsLeaves(server, Right(c));
      TextsConcat(left, right);
      assert forall d :: d in left + right <==> d in left || d in right;
    } else {
      assert Texts([c]) == [c.text] + Texts([]) == [c.text];
    }
  }

  // Whatever the server answers to each call, embedding succeeds exactly when it embeds every
  // call that is not split further; then the texts of those calls come back in order, and only
  // white space of the original text is missing from them.
  lemma EmbedKeepsText(server: Call -> Reply, text: string)
    ensures var r := EmbedWithFallback(server, Call([], text)); var leaves := Leaves(server, Call([], text));
            && (r.Some? <==> AllEmbedded(server, leaves))
            && (r.Some? ==> r.value == Texts(leaves) && Deletes(text, Flat(r.value)))
  {
    EmbedsLeaves(server, Call([], text));
    LeavesKeepText(server, Call([], text));
  }

  // The cut is behind the last newline of the first half, when there is one past its first byte,
  // otherwise in the middle.
  lemma MiddleExactly(text: string)
    requires |text| > 100
    ensures var mid, half := Middle(text), |text| / 2;
            if exists j :: 1 <= j < half && text[j] == '\n' then
              2 <= mid <= half && text[mid - 1] == '\n' && forall j :: mid <= j < half ==> text[j] != '\n'
            else mid == half
  {
    var window := text[..|text| / 2];
    assert forall j :: 0 <= j < |window| ==> window[j] == text[j];
  }

  // d is one of the calls that a call c leads to: a call on more than 100 bytes that the server finds
  // too large leads to one on each half.
  predicate LeadsTo(server: Call -> Reply, c: Call, d: Call)
    decreases |c.text|
  {
    || d == c
    || (server(c).TooLarge? && |c.text| > 100 && (LeadsTo(server, Left(c), d) || LeadsTo(server, Right(c), d)))
  }

  // The server fails, or finds a text too large that is too short to be halved.
  predicate Hopeless(server: Call -> Reply, d: Call) {
    server(d).Failed? || (server(d).TooLarge? && |d.text| <= 100)
  }

  // Embedding fails exactly when one of the calls it leads to is hopeless.
  lemma {:induction false} FailsExactly(server: Call -> Reply, c: Call)
    ensures EmbedWithFallback(server, c).None? <==> exists d :: LeadsTo(server, c, d) && Hopeless(server, d)
    decreases |c.text|
  {
    assert LeadsTo(server, c, c);
    if server(c).TooLarge? && |c.text| > 100 {
      FailsExactly(server, Left(c));
      FailsExactly(server, Right(c));
      assert forall d :: LeadsTo(server, Left(c), d) ==> LeadsTo(server, c, d);
      assert forall d :: LeadsTo(server, Right(c), d) ==> LeadsTo(server, c, d);
      assert !Hopeless(server, c);
    } else {
      assert forall d :: LeadsTo(server, c, d) ==> d == c;
      assert EmbedWithFallback(server, c).None? <==> Hopeless(server, c);
    }
  }

  // A server that embeds every text of at most n bytes, n at least 100, and otherwise only finds
  // texts too large, embeds every text.
  lemma {:induction false} EmbedsEverything(server: Call -> Reply, c: Call, n: nat)
    requires n >= 100 && forall d: Call :: !server(d).Failed? && (|d.text| <= n ==> server(d).Embedded?)
    ensures EmbedWithFallback(server, c).Some?
    decreases |c.text|
  {
    if server(c).TooLarge? {
      EmbedsEverything(server, Left(c), n);
      EmbedsEverything(server, Right(c), n);
    }
  }
}
