/** The offline banner in a stored page (internal/edge/snapshot/snapshot.go). The insertion
    point is looked up in a lower-cased copy of the page and used on the page itself. */
module Banner {
  import opened Options
  import opened Events

  // ----- Text as the library lower-cases it -----

  predicate Ascii(b: byte) { b < 128 }

  function LowerByte(b: byte): byte {
    if 65 <= b <= 90 then b + 32 else b
  }

  /** "</body>" */
  const TAG: seq<byte> := [60, 47, 98, 111, 100, 121, 62]

  /** One character of the page: the bytes it is made of, and the bytes its lower case is made of. */
  datatype Rune = Rune(enc: seq<byte>, low: seq<byte>)

  predicate Wide(bytes: seq<byte>) {
    bytes != [] && forall i :: 0 <= i < |bytes| ==> !Ascii(bytes[i])
  }

  /** An ASCII character is one byte; any other consists of bytes that are not ASCII, and so
      does its lower case, unless that is an ASCII letter that TAG does not contain (as for
      the Kelvin sign). A byte that is no valid encoding lowers to the replacement character. */
  predicate IsRune(r: Rune) {
    if |r.enc| == 1 && Ascii(r.enc[0]) then r.low == [LowerByte(r.enc[0])]
    else Wide(r.enc) && (Wide(r.low) || (|r.low| == 1 && r.low[0] !in TAG))
  }

  type Text = seq<Rune>

  predicate IsText(text: Text) {
    forall i :: 0 <= i < |text| ==> IsRune(text[i])
  }

  function Flat(pieces: seq<seq<byte>>): seq<byte> {
    if pieces == [] then [] else pieces[0] + Flat(pieces[1..])
  }

  function Encodings(text: Text): (p: seq<seq<byte>>)
    ensures |p| == |text| && forall i :: 0 <= i < |text| ==> p[i] == text[i].enc
  {
    if text == [] then [] else [text[0].enc] + Encodings(text[1..])
  }

  function Lowerings(text: Text): (p: seq<seq<byte>>)
    ensures |p| == |text| && forall i :: 0 <= i < |text| ==> p[i] == text[i].low
  {
    if text == [] then [] else [text[0].low] + Lowerings(text[1..])
  }

  /** The page. */
  function Page(text: Text): seq<byte> { Flat(Encodings(text)) }

  /** Its lower-cased copy. */
  function Lowered(text: Text): seq<byte> { Flat(Lowerings(text)) }

  // ----- Where the tag is -----

  predicate Match(s: seq<byte>, tag: seq<byte>, p: int) {
    0 <= p <= |s| - |tag| && s[p..p + |tag|] == tag
  }

  function LastIndexFrom(s: seq<byte>, tag: seq<byte>, p: int): (r: int)
    requires p <= |s| - |tag|
    ensures r == -1 || (Match(s, tag, r) && r <= p)
    ensures forall q :: r < q <= p ==> !Match(s, tag, q)
    decreases p + 1
  {
    if p < 0 then -1 else if Match(s, tag, p) then p else LastIndexFrom(s, tag, p - 1)
  }

  /** Where the last occurrence of tag begins; -1 if there is none. */
  function LastIndex(s: seq<byte>, tag: seq<byte>): (r: int)
    ensures -1 <= r && (r != -1 ==> Match(s, tag, r)) && forall q :: r < q ==> !Match(s, tag, q)
  {
    if |s| < |tag| then -1 else LastIndexFrom(s, tag, |s| - |tag|)
  }

  /** The page with only its ASCII letters lowered, byte for byte. */
  function Folded(s: seq<byte>): (r: seq<byte>)
    ensures |r| == |s| && forall i :: 0 <= i < |s| ==> r[i] == LowerByte(s[i])
  {
    if s == [] then [] else [LowerByte(s[0])] + Folded(s[1..])
  }

  /** The byte is the character, a letter in either case. */
  predicate Spells(b: byte, c: char) {
    b == c as int || ('a' <= c <= 'z' && b == c as int - 32)
  }

  lemma TagLetter(b: byte, i: nat)
    requires i < 7
    ensures |TAG| == 7 && (LowerByte(b) == TAG[i] <==> Spells(b, "</body>"[i]))
  {
    assert TAG[0] == '<' as int && TAG[1] == '/' as int && TAG[2] == 'b' as int && TAG[3] == 'o' as int;
    assert TAG[4] == 'd' as int && TAG[5] == 'y' as int && TAG[6] == '>' as int;
  }

  /** What is looked for is "</body>", its letters in either case. */
  lemma TagInAnyCase(page: seq<byte>, p: int)
    ensures Match(Folded(page), TAG, p) <==>
      0 <= p <= |page| - 7 && forall i :: 0 <= i < 7 ==> Spells(page[p + i], "</body>"[i])
  {
    TagLetter(0, 0);
    if 0 <= p <= |page| - 7 {
      SliceIs(Folded(page), TAG, p);
      forall i | 0 <= i < 7 ensures Folded(page)[p + i] == TAG[i] <==> Spells(page[p + i], "</body>"[i]) {
        TagLetter(page[p + i], i);
      }
    }
  }

  lemma SliceIs(s: seq<byte>, tag: seq<byte>, p: nat)
    requires p + |tag| <= |s|
    ensures Match(s, tag, p) <==> forall i :: 0 <= i < |tag| ==> s[p + i] == tag[i]
  {
    var here := s[p..p + |tag|];
    assert forall i :: 0 <= i < |tag| ==> here[i] == s[p + i];
  }

  function LastOrEnd(s: seq<byte>, tag: seq<byte>): (p: nat)
    ensures p <= |s|
  {
    var i := LastIndex(s, tag);
    if i == -1 then |s| else i
  }

  /** Where the banner belongs: before the last "</body>" in any case, or at the end. */
  function RightPlace(page: seq<byte>): (p: nat)
    ensures p <= |page|
  {
    LastOrEnd(Folded(page), TAG)
  }

  function Inserted(page: seq<byte>, banner: seq<byte>, p: nat): seq<byte>
    requires p <= |page|
  {
    page[..p] + banner + page[p..]
  }

  /** Slicing the page beyond its end stops the handler. */
  datatype Panic = SliceOutOfRange

  /** Where the code puts the banner. */
  function ChosenPlace(text: Text): (p: nat) {
    var i := LastIndex(Lowered(text), TAG);
    if i == -1 then |Page(text)| else i
  }

  method InjectBanner(text: Text, banner: seq<byte>) returns (r: Result<seq<byte>, Panic>)
    ensures r == if ChosenPlace(text) <= |Page(text)| then Success(Inserted(Page(text), banner, ChosenPlace(text)))
                 else Failure(SliceOutOfRange)
  {
    var body := Page(text);
    var lower := Lowered(text);
    var idx := LastIndex(lower, TAG);
    if idx != -1 {
      if idx > |body| { return Failure(SliceOutOfRange); }
      var out := [];
      out := out + body[..idx];
      out := out + banner;
      out := out + body[idx..];
      assert out == Inserted(body, banner, idx);
      return Success(out);
    }
    assert Inserted(body, banner, |body|) == body + banner;
    return Success(body + banner);
  }

  // ----- The tag as characters -----

  /** Characters i.. of the text are TAG, in any case. */
  predicate TagAt(pieces: seq<seq<byte>>, i: int) {
    0 <= i <= |pieces| - |TAG| && forall j :: 0 <= j < |TAG| ==> pieces[i + j] == [TAG[j]]
  }

  ghost predicate LastTagAt(pieces: seq<seq<byte>>, i: int) {
    TagAt(pieces, i) && forall j :: i < j ==> !TagAt(pieces, j)
  }

  /** A piece that is more than one byte has no byte of TAG. */
  predicate Separates(pieces: seq<seq<byte>>) {
    forall i :: 0 <= i < |pieces| ==> Wide(pieces[i]) || |pieces[i]| == 1
  }

  lemma {:induction false} FlatJoins(p: seq<seq<byte>>, i: nat)
    requires i <= |p|
    ensures Flat(p) == Flat(p[..i]) + Flat(p[i..])
  {
    if i == 0 {
      assert p[..0] == [] && p[0..] == p;
    } else {
      FlatJoins(p[1..], i - 1);
      assert p[..i][1..] == p[1..][..i - 1] && p[1..][i - 1..] == p[i..];
    }
  }

  /** A text that begins with the rest of TAG begins with its characters. */
  lemma {:induction false} StartsWithTag(p: seq<seq<byte>>, k: nat)
    requires Separates(p) && k <= |TAG| && TAG[k..] <= Flat(p)
    ensures |TAG| - k <= |p| && forall j :: 0 <= j < |TAG| - k ==> p[j] == [TAG[k + j]]
    decreases |TAG| - k
  {
    if k < |TAG| {
      assert Flat(p)[0] == TAG[k..][0] == TAG[k];
      assert p[0] == [TAG[k]];
      assert Flat(p)[1..] == Flat(p[1..]) && TAG[k..][1..] == TAG[k + 1..];
      StartsWithTag(p[1..], k + 1);
      assert forall j :: 1 <= j < |TAG| - k ==> p[j] == p[1..][j - 1];
    }
  }

  lemma {:induction false} TagStarts(p: seq<seq<byte>>, k: nat)
    requires k <= |TAG| && |TAG| - k <= |p| && forall j :: 0 <= j < |TAG| - k ==> p[j] == [TAG[k + j]]
    ensures TAG[k..] <= Flat(p)
    decreases |TAG| - k
  {
    if k < |TAG| {
      TagStarts(p[1..], k + 1);
      assert TAG[k..] == [TAG[k]] + TAG[k + 1..];
    }
  }

  /** Character for character the tag is where byte for byte it is. */
  lemma TagMatches(p: seq<seq<byte>>, i: nat)
    requires TagAt(p, i)
    ensures Match(Flat(p), TAG, |Flat(p[..i])|)
  {
    FlatJoins(p, i);
    TagStarts(p[i..], 0);
    assert TAG[0..] == TAG;
  }

  lemma {:induction false} MatchIsTag(p: seq<seq<byte>>, at: nat) returns (i: nat)
    requires Separates(p) && Match(Flat(p), TAG, at)
    ensures TagAt(p, i) && |Flat(p[..i])| == at
    decreases |p|
  {
    if at == 0 {
      assert TAG[0..] == TAG;
      StartsWithTag(p, 0);
      i := 0;
      assert p[..0] == [];
    } else {
      assert Flat(p)[at] == Flat(p)[at..at + |TAG|][0] == TAG[0];
      assert at >= |p[0]|;
      assert Flat(p[1..])[at - |p[0]|..][..|TAG|] == Flat(p)[at..at + |TAG|];
      i := MatchIsTag(p[1..], at - |p[0]|);
      assert p[..i + 1][1..] == p[1..][..i];
      i := i + 1;
    }
  }

  lemma FlatGrows(p: seq<seq<byte>>, i: nat, j: nat)
    requires i <= j <= |p|
    ensures |Flat(p[..i])| <= |Flat(p[..j])|
  {
    FlatJoins(p[..j], i);
    assert p[..j][..i] == p[..i];
  }

  lemma LastIndexIsLastTag(p: seq<seq<byte>>, i: nat)
    requires Separates(p) && LastTagAt(p, i)
    ensures LastIndex(Flat(p), TAG) == |Flat(p[..i])|
  {
    TagMatches(p, i);
    var r := LastIndex(Flat(p), TAG);
    var j := MatchIsTag(p, r);
    FlatGrows(p, j, i);
  }

  lemma NoLastIndexNoTag(p: seq<seq<byte>>)
    requires Separates(p) && forall i :: !TagAt(p, i)
    ensures LastIndex(Flat(p), TAG) == -1
  {
    if LastIndex(Flat(p), TAG) != -1 {
      var i := MatchIsTag(p, LastIndex(Flat(p), TAG));
    }
  }

  // ----- The two places compared -----

  function Foldings(text: Text): (p: seq<seq<byte>>)
    ensures |p| == |text| && forall i :: 0 <= i < |text| ==> p[i] == Folded(text[i].enc)
  {
    if text == [] then [] else [Folded(text[0].enc)] + Foldings(text[1..])
  }

  lemma FoldedJoins(a: seq<byte>, b: seq<byte>)
    ensures Folded(a + b) == Folded(a) + Folded(b)
  {
  }

  lemma {:induction false} PageFolds(text: Text)
    ensures Flat(Foldings(text)) == Folded(Page(text))
  {
    if text != [] {
      PageFolds(text[1..]);
      FoldedJoins(text[0].enc, Page(text[1..]));
      assert Encodings(text)[1..] == Encodings(text[1..]);
      assert Foldings(text)[1..] == Foldings(text[1..]);
    }
  }

  lemma LoweringsOfPrefix(text: Text, i: nat)
    requires i <= |text|
    ensures Lowerings(text)[..i] == Lowerings(text[..i])
  {
    assert |Lowerings(text)[..i]| == |Lowerings(text[..i])|;
    assert forall k :: 0 <= k < i ==> Lowerings(text)[..i][k] == text[k].low == Lowerings(text[..i])[k];
  }

  lemma FoldingsOfPrefix(text: Text, i: nat)
    requires i <= |text|
    ensures Foldings(text)[..i] == Foldings(text[..i])
  {
    assert |Foldings(text)[..i]| == |Foldings(text[..i])|;
    assert forall k :: 0 <= k < i ==> Foldings(text)[..i][k] == Folded(text[k].enc) == Foldings(text[..i])[k];
  }

  lemma SamePiece(r: Rune, b: byte)
    requires IsRune(r) && b in TAG
    ensures Folded(r.enc) == [b] <==> r.low == [b]
    ensures Wide(r.low) || |r.low| == 1
    ensures Wide(Folded(r.enc)) || |Folded(r.enc)| == 1
  {
    if |r.enc| == 1 && Ascii(r.enc[0]) {
      assert Folded(r.enc) == [LowerByte(r.enc[0])];
    } else {
      assert Folded(r.enc)[0] == r.enc[0];
      assert forall i :: 0 <= i < |r.enc| ==> Folded(r.enc)[i] == r.enc[i];
      assert Ascii(b) && r.low[0] != b && !Ascii(Folded(r.enc)[0]);
    }
  }

  /** Only an ASCII character lowers, or folds, to a byte of TAG. */
  lemma SameTags(text: Text, i: int)
    requires IsText(text)
    ensures Separates(Lowerings(text)) && Separates(Foldings(text))
    ensures TagAt(Lowerings(text), i) <==> TagAt(Foldings(text), i)
  {
    forall k | 0 <= k < |text|
      ensures Wide(Lowerings(text)[k]) || |Lowerings(text)[k]| == 1
      ensures Wide(Foldings(text)[k]) || |Foldings(text)[k]| == 1
      ensures forall j :: 0 <= j < |TAG| ==> (Lowerings(text)[k] == [TAG[j]] <==> Foldings(text)[k] == [TAG[j]])
    {
      SamePiece(text[k], TAG[0]);
      forall j | 0 <= j < |TAG| ensures Lowerings(text)[k] == [TAG[j]] <==> Foldings(text)[k] == [TAG[j]] {
        SamePiece(text[k], TAG[j]);
      }
    }
  }

  /** The tag that the banner goes before begins with the i-th character. */
  ghost predicate LastTag(text: Text, i: int) {
    LastTagAt(Foldings(text), i)
  }

  /** Up to the last tag, lower-casing has changed the page's length by nothing. */
  ghost predicate KeepsLength(text: Text) {
    forall i :: 0 <= i <= |text| && LastTag(text, i) ==> |Lowered(text[..i])| == |Page(text[..i])|
  }

  lemma FoldedPlace(text: Text, i: nat)
    requires IsText(text) && LastTag(text, i)
    ensures i <= |text| && RightPlace(Page(text)) == |Page(text[..i])| && ChosenPlace(text) == |Lowered(text[..i])|
  {
    forall j ensures TagAt(Lowerings(text), j) <==> TagAt(Foldings(text), j) { SameTags(text, j); }
    SameTags(text, i);
    LastIndexIsLastTag(Foldings(text), i);
    LastIndexIsLastTag(Lowerings(text), i);
    PageFolds(text);
    PageFolds(text[..i]);
    LoweringsOfPrefix(text, i);
    FoldingsOfPrefix(text, i);
  }

  lemma NoTagPlace(text: Text)
    requires IsText(text) && forall i :: !TagAt(Foldings(text), i)
    ensures ChosenPlace(text) == RightPlace(Page(text)) == |Page(text)|
  {
    forall j ensures !TagAt(Lowerings(text), j) { SameTags(text, j); }
    SameTags(text, 0);
    NoLastIndexNoTag(Foldings(text));
    NoLastIndexNoTag(Lowerings(text));
    PageFolds(text);
  }

  lemma {:induction false} LastTagExists(p: seq<seq<byte>>, n: nat) returns (i: int)
    requires forall j :: n <= j ==> !TagAt(p, j)
    ensures (i == -1 && forall j :: !TagAt(p, j)) || LastTagAt(p, i)
    decreases n
  {
    if n == 0 {
      i := -1;
    } else if TagAt(p, n - 1) {
      i := n - 1;
    } else {
      i := LastTagExists(p, n - 1);
    }
  }

  /** For every page: the banner goes before the last "</body>" in any case, or at the end if
      there is none, exactly if lower-casing keeps the length of what comes before the tag. */
  lemma {:induction false} RightPlaceIff(text: Text)
    requires IsText(text)
    ensures ChosenPlace(text) == RightPlace(Page(text)) <==> KeepsLength(text)
  {
    var i := LastTagExists(Foldings(text), |text|);
    if i == -1 {
      NoTagPlace(text);
    } else {
      FoldedPlace(text, i);
    }
  }

  /** And the handler stops exactly if what comes before the tag lowers to more bytes than
      the whole page has. */
  lemma PanicsIff(text: Text)
    requires IsText(text)
    ensures ChosenPlace(text) > |Page(text)| <==>
      exists i :: 0 <= i <= |text| && LastTag(text, i) && |Lowered(text[..i])| > |Page(text)|
  {
    var i := LastTagExists(Foldings(text), |text|);
    if i == -1 {
      NoTagPlace(text);
    } else {
      FoldedPlace(text, i);
      assert forall j :: LastTag(text, j) ==> j == i;
    }
  }

  predicate AllAscii(s: seq<byte>) {
    forall i :: 0 <= i < |s| ==> Ascii(s[i])
  }

  lemma {:induction false} AsciiKeepsLength(text: Text)
    requires IsText(text) && AllAscii(Page(text))
    ensures |Lowered(text)| == |Page(text)|
  {
    if text != [] {
      assert IsRune(text[0]);
      var rest := Page(text[1..]);
      assert Encodings(text)[1..] == Encodings(text[1..]) && Lowerings(text)[1..] == Lowerings(text[1..]);
      assert Page(text) == text[0].enc + rest;
      assert Ascii(Page(text)[0]) && Page(text)[0] == text[0].enc[0];
      assert forall i :: 0 <= i < |rest| ==> rest[i] == Page(text)[|text[0].enc| + i];
      AsciiKeepsLength(text[1..]);
    }
  }

  lemma AsciiPrefix(text: Text, i: nat)
    requires i <= |text| && AllAscii(Page(text))
    ensures AllAscii(Page(text[..i]))
  {
    FlatJoins(Encodings(text), i);
    assert Encodings(text)[..i] == Encodings(text[..i]);
    assert Page(text[..i]) <= Page(text);
    assert forall k :: 0 <= k < |Page(text[..i])| ==> Page(text[..i])[k] == Page(text)[k];
  }

  /** So in every ASCII page the banner goes where it belongs. */
  lemma AsciiIsRight(text: Text)
    requires IsText(text) && AllAscii(Page(text))
    ensures ChosenPlace(text) == RightPlace(Page(text))
  {
    forall i | 0 <= i <= |text| ensures |Lowered(text[..i])| == |Page(text[..i])| {
      AsciiPrefix(text, i);
      AsciiKeepsLength(text[..i]);
    }
    RightPlaceIff(text);
  }

  // ----- Taking the banner out again -----

  /** The banner is markup and closes no body. */
  predicate IsBanner(banner: seq<byte>) {
    banner != [] && banner[0] == TAG[0] && LastIndex(Folded(banner), TAG) == -1
  }

  /** The banner as it is built: one element, whose style, text and time hold no '<'. */
  function Element(middle: seq<byte>): seq<byte> {
    [60] + middle + [60, 47, 100, 105, 118, 62]
  }

  lemma ElementIsBanner(middle: seq<byte>)
    requires middle != [] && middle[0] == 100 && 60 !in middle
    ensures IsBanner(Element(middle))
  {
    var f := Folded(Element(middle));
    forall q ensures !Match(f, TAG, q) {
      if 0 <= q <= |f| - 7 {
        assert f[q..q + 7][0] == f[q] && f[q..q + 7][1] == f[q + 1];
        if q > 0 { assert Element(middle)[q] == middle[q - 1]; }
      }
    }
  }

  /** A page without what stands before its last tag, or at its end. */
  function Removed(out: seq<byte>, n: nat): seq<byte>
    requires n <= RightPlace(out)
  {
    out[..RightPlace(out) - n] + out[RightPlace(out)..]
  }

  lemma FoldedParts(a: seq<byte>, b: seq<byte>, c: seq<byte>)
    ensures Folded(a + b + c) == Inserted(Folded(a + c), Folded(b), |a|)
  {
    FoldedJoins(a + b, c);
    FoldedJoins(a, b);
    FoldedJoins(a, c);
    InsertedParts(Folded(a), Folded(b), Folded(c));
  }

  lemma InsertedParts(a: seq<byte>, b: seq<byte>, c: seq<byte>)
    ensures Inserted(a + c, b, |a|) == a + b + c
  {
    assert (a + c)[..|a|] == a && (a + c)[|a|..] == c;
  }

  lemma FoldedInserted(page: seq<byte>, banner: seq<byte>, p: nat)
    requires p <= |page|
    ensures Folded(Inserted(page, banner, p)) == Inserted(Folded(page), Folded(banner), p)
  {
    FoldedParts(page[..p], banner, page[p..]);
    assert page == page[..p] + page[p..];
  }

  lemma MatchMovesAlong(f: seq<byte>, b: seq<byte>, tag: seq<byte>, p: nat, q: int)
    requires p <= |f| && p <= q
    ensures Match(f, tag, q) <==> Match(Inserted(f, b, p), tag, q + |b|)
  {
    if q + |tag| <= |f| {
      assert f[q..q + |tag|] == Inserted(f, b, p)[q + |b|..q + |b| + |tag|];
    }
  }

  lemma NoMatchAtTheSeam(f: seq<byte>, b: seq<byte>, tag: seq<byte>, q: int)
    requires tag != [] && b != [] && b[0] == tag[0] && forall k :: 0 < k < |tag| ==> tag[k] != tag[0]
    requires !Match(f, tag, q) && !Match(b, tag, q - |f|)
    ensures !Match(f + b, tag, q)
  {
    var g := f + b;
    if 0 <= q <= |g| - |tag| {
      if q + |tag| <= |f| {
        assert f[q..q + |tag|] == g[q..q + |tag|];
      } else if |f| <= q {
        assert b[q - |f|..q - |f| + |tag|] == g[q..q + |tag|];
      } else {
        assert g[q..q + |tag|][|f| - q] == g[|f|] == b[0];
      }
    }
  }

  lemma LastMovesAlong(f: seq<byte>, b: seq<byte>, tag: seq<byte>)
    requires LastIndex(f, tag) != -1
    ensures LastIndex(Inserted(f, b, LastIndex(f, tag)), tag) == LastIndex(f, tag) + |b|
  {
    var p := LastIndex(f, tag);
    var g := Inserted(f, b, p);
    MatchMovesAlong(f, b, tag, p, p);
    forall q | p + |b| < q ensures !Match(g, tag, q) {
      MatchMovesAlong(f, b, tag, p, q - |b|);
    }
  }

  lemma LastOrEndMovesAlong(f: seq<byte>, b: seq<byte>, tag: seq<byte>)
    requires tag != [] && b != [] && b[0] == tag[0] && forall k :: 0 < k < |tag| ==> tag[k] != tag[0]
    requires LastIndex(b, tag) == -1
    ensures LastOrEnd(Inserted(f, b, LastOrEnd(f, tag)), tag) == LastOrEnd(f, tag) + |b|
  {
    if LastIndex(f, tag) == -1 {
      assert Inserted(f, b, |f|) == f + b;
      forall q ensures !Match(f + b, tag, q) { NoMatchAtTheSeam(f, b, tag, q); }
    } else {
      LastMovesAlong(f, b, tag);
    }
  }

  /** In the output the banner ends where the last tag begins, or at the end. */
  lemma BannerSitsBeforeTag(page: seq<byte>, banner: seq<byte>)
    requires IsBanner(banner)
    ensures RightPlace(Inserted(page, banner, RightPlace(page))) == RightPlace(page) + |banner|
  {
    FoldedInserted(page, banner, RightPlace(page));
    LastOrEndMovesAlong(Folded(page), Folded(banner), TAG);
  }

  /** From the output of an ASCII page alone, whoever knows how long the banner is gets the
      page back. */
  lemma BannerComesOff(text: Text, banner: seq<byte>)
    requires IsText(text) && AllAscii(Page(text)) && IsBanner(banner)
    ensures ChosenPlace(text) <= |Page(text)|
    ensures var out := Inserted(Page(text), banner, ChosenPlace(text));
      |banner| <= RightPlace(out) && Removed(out, |banner|) == Page(text)
      && out[RightPlace(out) - |banner|..RightPlace(out)] == banner
  {
    AsciiIsRight(text);
    BannerSitsBeforeTag(Page(text), banner);
    TakenOut(Page(text), banner, RightPlace(Page(text)));
  }

  lemma TakenOut(page: seq<byte>, banner: seq<byte>, p: nat)
    requires p <= |page|
    ensures var out, n := Inserted(page, banner, p), p + |banner|;
      out[p..n] == banner && out[..p] + out[n..] == page
  {
    var out := Inserted(page, banner, p);
    assert out[..p] == page[..p] && out[p + |banner|..] == page[p..];
    assert page == page[..p] + page[p..];
  }

  // ----- The premise is needed -----

  /** A byte that is no valid encoding lowers to the three bytes of the replacement character. */
  const STRAY := Rune([255], [239, 191, 189])

  function AsciiRune(b: byte): Rune { Rune([b], [LowerByte(b)]) }

  /** n stray bytes, then ASCII characters. */
  function StraysThen(n: nat, s: seq<byte>): (t: Text)
    ensures |t| == n + |s|
    ensures forall i :: 0 <= i < |t| ==> t[i] == if i < n then STRAY else AsciiRune(s[i - n])
  {
    if n > 0 then [STRAY] + StraysThen(n - 1, s)
    else if s == [] then [] else [AsciiRune(s[0])] + StraysThen(0, s[1..])
  }

  lemma PageOfMore(r: Rune, rest: Text)
    ensures Page([r] + rest) == r.enc + Page(rest) && Lowered([r] + rest) == r.low + Lowered(rest)
  {
    assert ([r] + rest)[1..] == rest;
    assert Encodings([r] + rest)[1..] == Encodings(rest) && Lowerings([r] + rest)[1..] == Lowerings(rest);
  }

  lemma {:induction false} StrayLengths(n: nat, s: seq<byte>)
    ensures var t := StraysThen(n, s);
      |Page(t)| == n + |s| && |Page(t[..n])| == n && |Lowered(t[..n])| == 3 * n
    decreases n, |s|
  {
    var t := StraysThen(n, s);
    if n > 0 {
      StrayLengths(n - 1, s);
      PageOfMore(STRAY, StraysThen(n - 1, s));
      PageOfMore(STRAY, StraysThen(n - 1, s)[..n - 1]);
      assert t[..n] == [STRAY] + StraysThen(n - 1, s)[..n - 1];
    } else if s != [] {
      StrayLengths(0, s[1..]);
      PageOfMore(AsciiRune(s[0]), StraysThen(0, s[1..]));
    }
  }

  lemma TagIsLower(j: nat)
    requires j < |TAG|
    ensures Folded([TAG[j]]) == [TAG[j]]
  {
    assert LowerByte(TAG[j]) == TAG[j];
  }

  lemma TagAfterStrays(n: nat)
    ensures LastTag(StraysThen(n, TAG), n)
  {
    var p := Foldings(StraysThen(n, TAG));
    forall j | 0 <= j < |TAG| ensures p[n + j] == [TAG[j]] {
      TagIsLower(j);
    }
  }

  lemma StraysAreText(n: nat, s: seq<byte>)
    requires AllAscii(s)
    ensures IsText(StraysThen(n, s))
  {
    assert !Ascii(STRAY.enc[0]) && Wide(STRAY.enc) && Wide(STRAY.low);
  }

  lemma TagIsAscii()
    ensures AllAscii(TAG) && |TAG| == 7
  {
  }

  lemma StrayPlaces(n: nat)
    ensures var text := StraysThen(n, TAG);
      IsText(text) && ChosenPlace(text) == 3 * n && RightPlace(Page(text)) == n && |Page(text)| == n + 7
  {
    TagIsAscii();
    StraysAreText(n, TAG);
    StrayLengths(n, TAG);
    TagAfterStrays(n);
    FoldedPlace(StraysThen(n, TAG), n);
  }

  /** n stray bytes before the tag: one is enough to misplace the banner, and from
      four on the handler stops. */
  lemma {:induction false} StrayBytes(n: nat)
    ensures var text := StraysThen(n, TAG);
      && IsText(text)
      && (ChosenPlace(text) == RightPlace(Page(text)) <==> n == 0)
      && (ChosenPlace(text) > |Page(text)| <==> n >= 4)
  {
    StrayPlaces(n);
  }
}
