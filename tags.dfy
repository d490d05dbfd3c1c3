/** Tag parsing for a new gallery post (pages/Gallery.tsx:31): split the input on
    commas, trim every piece and drop the empty ones. */
module Tags {
  import opened JsString

  /** A trimmed, non-empty piece of text. */
  predicate IsTag(t: string) {
    t != [] && !IsTrimmable(t[0]) && !IsTrimmable(t[|t| - 1])
  }

  /** What one piece contributes: its trimmed text, or nothing when that is empty. */
  function PieceTags(piece: string): (tags: seq<string>)
    ensures |tags| <= 1
  {
    var t := Trim(piece);
    if t == [] then [] else [t]
  }

  /** `.map(t => t.trim()).filter(t => t)`. */
  function Clean(parts: seq<string>): (tags: seq<string>)
    ensures |tags| <= |parts|
    decreases |parts|
  {
    if |parts| == 0 then [] else PieceTags(parts[0]) + Clean(parts[1..])
  }

  /** The tags of one comma-separated input string; there are no more of them
      than there are comma-separated pieces. */
  function ParseTags(input: string): (tags: seq<string>)
    ensures |tags| <= CountOf(input, ',') + 1
  {
    SplitCount(input);
    Clean(Split(input))
  }

  /** The one tag a piece may give is trimmed and non-empty, and comma-free when the piece is. */
  lemma PieceTagsWellFormed(piece: string)
    ensures forall k :: 0 <= k < |PieceTags(piece)| ==> IsTag(PieceTags(piece)[k])
    ensures ',' !in piece ==> forall k :: 0 <= k < |PieceTags(piece)| ==> ',' !in PieceTags(piece)[k]
  {
    TrimEnds(piece);
    if ',' !in piece {
      TrimKeepsAbsent(piece, ',');
    }
  }

  /** Every cleaned tag is trimmed and non-empty, and comma-free when the pieces are. */
  lemma {:induction false} CleanWellFormed(parts: seq<string>)
    ensures forall k :: 0 <= k < |Clean(parts)| ==> IsTag(Clean(parts)[k])
    ensures (forall k :: 0 <= k < |parts| ==> ',' !in parts[k]) ==>
              forall k :: 0 <= k < |Clean(parts)| ==> ',' !in Clean(parts)[k]
    decreases |parts|
  {
    if |parts| > 0 {
      PieceTagsWellFormed(parts[0]);
      CleanWellFormed(parts[1..]);
      var head, tail := PieceTags(parts[0]), Clean(parts[1..]);
      assert Clean(parts) == head + tail;
      assert forall k :: 0 <= k < |Clean(parts)| ==>
               Clean(parts)[k] == if k < |head| then head[k] else tail[k - |head|];
      if forall k :: 0 <= k < |parts| ==> ',' !in parts[k] {
        assert ',' !in parts[0];
        assert forall k :: 0 <= k < |parts[1..]| ==> parts[1..][k] == parts[k + 1];
      }
    }
  }

  /** Every parsed tag is non-empty, has no whitespace at either end and no comma. */
  lemma ParseTagsWellFormed(input: string)
    ensures forall k :: 0 <= k < |ParseTags(input)| ==>
              IsTag(ParseTags(input)[k]) && ',' !in ParseTags(input)[k]
  {
    SplitPiecesNoComma(input);
    CleanWellFormed(Split(input));
  }

  lemma {:induction false} CleanConcat(p: seq<string>, q: seq<string>)
    ensures Clean(p + q) == Clean(p) + Clean(q)
    decreases |p|
  {
    if |p| == 0 {
      assert p + q == q;
    } else {
      assert (p + q)[0] == p[0];
      assert (p + q)[1..] == p[1..] + q;
      CleanConcat(p[1..], q);
    }
  }

  /** A piece without commas yields its trimmed self, or nothing when blank. */
  lemma ParseTagsPiece(s: string)
    requires ',' !in s
    ensures ParseTags(s) == PieceTags(s)
    ensures ParseTags(s) == if Trim(s) == [] then [] else [Trim(s)]
  {
    SplitNoComma(s);
  }

  /** The tags of `a,b` are the tags of `a` followed by the tags of `b`: tags keep
      their input order and a comma only separates. */
  lemma ParseTagsAtComma(a: string, b: string)
    ensures ParseTags(a + [','] + b) == ParseTags(a) + ParseTags(b)
  {
    SplitAtComma(a, b);
    CleanConcat(Split(a), Split(b));
  }

  lemma ParseTagsOfEmpty()
    ensures ParseTags("") == []
  {
    SplitNoComma("");
  }

  /** A comma-free piece with no padding is its own single tag. */
  lemma BareTag(s: string)
    requires ',' !in s && s != [] && !IsTrimmable(s[0]) && !IsTrimmable(s[|s| - 1])
    ensures ParseTags(s) == [s]
  {
    ParseTagsPiece(s);
    TrimIdentity(s);
  }

  /** A comma-free piece with exactly one leading space is the tag after it. */
  lemma SpacedTag(s: string)
    requires ',' !in s && |s| >= 2 && s[0] == ' ' && !IsTrimmable(s[1]) && !IsTrimmable(s[|s| - 1])
    ensures ParseTags(s) == [s[1..]]
  {
    ParseTagsPiece(s);
    var t := s[1..];
    assert LeadingSpace(t) == 0 by { assert t[0] == s[1]; }
    assert LeadingSpace(s) == 1;
    assert TrailingSpace(t) == 0 by { assert t[|t| - 1] == s[|s| - 1]; }
    assert t[..|t|] == t;
  }

  lemma BlankTag()
    ensures Trim(" ") == []
  {
    TrimEmptyIff(" ");
  }

  lemma FourPieces(a: string, b: string, c: string, d: string)
    ensures ParseTags(a + [','] + b + [','] + c + [','] + d)
         == ParseTags(a) + ParseTags(b) + ParseTags(c) + ParseTags(d)
  {
    ParseTagsAtComma(a + [','] + b + [','] + c, d);
    ParseTagsAtComma(a + [','] + b, c);
    ParseTagsAtComma(a, b);
  }

  /** The shape of the example below: a bare tag, a tag after one space, a blank
      piece and another tag after one space. */
  lemma FourPieceShape(a: string, b: string, c: string, d: string)
    requires ',' !in a && a != [] && !IsTrimmable(a[0]) && !IsTrimmable(a[|a| - 1])
    requires ',' !in b && |b| >= 2 && b[0] == ' ' && !IsTrimmable(b[1]) && !IsTrimmable(b[|b| - 1])
    requires ',' !in c && Trim(c) == []
    requires ',' !in d && |d| >= 2 && d[0] == ' ' && !IsTrimmable(d[1]) && !IsTrimmable(d[|d| - 1])
    ensures ParseTags(a + [','] + b + [','] + c + [','] + d) == [a, b[1..], d[1..]]
  {
    FourPieces(a, b, c, d);
    BareTag(a);
    SpacedTag(b);
    ParseTagsPiece(c);
    SpacedTag(d);
  }

  lemma ParseTagsExample()
    ensures ParseTags("엑셀, ChatGPT, , 시간단축") == ["엑셀", "ChatGPT", "시간단축"]
  {
    BlankTag();
    FourPieceShape("엑셀", " ChatGPT", " ", " 시간단축");
    assert "엑셀" + [','] + " ChatGPT" + [','] + " " + [','] + " 시간단축" == "엑셀, ChatGPT, , 시간단축";
  }
}
