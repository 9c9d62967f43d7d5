/**
 Model of the parts of api/models.py that carry behaviour: the closed
 EvidenceRelationship enumeration (with the SPLIT sentinel that the
 serializer returns), the fields of EvidenceReview that the consensus tally
 reads, and the truncation rule of Claim.__str__.
 */
module Models {
  import opened Wrappers

  /** The six review labels plus the sentinel Split, which the serializer
      returns when no label reaches the consensus threshold. */
  datatype EvidenceRelationship =
    | Proves
    | Supports
    | Unrelated
    | Inconclusive
    | Disputes
    | Disproves
    | Split

  /** A label a reviewer can choose: every relationship except the sentinel. */
  type ReviewLabel = r: EvidenceRelationship | !r.Split? witness Proves

  /** The choices of the review field, in declaration order. */
  const Choices: seq<ReviewLabel> :=
    [Proves, Supports, Unrelated, Inconclusive, Disputes, Disproves]

  /** Length bound of the character columns holding a relationship. */
  const MaxLength: nat := 25

  /** The stored text value of a relationship. */
  function Value(r: EvidenceRelationship): (s: string)
    ensures 0 < |s| <= MaxLength
  {
    match r
    case Proves => "PROVES"
    case Supports => "SUPPORTS"
    case Unrelated => "UNRELATED"
    case Inconclusive => "INCONCLUSIVE"
    case Disputes => "DISPUTES"
    case Disproves => "DISPROVES"
    case Split => "SPLIT"
  }

  /** Reads a stored review value back; only the six choices are accepted. */
  function FromChoice(s: string): (r: Option<ReviewLabel>)
    ensures r.Some? ==> Value(r.value) == s
    ensures r.None? <==> forall c :: c in Choices ==> Value(c) != s
  {
    if s == "PROVES" then Some(Proves)
    else if s == "SUPPORTS" then Some(Supports)
    else if s == "UNRELATED" then Some(Unrelated)
    else if s == "INCONCLUSIVE" then Some(Inconclusive)
    else if s == "DISPUTES" then Some(Disputes)
    else if s == "DISPROVES" then Some(Disproves)
    else None
  }

  /** The enumeration is closed: exactly six distinct choices, and every
      label a review can carry is one of them. */
  lemma ChoicesClosed()
    ensures |Choices| == 6
    ensures forall i, j :: 0 <= i < j < |Choices| ==> Value(Choices[i]) != Value(Choices[j])
    ensures forall r: EvidenceRelationship :: r in Choices <==> !r.Split?
  {
  }

  /** Storing a review label and reading it back gives the label again. */
  lemma ChoiceRoundTrip(r: ReviewLabel)
    ensures FromChoice(Value(r)) == Some(r)
  {
  }

  /** A review of one evidence item: who reviewed it, and the relationship
      they deduced between the evidence and its claim. */
  datatype EvidenceReview = EvidenceReview(reviewer: nat, deducedRelationship: ReviewLabel)

  // ---------------------------------------------------------------------
  // Claim.__str__

  /** Number of characters kept of the claim text and of the source URL. */
  const Width: nat := 30

  /** The smaller of two lengths. */
  function Min(a: nat, b: nat): (m: nat)
    ensures m <= a && m <= b
    ensures m == a || m == b
  {
    if a <= b then a else b
  }

  /** Python's s[:n]. */
  function Take(s: string, n: nat): (r: string)
    ensures r <= s
    ensures |r| == Min(|s|, n)
  {
    if |s| <= n then s else s[..n]
  }

  /** Python's s.rstrip(c): drop every trailing c, and nothing else. */
  function RStrip(s: string, c: char): (r: string)
    ensures r <= s
    ensures |r| == 0 || r[|r| - 1] != c
    ensures forall i :: |r| <= i < |s| ==> s[i] == c
  {
    if |s| == 0 || s[|s| - 1] != c then s else RStrip(s[..|s| - 1], c)
  }

  /** h is what is left of the first n characters of s once the trailing
      spaces are removed: a prefix of s no longer than n, not ending in a
      space, and followed within those n characters by spaces only. */
  ghost predicate IsStrippedPrefix(h: string, s: string, n: nat) {
    && h <= s
    && |h| <= n
    && (|h| == 0 || h[|h| - 1] != ' ')
    && forall i :: |h| <= i < Min(|s|, n) ==> s[i] == ' '
  }

  /** At most one string is the stripped prefix of s. */
  lemma StrippedPrefixUnique(h1: string, h2: string, s: string, n: nat)
    requires IsStrippedPrefix(h1, s, n) && IsStrippedPrefix(h2, s, n)
    ensures h1 == h2
  {
  }

  /** The claim text cut to its first 30 characters, trailing spaces removed. */
  function ClaimHead(text: string): (h: string)
    ensures IsStrippedPrefix(h, text, Width)
  {
    RStrip(Take(text, Width), ' ')
  }

  /** The truncated claim shown by Claim.__str__: the stripped head of the
      text, followed by "..." exactly when the text is longer than 30
      characters. */
  function TruncatedClaim(text: string): (t: string)
    ensures |text| <= Width ==> IsStrippedPrefix(t, text, Width)
    ensures |text| > Width ==> |t| >= 3 && t[|t| - 3..] == "..." && IsStrippedPrefix(t[..|t| - 3], text, Width)
    ensures |t| <= Width + 3
    ensures |text| <= Width && (|text| == 0 || text[|text| - 1] != ' ') ==> t == text
  {
    var head := ClaimHead(text);
    if |text| > Width then
      assert (head + "...")[..|head|] == head;
      head + "..."
    else
      head
  }

  /** Claim.__str__: Claim: "<truncated text>" (<first 30 chars of the source URL>). */
  function ClaimStr(text: string, url: string): (s: string)
    ensures |s| == 12 + |TruncatedClaim(text)| + Min(|url|, Width) <= 75
    ensures s[..8] == "Claim: \""
    ensures s[8..8 + |TruncatedClaim(text)|] == TruncatedClaim(text)
    ensures var k := Min(|url|, Width);
      && s[|s| - 1] == ')'
      && s[|s| - 1 - k..|s| - 1] == url[..k]
      && s[|s| - 4 - k..|s| - 1 - k] == "\" ("
  {
    var t := TruncatedClaim(text);
    var u := Take(url, Width);
    var s := "Claim: \"" + t + "\" (" + u + ")";
    FormatParts("Claim: \"", t, "\" (", u, ")");
    s
  }

  /** Where the pieces of a five-part concatenation sit in the result. */
  lemma FormatParts(a: string, b: string, c: string, d: string, e: string)
    ensures var s := a + b + c + d + e;
      && |s| == |a| + |b| + |c| + |d| + |e|
      && s[..|a|] == a
      && s[|a|..|a| + |b|] == b
      && s[|a| + |b|..|a| + |b| + |c|] == c
      && s[|a| + |b| + |c|..|s| - |e|] == d
      && s[|s| - |e|..] == e
  {
    var s := a + b + c + d + e;
    assert s == a + (b + (c + (d + e)));
  }
}
