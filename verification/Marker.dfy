/** The request marker that makes the description of every minted token unique, and the sweep that uses
    it after an ambiguous create. */
module Marker {
  import opened Text

  const MARKER_PREFIX := "vault-aap-request:"
  const ROOT_DESCRIPTION := "vault-aap-secrets-engine root"
  const UUID_LENGTH := 36

  predicate IsRequestId(id: string) { |id| == UUID_LENGTH }

  /** descriptionWithRequestMarker, for the request id that was generated. */
  function WithMarker(description: string, requestId: string): string {
    if TrimSpace(description) == "" then MARKER_PREFIX + requestId
    else description + " " + (MARKER_PREFIX + requestId)
  }

  /** The description createToken sends: configured prefix, role description, marker. */
  function MintDescription(prefix: string, description: string, requestId: string): string {
    WithMarker(if prefix != "" then prefix + description else description, requestId)
  }

  predicate Marked(description: string, requestId: string) {
    IsRequestId(requestId) && HasSuffix(description, MARKER_PREFIX + requestId)
  }

  /** Some request marker stands at the end. */
  predicate CarriesMarker(description: string) {
    var start := |description| - UUID_LENGTH - |MARKER_PREFIX|;
    start >= 0 && description[start..|description| - UUID_LENGTH] == MARKER_PREFIX
  }

  lemma MarkedCarries(description: string, requestId: string)
    requires Marked(description, requestId)
    ensures CarriesMarker(description)
  {
    var m := MARKER_PREFIX + requestId;
    var start := |description| - |m|;
    assert description[start..] == m && |m| == |MARKER_PREFIX| + UUID_LENGTH;
    assert description[start..|description| - UUID_LENGTH] == description[start..][..|MARKER_PREFIX|];
  }

  lemma MintedIsMarked(prefix: string, description: string, requestId: string)
    requires IsRequestId(requestId)
    ensures Marked(MintDescription(prefix, description, requestId), requestId)
  {
  }

  /** A description that tells what operators asked for: it begins with that text, which a space parts from the
      request marker at its end, and is the marker alone if the text is blank. */
  predicate Tells(description: string, text: string, requestId: string) {
    && Marked(description, requestId)
    && if Blank(text) then |description| == |MARKER_PREFIX| + UUID_LENGTH
       else text + " " <= description && |description| == |text| + 1 + |MARKER_PREFIX| + UUID_LENGTH
  }

  lemma MintDescriptionTells(prefix: string, description: string, requestId: string)
    requires IsRequestId(requestId)
    ensures Tells(MintDescription(prefix, description, requestId), prefix + description, requestId)
  {
    MintedIsMarked(prefix, description, requestId);
    TrimmedAway(prefix + description);
    assert prefix == "" ==> prefix + description == description;
  }

  /** The text and the marker determine the description. */
  lemma TellsOne(d1: string, d2: string, text: string, requestId: string)
    requires Tells(d1, text, requestId) && Tells(d2, text, requestId)
    ensures d1 == d2
  {
    var m := MARKER_PREFIX + requestId;
    assert d1 == d1[..|d1| - |m|] + d1[|d1| - |m|..] && d2 == d2[..|d2| - |m|] + d2[|d2| - |m|..];
    if !Blank(text) {
      assert d1[..|d1| - |m|] == text + " " && d2[..|d2| - |m|] == text + " ";
    }
  }

  lemma MarkedDiffer(d: string, r1: string, r2: string)
    requires Marked(d, r1) && Marked(d, r2)
    ensures r1 == r2
  {
    var m1, m2 := MARKER_PREFIX + r1, MARKER_PREFIX + r2;
    assert m1 == d[|d| - |m1|..] == m2;
    assert r1 == m1[|MARKER_PREFIX|..] && r2 == m2[|MARKER_PREFIX|..];
  }

  lemma RootIsUnmarked(requestId: string)
    ensures !Marked(ROOT_DESCRIPTION, requestId)
  {
    assert |ROOT_DESCRIPTION| == 29;
  }

  /** Whatever prefixes and role descriptions operators choose, two requests never share a description,
      and none has the root token's. */
  lemma DescriptionsAreUnique(p1: string, d1: string, r1: string, p2: string, d2: string, r2: string)
    requires IsRequestId(r1) && IsRequestId(r2)
    ensures MintDescription(p1, d1, r1) == MintDescription(p2, d2, r2) ==> r1 == r2
    ensures MintDescription(p1, d1, r1) != ROOT_DESCRIPTION
  {
    MintedIsMarked(p1, d1, r1);
    MintedIsMarked(p2, d2, r2);
    RootIsUnmarked(r1);
    if MintDescription(p1, d1, r1) == MintDescription(p2, d2, r2) {
      MarkedDiffer(MintDescription(p1, d1, r1), r1, r2);
    }
  }
}
