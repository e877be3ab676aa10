/** The parts of Go's `strings` package that the engine uses to normalise operator input. */
module Text {

  /** unicode.IsSpace. */
  predicate IsSpace(c: char) {
    var n := c as int;
    || 0x09 <= n <= 0x0D || n == 0x20 || n == 0x85 || n == 0xA0 || n == 0x1680
    || 0x2000 <= n <= 0x200A || n == 0x2028 || n == 0x2029 || n == 0x202F || n == 0x205F || n == 0x3000
  }

  function TrimLeftSpace(s: string): string {
    if s != "" && IsSpace(s[0]) then TrimLeftSpace(s[1..]) else s
  }

  function TrimRightSpace(s: string): string {
    if s != "" && IsSpace(s[|s| - 1]) then TrimRightSpace(s[..|s| - 1]) else s
  }

  function TrimSpace(s: string): string {
    TrimRightSpace(TrimLeftSpace(s))
  }

  /** Nothing but white space. */
  predicate Blank(s: string) { forall i :: 0 <= i < |s| ==> IsSpace(s[i]) }

  lemma {:induction false} TrimLeftBlank(s: string)
    ensures Blank(TrimLeftSpace(s)) <==> Blank(s)
  {
    if s != "" && IsSpace(s[0]) {
      TrimLeftBlank(s[1..]);
      assert Blank(s[1..]) ==> Blank(s) by {
        forall i | Blank(s[1..]) && 0 <= i < |s| ensures IsSpace(s[i]) { if i > 0 { assert s[i] == s[1..][i - 1]; } }
      }
    }
  }

  lemma {:induction false} TrimRightBlank(s: string)
    ensures TrimRightSpace(s) == "" <==> Blank(s)
  {
    if s != "" && IsSpace(s[|s| - 1]) { TrimRightBlank(s[..|s| - 1]); }
  }

  lemma TrimmedAway(s: string)
    ensures TrimSpace(s) == "" <==> Blank(s)
  {
    TrimLeftBlank(s);
    TrimRightBlank(TrimLeftSpace(s));
  }

  /** strings.TrimRight(s, "/"). */
  function TrimRightSlash(s: string): string {
    if s != "" && s[|s| - 1] == '/' then TrimRightSlash(s[..|s| - 1]) else s
  }

  predicate HasSuffix(s: string, suffix: string) {
    |suffix| <= |s| && s[|s| - |suffix|..] == suffix
  }

  // ----- What trimming leaves

  predicate AllSlashes(s: string) { forall i :: 0 <= i < |s| ==> s[i] == '/' }

  lemma {:induction false} LeftTrimmed(s: string) returns (gone: string)
    ensures s == gone + TrimLeftSpace(s) && Blank(gone)
    ensures TrimLeftSpace(s) != "" ==> !IsSpace(TrimLeftSpace(s)[0])
  {
    gone := "";
    if s != "" && IsSpace(s[0]) {
      var rest := LeftTrimmed(s[1..]);
      gone := [s[0]] + rest;
      assert s == [s[0]] + s[1..];
    }
  }

  lemma {:induction false} RightTrimmed(s: string) returns (gone: string)
    ensures s == TrimRightSpace(s) + gone && Blank(gone)
    ensures TrimRightSpace(s) != "" ==> !IsSpace(TrimRightSpace(s)[|TrimRightSpace(s)| - 1])
  {
    gone := "";
    if s != "" && IsSpace(s[|s| - 1]) {
      var rest := RightTrimmed(s[..|s| - 1]);
      gone := rest + [s[|s| - 1]];
      assert s == s[..|s| - 1] + [s[|s| - 1]];
    }
  }

  lemma {:induction false} SlashTrimmed(s: string) returns (gone: string)
    ensures s == TrimRightSlash(s) + gone && AllSlashes(gone)
    ensures TrimRightSlash(s) != "" ==> TrimRightSlash(s)[|TrimRightSlash(s)| - 1] != '/'
  {
    gone := "";
    if s != "" && s[|s| - 1] == '/' {
      var rest := SlashTrimmed(s[..|s| - 1]);
      gone := rest + ['/'];
      assert s == s[..|s| - 1] + ['/'];
    }
  }

  /** Only white space goes, from both ends, and all of it. */
  lemma SpaceTrimmed(s: string) returns (before: string, after: string)
    ensures s == before + TrimSpace(s) + after && Blank(before) && Blank(after)
    ensures TrimSpace(s) != "" ==> !IsSpace(TrimSpace(s)[0]) && !IsSpace(TrimSpace(s)[|TrimSpace(s)| - 1])
  {
    before := LeftTrimmed(s);
    after := RightTrimmed(TrimLeftSpace(s));
    assert TrimLeftSpace(s) == TrimSpace(s) + after;
    assert before + TrimSpace(s) + after == before + (TrimSpace(s) + after);
  }
}
