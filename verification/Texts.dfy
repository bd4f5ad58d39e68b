/** Stripping, splitting and joining text. */
module Texts {

  /** The characters `strip` takes off. */
  predicate IsSpace(c: char) {
    ('\t' <= c <= '\r') || ('\U{1C}' <= c <= ' ') || c == '\U{85}' || c == '\U{A0}' || c == '\U{1680}'
    || ('\U{2000}' <= c <= '\U{200A}') || c == '\U{2028}' || c == '\U{2029}' || c == '\U{202F}' || c == '\U{205F}'
    || c == '\U{3000}'
  }

  predicate AllSpace(s: string) {
    forall i :: 0 <= i < |s| ==> IsSpace(s[i])
  }

  function StripLeft(s: string): string {
    if s != "" && IsSpace(s[0]) then StripLeft(s[1..]) else s
  }

  function StripRight(s: string): string {
    if s != "" && IsSpace(s[|s| - 1]) then StripRight(s[..|s| - 1]) else s
  }

  function Strip(s: string): string {
    StripRight(StripLeft(s))
  }

  lemma {:induction false} StripLeftSplits(s: string) returns (lead: string)
    ensures s == lead + StripLeft(s) && AllSpace(lead)
    ensures StripLeft(s) != "" ==> !IsSpace(StripLeft(s)[0])
  {
    lead := "";
    if s != "" && IsSpace(s[0]) {
      var more := StripLeftSplits(s[1..]);
      lead := [s[0]] + more;
    }
  }

  lemma {:induction false} StripRightSplits(s: string) returns (trail: string)
    ensures s == StripRight(s) + trail && AllSpace(trail)
    ensures StripRight(s) != "" ==> !IsSpace(StripRight(s)[|StripRight(s)| - 1])
  {
    trail := "";
    if s != "" && IsSpace(s[|s| - 1]) {
      var more := StripRightSplits(s[..|s| - 1]);
      trail := more + [s[|s| - 1]];
    }
  }

  lemma {:induction false} StripsLead(lead: string, s: string)
    requires AllSpace(lead)
    ensures StripLeft(lead + s) == StripLeft(s)
  {
    if lead != "" {
      assert (lead + s)[1..] == lead[1..] + s;
      StripsLead(lead[1..], s);
    } else {
      assert lead + s == s;
    }
  }

  lemma {:induction false} StripsTrail(s: string, trail: string)
    requires AllSpace(trail)
    ensures StripRight(s + trail) == StripRight(s)
  {
    if trail != "" {
      assert (s + trail)[..|s + trail| - 1] == s + trail[..|trail| - 1];
      StripsTrail(s, trail[..|trail| - 1]);
    } else {
      assert s + trail == s;
    }
  }

  lemma {:induction false} StripRightKeepsHead(s: string)
    requires s != "" && !IsSpace(s[0])
    ensures StripRight(s) != "" && StripRight(s)[0] == s[0]
  {
    if IsSpace(s[|s| - 1]) {
      StripRightKeepsHead(s[..|s| - 1]);
    }
  }

  lemma StripTwice(s: string)
    ensures Strip(Strip(s)) == Strip(s)
  {
    var t := StripLeft(s);
    var _ := StripLeftSplits(s);
    var _ := StripRightSplits(t);
    if t != "" {
      StripRightKeepsHead(t);
    }
  }

  predicate Without(s: string, sep: char) {
    sep !in s
  }

  lemma StripKeepsOut(s: string, sep: char)
    requires Without(s, sep)
    ensures Without(Strip(s), sep)
  {
    var lead := StripLeftSplits(s);
    var trail := StripRightSplits(StripLeft(s));
    forall c | c in Strip(s) ensures c in s {
      assert c in StripLeft(s);
    }
  }

  // --- Splitting and joining ---

  /** The pieces between separators: one more than there are separators. */
  function Split(s: string, sep: char): (parts: seq<string>)
    ensures |parts| >= 1
  {
    if s == "" then [""]
    else
      var rest := Split(s[1..], sep);
      if s[0] == sep then [""] + rest else [[s[0]] + rest[0]] + rest[1..]
  }

  function Join(parts: seq<string>, sep: char): string {
    if parts == [] then ""
    else if |parts| == 1 then parts[0]
    else parts[0] + [sep] + Join(parts[1..], sep)
  }

  lemma {:induction false} SplitsAreWithout(s: string, sep: char, i: nat)
    requires i < |Split(s, sep)|
    ensures Without(Split(s, sep)[i], sep)
  {
    if s != "" {
      var rest := Split(s[1..], sep);
      if s[0] == sep {
        if i > 0 {
          SplitsAreWithout(s[1..], sep, i - 1);
        }
      } else {
        SplitsAreWithout(s[1..], sep, i);
      }
    }
  }

  lemma {:induction false} SplitPiece(piece: string, rest: string, sep: char)
    requires Without(piece, sep)
    ensures Split(piece + [sep] + rest, sep) == [piece] + Split(rest, sep)
  {
    if piece == "" {
      assert ([sep] + rest)[1..] == rest;
      assert "" + [sep] + rest == [sep] + rest;
    } else {
      assert (piece + [sep] + rest)[1..] == piece[1..] + [sep] + rest;
      SplitPiece(piece[1..], rest, sep);
      assert [piece[0]] + piece[1..] == piece;
    }
  }

  lemma {:induction false} SplitWhole(piece: string, sep: char)
    requires Without(piece, sep)
    ensures Split(piece, sep) == [piece]
  {
    if piece != "" {
      SplitWhole(piece[1..], sep);
      assert [piece[0]] + piece[1..] == piece;
    }
  }

  /** Joining and splitting again gives the pieces back, if no piece holds a separator. */
  lemma {:induction false} JoinSplits(parts: seq<string>, sep: char)
    requires parts != [] && forall i :: 0 <= i < |parts| ==> Without(parts[i], sep)
    ensures Split(Join(parts, sep), sep) == parts
  {
    if |parts| == 1 {
      SplitWhole(parts[0], sep);
      assert parts == [parts[0]];
    } else {
      JoinSplits(parts[1..], sep);
      SplitPiece(parts[0], Join(parts[1..], sep), sep);
      assert parts == [parts[0]] + parts[1..];
    }
  }
}
