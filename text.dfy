/** JavaScript's `String.prototype.split` and `Array.prototype.join` on a
    literal separator, and `s.replace(/\s+/g, "")`, with the facts the
    draft and export code rely on. */
module Text {
  import opened Common

  /** The first position at which `sep` occurs in `s`, as `indexOf` finds it. */
  function FindFirst(s: string, sep: string): (r: Option<nat>)
    requires |sep| > 0
    ensures r.Some? ==> OccursAt(s, sep, r.value)
    ensures r.Some? ==> forall j: nat :: j < r.value ==> !OccursAt(s, sep, j)
    ensures r.None? ==> forall j: nat :: !OccursAt(s, sep, j)
    decreases |s|
  {
    if |s| < |sep| then None
    else if s[..|sep|] == sep then Some(0)
    else
      var tail := FindFirst(s[1..], sep);
      forall j: nat | j >= 1 ensures OccursAt(s, sep, j) == OccursAt(s[1..], sep, j - 1) {
        OccursAtTail(s, sep, j);
      }
      match tail
      case None => None
      case Some(k) => Some(k + 1)
  }

  /** An occurrence at `j >= 1` is one at `j - 1` of the string without its
      first character. */
  lemma OccursAtTail(s: string, sep: string, j: nat)
    requires |s| > 0 && j >= 1
    ensures OccursAt(s, sep, j) == OccursAt(s[1..], sep, j - 1)
  {
    if j + |sep| <= |s| {
      assert s[1..][j - 1..j - 1 + |sep|] == s[j..j + |sep|];
    }
  }

  /** `parts.join(sep)`. */
  function Join(parts: seq<string>, sep: string): string {
    if parts == [] then ""
    else if |parts| == 1 then parts[0]
    else parts[0] + sep + Join(parts[1..], sep)
  }

  lemma JoinCons(a: string, rest: seq<string>, sep: string)
    requires |rest| >= 1
    ensures Join([a] + rest, sep) == a + sep + Join(rest, sep)
  {
    assert ([a] + rest)[1..] == rest;
  }

  /** `s.split(sep)` for a non-empty literal separator: cut at every
      occurrence, scanning left to right. */
  function Split(s: string, sep: string): (parts: seq<string>)
    requires |sep| > 0
    ensures |parts| >= 1
    decreases |s|
  {
    match FindFirst(s, sep)
    case None => [s]
    case Some(i) => [s[..i]] + Split(s[i + |sep|..], sep)
  }

  /** Joining the pieces of a split with the same separator gives back the
      original string: splitting drops no text. */
  lemma {:induction false} JoinSplit(s: string, sep: string)
    requires |sep| > 0
    ensures Join(Split(s, sep), sep) == s
    decreases |s|
  {
    var f := FindFirst(s, sep);
    if f.Some? {
      var i := f.value;
      var rest := s[i + |sep|..];
      SplitStep(s, sep, i);
      JoinSplit(rest, sep);
      JoinCons(s[..i], Split(rest, sep), sep);
    }
  }

  /** One step of a split: the text before the first separator, the
      separator, and the rest. */
  lemma SplitStep(s: string, sep: string, i: nat)
    requires |sep| > 0 && FindFirst(s, sep) == Some(i)
    ensures Split(s, sep) == [s[..i]] + Split(s[i + |sep|..], sep)
    ensures s == s[..i] + sep + s[i + |sep|..]
  {
    SliceThree(s, i, i + |sep|);
  }

  /** No piece of a split contains the separator. */
  lemma {:induction false} SplitPiecesFree(s: string, sep: string)
    requires |sep| > 0
    ensures forall p :: p in Split(s, sep) ==> forall j: nat :: !OccursAt(p, sep, j)
    decreases |s|
  {
    match FindFirst(s, sep)
    case None =>
    case Some(i) =>
      var rest := s[i + |sep|..];
      SplitPiecesFree(rest, sep);
      var a := s[..i];
      forall j: nat | OccursAt(a, sep, j)
        ensures false
      {
        assert s[j..j + |sep|] == a[j..j + |sep|];
        assert OccursAt(s, sep, j);
      }
  }

  /** A non-empty piece of text that shares no character with the separator
      survives a split whole: it lies inside one piece. This is why a
      citation marker such as `[01:02–01:10]` inside a chapter reaches the
      exported paragraphs unbroken. */
  lemma {:induction false} SplitKeepsPiece(s: string, sep: string, m: string)
    requires |sep| > 0 && |m| > 0
    requires forall i :: 0 <= i < |m| ==> m[i] !in sep
    requires Contains(s, m)
    ensures exists p :: p in Split(s, sep) && Contains(p, m)
    decreases |s|
  {
    match FindFirst(s, sep)
    case None =>
      assert s in Split(s, sep);
    case Some(i) =>
      var a, rest := s[..i], s[i + |sep|..];
      SplitStep(s, sep, i);
      var k: nat :| k <= |s| && OccursAt(s, m, k);
      if k + |m| <= i {
        OccursInPrefix(s, m, i, k);
        assert a in Split(s, sep);
      } else if k >= i + |sep| {
        OccursInSuffix(s, m, i + |sep|, k);
        SplitKeepsPiece(rest, sep, m);
        var p :| p in Split(rest, sep) && Contains(p, m);
        assert p in Split(s, sep);
      } else {
        // m would overlap the separator, which shares no character with it
        OverlapSharesChar(s, sep, m, i, k);
        assert false;
      }
  }

  lemma OverlapSharesChar(s: string, sep: string, m: string, i: nat, k: nat)
    requires |sep| > 0 && |m| > 0
    requires OccursAt(s, sep, i) && OccursAt(s, m, k)
    requires i < k + |m| && k < i + |sep|
    ensures exists t :: 0 <= t < |m| && m[t] in sep
  {
    var t := if k < i then i else k;
    assert s[t] == s[i..i + |sep|][t - i] == sep[t - i];
    assert s[t] == s[k..k + |m|][t - k] == m[t - k];
  }

  // ---------------------------------------------------------------------
  // Whitespace stripping

  /** `s.replace(/\s+/g, "")`: every whitespace character removed, and every
      other character kept as often as it occurs (StripSpaceKeepsOthers) and
      in order (StripSpaceAppend and StripSpaceChar). */
  function StripSpace(s: string): (r: string)
    ensures |r| <= |s|
    ensures forall i :: 0 <= i < |r| ==> !IsJsSpace(r[i])
  {
    if s == [] then ""
    else if IsJsSpace(s[0]) then StripSpace(s[1..])
    else [s[0]] + StripSpace(s[1..])
  }

  /** Stripping works piece by piece and keeps the other characters in order. */
  lemma {:induction false} StripSpaceAppend(a: string, b: string)
    ensures StripSpace(a + b) == StripSpace(a) + StripSpace(b)
    decreases |a|
  {
    if a != [] {
      assert (a + b)[1..] == a[1..] + b;
      StripSpaceAppend(a[1..], b);
    } else {
      assert a + b == b;
    }
  }

  /** Every character that is not whitespace is kept as often as it occurs. */
  lemma {:induction false} StripSpaceKeepsOthers(s: string)
    ensures forall c :: !IsJsSpace(c) ==> multiset(StripSpace(s))[c] == multiset(s)[c]
    decreases |s|
  {
    if s != [] {
      StripSpaceKeepsOthers(s[1..]);
      assert s == [s[0]] + s[1..];
    }
  }

  /** One character is dropped exactly when it is whitespace. */
  lemma StripSpaceChar(c: char)
    ensures StripSpace([c]) == (if IsJsSpace(c) then "" else [c])
  {
  }

  /** A string of whitespace only strips to nothing. */
  lemma {:induction false} StripSpaceAllSpace(s: string)
    requires forall i :: 0 <= i < |s| ==> IsJsSpace(s[i])
    ensures StripSpace(s) == ""
    decreases |s|
  {
    if s != [] {
      StripSpaceAllSpace(s[1..]);
    }
  }

  // ---------------------------------------------------------------------
  // Plain concatenation

  /** `parts.join("")`. */
  function Concat(parts: seq<string>): string {
    if parts == [] then "" else parts[0] + Concat(parts[1..])
  }

  /** Text inside one of the parts is text of the concatenation. */
  lemma {:induction false} ConcatContains(parts: seq<string>, i: nat, pat: string)
    requires i < |parts| && Contains(parts[i], pat)
    ensures Contains(Concat(parts), pat)
    decreases |parts|
  {
    if i == 0 {
      ContainsInContext("", parts[0], Concat(parts[1..]), pat);
      assert "" + parts[0] + Concat(parts[1..]) == Concat(parts);
    } else {
      ConcatContains(parts[1..], i - 1, pat);
      ContainsInContext(parts[0], Concat(parts[1..]), "", pat);
      assert parts[0] + Concat(parts[1..]) + "" == Concat(parts);
    }
  }

  /** Every part of a join is text of the joined string. */
  lemma {:induction false} JoinContainsPart(parts: seq<string>, sep: string, i: nat)
    requires i < |parts|
    ensures Contains(Join(parts, sep), parts[i])
    decreases |parts|
  {
    if |parts| == 1 {
      ContainsSelf(parts[0]);
    } else if i == 0 {
      ContainsSelf(parts[0]);
      ContainsInContext("", parts[0], sep + Join(parts[1..], sep), parts[0]);
      assert "" + parts[0] + (sep + Join(parts[1..], sep)) == Join(parts, sep);
    } else {
      JoinContainsPart(parts[1..], sep, i - 1);
      ContainsInContext(parts[0] + sep, Join(parts[1..], sep), "", parts[i]);
      assert parts[0] + sep + Join(parts[1..], sep) + "" == Join(parts, sep);
    }
  }
}
