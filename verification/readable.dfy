/**
 * `contentTypeIdToReadable` (src/utils/index.ts): split camelCase identifiers
 * with a space and capitalise the first character. Case mapping is ASCII only.
 */
module Utils {

  predicate IsLower(c: char) { 'a' <= c <= 'z' }

  predicate IsUpper(c: char) { 'A' <= c <= 'Z' }

  /** `toUpperCase` on one character, restricted to ASCII letters. */
  function ToUpper(c: char): (u: char)
    ensures !IsLower(u)
    ensures IsLower(c) ==> u as int == c as int - 32
    ensures !IsLower(c) ==> u == c
  {
    if IsLower(c) then (c as int - 32) as char else c
  }

  /**
   * `replace(/([a-z])([A-Z])/g, '$1 $2')`: the regular expression is scanned left
   * to right; a match emits its two characters with a space between them and the
   * scan resumes after the match, otherwise one character is copied.
   */
  function InsertSpaces(s: string): (r: string)
    ensures |r| >= |s|
    ensures |s| > 0 ==> r[0] == s[0]
    decreases |s|
  {
    if |s| < 2 then s
    else if IsLower(s[0]) && IsUpper(s[1]) then [s[0], ' ', s[1]] + InsertSpaces(s[2..])
    else [s[0]] + InsertSpaces(s[1..])
  }

  /** `replace(/^./, c => c.toUpperCase())`: only the first character changes. */
  function CapitalizeFirst(s: string): (r: string)
    ensures |r| == |s|
    ensures |s| > 0 ==> r[0] == ToUpper(s[0]) && r[1..] == s[1..]
  {
    if s == [] then [] else [ToUpper(s[0])] + s[1..]
  }

  function ContentTypeIdToReadable(contentType: string): (r: string)
    ensures contentType == [] ==> r == []
    ensures |r| >= |contentType|
    ensures |contentType| > 0 ==> r[0] == ToUpper(contentType[0])
    ensures |r| > 0 ==> r[1..] == InsertSpaces(contentType)[1..]
  {
    CapitalizeFirst(InsertSpaces(contentType))
  }

  // ---------------------------------------------------------------------------
  // An independent description: walk the input one position at a time and put
  // a space after every lower-case letter that is followed by an upper-case one.

  /** Position i is a lower-case letter immediately followed by an upper-case letter. */
  predicate Boundary(s: string, i: int)
  {
    0 <= i && i + 1 < |s| && IsLower(s[i]) && IsUpper(s[i + 1])
  }

  predicate NoBoundary(s: string)
  {
    forall i :: 0 <= i < |s| ==> !Boundary(s, i)
  }

  /** The input from position i on, with a space after every boundary position. */
  function SpacedFrom(s: string, i: nat): string
    decreases |s| - i
  {
    if i >= |s| then []
    else [s[i]] + (if Boundary(s, i) then [' '] else []) + SpacedFrom(s, i + 1)
  }

  /** The number of adjacent lower-case/upper-case positions. */
  function LowerUpperPairs(s: string): nat
    decreases |s|
  {
    if |s| < 2 then 0
    else (if IsLower(s[0]) && IsUpper(s[1]) then 1 else 0) + LowerUpperPairs(s[1..])
  }

  /** The regular-expression scan inserts a space at every boundary and changes nothing else. */
  lemma {:induction false} InsertSpacesFrom(s: string, i: nat)
    requires i <= |s|
    ensures InsertSpaces(s[i..]) == SpacedFrom(s, i)
    decreases |s| - i
  {
    var t := s[i..];
    if |t| < 2 {
      if i < |s| {
        assert !Boundary(s, i);
        assert SpacedFrom(s, i + 1) == [];
      }
    } else if IsLower(t[0]) && IsUpper(t[1]) {
      assert t[2..] == s[i + 2..];
      InsertSpacesFrom(s, i + 2);
      assert Boundary(s, i) && !Boundary(s, i + 1);
      assert SpacedFrom(s, i + 1) == [s[i + 1]] + SpacedFrom(s, i + 2);
    } else {
      assert t[1..] == s[i + 1..];
      InsertSpacesFrom(s, i + 1);
      assert !Boundary(s, i);
    }
  }

  lemma InsertSpacesIsSpaced(s: string)
    ensures InsertSpaces(s) == SpacedFrom(s, 0)
  {
    assert s[0..] == s;
    InsertSpacesFrom(s, 0);
  }

  /** One character is added per lower-case/upper-case pair and no other. */
  lemma {:induction false} InsertSpacesLength(s: string)
    ensures |InsertSpaces(s)| == |s| + LowerUpperPairs(s)
    decreases |s|
  {
    if |s| < 2 {
    } else if IsLower(s[0]) && IsUpper(s[1]) {
      InsertSpacesLength(s[2..]);
      assert s[1..][1..] == s[2..];
      assert LowerUpperPairs(s[1..]) == LowerUpperPairs(s[2..]);
    } else {
      InsertSpacesLength(s[1..]);
    }
  }

  lemma ReadableLength(contentType: string)
    ensures |ContentTypeIdToReadable(contentType)| == |contentType| + LowerUpperPairs(contentType)
  {
    InsertSpacesLength(contentType);
  }

  /** After the scan no lower-case letter is directly followed by an upper-case one. */
  lemma {:induction false} InsertSpacesLeavesNoBoundary(s: string)
    ensures NoBoundary(InsertSpaces(s))
    decreases |s|
  {
    var r := InsertSpaces(s);
    if |s| < 2 {
    } else if IsLower(s[0]) && IsUpper(s[1]) {
      var rest := InsertSpaces(s[2..]);
      InsertSpacesLeavesNoBoundary(s[2..]);
      assert r == [s[0], ' ', s[1]] + rest;
      forall i | 0 <= i < |r| ensures !Boundary(r, i) {
        if i >= 3 {
          assert r[i] == rest[i - 3] && (i + 1 < |r| ==> r[i + 1] == rest[i - 2]);
          assert !Boundary(rest, i - 3);
        }
      }
    } else {
      var rest := InsertSpaces(s[1..]);
      InsertSpacesLeavesNoBoundary(s[1..]);
      assert r == [s[0]] + rest;
      forall i | 0 <= i < |r| ensures !Boundary(r, i) {
        if i >= 1 {
          assert r[i] == rest[i - 1] && (i + 1 < |r| ==> r[i + 1] == rest[i]);
          assert !Boundary(rest, i - 1);
        }
      }
    }
  }

  /** Without boundaries the scan finds no match and returns its input. */
  lemma {:induction false} InsertSpacesFixpoint(s: string)
    requires NoBoundary(s)
    ensures InsertSpaces(s) == s
    decreases |s|
  {
    if |s| >= 2 {
      assert !Boundary(s, 0);
      forall i | 0 <= i < |s[1..]| ensures !Boundary(s[1..], i) {
        assert !Boundary(s, i + 1);
      }
      InsertSpacesFixpoint(s[1..]);
    }
  }

  lemma CapitalizeKeepsNoBoundary(s: string)
    requires NoBoundary(s)
    ensures NoBoundary(CapitalizeFirst(s))
  {
    var r := CapitalizeFirst(s);
    forall i | 0 <= i < |r| ensures !Boundary(r, i) {
      if i > 0 {
        assert r[i] == s[i] && (i + 1 < |r| ==> r[i + 1] == s[i + 1]);
        assert !Boundary(s, i);
      }
    }
  }

  /** Making an identifier readable a second time changes nothing. */
  lemma ReadableIdempotent(contentType: string)
    ensures ContentTypeIdToReadable(ContentTypeIdToReadable(contentType)) == ContentTypeIdToReadable(contentType)
  {
    var once := ContentTypeIdToReadable(contentType);
    InsertSpacesLeavesNoBoundary(contentType);
    CapitalizeKeepsNoBoundary(InsertSpaces(contentType));
    InsertSpacesFixpoint(once);
  }
}
