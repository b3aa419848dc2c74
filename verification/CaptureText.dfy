/** Cutting text with known offsets: splitting, trimming and searching. */
module CaptureText {
  import opened Prelude

  /** Which characters count as white space. */
  type Blank = char -> bool

  /** A text occurs at an index of another. */
  predicate At(s: string, t: string, k: int) {
    0 <= k && k + |t| <= |s| && s[k..k + |t|] == t
  }

  // ----- splitting -----

  function IndexOf(s: string, c: char): (k: nat)
    ensures k <= |s| && (k < |s| ==> s[k] == c)
    ensures forall i :: 0 <= i < k ==> s[i] != c
  {
    if s == "" || s[0] == c then 0 else 1 + IndexOf(s[1..], c)
  }

  function Split(s: string, c: char): (parts: seq<string>)
    ensures parts != []
    decreases |s|
  {
    var k := IndexOf(s, c);
    if k == |s| then [s] else [s[..k]] + Split(s[k + 1..], c)
  }

  /** Where a part starts in the text that was split. */
  function Start(parts: seq<string>, i: nat): nat
    requires i < |parts|
  {
    if i == 0 then 0 else |parts[0]| + 1 + Start(parts[1..], i - 1)
  }

  lemma {:induction false} StartNext(parts: seq<string>, i: nat)
    requires i + 1 < |parts|
    ensures Start(parts, i + 1) == Start(parts, i) + |parts[i]| + 1
  {
    if i > 0 {
      StartNext(parts[1..], i - 1);
    }
  }

  /** The part is cut out of the text at an offset, between separators or the text's ends, and holds none itself. */
  predicate PartAt(s: string, c: char, part: string, at: nat) {
    && At(s, part, at) && c !in part
    && (at > 0 ==> s[at - 1] == c) && (at + |part| < |s| ==> s[at + |part|] == c)
  }

  lemma PartShift(s: string, c: char, k: nat, part: string, at: nat)
    requires k < |s| && s[k] == c && PartAt(s[k + 1..], c, part, at)
    ensures PartAt(s, c, part, k + 1 + at)
  {
    assert s[k + 1 + at..k + 1 + at + |part|] == s[k + 1..][at..at + |part|];
    if at > 0 {
      assert s[k + at] == s[k + 1..][at - 1];
    }
  }

  lemma FirstPart(s: string, c: char, k: nat)
    requires k <= |s| && (k < |s| ==> s[k] == c) && forall i :: 0 <= i < k ==> s[i] != c
    ensures PartAt(s, c, s[..k], 0)
  {
    assert s[0..k] == s[..k];
    forall x | x in s[..k]
      ensures x != c
    {
      var i :| 0 <= i < k && s[i] == x;
    }
  }

  /** The parts after the first are those of the rest, one separator further on. */
  lemma LaterPart(s: string, c: char, k: nat, rest: seq<string>, i: nat)
    requires k < |s| && s[k] == c && i < |rest| && PartAt(s[k + 1..], c, rest[i], Start(rest, i))
    ensures PartAt(s, c, ([s[..k]] + rest)[i + 1], Start([s[..k]] + rest, i + 1))
  {
    assert ([s[..k]] + rest)[1..] == rest;
    PartShift(s, c, k, rest[i], Start(rest, i));
  }

  lemma {:induction false} SplitAt(s: string, c: char, i: nat)
    requires i < |Split(s, c)|
    ensures PartAt(s, c, Split(s, c)[i], Start(Split(s, c), i))
    decreases |s|
  {
    var k := IndexOf(s, c);
    if i == 0 {
      FirstPart(s, c, k);
      assert s[..|s|] == s;
    } else {
      SplitAt(s[k + 1..], c, i - 1);
      LaterPart(s, c, k, Split(s[k + 1..], c), i - 1);
    }
  }

  lemma {:induction false} SplitPart(s: string, c: char, i: nat)
    requires i < |Split(s, c)|
    ensures At(s, Split(s, c)[i], Start(Split(s, c), i))
  {
    SplitAt(s, c, i);
  }

  // ----- trimming -----

  function TrimStart(blank: Blank, s: string): string {
    if s != "" && blank(s[0]) then TrimStart(blank, s[1..]) else s
  }

  function TrimEnd(blank: Blank, s: string): string {
    if s != "" && blank(s[|s| - 1]) then TrimEnd(blank, s[..|s| - 1]) else s
  }

  function Trim(blank: Blank, s: string): string {
    TrimEnd(blank, TrimStart(blank, s))
  }

  /** How much white space a text starts with. */
  function Leading(blank: Blank, s: string): nat
    ensures Leading(blank, s) <= |s|
  {
    TrimStartLength(blank, s);
    |s| - |TrimStart(blank, s)|
  }

  lemma {:induction false} TrimStartLength(blank: Blank, s: string)
    ensures |TrimStart(blank, s)| <= |s| && s[|s| - |TrimStart(blank, s)|..] == TrimStart(blank, s)
    ensures TrimStart(blank, s) != "" ==> !blank(TrimStart(blank, s)[0])
    ensures forall i :: 0 <= i < |s| - |TrimStart(blank, s)| ==> blank(s[i])
  {
    if s != "" && blank(s[0]) {
      var n := |s| - |TrimStart(blank, s)|;
      TrimStartLength(blank, s[1..]);
      assert s[n..] == s[1..][n - 1..];
      forall i | 0 <= i < n
        ensures blank(s[i])
      {
        assert i > 0 ==> s[1..][i - 1] == s[i];
      }
    }
  }

  lemma {:induction false} TrimEndPrefix(blank: Blank, s: string)
    ensures TrimEnd(blank, s) <= s
    ensures s != "" && !blank(s[0]) ==> TrimEnd(blank, s) != ""
  {
    if s != "" && blank(s[|s| - 1]) {
      TrimEndPrefix(blank, s[..|s| - 1]);
    }
  }

  /** The trimmed text is what the text holds after its leading white space, and is empty only for a blank text. */
  lemma TrimAt(blank: Blank, s: string)
    ensures At(s, Trim(blank, s), Leading(blank, s))
    ensures Trim(blank, s) != "" ==> !blank(Trim(blank, s)[0])
    ensures (exists i :: 0 <= i < |s| && !blank(s[i])) ==> Trim(blank, s) != ""
  {
    TrimStartLength(blank, s);
    TrimEndPrefix(blank, TrimStart(blank, s));
  }

  // ----- searching -----

  /** A text within a text within a text. */
  lemma AtInside(s: string, outer: string, at: nat, inner: string, k: nat)
    requires At(s, outer, at) && At(outer, inner, k)
    ensures At(s, inner, at + k)
  {
    forall i | 0 <= i < |inner|
      ensures s[at + k + i] == inner[i]
    {
      assert s[at..at + |outer|][k + i] == outer[k + i] && outer[k..k + |inner|][i] == inner[i];
    }
    assert s[at + k..at + k + |inner|] == inner;
  }

  lemma AtFirst(s: string, t: string, k: int)
    requires t != ""
    ensures At(s, t, k) ==> s[k] == t[0]
  {
    if At(s, t, k) {
      assert s[k..k + |t|][0] == s[k];
    }
  }

  /** The first occurrence at or after a position, as an index into the text, or its length if there is none. */
  function Find(s: string, t: string, from: nat): (k: nat)
    requires from <= |s|
    ensures from <= k <= |s|
    ensures k < |s| ==> At(s, t, k)
    ensures forall j :: from <= j < k ==> !At(s, t, j)
    decreases |s| - from
  {
    if from == |s| || At(s, t, from) then from else Find(s, t, from + 1)
  }

  /** A text that starts with a visible character is first found where the white space before it ends. */
  lemma {:induction false} FindTrimmed(blank: Blank, s: string, from: nat)
    requires from <= |s| && Trim(blank, s[from..]) != ""
    ensures Find(s, Trim(blank, s[from..]), from) == from + Leading(blank, s[from..])
  {
    var rest := s[from..];
    var t := Trim(blank, rest);
    var k := Leading(blank, rest);
    TrimAt(blank, rest);
    TrimStartLength(blank, rest);
    assert s[from + k..from + k + |t|] == rest[k..k + |t|];
    assert At(s, t, from + k);
    forall j | from <= j < from + k
      ensures !At(s, t, j)
    {
      assert s[j] == rest[j - from] && blank(s[j]);
      AtFirst(s, t, j);
    }
  }

  /** The trimmed text of a part of a text. */
  lemma TrimmedIn(blank: Blank, s: string, part: string, at: nat)
    requires At(s, part, at)
    ensures At(s, Trim(blank, part), at + Leading(blank, part))
  {
    TrimAt(blank, part);
    AtInside(s, part, at, Trim(blank, part), Leading(blank, part));
  }

  /** A text in what is left of another after a prefix of some length. */
  lemma DroppedIn(s: string, outer: string, at: nat, n: nat, inner: string, k: nat)
    requires At(s, outer, at) && n <= |outer| && At(outer[n..], inner, k)
    ensures At(s, inner, at + n + k) && n + k + |inner| <= |outer|
  {
    assert At(outer, outer[n..], n);
    AtInside(outer, outer[n..], n, inner, k);
    AtInside(s, outer, at, inner, n + k);
  }

  lemma {:induction false} FoundTrimmed(blank: Blank, s: string, from: nat)
    requires from <= |s| && Trim(blank, s[from..]) != ""
    ensures At(s, Trim(blank, s[from..]), Find(s, Trim(blank, s[from..]), from))
  {
    FindTrimmed(blank, s, from);
    TrimAt(blank, s[from..]);
  }
}
