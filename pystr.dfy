/** The Python string operations the admin helpers rely on, over `seq<char>`:
    `startswith`, the `in` operator, `split`, `rsplit(sep, 1)`, `title`,
    `replace` of one character and the slice `[:-1]`. `Join` is the inverse
    of `Split` and serves as its partner. */
module PyStr {
  import opened Common

  /** `s.startswith(p)` */
  predicate StartsWith(s: string, p: string)
  {
    p <= s
  }

  /** `sub` occurs in `s` at index `k`. */
  predicate OccursAt(s: string, sub: string, k: nat)
  {
    k + |sub| <= |s| && s[k..k + |sub|] == sub
  }

  lemma OccursAtTail(s: string, sub: string)
    requires s != []
    ensures forall k: nat :: OccursAt(s[1..], sub, k) ==> OccursAt(s, sub, k + 1)
    ensures forall k: nat :: 1 <= k && OccursAt(s, sub, k) ==> OccursAt(s[1..], sub, k - 1)
  {
    forall k: nat
      ensures OccursAt(s[1..], sub, k) <==> OccursAt(s, sub, k + 1)
    {
      if k + 1 + |sub| <= |s| {
        assert s[1..][k..k + |sub|] == s[k + 1..k + 1 + |sub|];
      }
    }
  }

  /** An occurrence splits the string into the part before, the substring
      and the part after. */
  lemma SplitAround(s: string, sub: string, k: nat)
    requires OccursAt(s, sub, k)
    ensures s == s[..k] + sub + s[k + |sub|..]
  {
    assert s == s[..k] + s[k..k + |sub|] + s[k + |sub|..];
  }

  lemma OccursAtPrefix(s: string, sub: string, n: nat)
    requires n <= |s|
    ensures forall k: nat :: k + |sub| <= n ==> (OccursAt(s[..n], sub, k) <==> OccursAt(s, sub, k))
  {
    forall k: nat | k + |sub| <= n
      ensures OccursAt(s[..n], sub, k) <==> OccursAt(s, sub, k)
    {
      assert s[..n][k..k + |sub|] == s[k..k + |sub|];
    }
  }

  lemma OccursAtSuffix(s: string, sub: string, n: nat)
    requires n <= |s|
    ensures forall k: nat :: OccursAt(s[n..], sub, k) <==> OccursAt(s, sub, n + k)
  {
    forall k: nat
      ensures OccursAt(s[n..], sub, k) <==> OccursAt(s, sub, n + k)
    {
      if n + k + |sub| <= |s| {
        assert s[n..][k..k + |sub|] == s[n + k..n + k + |sub|];
      }
    }
  }

  /** `s.find(sub)`: the leftmost occurrence of `sub` in `s`, if any. */
  function IndexOf(s: string, sub: string): (r: Option<nat>)
    ensures r.Some? ==> OccursAt(s, sub, r.value)
    ensures r.Some? ==> forall k: nat :: k < r.value ==> !OccursAt(s, sub, k)
    ensures r.None? ==> forall k: nat :: !OccursAt(s, sub, k)
    decreases |s|
  {
    if |s| < |sub| then None
    else if s[..|sub|] == sub then Some(0)
    else
      assert !OccursAt(s, sub, 0);
      OccursAtTail(s, sub);
      match IndexOf(s[1..], sub)
      case None => None
      case Some(i) => Some(i + 1)
  }

  /** `s.rfind(sub)`: the rightmost occurrence of `sub` in `s`, if any. */
  function LastIndexOf(s: string, sub: string): (r: Option<nat>)
    ensures r.Some? ==> OccursAt(s, sub, r.value)
    ensures r.Some? ==> forall k: nat :: r.value < k ==> !OccursAt(s, sub, k)
    ensures r.None? ==> forall k: nat :: !OccursAt(s, sub, k)
    decreases |s|
  {
    if |s| < |sub| then None
    else if s[|s| - |sub|..] == sub then Some(|s| - |sub|)
    else
      OccursAtPrefix(s, sub, |s| - 1);
      LastIndexOf(s[..|s| - 1], sub)
  }

  /** Python's `sub in s`. */
  predicate Contains(s: string, sub: string)
  {
    IndexOf(s, sub).Some?
  }

  lemma ContainsWitness(s: string, sub: string, k: nat)
    requires OccursAt(s, sub, k)
    ensures Contains(s, sub)
  {
  }

  /** `s.split(sep)` for a non-empty separator: cut at every leftmost,
      non-overlapping occurrence of `sep`. No piece contains `sep`. */
  function Split(s: string, sep: string): (r: seq<string>)
    requires sep != []
    ensures |r| >= 1
    decreases |s|
  {
    match IndexOf(s, sep)
    case None => [s]
    case Some(i) => [s[..i]] + Split(s[i + |sep|..], sep)
  }

  /** No piece of a split contains the separator. */
  lemma {:induction false} SplitPiecesClean(s: string, sep: string)
    requires sep != []
    ensures forall piece :: piece in Split(s, sep) ==> !Contains(piece, sep)
    decreases |s|
  {
    match IndexOf(s, sep)
    case None =>
    case Some(i) =>
      OccursAtPrefix(s, sep, i);
      assert !Contains(s[..i], sep);
      SplitPiecesClean(s[i + |sep|..], sep);
  }

  /** `sep.join(parts)` */
  function Join(parts: seq<string>, sep: string): string
  {
    if |parts| == 0 then ""
    else if |parts| == 1 then parts[0]
    else parts[0] + sep + Join(parts[1..], sep)
  }

  /** Joining the pieces of a split with the same separator gives back the string. */
  lemma {:induction false} SplitJoin(s: string, sep: string)
    requires sep != []
    ensures Join(Split(s, sep), sep) == s
    decreases |s|
  {
    match IndexOf(s, sep)
    case None =>
    case Some(i) =>
      var rest := s[i + |sep|..];
      SplitJoin(rest, sep);
      var tail := Split(rest, sep);
      assert Split(s, sep) == [s[..i]] + tail;
      assert ([s[..i]] + tail)[1..] == tail;
      SplitAround(s, sep, i);
  }

  /** A string without the separator splits into itself alone. */
  lemma SplitWithoutSeparator(s: string, sep: string)
    requires sep != [] && !Contains(s, sep)
    ensures Split(s, sep) == [s]
  {
  }

  /** The leftmost occurrence is the one that occurs with none before it. */
  lemma IndexOfIs(s: string, sub: string, k: nat)
    requires OccursAt(s, sub, k)
    requires forall j: nat :: j < k ==> !OccursAt(s, sub, j)
    ensures IndexOf(s, sub) == Some(k)
  {
  }

  /** Each cut of a split is at the leftmost occurrence: every piece but the
      last, followed by the separator, has its first occurrence right after
      the piece. */
  lemma {:induction false} SplitLeftmost(s: string, sep: string)
    requires sep != []
    ensures forall i :: 0 <= i < |Split(s, sep)| - 1 ==>
      IndexOf(Split(s, sep)[i] + sep, sep) == Some(|Split(s, sep)[i]|)
    decreases |s|
  {
    match IndexOf(s, sep)
    case None =>
    case Some(n) =>
      var rest := s[n + |sep|..];
      SplitLeftmost(rest, sep);
      assert Split(s, sep) == [s[..n]] + Split(rest, sep);
      FirstPieceLeftmost(s, sep, n);
      ConsCuts(s[..n], Split(rest, sep), sep, Split(s, sep));
  }

  /** The text before the leftmost occurrence, followed by the separator,
      has its leftmost occurrence right after that text. */
  lemma FirstPieceLeftmost(s: string, sep: string, n: nat)
    requires IndexOf(s, sep) == Some(n)
    ensures IndexOf(s[..n] + sep, sep) == Some(n)
  {
    SplitAround(s, sep, n);
    assert s[..n] + sep == s[..n + |sep|];
    OccursAtPrefix(s, sep, n + |sep|);
    IndexOfIs(s[..n] + sep, sep, n);
  }

  /** Leftmost cuts of a list of pieces, with one more piece in front. */
  lemma ConsCuts(first: string, tail: seq<string>, sep: string, parts: seq<string>)
    requires parts == [first] + tail
    requires IndexOf(first + sep, sep) == Some(|first|)
    requires forall i :: 0 <= i < |tail| - 1 ==> IndexOf(tail[i] + sep, sep) == Some(|tail[i]|)
    ensures forall i :: 0 <= i < |parts| - 1 ==> IndexOf(parts[i] + sep, sep) == Some(|parts[i]|)
  {
    forall i | 1 <= i < |parts| - 1
      ensures IndexOf(parts[i] + sep, sep) == Some(|parts[i]|)
    {
      assert parts[i] == tail[i - 1];
    }
  }

  /** The pieces of a split are the only pieces that rejoin to the string,
      are cut at leftmost occurrences and end with a piece free of the
      separator. */
  lemma {:induction false} SplitUnique(s: string, sep: string, parts: seq<string>)
    requires sep != [] && |parts| >= 1
    requires Join(parts, sep) == s
    requires forall i :: 0 <= i < |parts| - 1 ==> IndexOf(parts[i] + sep, sep) == Some(|parts[i]|)
    requires !Contains(parts[|parts| - 1], sep)
    ensures Split(s, sep) == parts
    decreases |parts|
  {
    if |parts| == 1 {
      SplitWithoutSeparator(s, sep);
    } else {
      var first := parts[0];
      var tail := parts[1..];
      TailCuts(parts, sep);
      SplitUnique(Join(tail, sep), sep, tail);
      SplitCons(first, sep, Join(tail, sep));
      assert parts == [first] + tail;
    }
  }

  /** Leftmost cuts and a clean last piece carry over to the pieces after the first. */
  lemma TailCuts(parts: seq<string>, sep: string)
    requires |parts| >= 2
    requires forall i :: 0 <= i < |parts| - 1 ==> IndexOf(parts[i] + sep, sep) == Some(|parts[i]|)
    requires !Contains(parts[|parts| - 1], sep)
    ensures forall i :: 0 <= i < |parts[1..]| - 1 ==> IndexOf(parts[1..][i] + sep, sep) == Some(|parts[1..][i]|)
    ensures !Contains(parts[1..][|parts[1..]| - 1], sep)
  {
    forall i | 0 <= i < |parts[1..]| - 1
      ensures IndexOf(parts[1..][i] + sep, sep) == Some(|parts[1..][i]|)
    {
      assert parts[1..][i] == parts[i + 1];
    }
    assert parts[1..][|parts[1..]| - 1] == parts[|parts| - 1];
  }

  /** Splitting at a leftmost cut: the piece before it, then the split of the rest. */
  lemma SplitCons(first: string, sep: string, rest: string)
    requires sep != []
    requires IndexOf(first + sep, sep) == Some(|first|)
    ensures Split(first + sep + rest, sep) == [first] + Split(rest, sep)
  {
    var s := first + sep + rest;
    var n := |first|;
    assert s[..n + |sep|] == first + sep;
    OccursAtPrefix(s, sep, n + |sep|);
    IndexOfIs(s, sep, n);
    assert s[..n] == first;
    assert s[n + |sep|..] == rest;
  }

  /** `s.rsplit(sep, 1)`: `[s]` when `sep` does not occur, otherwise the parts
      before and after its rightmost occurrence. */
  function RSplitOnce(s: string, sep: string): (r: seq<string>)
    requires sep != []
    ensures 1 <= |r| <= 2
    ensures |r| == 2 <==> Contains(s, sep)
    ensures Join(r, sep) == s
    ensures |r| == 2 ==> OccursAt(s, sep, |r[0]|) && !Contains(r[1], sep)
    ensures |r| == 2 ==> forall k: nat :: |r[0]| < k ==> !OccursAt(s, sep, k)
  {
    match LastIndexOf(s, sep)
    case None => [s]
    case Some(i) =>
      OccursAtSuffix(s, sep, i + |sep|);
      assert s == s[..i] + sep + s[i + |sep|..];
      [s[..i], s[i + |sep|..]]
  }

  predicate IsUpper(c: char)
  {
    'A' <= c <= 'Z'
  }

  predicate IsLower(c: char)
  {
    'a' <= c <= 'z'
  }

  /** Cased characters in the sense of `str.title`, restricted to ASCII letters. */
  predicate IsCased(c: char)
  {
    IsUpper(c) || IsLower(c)
  }

  function ToUpper(c: char): (r: char)
    ensures IsCased(r) == IsCased(c) && (IsCased(c) ==> IsUpper(r))
  {
    if IsLower(c) then (c as int - 32) as char else c
  }

  function ToLower(c: char): (r: char)
    ensures IsCased(r) == IsCased(c) && (IsCased(c) ==> IsLower(r))
  {
    if IsUpper(c) then (c as int + 32) as char else c
  }

  /** How `str.title` treats one character: a cased character is lower-cased
      after a cased one and upper-cased otherwise; anything else is kept. */
  function TitleChar(c: char, afterCased: bool): (r: char)
    ensures IsCased(r) == IsCased(c)
    ensures !IsCased(c) ==> r == c
  {
    if !IsCased(c) then c else if afterCased then ToLower(c) else ToUpper(c)
  }

  function TitleFrom(s: string, afterCased: bool): (r: string)
    ensures |r| == |s|
    decreases |s|
  {
    if s == [] then []
    else [TitleChar(s[0], afterCased)] + TitleFrom(s[1..], IsCased(s[0]))
  }

  /** `s.title()` */
  function Title(s: string): string
  {
    TitleFrom(s, false)
  }

  lemma {:induction false} TitleFromAt(s: string, afterCased: bool, k: nat)
    requires k < |s|
    ensures |TitleFrom(s, afterCased)| == |s|
    ensures TitleFrom(s, afterCased)[k] == TitleChar(s[k], if k == 0 then afterCased else IsCased(s[k - 1]))
    decreases |s|
  {
    if |s| > 1 {
      TitleFromAt(s[1..], IsCased(s[0]), if k == 0 then 0 else k - 1);
    }
  }

  /** Each character of `s.title()` depends only on itself and its predecessor:
      upper case at the start of a run of letters, lower case inside one. */
  lemma TitleAt(s: string, k: nat)
    requires k < |s|
    ensures |Title(s)| == |s|
    ensures Title(s)[k] == TitleChar(s[k], k > 0 && IsCased(s[k - 1]))
  {
    TitleFromAt(s, false, k);
  }

  /** Title-casing twice is the same as title-casing once. */
  lemma TitleIdempotent(s: string)
    ensures Title(Title(s)) == Title(s)
  {
    var t := Title(s);
    if |s| > 0 {
      TitleAt(s, 0);
    }
    forall k | 0 <= k < |s|
      ensures Title(t)[k] == t[k]
    {
      TitleAt(s, k);
      TitleAt(t, k);
      if k > 0 {
        TitleAt(s, k - 1);
      }
    }
  }

  /** `s.replace(from, to)` for single characters. */
  function ReplaceChar(s: string, from: char, to: char): (r: string)
    ensures |r| == |s|
    ensures forall k :: 0 <= k < |s| ==> r[k] == if s[k] == from then to else s[k]
  {
    seq(|s|, k requires 0 <= k < |s| => if s[k] == from then to else s[k])
  }

  /** `s[:-1]`: everything but the last character; empty stays empty. */
  function DropLast(s: string): (r: string)
    ensures |s| > 0 ==> r + [s[|s| - 1]] == s
    ensures |s| == 0 ==> r == ""
  {
    if |s| == 0 then "" else s[..|s| - 1]
  }
}
