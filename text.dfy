// The string operations the utilities rely on, as JavaScript defines them:
// `toLowerCase` (on the ASCII letters), `trim`, `includes`, `split` and
// `join` with a separator, and a global `replace` of a fixed text.
module Text {
  import CU = CommonUtils

  /** One character lowered: only 'A'..'Z' change. */
  function LowerChar(c: char): (r: char)
    ensures 'A' <= c <= 'Z' ==> r == (c as int + 32) as char
    ensures !('A' <= c <= 'Z') ==> r == c
  {
    if 'A' <= c <= 'Z' then (c as int + 32) as char else c
  }

  /** `toLowerCase`, restricted to ASCII case. */
  function Lower(s: string): (r: string)
    ensures |r| == |s|
    ensures forall k :: 0 <= k < |s| ==> r[k] == LowerChar(s[k])
  {
    seq(|s|, k requires 0 <= k < |s| => LowerChar(s[k]))
  }

  /** Lowering twice is lowering once. */
  lemma LowerIdempotent(s: string)
    ensures Lower(Lower(s)) == Lower(s)
  {
  }

  function TrimStart(s: string): (r: string)
    ensures |r| <= |s|
    ensures |r| > 0 ==> !CU.IsSpace(r[0])
    ensures r == s[|s| - |r|..]
  {
    if |s| > 0 && CU.IsSpace(s[0]) then TrimStart(s[1..]) else s
  }

  function TrimEnd(s: string): (r: string)
    ensures |r| <= |s|
    ensures |r| > 0 ==> !CU.IsSpace(r[|r| - 1])
    ensures r == s[..|r|]
  {
    if |s| > 0 && CU.IsSpace(s[|s| - 1]) then TrimEnd(s[..|s| - 1]) else s
  }

  /** `trim`: white space removed from both ends. */
  function Trim(s: string): (r: string)
    ensures |r| <= |s|
    ensures |r| > 0 ==> !CU.IsSpace(r[0]) && !CU.IsSpace(r[|r| - 1])
  {
    TrimEnd(TrimStart(s))
  }

  predicate AllSpace(s: string)
  {
    forall k :: 0 <= k < |s| ==> CU.IsSpace(s[k])
  }

  /** `trim` cuts a run of white space off each end and keeps the middle as it is. */
  lemma TrimIsSlice(s: string)
    ensures exists i, j :: 0 <= i <= j <= |s| && Trim(s) == s[i..j] && AllSpace(s[..i]) && AllSpace(s[j..])
  {
    var t := TrimStart(s);
    var i := |s| - |t|;
    var j := i + |TrimEnd(t)|;
    TrimStartDropsSpace(s);
    TrimEndDropsSpace(t);
    assert t[..|TrimEnd(t)|] == s[i..j];
    assert t[|TrimEnd(t)|..] == s[j..];
  }

  lemma {:induction false} TrimStartDropsSpace(s: string)
    ensures AllSpace(s[..|s| - |TrimStart(s)|])
  {
    if |s| > 0 && CU.IsSpace(s[0]) {
      TrimStartDropsSpace(s[1..]);
      assert forall k :: 1 <= k < |s| - |TrimStart(s)| ==> s[k] == s[1..][..|s| - 1 - |TrimStart(s[1..])|][k - 1];
    }
  }

  lemma {:induction false} TrimEndDropsSpace(s: string)
    ensures AllSpace(s[|TrimEnd(s)|..])
  {
    if |s| > 0 && CU.IsSpace(s[|s| - 1]) {
      var init := s[..|s| - 1];
      TrimEndDropsSpace(init);
      assert forall k :: |TrimEnd(s)| <= k < |s| - 1 ==> s[k] == init[|TrimEnd(init)|..][k - |TrimEnd(init)|];
    }
  }

  /** A string trims to nothing exactly when it is all white space. */
  lemma {:induction false} TrimEmptyIffBlank(s: string)
    ensures Trim(s) == "" <==> AllSpace(s)
  {
    TrimStartBlank(s);
    var t := TrimStart(s);
    if |t| > 0 {
      assert TrimEnd(t) != "" by {
        if |TrimEnd(t)| == 0 {
          assert TrimEnd(t) == t[..0];
          TrimEndKeepsFirst(t);
        }
      }
    }
  }

  lemma {:induction false} TrimStartBlank(s: string)
    ensures TrimStart(s) == "" <==> AllSpace(s)
  {
    if |s| > 0 && CU.IsSpace(s[0]) {
      TrimStartBlank(s[1..]);
      assert forall k :: 1 <= k < |s| ==> s[k] == s[1..][k - 1];
    }
  }

  /** Trimming the end never removes a first character that is not white space. */
  lemma {:induction false} TrimEndKeepsFirst(s: string)
    requires |s| > 0 && !CU.IsSpace(s[0])
    ensures |TrimEnd(s)| > 0
  {
    if CU.IsSpace(s[|s| - 1]) {
      TrimEndKeepsFirst(s[..|s| - 1]);
    }
  }

  /** Lowering changes no white space, so a lowered string is blank exactly when the original is. */
  lemma LowerKeepsBlank(s: string)
    ensures AllSpace(Lower(s)) <==> AllSpace(s)
  {
    assert forall k :: 0 <= k < |s| ==> (CU.IsSpace(Lower(s)[k]) <==> CU.IsSpace(s[k]));
  }

  predicate StartsWith(s: string, t: string)
  {
    |t| <= |s| && s[..|t|] == t
  }

  /** `t` occurs in `s` starting at position `i`. */
  predicate OccursAt(s: string, t: string, i: int)
  {
    0 <= i <= |s| - |t| && s[i..i + |t|] == t
  }

  /** `s.includes(t)`. */
  function Includes(s: string, t: string): bool
  {
    if StartsWith(s, t) then true else if |s| == 0 then false else Includes(s[1..], t)
  }

  /** `includes` finds exactly the occurrences at some position. */
  lemma {:induction false} IncludesIffAt(s: string, t: string)
    ensures Includes(s, t) <==> exists i :: OccursAt(s, t, i)
  {
    if StartsWith(s, t) {
      assert OccursAt(s, t, 0);
    } else if |s| > 0 {
      IncludesIffAt(s[1..], t);
      if Includes(s[1..], t) {
        var i :| OccursAt(s[1..], t, i);
        assert s[i + 1..i + 1 + |t|] == s[1..][i..i + |t|];
        assert OccursAt(s, t, i + 1);
      }
      if exists i :: OccursAt(s, t, i) {
        var i :| OccursAt(s, t, i);
        assert i != 0;
        assert s[1..][i - 1..i - 1 + |t|] == s[i..i + |t|];
        assert OccursAt(s[1..], t, i - 1);
      }
    } else {
      assert forall i :: !OccursAt(s, t, i);
    }
  }

  /** A string that lacks the first character of a non-empty text does not include it. */
  lemma {:induction false} IncludesNeedsFirst(s: string, t: string)
    requires |t| > 0 && t[0] !in s
    ensures !Includes(s, t)
  {
    if |s| > 0 {
      assert !StartsWith(s, t) by {
        if |t| <= |s| {
          assert s[..|t|][0] == s[0];
        }
      }
      IncludesNeedsFirst(s[1..], t);
    }
  }

  /** Every string includes itself and each of its suffixes. */
  lemma IncludesSuffix(s: string, i: nat)
    requires i <= |s|
    ensures Includes(s, s[i..])
  {
    IncludesIffAt(s, s[i..]);
    assert s[i..i + |s[i..]|] == s[i..];
    assert OccursAt(s, s[i..], i);
  }

  /** `parts.join(sep)`. */
  function Join(parts: seq<string>, sep: string): (r: string)
    ensures |parts| == 1 ==> r == parts[0]
  {
    if |parts| == 0 then ""
    else if |parts| == 1 then parts[0]
    else parts[0] + sep + Join(parts[1..], sep)
  }

  /** `s.split(c)`: the pieces between the separators, one more than there are separators. */
  function Split(s: string, c: char): (r: seq<string>)
    ensures |r| > 0
  {
    if |s| == 0 then [""]
    else
      var rest := Split(s[1..], c);
      if s[0] == c then [""] + rest else [[s[0]] + rest[0]] + rest[1..]
  }

  /** No piece holds the separator. */
  lemma {:induction false} SplitAvoids(s: string, c: char)
    ensures forall k :: 0 <= k < |Split(s, c)| ==> c !in Split(s, c)[k]
  {
    if |s| > 0 {
      SplitAvoids(s[1..], c);
      var rest := Split(s[1..], c);
      if s[0] != c {
        assert c !in rest[0];
        assert Split(s, c)[0] == [s[0]] + rest[0];
        assert forall k :: 1 <= k < |Split(s, c)| ==> Split(s, c)[k] == rest[k];
      }
    }
  }

  /** Splitting a text joined by a separator none of its parts holds gives the parts back. */
  lemma {:induction false} SplitJoin(parts: seq<string>, c: char)
    requires |parts| > 0
    requires forall k :: 0 <= k < |parts| ==> c !in parts[k]
    ensures Split(Join(parts, [c]), c) == parts
  {
    if |parts| == 1 {
      SplitPlain(parts[0], "", c);
      assert parts[0] + "" == parts[0];
      assert Split("", c) == [""];
      assert [parts[0] + ""] + [""][1..] == parts;
    } else {
      SplitJoin(parts[1..], c);
      var rest := Join(parts[1..], [c]);
      SplitSep(parts[0], rest, c);
    }
  }

  /** A piece without the separator, then the rest: the piece extends the first split piece. */
  lemma {:induction false} SplitPlain(a: string, b: string, c: char)
    requires c !in a
    ensures Split(a + b, c) == [a + Split(b, c)[0]] + Split(b, c)[1..]
  {
    var sb := Split(b, c);
    if |a| > 0 {
      SplitPlain(a[1..], b, c);
      assert a + b == [a[0]] + (a[1..] + b);
      SplitCons(a[0], a[1..] + b, c);
      assert [a[0]] + (a[1..] + sb[0]) == a + sb[0];
    } else {
      assert a + b == b;
      assert a + sb[0] == sb[0];
      assert [sb[0]] + sb[1..] == sb;
    }
  }

  /** A leading character other than the separator joins the first piece. */
  lemma SplitCons(x: char, t: string, c: char)
    requires x != c
    ensures Split([x] + t, c) == [[x] + Split(t, c)[0]] + Split(t, c)[1..]
  {
    assert ([x] + t)[1..] == t;
  }

  lemma SplitSep(a: string, b: string, c: char)
    requires c !in a
    ensures Split(a + [c] + b, c) == [a] + Split(b, c)
  {
    SplitPlain(a, [c] + b, c);
    assert a + [c] + b == a + ([c] + b);
    assert ([c] + b)[1..] == b;
    assert Split([c] + b, c) == [""] + Split(b, c);
    assert a + "" == a;
  }

  /** `s.replace(/p/g, r)` for a literal `p`: each occurrence, scanning left to right, replaced. */
  function ReplaceAll(s: string, p: string, r: string): string
    requires |p| > 0
  {
    if |s| == 0 then ""
    else if StartsWith(s, p) then r + ReplaceAll(s[|p|..], p, r)
    else [s[0]] + ReplaceAll(s[1..], p, r)
  }

  /** Text without the pattern's first character passes through unchanged, and so does what follows it. */
  lemma {:induction false} ReplacePlain(a: string, b: string, p: string, r: string)
    requires |p| > 0 && p[0] !in a
    ensures ReplaceAll(a + b, p, r) == a + ReplaceAll(b, p, r)
  {
    if |a| > 0 {
      assert (a + b)[0] == a[0];
      assert !StartsWith(a + b, p);
      assert (a + b)[1..] == a[1..] + b;
      ReplacePlain(a[1..], b, p, r);
    } else {
      assert a + b == b;
    }
  }

  /**
   * A template made of plain pieces around occurrences of a placeholder
   * comes out with every occurrence replaced.
   */
  lemma {:induction false} ReplaceJoin(pieces: seq<string>, p: string, r: string)
    requires |p| > 0 && |pieces| > 0
    requires forall k :: 0 <= k < |pieces| ==> p[0] !in pieces[k]
    ensures ReplaceAll(Join(pieces, p), p, r) == Join(pieces, r)
  {
    if |pieces| == 1 {
      ReplacePlain(pieces[0], "", p, r);
      assert pieces[0] + "" == pieces[0];
    } else {
      var rest := Join(pieces[1..], p);
      ReplaceJoin(pieces[1..], p, r);
      assert pieces[0] + p + rest == pieces[0] + (p + rest);
      ReplacePlain(pieces[0], p + rest, p, r);
      assert StartsWith(p + rest, p);
      assert (p + rest)[|p|..] == rest;
    }
  }
}
