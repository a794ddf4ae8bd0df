/** The string operations the program borrows from Go's standard library. */
module Text {
  import opened Wrappers

  predicate HasPrefix(s: string, prefix: string) {
    prefix <= s
  }

  predicate HasSuffix(s: string, suffix: string) {
    |suffix| <= |s| && s[|s| - |suffix|..] == suffix
  }

  /** The first text, unless it is empty. */
  function Either(first: string, second: string): string {
    if first != "" then first else second
  }

  /** strings.Split(s, sep) for a one-character separator. */
  function Split(s: string, sep: char): (parts: seq<string>)
    ensures |parts| >= 1
    ensures forall p | p in parts :: sep !in p
  {
    if s == [] then [""]
    else
      var rest := Split(s[1..], sep);
      if s[0] == sep then [""] + rest else [[s[0]] + rest[0]] + rest[1..]
  }

  /** strings.Join(parts, sep) for a one-character separator. */
  function Join(parts: seq<string>, sep: char): string {
    if parts == [] then ""
    else if |parts| == 1 then parts[0]
    else parts[0] + [sep] + Join(parts[1..], sep)
  }

  /** A piece without the separator is the first part of the split. */
  lemma {:induction false} SplitHead(head: string, tail: string, sep: char)
    requires sep !in head
    ensures Split(head + [sep] + tail, sep) == [head] + Split(tail, sep)
  {
    var s := head + [sep] + tail;
    if head == [] {
      assert s[1..] == tail;
    } else {
      SplitHead(head[1..], tail, sep);
      assert s[1..] == head[1..] + [sep] + tail;
      assert [head[0]] + head[1..] == head;
    }
  }

  lemma {:induction false} SplitSingle(s: string, sep: char)
    requires sep !in s
    ensures Split(s, sep) == [s]
  {
    if s != [] {
      SplitSingle(s[1..], sep);
      assert [s[0]] + s[1..] == s;
    }
  }

  /** Splitting what was joined gives the pieces back, provided no piece holds the separator. */
  lemma {:induction false} SplitJoin(parts: seq<string>, sep: char)
    requires parts != []
    requires forall p | p in parts :: sep !in p
    ensures Split(Join(parts, sep), sep) == parts
  {
    if |parts| == 1 {
      SplitSingle(parts[0], sep);
    } else {
      SplitJoin(parts[1..], sep);
      SplitHead(parts[0], Join(parts[1..], sep), sep);
      assert [parts[0]] + parts[1..] == parts;
    }
  }

  /** The parts of a text with one character more in front. */
  function Prepend(c: char, parts: seq<string>, sep: char): seq<string>
    requires parts != []
  {
    if c == sep then [""] + parts else [[c] + parts[0]] + parts[1..]
  }

  lemma PrependConcat(c: char, parts: seq<string>, more: seq<string>, sep: char)
    requires parts != []
    ensures Prepend(c, parts + more, sep) == Prepend(c, parts, sep) + more
  {
    assert (parts + more)[0] == parts[0] && (parts + more)[1..] == parts[1..] + more;
  }

  /** Splitting at a separator splits each side on its own. */
  lemma {:induction false} SplitConcat(a: string, b: string, sep: char)
    ensures Split(a + [sep] + b, sep) == Split(a, sep) + Split(b, sep)
  {
    var s := a + [sep] + b;
    if a == "" {
      assert s[1..] == b;
    } else {
      SplitConcat(a[1..], b, sep);
      assert s[1..] == a[1..] + [sep] + b;
      PrependConcat(a[0], Split(a[1..], sep), Split(b, sep), sep);
      assert Split(s, sep) == Prepend(a[0], Split(s[1..], sep), sep);
      assert Split(a, sep) == Prepend(a[0], Split(a[1..], sep), sep);
    }
  }

  /** Joining and splitting again gives the words of the joined texts. */
  lemma {:induction false} SplitOfJoin(parts: seq<string>, sep: char, word: string)
    requires parts != []
    ensures word in Split(Join(parts, sep), sep) <==> exists p :: p in parts && word in Split(p, sep)
  {
    if |parts| > 1 {
      SplitOfJoin(parts[1..], sep, word);
      SplitConcat(parts[0], Join(parts[1..], sep), sep);
      assert parts == [parts[0]] + parts[1..];
    }
  }

  lemma NonEmptySplits(s: string, sep: char)
    requires s != ""
    ensures Split(s, sep) != [""]
  {
    var rest := Split(s[1..], sep);
    if s[0] == sep {
      assert |Split(s, sep)| == 1 + |rest|;
    } else {
      assert Split(s, sep)[0] == [s[0]] + rest[0];
    }
  }

  /** Which lists of names a non-empty text splits into. */
  lemma SplitsIff(names: seq<string>, sep: char)
    ensures (exists s :: s != "" && Split(s, sep) == names) <==> names != [] && names != [""] && forall n | n in names :: sep !in n
  {
    if s :| s != "" && Split(s, sep) == names {
      NonEmptySplits(s, sep);
    }
    if names != [] && names != [""] && forall n | n in names :: sep !in n {
      SplitJoin(names, sep);
      assert Join(names, sep) != "";
    }
  }

  /** Two texts cut at their first separator agree only if the cut pieces agree. */
  lemma {:induction false} FirstCut(a: string, b: string, c: string, d: string, sep: char)
    requires sep !in a && sep !in c
    requires a + [sep] + b == c + [sep] + d
    ensures a == c && b == d
  {
    var s := a + [sep] + b;
    assert s == c + [sep] + d;
    assert s[|a|] == sep && s[|c|] == sep;
    assert a == s[..|a|] == c;
    assert b == s[|a| + 1..] == d;
  }

  /** Cutting at the last separator is unambiguous. */
  lemma LastCut(a: string, b: string, c: string, d: string, sep: char)
    requires sep !in b && sep !in d && a + [sep] + b == c + [sep] + d
    ensures a == c && b == d
  {
    var s := a + [sep] + b;
    assert s[|a|] == sep && s[|c|] == sep;
    assert forall i | |a| < i < |s| :: s[i] == b[i - |a| - 1];
    assert forall i | |c| < i < |s| :: s[i] == d[i - |c| - 1];
    assert |a| == |c|;
    assert s[..|a|] == a && s[..|c|] == c;
    assert s[|a| + 1..] == b && s[|c| + 1..] == d;
  }

  /** A separator-terminated prefix fixes the first piece. */
  lemma FirstCutPrefix(a: string, b: string, c: string, d: string, sep: char)
    requires sep !in a && sep !in c
    requires HasPrefix(a + [sep] + b, c + [sep] + d)
    ensures a == c && HasPrefix(b, d)
  {
    var s := a + [sep] + b;
    var p := c + [sep] + d;
    var rest := s[|p|..];
    assert s == p + rest;
    assert p + rest == c + [sep] + (d + rest);
    FirstCut(a, b, c, d + rest, sep);
  }

  /** When `x`, the separator and `t` start with `y` and the separator, for all texts, separators inside them or not. */
  lemma PrefixAcrossSeparator(x: string, t: string, y: string, sep: char)
    ensures HasPrefix(x + [sep] + t, y + [sep]) <==>
              || x == y
              || HasPrefix(x, y + [sep])
              || (HasPrefix(y, x + [sep]) && HasPrefix(t, y[|x| + 1..] + [sep]))
  {
    var whole, part := x + [sep] + t, y + [sep];
    if |y| < |x| {
      if HasPrefix(whole, part) {
        assert whole[..|part|] == x[..|part|];
      }
      if HasPrefix(x, part) {
        assert whole[..|part|] == x[..|part|];
      }
    } else if |y| == |x| {
      if HasPrefix(whole, part) {
        assert whole[..|x|] == x && part[..|x|] == y;
      }
    } else {
      LongerPrefix(x, t, y, sep);
    }
  }

  lemma LongerPrefix(x: string, t: string, y: string, sep: char)
    requires |x| < |y|
    ensures HasPrefix(x + [sep] + t, y + [sep]) <==> HasPrefix(y, x + [sep]) && HasPrefix(t, y[|x| + 1..] + [sep])
  {
    var n := |x| + 1;
    var whole, part := x + [sep] + t, y + [sep];
    assert whole[..n] == x + [sep] && whole[n..] == t;
    assert part[..n] == y[..n] && part[n..] == y[n..] + [sep];
    if HasPrefix(whole, part) {
      assert whole[..n] == part[..n];
      assert t[..|part| - n] == whole[n..|part|] == part[n..];
    }
    if HasPrefix(y, x + [sep]) && HasPrefix(t, y[n..] + [sep]) {
      assert part == part[..n] + part[n..];
      assert whole[..|part|] == (x + [sep]) + t[..|part| - n];
    }
  }

  /** Whether `p` reads on, past `o`, as `o` followed by the field name `tag`. */
  predicate Shadows(o: string, p: string, tag: string, sep: char) {
    HasPrefix(p + [sep], o + [sep] + tag + [sep])
  }

  lemma ShadowHasSeparator(o: string, p: string, tag: string, sep: char)
    requires Shadows(o, p, tag, sep)
    ensures sep in p
  {
    assert (p + [sep])[|o|] == (o + [sep] + tag + [sep])[|o|];
    assert p[|o|] == sep;
  }

  /** One text read as two different names with the same field: then the longer name shadows. */
  lemma CollisionShadows(o: string, c: string, p: string, d: string, tag: string, sep: char)
    requires |o| < |p| && sep !in tag
    requires o + [sep] + tag + [sep] + c == p + [sep] + tag + [sep] + d
    ensures Shadows(o, p, tag, sep)
  {
    var whole, n := o + [sep] + tag + [sep] + c, |o| + |tag| + 2;
    assert whole == p + [sep] + tag + [sep] + d;
    assert whole[|p|] == sep;
    assert forall i | |o| < i <= |o| + |tag| :: whole[i] == tag[i - |o| - 1];
    assert n <= |p| + 1;
    assert whole[..n] == o + [sep] + tag + [sep];
    assert whole[..|p| + 1] == p + [sep];
    assert whole[..|p| + 1][..n] == whole[..n];
  }

  /** Field names and separators determine both names and contents, unless one name shadows the other. */
  lemma FieldsDetermine(o: string, c: string, p: string, d: string, tag: string, sep: char)
    requires sep !in tag && !Shadows(o, p, tag, sep) && !Shadows(p, o, tag, sep)
    requires o + [sep] + tag + [sep] + c == p + [sep] + tag + [sep] + d
    ensures o == p && c == d
  {
    if |o| < |p| {
      CollisionShadows(o, c, p, d, tag, sep);
    } else if |p| < |o| {
      CollisionShadows(p, d, o, c, tag, sep);
    } else {
      var whole := o + [sep] + tag + [sep] + c;
      assert whole[..|o|] == o && whole[..|p|] == p;
      CancelPrefix(o + [sep] + tag + [sep], c, d);
    }
  }

  /** A shadowing name does collide, whatever its own field holds. */
  lemma ShadowCollides(o: string, p: string, d: string, tag: string, sep: char) returns (c: string)
    requires Shadows(o, p, tag, sep)
    ensures o + [sep] + tag + [sep] + c == p + [sep] + tag + [sep] + d
  {
    var head := o + [sep] + tag + [sep];
    var rest := (p + [sep])[|head|..];
    assert p + [sep] == head + rest;
    c := rest + tag + [sep] + d;
  }

  /** Two different names can collide on some contents of a field exactly when one of them shadows the other. */
  lemma FieldsCollideIff(o: string, p: string, tag: string, sep: char)
    requires o != p && sep !in tag
    ensures (exists c, d :: o + [sep] + tag + [sep] + c == p + [sep] + tag + [sep] + d)
       <==> Shadows(o, p, tag, sep) || Shadows(p, o, tag, sep)
  {
    if Shadows(o, p, tag, sep) {
      var c := ShadowCollides(o, p, "", tag, sep);
    } else if Shadows(p, o, tag, sep) {
      var d := ShadowCollides(p, o, "", tag, sep);
    } else {
      forall c, d ensures o + [sep] + tag + [sep] + c != p + [sep] + tag + [sep] + d {
        if o + [sep] + tag + [sep] + c == p + [sep] + tag + [sep] + d {
          FieldsDetermine(o, c, p, d, tag, sep);
        }
      }
    }
  }

  lemma CancelPrefix(p: string, a: string, b: string)
    requires p + a == p + b
    ensures a == b
  {
    assert a == (p + a)[|p|..];
    assert b == (p + b)[|p|..];
  }

  lemma CancelCommonHead(head: string, whole: string, part: string)
    requires HasPrefix(head + whole, head + part)
    ensures HasPrefix(whole, part)
  {
    var s := head + whole;
    var p := head + part;
    assert whole == s[|head|..] && part == p[|head|..];
    forall i | 0 <= i < |part| ensures whole[i] == part[i] {
      assert s[|head| + i] == p[|head| + i];
    }
  }

  lemma CancelSuffix(a: string, b: string, s: string)
    requires a + s == b + s
    ensures a == b
  {
    assert |a| == |b|;
    assert a == (a + s)[..|a|];
    assert b == (b + s)[..|b|];
  }

  function Digit(d: nat): char
    requires d < 10
  {
    "0123456789"[d]
  }

  function FormatNat(n: nat): (s: string)
    ensures |s| > 0
  {
    if n < 10 then [Digit(n)] else FormatNat(n / 10) + [Digit(n % 10)]
  }

  /** strconv.FormatInt(v, 10). */
  function FormatInt(v: int): string {
    if v < 0 then "-" + FormatNat(-v) else FormatNat(v)
  }

  lemma {:induction false} FormatNatDigits(n: nat)
    ensures '-' !in FormatNat(n)
  {
    if n >= 10 {
      FormatNatDigits(n / 10);
    }
  }

  lemma {:induction false} FormatNatInjective(m: nat, n: nat)
    requires FormatNat(m) == FormatNat(n)
    ensures m == n
    decreases m
  {
    var s, t := FormatNat(m), FormatNat(n);
    assert s[|s| - 1] == t[|t| - 1];
    assert m % 10 == n % 10;
    if m >= 10 && n >= 10 {
      assert s[..|s| - 1] == FormatNat(m / 10);
      assert t[..|t| - 1] == FormatNat(n / 10);
      FormatNatInjective(m / 10, n / 10);
    }
  }

  /** Distinct integers print as distinct decimal strings. */
  lemma FormatIntInjective(a: int, b: int)
    requires FormatInt(a) == FormatInt(b)
    ensures a == b
  {
    if a < 0 && b < 0 {
      CancelPrefix("-", FormatNat(-a), FormatNat(-b));
      FormatNatInjective(-a, -b);
    } else if a >= 0 && b >= 0 {
      FormatNatInjective(a, b);
    } else if a < 0 {
      FormatNatDigits(b);
    } else {
      FormatNatDigits(a);
    }
  }

  // --- trimming and folding, for ASCII text ---

  predicate IsSpace(c: char) {
    c in " \t\n\r" || c as int == 11 || c as int == 12
  }

  function TrimLeft(s: string): (t: string)
    ensures t == "" || !IsSpace(t[0])
  {
    if s != "" && IsSpace(s[0]) then TrimLeft(s[1..]) else s
  }

  function TrimRight(s: string): (t: string)
    ensures t == "" || !IsSpace(t[|t| - 1])
    ensures HasPrefix(s, t)
  {
    if s != "" && IsSpace(s[|s| - 1]) then TrimRight(s[..|s| - 1]) else s
  }

  /** strings.TrimSpace. */
  function TrimSpace(s: string): (t: string)
    ensures t == "" || (!IsSpace(t[0]) && !IsSpace(t[|t| - 1]))
  {
    TrimRight(TrimLeft(s))
  }

  lemma {:induction false} LeftCut(s: string) returns (i: nat)
    ensures i <= |s| && TrimLeft(s) == s[i..] && forall k | 0 <= k < i :: IsSpace(s[k])
  {
    if s != "" && IsSpace(s[0]) {
      var j := LeftCut(s[1..]);
      i := j + 1;
      assert forall k | 1 <= k < i :: s[k] == s[1..][k - 1];
    } else {
      i := 0;
    }
  }

  lemma {:induction false} RightCut(s: string) returns (j: nat)
    ensures j <= |s| && TrimRight(s) == s[..j] && forall k | j <= k < |s| :: IsSpace(s[k])
  {
    j := |s|;
    if s != "" && IsSpace(s[|s| - 1]) {
      var init := s[..|s| - 1];
      j := RightCut(init);
      assert forall k | j <= k < |init| :: s[k] == init[k];
    }
  }

  /** What is cut off is white space (tab, line feed, vertical tab, form feed, carriage return, space), and what is left has none at its ends. */
  lemma TrimSpaceCuts(s: string) returns (i: nat, j: nat)
    ensures i <= j <= |s| && TrimSpace(s) == s[i..j]
    ensures forall k | 0 <= k < i || j <= k < |s| :: 9 <= s[k] as int <= 13 || s[k] == ' '
    ensures i < j ==> s[i] != ' ' && s[j - 1] != ' ' && !(9 <= s[i] as int <= 13) && !(9 <= s[j - 1] as int <= 13)
  {
    i := LeftCut(s);
    var n := RightCut(s[i..]);
    j := i + n;
    assert forall k | j <= k < |s| :: s[k] == s[i..][k - i];
    assert s[i..][..n] == s[i..j];
  }

  /** Text with no space at either end is left alone. */
  lemma TrimmedIsFixed(s: string)
    requires s == "" || (!IsSpace(s[0]) && !IsSpace(s[|s| - 1]))
    ensures TrimSpace(s) == s
  {
  }

  /** strings.ToLower. */
  function ToLower(s: string): (t: string)
    ensures |t| == |s| && forall i | 0 <= i < |s| :: t[i] as int == if 'A' <= s[i] <= 'Z' then s[i] as int + 32 else s[i] as int
  {
    seq(|s|, i requires 0 <= i < |s| => if 'A' <= s[i] <= 'Z' then s[i] - 'A' + 'a' else s[i])
  }
}
