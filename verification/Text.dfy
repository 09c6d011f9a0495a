/** String searching, replacing and trimming, as Rust's `str` methods do them. */
module Text {
  import opened Wrappers

  ghost predicate OccursAt(s: string, m: string, i: nat) {
    i <= |s| && m <= s[i..]
  }

  // `str::find`: the start of the first occurrence.
  function Find(s: string, m: string): (r: Option<nat>)
    ensures r.Some? ==> OccursAt(s, m, r.value)
  {
    if m <= s then Some(0)
    else if s == [] then None
    else match Find(s[1..], m)
      case Some(i) => assert m <= s[1..][i..] && s[1..][i..] == s[i + 1..]; Some(i + 1)
      case None => None
  }

  // `str::contains`.
  predicate Contains(s: string, m: string) {
    Find(s, m).Some?
  }

  lemma {:induction false} FindIsFirst(s: string, m: string, i: nat)
    requires OccursAt(s, m, i)
    ensures Find(s, m).Some? && Find(s, m).value <= i
  {
    assert s[0..] == s;
    if !(m <= s) {
      assert s[1..][i - 1..] == s[i..];
      FindIsFirst(s[1..], m, i - 1);
    }
  }

  lemma AtFirstOccurrence(s: string, m: string, i: nat)
    requires OccursAt(s, m, i)
    requires forall j: nat :: OccursAt(s, m, j) ==> i <= j
    ensures Find(s, m) == Some(i)
  {
    FindIsFirst(s, m, i);
  }

  lemma NoOccurrenceWithoutChar(s: string, m: string, c: char)
    requires c in m && c !in s
    ensures !Contains(s, m)
  {
    assert forall i: nat {:trigger s[i..]} :: i <= |s| && m <= s[i..] ==> c in s[i..];
  }

  // An occurrence cannot span a character the pattern does not have.
  lemma OccurrenceAvoidsBarrier(x: string, b: char, y: string, m: string, i: nat)
    requires m != [] && b !in m
    requires OccursAt(x + [b] + y, m, i)
    ensures OccursAt(x, m, i) || (i > |x| && OccursAt(y, m, i - |x| - 1))
  {
    var s := x + [b] + y;
    assert s[|x|] == b;
    if i + |m| <= |x| {
      assert m == s[i..i + |m|] == x[i..][..|m|];
    } else if i > |x| {
      assert s[i..] == y[i - |x| - 1..];
    }
  }

  lemma OccurrenceBeforeBarrier(x: string, b: char, y: string, m: string, i: nat)
    requires OccursAt(x, m, i)
    ensures OccursAt(x + [b] + y, m, i)
  {
    var s := x + [b] + y;
    assert m == x[i..i + |m|] == s[i..i + |m|];
    assert m <= s[i..];
  }

  lemma OccurrenceAfterBarrier(x: string, b: char, y: string, m: string, i: nat)
    requires OccursAt(y, m, i)
    ensures OccursAt(x + [b] + y, m, |x| + 1 + i)
  {
    assert (x + [b] + y)[|x| + 1 + i..] == y[i..];
  }

  // So the search in `x + [b] + y` is the search in `x`, and only if that fails the one in `y`.

  lemma FindBeforeBarrier(x: string, b: char, y: string, m: string)
    requires m != [] && b !in m
    requires Contains(x, m)
    ensures Find(x + [b] + y, m) == Find(x, m)
  {
    var s, i := x + [b] + y, Find(x, m).value;
    OccurrenceBeforeBarrier(x, b, y, m, i);
    forall j: nat | OccursAt(s, m, j) ensures i <= j {
      OccurrenceAvoidsBarrier(x, b, y, m, j);
      if OccursAt(x, m, j) {
        FindIsFirst(x, m, j);
      }
    }
    AtFirstOccurrence(s, m, i);
  }

  lemma FindAfterBarrier(s: string, x: string, b: char, y: string, m: string)
    requires s == x + [b] + y
    requires m != [] && b !in m
    requires !Contains(x, m) && Contains(y, m)
    ensures Find(s, m).Some? && Find(s, m).value == |x| + 1 + Find(y, m).value
  {
    var i := Find(y, m).value;
    OccurrenceAfterBarrier(x, b, y, m, i);
    assert forall j: nat :: OccursAt(s, m, j) ==> |x| + 1 + i <= j by {
      forall j: nat | OccursAt(s, m, j) ensures |x| + 1 + i <= j {
        NoneBeforeBarrier(x, b, y, m, j);
      }
    }
    AtFirstOccurrence(s, m, |x| + 1 + i);
  }

  lemma NoneBeforeBarrier(x: string, b: char, y: string, m: string, j: nat)
    requires m != [] && b !in m
    requires !Contains(x, m)
    requires OccursAt(x + [b] + y, m, j)
    ensures Contains(y, m) && |x| + 1 + Find(y, m).value <= j
  {
    OccurrenceAvoidsBarrier(x, b, y, m, j);
    if OccursAt(x, m, j) {
      FindIsFirst(x, m, j);
    } else {
      FindIsFirst(y, m, j - |x| - 1);
    }
  }

  lemma ContainsAcrossBarrier(s: string, x: string, b: char, y: string, m: string)
    requires s == x + [b] + y
    requires m != [] && b !in m
    ensures Contains(s, m) <==> Contains(x, m) || Contains(y, m)
  {
    if Contains(x, m) {
      FindBeforeBarrier(x, b, y, m);
    } else if Contains(y, m) {
      FindAfterBarrier(s, x, b, y, m);
    } else if Contains(s, m) {
      NoneBeforeBarrier(x, b, y, m, Find(s, m).value);
    }
  }

  lemma TooShortToContain(s: string, m: string)
    requires |s| < |m|
    ensures !Contains(s, m)
  {
  }

  lemma FindChar(x: string, c: char, y: string)
    requires c !in x
    ensures Find(x + [c] + y, [c]) == Some(|x|)
  {
    var s := x + [c] + y;
    assert [c] <= s[|x|..];
    forall j: nat | OccursAt(s, [c], j) ensures |x| <= j {
      assert s[j..][0] == c;
    }
    AtFirstOccurrence(s, [c], |x|);
  }

  // `str::replace` with a one-character pattern.
  function ReplaceChar(s: string, c: char, t: string): string {
    if s == [] then [] else (if s[0] == c then t else [s[0]]) + ReplaceChar(s[1..], c, t)
  }

  lemma {:induction false} ReplaceCharAppend(a: string, b: string, c: char, t: string)
    ensures ReplaceChar(a + b, c, t) == ReplaceChar(a, c, t) + ReplaceChar(b, c, t)
  {
    if a == [] {
      assert a + b == b;
    } else {
      assert (a + b)[1..] == a[1..] + b;
      ReplaceCharAppend(a[1..], b, c, t);
    }
  }

  lemma {:induction false} ReplaceCharAbsent(s: string, c: char, t: string)
    requires c !in s
    ensures ReplaceChar(s, c, t) == s
  {
    if s != [] {
      ReplaceCharAbsent(s[1..], c, t);
    }
  }

  // `char::is_whitespace`: the Unicode White_Space property.
  predicate IsWhitespace(c: char) {
    var n := c as int;
    || 0x09 <= n <= 0x0D
    || n == 0x20
    || n == 0x85
    || n == 0xA0
    || n == 0x1680
    || 0x2000 <= n <= 0x200A
    || n == 0x2028
    || n == 0x2029
    || n == 0x202F
    || n == 0x205F
    || n == 0x3000
  }

  function TrimStart(s: string): string {
    if s != [] && IsWhitespace(s[0]) then TrimStart(s[1..]) else s
  }

  function TrimEnd(s: string): string {
    if s != [] && IsWhitespace(s[|s| - 1]) then TrimEnd(s[..|s| - 1]) else s
  }

  // `str::trim`.
  function Trim(s: string): string {
    TrimEnd(TrimStart(s))
  }

  predicate IsBlank(s: string) {
    s == [] || (IsWhitespace(s[0]) && IsBlank(s[1..]))
  }

  lemma {:induction false} BlankIsTrimmedAway(s: string)
    ensures IsBlank(s) <==> Trim(s) == []
  {
    hide IsWhitespace;
    if s != [] && IsWhitespace(s[0]) {
      BlankIsTrimmedAway(s[1..]);
    } else if s != [] {
      TrimEndKeepsFirst(s);
    }
  }

  lemma {:induction false} TrimEndKeepsFirst(s: string)
    requires s != [] && !IsWhitespace(s[0])
    ensures TrimEnd(s) != []
  {
    hide IsWhitespace;
    if IsWhitespace(s[|s| - 1]) {
      TrimEndKeepsFirst(s[..|s| - 1]);
    }
  }

  // ---- Checksums ----

  predicate IsHexDigit(c: char) {
    '0' <= c <= '9' || 'a' <= c <= 'f' || 'A' <= c <= 'F'
  }

  const SHA256_PREFIX := "sha256:"

  // A checksum without the blanks around it and without the name of its algorithm.
  function Digest(checksum: string): string {
    var trimmed := Trim(checksum);
    if SHA256_PREFIX <= trimmed then trimmed[|SHA256_PREFIX|..] else trimmed
  }
}
