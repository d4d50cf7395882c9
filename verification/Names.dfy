/** Names as the shared memory keeps and compares them: a length and C characters. */
module Names {

  const NAME_MAX: nat := 256 // HAKO_FIXED_STRLEN_MAX

  /** strncmp(a, b, |a|) == 0 on two strings of one length, from position i on. */
  predicate StrncmpEqual(a: string, b: string, i: nat)
    requires |a| == |b|
    decreases |a| - i
  {
    i >= |a| || (a[i] == b[i] && (a[i] == '\0' || StrncmpEqual(a, b, i + 1)))
  }

  /** The part of a string that C sees. */
  function CString(s: string): string {
    if s == [] || s[0] == '\0' then [] else [s[0]] + CString(s[1..])
  }

  /** For all names: the comparison looks at the C strings and no further. */
  lemma {:induction false} StrncmpSeesCStrings(a: string, b: string, i: nat)
    requires |a| == |b| && i <= |a|
    ensures StrncmpEqual(a, b, i) <==> CString(a[i..]) == CString(b[i..])
    decreases |a| - i
  {
    if i < |a| {
      StrncmpSeesCStrings(a, b, i + 1);
      assert a[i..][1..] == a[i + 1..] && b[i..][1..] == b[i + 1..];
      var u, v := CString(a[i + 1..]), CString(b[i + 1..]);
      assert ([a[i]] + u)[1..] == u && ([b[i]] + v)[1..] == v;
      assert ([a[i]] + u)[0] == a[i] && ([b[i]] + v)[0] == b[i];
    }
  }

  /** How the shared memory compares names: length first, then strncmp. */
  predicate SameName(a: string, b: string) { |a| == |b| && StrncmpEqual(a, b, 0) }

  /** So it is an equivalence, whatever bytes the names hold. */
  lemma SameNameMeans(a: string, b: string)
    ensures SameName(a, b) <==> |a| == |b| && CString(a) == CString(b)
  {
    if |a| == |b| {
      StrncmpSeesCStrings(a, b, 0);
      assert a[0..] == a && b[0..] == b;
    }
  }

  predicate NulFree(s: string) { '\0' !in s }

  lemma {:induction false} NulFreeCompare(a: string, b: string, i: nat)
    requires |a| == |b| && NulFree(a) && i <= |a|
    ensures StrncmpEqual(a, b, i) <==> a[i..] == b[i..]
    decreases |a| - i
  {
    if i < |a| {
      NulFreeCompare(a, b, i + 1);
      assert a[i..] == [a[i]] + a[i + 1..] && b[i..] == [b[i]] + b[i + 1..];
      if a[i..] == b[i..] {
        assert a[i] == a[i..][0] && b[i] == b[i..][0];
      }
    }
  }

  /** And equality of names without NULs. */
  lemma NulFreeMeans(a: string, b: string)
    requires NulFree(a)
    ensures SameName(a, b) <==> a == b
  {
    if |a| == |b| {
      NulFreeCompare(a, b, 0);
      assert a[0..] == a && b[0..] == b;
    }
  }
}
