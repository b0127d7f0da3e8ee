/** `_stricmp` on the process names the snapshot reports: both strings are
    lowered character by character and compared until they differ or one of
    them ends; the result is the difference of the first unequal lowered
    characters, the end of a string counting as the terminating NUL. */
module CaseInsensitive {

  /** A C string: it ends at its terminating NUL, so it holds none. */
  predicate IsCString(s: string)
  {
    forall i | 0 <= i < |s| :: s[i] != '\0'
  }

  type CString = s: string | IsCString(s)

  /** tolower on the ASCII letters; every other character is unchanged. */
  function Lower(c: char): char
  {
    if 'A' <= c <= 'Z' then (c as int + 32) as char else c
  }

  /** The lowered character `_stricmp` looks at first: the terminating NUL
      (0) once the string has ended. */
  function LeadCode(s: string): int
  {
    if s == [] then 0 else Lower(s[0]) as int
  }

  /** `_stricmp(a, b)`: compares lowered characters until they differ or a
      string ends; a string equals itself, and a zero result means the first
      lowered characters agree. */
  function Stricmp(a: string, b: string): (r: int)
    ensures a == b ==> r == 0
    ensures r == 0 ==> LeadCode(a) == LeadCode(b)
    decreases |a|
  {
    if a == [] || b == [] || Lower(a[0]) != Lower(b[0]) then LeadCode(a) - LeadCode(b)
    else Stricmp(a[1..], b[1..])
  }

  /** Equal up to the case of ASCII letters. */
  predicate SameIgnoringCase(a: string, b: string)
  {
    |a| == |b| && forall i | 0 <= i < |a| :: Lower(a[i]) == Lower(b[i])
  }

  /** `_stricmp(a, b) == 0` exactly when the two C strings are equal up to
      ASCII case. */
  lemma {:induction false} StricmpZeroIff(a: CString, b: CString)
    ensures Stricmp(a, b) == 0 <==> SameIgnoringCase(a, b)
    decreases |a|
  {
    if a == [] || b == [] || Lower(a[0]) != Lower(b[0]) {
      if a != [] { assert a[0] != '\0'; }
      if b != [] { assert b[0] != '\0'; }
      if a != [] && b != [] {
        assert !SameIgnoringCase(a, b) by { assert Lower(a[0]) != Lower(b[0]); }
      }
    } else {
      var a', b' := a[1..], b[1..];
      assert IsCString(a') && IsCString(b');
      StricmpZeroIff(a', b');
      if SameIgnoringCase(a', b') {
        forall i | 0 <= i < |a| ensures Lower(a[i]) == Lower(b[i]) {
          if i > 0 { assert a[i] == a'[i - 1] && b[i] == b'[i - 1]; }
        }
      }
      if SameIgnoringCase(a, b) {
        forall i | 0 <= i < |a'| ensures Lower(a'[i]) == Lower(b'[i]) {
          assert a'[i] == a[i + 1] && b'[i] == b[i + 1];
        }
      }
    }
  }
}
