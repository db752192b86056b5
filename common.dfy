/** Values shared by the Android and iOS halves of the security kit: bytes,
    optional and failing results, outcomes of platform calls that may throw,
    the string searches the probes use and the replies sent back over the
    method channel. */
module Common {

  newtype byte = x: int | 0 <= x < 256

  datatype Option<+T> = None | Some(value: T)

  datatype Result<+T, +E> = Success(value: T) | Failure(error: E)

  /** What a platform call wrapped in `try`/`catch` produced: either it threw,
      or it returned a value. */
  datatype Probe<+T> = Threw | Returned(value: T)

  /** `needle` occurs in `s` starting at index `i`. */
  ghost predicate OccursAt(s: string, needle: string, i: int)
  {
    0 <= i && i + |needle| <= |s| && s[i..i + |needle|] == needle
  }

  /** Substring search, as Kotlin's `String.contains(CharSequence)`:
      compare `needle` with the prefix of `s`, then search the rest. */
  predicate Contains(s: string, needle: string)
    decreases |s|
  {
    if |s| < |needle| then false
    else if s[..|needle|] == needle then true
    else Contains(s[1..], needle)
  }

  /** The search finds the needle exactly when it occurs at some index. */
  lemma {:induction false} ContainsOccurs(s: string, needle: string)
    ensures Contains(s, needle) <==> exists i :: OccursAt(s, needle, i)
    decreases |s|
  {
    if |s| < |needle| {
    } else if s[..|needle|] == needle {
      assert OccursAt(s, needle, 0);
    } else {
      ContainsOccurs(s[1..], needle);
      if exists i :: OccursAt(s, needle, i) {
        var i :| OccursAt(s, needle, i);
        assert i != 0;
        assert s[1..][i - 1..i - 1 + |needle|] == s[i..i + |needle|];
        assert OccursAt(s[1..], needle, i - 1);
      }
      if exists j :: OccursAt(s[1..], needle, j) {
        var j :| OccursAt(s[1..], needle, j);
        assert s[j + 1..j + 1 + |needle|] == s[1..][j..j + |needle|];
        assert OccursAt(s, needle, j + 1);
      }
    }
  }

  /** A needle that occurs in `s` is found by `Contains`. */
  lemma ContainsAt(s: string, needle: string, i: int)
    requires OccursAt(s, needle, i)
    ensures Contains(s, needle)
  {
    ContainsOccurs(s, needle);
  }

  /** A string without the needle's first character does not contain it. */
  lemma LacksFirstChar(s: string, needle: string)
    requires |needle| > 0
    requires forall i :: 0 <= i < |s| ==> s[i] != needle[0]
    ensures !Contains(s, needle)
  {
    ContainsOccurs(s, needle);
  }

  /** If `s` contains `outer`, and `inner` occurs in `outer` at `k`, then `s`
      contains `inner`: a longer marker is subsumed by a marker inside it. */
  lemma ContainsInner(s: string, outer: string, inner: string, k: nat)
    requires Contains(s, outer)
    requires OccursAt(outer, inner, k)
    ensures Contains(s, inner)
  {
    ContainsOccurs(s, outer);
    var i :| OccursAt(s, outer, i);
    var window := s[i..i + |outer|];
    assert window == outer;
    forall j | 0 <= j < |inner|
      ensures s[i + k..i + k + |inner|][j] == inner[j]
    {
      assert s[i + k + j] == window[k + j];
    }
    ContainsAt(s, inner, i + k);
  }

  /** Lower-case mapping of one character as `String.lowercase()` (root
      locale) performs it where the result is plain ASCII: the letters A-Z,
      and the Kelvin sign U+212A, whose lower case is the letter k. Every
      other character is kept. */
  function LowerChar(c: char): char
  {
    if 'A' <= c <= 'Z' then (c as int + 32) as char
    else if c == '\U{212A}' then 'k'
    else c
  }

  function Lower(s: string): (r: string)
    ensures |r| == |s|
    ensures forall i :: 0 <= i < |s| ==> r[i] == LowerChar(s[i])
  {
    seq(|s|, i requires 0 <= i < |s| => LowerChar(s[i]))
  }

  /** A pattern written in lower case: no capital A-Z and no Kelvin sign. */
  predicate IsLowerPattern(needle: string)
  {
    forall j :: 0 <= j < |needle| ==> !('A' <= needle[j] <= 'Z') && needle[j] != '\U{212A}'
  }

  /** Character `c` is the pattern character `m` up to case: `m` itself, the
      capital of a letter `m`, or the Kelvin sign for `k`. */
  predicate MatchesIgnoringCase(c: char, m: char)
  {
    c == m || ('a' <= m <= 'z' && c as int == m as int - 32) || (m == 'k' && c == '\U{212A}')
  }

  /** `needle` occurs in `s` at index `i`, character by character up to case. */
  ghost predicate OccursIgnoringCaseAt(s: string, needle: string, i: int)
  {
    0 <= i && i + |needle| <= |s|
    && forall j :: 0 <= j < |needle| ==> MatchesIgnoringCase(s[i + j], needle[j])
  }

  ghost predicate OccursIgnoringCase(s: string, needle: string)
  {
    exists i :: OccursIgnoringCaseAt(s, needle, i)
  }

  /** Searching the lower-cased string for a lower-case pattern is a search
      that ignores case: it finds the pattern exactly where the original
      string spells it in any mix of capitals and small letters. */
  lemma LowerIgnoresCase(s: string, needle: string)
    requires IsLowerPattern(needle)
    ensures Contains(Lower(s), needle) <==> OccursIgnoringCase(s, needle)
  {
    var t := Lower(s);
    ContainsOccurs(t, needle);
    forall i | 0 <= i && i + |needle| <= |s|
      ensures OccursAt(t, needle, i) <==> OccursIgnoringCaseAt(s, needle, i)
    {
      forall j | 0 <= j < |needle|
        ensures t[i + j] == needle[j] <==> MatchesIgnoringCase(s[i + j], needle[j])
      {
        assert t[i + j] == LowerChar(s[i + j]);
      }
      if OccursAt(t, needle, i) {
        forall j | 0 <= j < |needle|
          ensures MatchesIgnoringCase(s[i + j], needle[j])
        {
          assert t[i..i + |needle|][j] == t[i + j];
        }
      }
      if OccursIgnoringCaseAt(s, needle, i) {
        assert t[i..i + |needle|] == needle;
      }
    }
    if OccursIgnoringCase(s, needle) {
      var i :| OccursIgnoringCaseAt(s, needle, i);
      assert OccursAt(t, needle, i);
    }
  }

  /** Lower-casing leaves no capital A-Z and no Kelvin sign, and doing it
      twice is the same as doing it once. */
  lemma LowerIdempotent(s: string)
    ensures IsLowerPattern(Lower(s))
    ensures Lower(Lower(s)) == Lower(s)
  {
  }

  /** Values a plugin sends back to the host application. */
  datatype Value = Null | Bool(b: bool) | Str(s: string)

  /** The message of an error reply: a fixed text, or the description of
      the exception or error the plugin caught. */
  datatype Message<+E> = Text(text: string) | Thrown(cause: E)

  /** A method-channel reply: `result.success(v)`, `result.error(code, message, null)`
      or `result.notImplemented()`. */
  datatype Reply<+E> = SuccessReply(value: Value) | ErrorReply(code: string, message: Message<E>) | NotImplemented
}
