/**
 * The pure parts of API-key management: the whitespace trimming applied to a
 * key before it is saved, and the line filter that deletes the key from the
 * `.env` file.
 */
module EnvFile {

  const KeyName: string := "GOOGLE_API_KEY"
  const KeyPrefix: string := KeyName + "="

  /** Python's `s.startswith(prefix)`. */
  function StartsWith(s: string, prefix: string): bool
  {
    |prefix| <= |s| && s[..|prefix|] == prefix
  }

  /** `s` starts with `prefix` exactly when it is at least as long and agrees with it position by position. */
  lemma StartsWithExactly(s: string, prefix: string)
    ensures StartsWith(s, prefix) <==> |prefix| <= |s| && forall i :: 0 <= i < |prefix| ==> s[i] == prefix[i]
  {
  }

  /** A line of the file that sets the API key. */
  function IsKeyLine(line: string): bool
  {
    StartsWith(line, KeyPrefix)
  }

  /** The key lines are those whose first 15 characters are `GOOGLE_API_KEY=`. */
  lemma IsKeyLineExactly(line: string)
    ensures IsKeyLine(line) <==> |line| >= 15 && line[..15] == "GOOGLE_API_KEY="
  {
  }

  /** The lines `del_api` writes back: every line except those that set the key, in order. */
  function WithoutKeyLines(lines: seq<string>): (kept: seq<string>)
    ensures |kept| <= |lines|
    ensures forall l :: l in kept <==> l in lines && !IsKeyLine(l)
  {
    if lines == [] then []
    else if IsKeyLine(lines[0]) then WithoutKeyLines(lines[1..])
    else [lines[0]] + WithoutKeyLines(lines[1..])
  }

  /** Filtering a file is filtering its two halves. */
  lemma {:induction false} WithoutKeyLinesConcat(a: seq<string>, b: seq<string>)
    ensures WithoutKeyLines(a + b) == WithoutKeyLines(a) + WithoutKeyLines(b)
  {
    if a != [] {
      assert (a + b)[0] == a[0];
      assert (a + b)[1..] == a[1..] + b;
      WithoutKeyLinesConcat(a[1..], b);
    } else {
      assert a + b == b;
    }
  }

  /** A file without a key line is written back unchanged. */
  lemma {:induction false} WithoutKeyLinesKeepsOtherFiles(lines: seq<string>)
    requires forall l :: l in lines ==> !IsKeyLine(l)
    ensures WithoutKeyLines(lines) == lines
  {
    if lines != [] {
      WithoutKeyLinesKeepsOtherFiles(lines[1..]);
    }
  }

  /** Deleting the key twice is deleting it once. */
  lemma WithoutKeyLinesIdempotent(lines: seq<string>)
    ensures WithoutKeyLines(WithoutKeyLines(lines)) == WithoutKeyLines(lines)
  {
    WithoutKeyLinesKeepsOtherFiles(WithoutKeyLines(lines));
  }

  /** The loop in `del_api` that writes back every line that does not set the key. */
  method FilterKeyLines(lines: seq<string>) returns (written: seq<string>)
    ensures written == WithoutKeyLines(lines)
  {
    written := [];
    for k := 0 to |lines|
      invariant written == WithoutKeyLines(lines[..k])
    {
      assert lines[..k + 1] == lines[..k] + [lines[k]];
      WithoutKeyLinesConcat(lines[..k], [lines[k]]);
      if !IsKeyLine(lines[k]) {
        written := written + [lines[k]];
      }
    }
    assert lines[..|lines|] == lines;
  }

  /** The 29 characters for which Python's `str.isspace()` holds, listed one by one. */
  const PythonWhitespace: set<char> := {
    '\t', '\n', '\U{B}', '\U{C}', '\r',
    '\U{1C}', '\U{1D}', '\U{1E}', '\U{1F}', ' ',
    '\U{85}', '\U{A0}', '\U{1680}',
    '\U{2000}', '\U{2001}', '\U{2002}', '\U{2003}', '\U{2004}', '\U{2005}',
    '\U{2006}', '\U{2007}', '\U{2008}', '\U{2009}', '\U{200A}',
    '\U{2028}', '\U{2029}', '\U{202F}', '\U{205F}', '\U{3000}'
  }

  /** The characters Python's `str.strip()` removes: those for which `str.isspace()` holds. */
  function IsSpace(c: char): bool
  {
    || ('\t' <= c <= '\r')
    || ('\U{1C}' <= c <= '\U{1F}')
    || c == ' '
    || c == '\U{85}'
    || c == '\U{A0}'
    || c == '\U{1680}'
    || ('\U{2000}' <= c <= '\U{200A}')
    || c == '\U{2028}'
    || c == '\U{2029}'
    || c == '\U{202F}'
    || c == '\U{205F}'
    || c == '\U{3000}'
  }

  /** `IsSpace` holds for exactly the 29 characters of `PythonWhitespace`. */
  lemma IsSpaceExactly(c: char)
    ensures IsSpace(c) <==> c in PythonWhitespace
  {
  }

  /** Number of whitespace characters at the start of s. */
  function LeadingSpace(s: string): (n: nat)
    ensures n <= |s|
    ensures forall i :: 0 <= i < n ==> IsSpace(s[i])
    ensures n < |s| ==> !IsSpace(s[n])
  {
    if s == [] || !IsSpace(s[0]) then 0 else 1 + LeadingSpace(s[1..])
  }

  /** Number of whitespace characters at the end of s. */
  function TrailingSpace(s: string): (n: nat)
    ensures n <= |s|
    ensures forall i :: |s| - n <= i < |s| ==> IsSpace(s[i])
    ensures n < |s| ==> !IsSpace(s[|s| - 1 - n])
  {
    if s == [] || !IsSpace(s[|s| - 1]) then 0 else 1 + TrailingSpace(s[..|s| - 1])
  }

  /**
   * `api_key.strip()`: the longest slice of the key that neither starts nor
   * ends with whitespace; only whitespace is removed, from both ends.
   */
  function Strip(s: string): (r: string)
    ensures r == [] || (!IsSpace(r[0]) && !IsSpace(r[|r| - 1]))
    ensures exists i, j ::
              && 0 <= i <= j <= |s| && r == s[i..j]
              && (forall k :: 0 <= k < i ==> IsSpace(s[k]))
              && (forall k :: j <= k < |s| ==> IsSpace(s[k]))
    ensures r == [] <==> forall k :: 0 <= k < |s| ==> IsSpace(s[k])
  {
    var i := LeadingSpace(s);
    if i == |s| then
      assert s[i..i] == [];
      []
    else
      // s[i] is not whitespace, so the trailing run ends after it
      var j := |s| - TrailingSpace(s);
      assert !IsSpace(s[i]);
      s[i..j]
  }

  /** A key with nothing to trim is saved as entered. */
  lemma StripKeepsTrimmed(s: string)
    requires s == [] || (!IsSpace(s[0]) && !IsSpace(s[|s| - 1]))
    ensures Strip(s) == s
  {
  }

  /** Stripping an already stripped key changes nothing. */
  lemma StripIdempotent(s: string)
    ensures Strip(Strip(s)) == Strip(s)
  {
    StripKeepsTrimmed(Strip(s));
  }
}
